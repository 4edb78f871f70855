/**
 * The yield-prediction panel up to the regression: the form record, the
 * crop and soil tables, the categorical encoding and the training corpus
 * (feature rows, targets and the one input row) handed to the regression.
 */
module Prediction {
  import opened Records
  import opened Seqs

  // ---------------------------------------------------------------------------
  // The form

  /** The nine inputs of the panel. */
  datatype FormField = Zasiew | Gleba | Wilgotnosc | PH | Mg | Zn | Fe | Cu | Mn

  datatype Form = Form(zasiew: string, gleba: string, wilgotnosc: string, pH: string,
                       mg: string, zn: string, fe: string, cu: string, mn: string)

  /** Every input starts empty. */
  const InitialForm := Form("", "", "", "", "", "", "", "", "")

  function FieldOf(form: Form, f: FormField): string
  {
    match f
    case Zasiew => form.zasiew
    case Gleba => form.gleba
    case Wilgotnosc => form.wilgotnosc
    case PH => form.pH
    case Mg => form.mg
    case Zn => form.zn
    case Fe => form.fe
    case Cu => form.cu
    case Mn => form.mn
  }

  /** A copy of the form with one input replaced. */
  function HandleChange(form: Form, f: FormField, value: string): (r: Form)
    ensures FieldOf(r, f) == value
    ensures forall g :: g != f ==> FieldOf(r, g) == FieldOf(form, g)
  {
    match f
    case Zasiew => form.(zasiew := value)
    case Gleba => form.(gleba := value)
    case Wilgotnosc => form.(wilgotnosc := value)
    case PH => form.(pH := value)
    case Mg => form.(mg := value)
    case Zn => form.(zn := value)
    case Fe => form.(fe := value)
    case Cu => form.(cu := value)
    case Mn => form.(mn := value)
  }

  /** Changing an input twice keeps the last value; changing it to its value changes nothing. */
  lemma HandleChangeOverwrites(form: Form, f: FormField, v: string, w: string)
    ensures HandleChange(HandleChange(form, f, v), f, w) == HandleChange(form, f, w)
    ensures HandleChange(form, f, FieldOf(form, f)) == form
  {
  }

  // ---------------------------------------------------------------------------
  // Value tables and the encoding

  /** A column read from every row, `undefined` where a row lacks it. */
  function Column(rows: seq<Row>, key: string): seq<Option<string>>
  {
    seq(|rows|, i requires 0 <= i < |rows| => Get(rows[i], key))
  }

  /** The distinct values of a column, in the order they first occur. */
  function Options(rows: seq<Row>, key: string): seq<Option<string>>
  {
    Distinct(Column(rows, key))
  }

  /** The table holds each value of the column once, and nothing else, in first-seen order. */
  lemma OptionsExact(rows: seq<Row>, key: string)
    ensures NoDuplicates(Options(rows, key))
    ensures forall v :: v in Options(rows, key) <==> exists r :: r in rows && Get(r, key) == v
    ensures forall i, j :: 0 <= i < j < |Options(rows, key)| ==>
              IndexOf(Column(rows, key), Options(rows, key)[i]) < IndexOf(Column(rows, key), Options(rows, key)[j])
  {
    var c := Column(rows, key);
    DistinctFirstSeenOrder(c);
    forall v ensures v in c <==> exists r :: r in rows && Get(r, key) == v {
      if v in c {
        var i :| 0 <= i < |c| && c[i] == v;
        assert rows[i] in rows && Get(rows[i], key) == v;
      }
      if exists r :: r in rows && Get(r, key) == v {
        var r :| r in rows && Get(r, key) == v;
        var i :| 0 <= i < |rows| && rows[i] == r;
        assert c[i] == v;
      }
    }
  }

  /**
   * The code of a value: its position in the table, or -1 when the table
   * does not hold it.
   */
  function EncodeValue(value: Option<string>, options: seq<Option<string>>): (code: int)
    ensures code == -1 <==> value !in options
    ensures code != -1 ==> 0 <= code < |options| && options[code] == value && value !in options[..code]
  {
    IndexOf(options, value)
  }

  /** The code of a value in the table gives the value back. */
  lemma DecodeEncoded(value: Option<string>, options: seq<Option<string>>)
    requires value in options
    ensures options[EncodeValue(value, options)] == value
  {
  }

  /** In a table without repeats, every position is the code of the value it holds. */
  lemma EncodePosition(options: seq<Option<string>>, k: int)
    requires NoDuplicates(options) && 0 <= k < |options|
    ensures EncodeValue(options[k], options) == k
  {
    assert options[k] !in options[..k];
    IndexOfUnique(options, options[k], k);
  }

  // ---------------------------------------------------------------------------
  // The training corpus

  /** A row takes part in training when its crop, soil type and yield are all set. */
  predicate Trainable(row: Row)
  {
    Truthy(Get(row, CropColumn)) && Truthy(Get(row, SoilColumn)) && Truthy(Get(row, YieldColumn))
  }

  function Filtered(data: seq<Row>): seq<Row>
  {
    Filter(data, Trainable)
  }

  /**
   * The training rows are exactly the trainable rows, in their original
   * order, a repeated row as many times as it occurs.
   */
  lemma FilteredExact(data: seq<Row>)
    ensures forall r :: r in Filtered(data) <==> r in data && Trainable(r)
    ensures SubsequenceOf(Filtered(data), data)
    ensures forall r :: multiset(Filtered(data))[r] == if Trainable(r) then multiset(data)[r] else 0
    ensures |Filtered(data)| <= |data|
  {
    FilterMembers(data, Trainable);
    FilterIsSubsequence(data, Trainable);
    FilterCounts(data, Trainable);
  }

  /** A numeric feature: `parseFloat` of the cell, NaN for a missing cell. */
  function Cell(v: Option<string>, parse: Parser): Num
  {
    match v
    case None => NaN
    case Some(s) => FromParse(parse(s))
  }

  /** A code as the number the regression receives. */
  function Code(k: int): Num
  {
    Finite(k as real)
  }

  /** The columns of a feature row, in order. */
  const FeatureOrder: seq<FormField> := [Zasiew, Gleba, Wilgotnosc, PH, Mg, Zn, Fe, Cu, Mn]

  /** The data column each input corresponds to. */
  function ColumnOf(f: FormField): string
  {
    match f
    case Zasiew => CropColumn
    case Gleba => SoilColumn
    case Wilgotnosc => MoistureColumn
    case PH => PhColumn
    case Mg => "Mg"
    case Zn => "Zn"
    case Fe => "Fe"
    case Cu => "Cu"
    case Mn => "Mn"
  }

  /** One feature: crop and soil are encoded with their tables, the rest parsed. */
  function Feature(f: FormField, v: Option<string>, crops: seq<Option<string>>, soils: seq<Option<string>>,
                   parse: Parser): Num
  {
    match f
    case Zasiew => Code(EncodeValue(v, crops))
    case Gleba => Code(EncodeValue(v, soils))
    case _ => Cell(v, parse)
  }

  /** The feature row of a data row. */
  function RowFeatures(row: Row, crops: seq<Option<string>>, soils: seq<Option<string>>, parse: Parser)
    : seq<Num>
  {
    seq(|FeatureOrder|, j requires 0 <= j < |FeatureOrder| =>
      Feature(FeatureOrder[j], Get(row, ColumnOf(FeatureOrder[j])), crops, soils, parse))
  }

  /** The feature row of the form's inputs. */
  function FormFeatures(form: Form, crops: seq<Option<string>>, soils: seq<Option<string>>, parse: Parser)
    : seq<Num>
  {
    seq(|FeatureOrder|, j requires 0 <= j < |FeatureOrder| =>
      Feature(FeatureOrder[j], Some(FieldOf(form, FeatureOrder[j])), crops, soils, parse))
  }

  /** What the regression is given: the tables, the feature rows, the targets and the input. */
  datatype FitCorpus = FitCorpus(crops: seq<Option<string>>, soils: seq<Option<string>>,
                                 x: seq<seq<Num>>, y: seq<seq<Num>>, input: seq<seq<Num>>)

  /** The feature rows, one per training row, in order. */
  function FeatureRows(filtered: seq<Row>, crops: seq<Option<string>>, soils: seq<Option<string>>,
                       parse: Parser): seq<seq<Num>>
  {
    seq(|filtered|, i requires 0 <= i < |filtered| => RowFeatures(filtered[i], crops, soils, parse))
  }

  /** The targets: each training row's parsed yield, as a one-element row. */
  function Targets(filtered: seq<Row>, parse: Parser): seq<seq<Num>>
  {
    seq(|filtered|, i requires 0 <= i < |filtered| => [Cell(Get(filtered[i], YieldColumn), parse)])
  }

  /** Everything the prediction handler computes before calling the regression. */
  function PrepareFit(data: seq<Row>, form: Form, parse: Parser): FitCorpus
  {
    var filtered := Filtered(data);
    var crops := Options(filtered, CropColumn);
    var soils := Options(filtered, SoilColumn);
    FitCorpus(crops, soils, FeatureRows(filtered, crops, soils, parse), Targets(filtered, parse),
              [FormFeatures(form, crops, soils, parse)])
  }

  /** The feature columns are the nine inputs, each once. */
  lemma FeatureOrderCoversForm()
    ensures |FeatureOrder| == 9 && NoDuplicates(FeatureOrder)
    ensures forall f: FormField :: f in FeatureOrder
  {
    forall f: FormField ensures f in FeatureOrder {
      assert f == FeatureOrder[FieldIndex(f)];
    }
  }

  function FieldIndex(f: FormField): nat
  {
    match f
    case Zasiew => 0
    case Gleba => 1
    case Wilgotnosc => 2
    case PH => 3
    case Mg => 4
    case Zn => 5
    case Fe => 6
    case Cu => 7
    case Mn => 8
  }

  /**
   * One feature row and one target per training row, in order; every row
   * has nine features, every target one value, and there is one input row.
   */
  lemma FitShape(data: seq<Row>, form: Form, parse: Parser)
    ensures var c := PrepareFit(data, form, parse);
      var filtered := Filtered(data);
      && |c.x| == |c.y| == |filtered|
      && (forall i :: 0 <= i < |filtered| ==> c.x[i] == RowFeatures(filtered[i], c.crops, c.soils, parse))
      && (forall i :: 0 <= i < |filtered| ==> c.y[i] == [Cell(Get(filtered[i], YieldColumn), parse)])
      && (forall i :: 0 <= i < |c.x| ==> |c.x[i]| == 9)
      && |c.input| == 1 && |c.input[0]| == 9
  {
    FeatureOrderCoversForm();
  }

  /** The first two features of a row are its crop and soil codes. */
  lemma RowFeaturesCodes(row: Row, crops: seq<Option<string>>, soils: seq<Option<string>>, parse: Parser)
    ensures RowFeatures(row, crops, soils, parse)[0] == Code(EncodeValue(Get(row, CropColumn), crops))
    ensures RowFeatures(row, crops, soils, parse)[1] == Code(EncodeValue(Get(row, SoilColumn), soils))
  {
    assert FeatureOrder[0] == Zasiew && FeatureOrder[1] == Gleba;
  }

  /** The first two features of the input are the codes of the chosen crop and soil type. */
  lemma FormFeaturesCodes(form: Form, crops: seq<Option<string>>, soils: seq<Option<string>>, parse: Parser)
    ensures FormFeatures(form, crops, soils, parse)[0] == Code(EncodeValue(Some(form.zasiew), crops))
    ensures FormFeatures(form, crops, soils, parse)[1] == Code(EncodeValue(Some(form.gleba), soils))
  {
    assert FeatureOrder[0] == Zasiew && FeatureOrder[1] == Gleba;
  }

  /** Every training row's crop and soil codes are valid positions in their tables. */
  lemma TrainingCodesInRange(data: seq<Row>, form: Form, parse: Parser, i: int)
    requires 0 <= i < |Filtered(data)|
    ensures var c := PrepareFit(data, form, parse);
      var row := Filtered(data)[i];
      && 0 <= EncodeValue(Get(row, CropColumn), c.crops) < |c.crops|
      && 0 <= EncodeValue(Get(row, SoilColumn), c.soils) < |c.soils|
      && c.x[i][0] == Code(EncodeValue(Get(row, CropColumn), c.crops))
      && c.x[i][1] == Code(EncodeValue(Get(row, SoilColumn), c.soils))
  {
    var filtered := Filtered(data);
    var c := PrepareFit(data, form, parse);
    var row := filtered[i];
    assert row in filtered;
    OptionsExact(filtered, CropColumn);
    OptionsExact(filtered, SoilColumn);
    assert Get(row, CropColumn) in c.crops;
    assert Get(row, SoilColumn) in c.soils;
    assert c.x[i] == RowFeatures(row, c.crops, c.soils, parse);
    RowFeaturesCodes(row, c.crops, c.soils, parse);
  }

  /** The input is encoded with the tables of the training rows, and sees the same features as a row. */
  lemma InputSharesTables(data: seq<Row>, form: Form, parse: Parser, row: Row)
    requires forall f :: Get(row, ColumnOf(f)) == Some(FieldOf(form, f))
    ensures var c := PrepareFit(data, form, parse);
      c.input[0] == RowFeatures(row, c.crops, c.soils, parse)
  {
  }

  /** The input's crop code is -1 exactly when no training row has that crop; likewise for soil. */
  lemma InputCodeMissing(data: seq<Row>, form: Form, parse: Parser)
    ensures var c := PrepareFit(data, form, parse);
      && (c.input[0][0] == Code(-1) <==>
            forall r :: r in Filtered(data) ==> Get(r, CropColumn) != Some(form.zasiew))
      && (c.input[0][1] == Code(-1) <==>
            forall r :: r in Filtered(data) ==> Get(r, SoilColumn) != Some(form.gleba))
  {
    var filtered := Filtered(data);
    var c := PrepareFit(data, form, parse);
    FormFeaturesCodes(form, c.crops, c.soils, parse);
    OptionsExact(filtered, CropColumn);
    OptionsExact(filtered, SoilColumn);
  }

  // ---------------------------------------------------------------------------
  // The dropdowns

  /** The crops offered in the form: every crop of the data, trainable or not. */
  function Zasiewy(data: seq<Row>): seq<Option<string>>
  {
    Options(data, CropColumn)
  }

  /** The soil types offered in the form. */
  function Gleby(data: seq<Row>): seq<Option<string>>
  {
    Options(data, SoilColumn)
  }

  /** Every value of an encoding table is offered in the matching dropdown. */
  lemma TablesWithinDropdowns(data: seq<Row>, form: Form, parse: Parser)
    ensures var c := PrepareFit(data, form, parse);
      (forall v :: v in c.crops ==> v in Zasiewy(data)) && (forall v :: v in c.soils ==> v in Gleby(data))
  {
    var filtered := Filtered(data);
    var c := PrepareFit(data, form, parse);
    FilteredExact(data);
    OptionsExact(filtered, CropColumn);
    OptionsExact(filtered, SoilColumn);
    OptionsExact(data, CropColumn);
    OptionsExact(data, SoilColumn);
    forall v | v in c.crops ensures v in Zasiewy(data) {
      var r :| r in filtered && Get(r, CropColumn) == v;
      assert r in data;
    }
    forall v | v in c.soils ensures v in Gleby(data) {
      var r :| r in filtered && Get(r, SoilColumn) == v;
      assert r in data;
    }
  }

  /** A field with a crop and a soil type but no yield: offered, yet not trainable. */
  const UntrainedField: Row := [Field(CropColumn, "Pszenica"), Field(SoilColumn, "Gliniasta")]

  /**
   * A crop chosen from the dropdown can encode to -1: the dropdown lists a
   * crop whose only rows lack a yield, so the training table does not.
   */
  lemma DropdownValueCanEncodeMissing(parse: Parser)
    ensures var data, form := [UntrainedField], HandleChange(InitialForm, Zasiew, "Pszenica");
      Some(form.zasiew) in Zasiewy(data) && PrepareFit(data, form, parse).input[0][0] == Code(-1)
  {
    var data := [UntrainedField];
    assert Get(UntrainedField, CropColumn) == Some("Pszenica");
    assert Get(UntrainedField, YieldColumn) == None by {
      var rest: Row := UntrainedField[1..];
      var none: Row := rest[1..];
      assert |UntrainedField[0].name| != |YieldColumn| && |rest[0].name| != |YieldColumn|;
      assert none == [];
      assert Get(none, YieldColumn) == None;
      assert Get(rest, YieldColumn) == Get(none, YieldColumn);
      assert Get(UntrainedField, YieldColumn) == Get(rest, YieldColumn);
    }
    assert Filtered(data) == [] by {
      assert data[1..] == [];
    }
    assert Column(data, CropColumn)[0] == Some("Pszenica");
    assert Column(Filtered(data), CropColumn) == [];
    assert FeatureOrder[0] == Zasiew;
  }
}
