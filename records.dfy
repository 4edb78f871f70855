/**
 * Values shared by every part of the application: the rows a CSV upload
 * produces, JavaScript's "number or NaN" results of `parseFloat`, and the
 * Option type standing for "defined or `undefined`".
 */
module Records {
  import opened Seqs

  datatype Option<+T> = None | Some(value: T)

  // The columns more than one part of the application reads
  const CropColumn := "Rodzaj zasiewu"
  const SoilColumn := "Typ gleby"
  const YieldColumn := "Wydajność (kg/h)"
  const MoistureColumn := "Wilgotność (%)"
  const PhColumn := "pH"
  const LocationColumn := "Lokalizacja"

  /** One property of a parsed CSV row: the column name and the raw cell text. */
  datatype Field = Field(name: string, value: string)

  /** A JavaScript object's own property names are unique. */
  predicate DistinctNames(fs: seq<Field>)
  {
    forall i, j :: 0 <= i < j < |fs| ==> fs[i].name != fs[j].name
  }

  /** A parsed row, its properties in `Object.keys` order. */
  type Row = fs: seq<Field> | DistinctNames(fs) witness []

  /** `Object.keys(row)` */
  function Keys(row: Row): (ks: seq<string>)
    ensures |ks| == |row|
    ensures forall i :: 0 <= i < |row| ==> ks[i] == row[i].name
    ensures NoDuplicates(ks)
  {
    seq(|row|, i requires 0 <= i < |row| => row[i].name)
  }

  /** `row[name]`: the cell text, or None for `undefined`. */
  function Get(row: Row, name: string): (v: Option<string>)
  {
    if |row| == 0 then None
    else if row[0].name == name then Some(row[0].value)
    else
      Get(row[1..], name)
  }

  /** JavaScript truthiness of a cell: defined and not the empty string. */
  predicate Truthy(v: Option<string>)
  {
    v.Some? && v.value != ""
  }

  /** A JavaScript number as the model sees it: a real, or NaN. */
  datatype Num = Finite(val: real) | NaN

  /** `parseFloat(s)` is given as a function; None is its NaN. */
  type Parser = string -> Option<real>

  /** `Number.prototype.toFixed(digits)` is given as a function. */
  type Formatter = (Num, nat) -> string

  function FromParse(p: Option<real>): Num
  {
    match p
    case None => NaN
    case Some(x) => Finite(x)
  }

  /** JavaScript `+`: NaN absorbs. */
  function Add(a: Num, b: Num): Num
  {
    if a.NaN? || b.NaN? then NaN else Finite(a.val + b.val)
  }

  /** JavaScript `a < c`: false when `a` is NaN. */
  predicate Lt(a: Num, c: real)
  {
    a.Finite? && a.val < c
  }

  /** JavaScript `a > c`: false when `a` is NaN. */
  predicate Gt(a: Num, c: real)
  {
    a.Finite? && a.val > c
  }
}
