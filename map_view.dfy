/**
 * The map panel's data: the rows that can be placed on the map, their
 * coordinates read from the location column, and the map centre.
 */
module MapView {
  import opened Records
  import opened Seqs

  /** A row placed on the map: all its fields, plus the parsed latitude and longitude. */
  datatype Located = Located(row: Row, lat: real, lng: real)

  /** The centre used when no row can be placed: Warsaw. */
  const DefaultCenter: (real, real) := (52.2297, 21.0122)

  /**
   * The coordinates of a location text: the first two comma-separated parts,
   * each parsed; None when either fails to parse or there is no second part.
   * Further parts are ignored.
   */
  function Coordinates(loc: string, parse: Parser): (c: Option<(real, real)>)
    ensures c.Some? <==>
              |Split(loc, ',')| >= 2 && parse(Split(loc, ',')[0]).Some? && parse(Split(loc, ',')[1]).Some?
    ensures c.Some? ==>
              c.value == (parse(Split(loc, ',')[0]).value, parse(Split(loc, ',')[1]).value)
  {
    var parts := Split(loc, ',');
    var lat := FromParse(parse(parts[0]));
    // destructuring a one-part split leaves the longitude undefined, which is NaN
    var lng := if |parts| > 1 then FromParse(parse(parts[1])) else NaN;
    if lat.NaN? || lng.NaN? then None else Some((lat.val, lng.val))
  }

  /** One row through the map step: None (dropped) or the row with its coordinates. */
  function Locate(row: Row, parse: Parser): (l: Option<Located>)
    ensures l.Some? ==> l.value.row == row
    ensures !Truthy(Get(row, LocationColumn)) ==> l == None
    ensures Truthy(Get(row, LocationColumn)) ==>
              match Coordinates(Get(row, LocationColumn).value, parse)
              case None => l == None
              case Some(c) => l == Some(Located(row, c.0, c.1))
  {
    var loc := Get(row, LocationColumn);
    if !Truthy(loc) then None
    else
      match Coordinates(loc.value, parse)
      case None => None
      case Some(c) => Some(Located(row, c.0, c.1))
  }

  predicate Locatable(row: Row, parse: Parser)
  {
    Locate(row, parse).Some?
  }

  /** Dropping the rows the map step rejected: the present values, in order. */
  function Present<T>(s: seq<Option<T>>): seq<T>
  {
    if |s| == 0 then []
    else (if s[0].Some? then [s[0].value] else []) + Present(s[1..])
  }

  /** Each row mapped through Locate. */
  function LocateAll(data: seq<Row>, parse: Parser): seq<Option<Located>>
  {
    seq(|data|, i requires 0 <= i < |data| => Locate(data[i], parse))
  }

  /** The rows shown on the map. */
  function ValidData(data: seq<Row>, parse: Parser): seq<Located>
  {
    Present(LocateAll(data, parse))
  }

  /** The rows of the placed entries, in order. */
  function RowsOf(ls: seq<Located>): seq<Row>
  {
    seq(|ls|, i requires 0 <= i < |ls| => ls[i].row)
  }

  /** `center`: the first placed row's coordinates, or the default. */
  function Center(valid: seq<Located>): (real, real)
  {
    if |valid| > 0 then (valid[0].lat, valid[0].lng) else DefaultCenter
  }

  /**
   * The placed rows are exactly the locatable rows of the data, in their
   * order, each with the coordinates Locate computes for it.
   */
  lemma {:induction false} ValidDataExact(data: seq<Row>, parse: Parser)
    ensures RowsOf(ValidData(data, parse)) == Filter(data, r => Locatable(r, parse))
    ensures forall l :: l in ValidData(data, parse) ==> Locate(l.row, parse) == Some(l)
  {
    if |data| > 0 {
      ValidDataExact(data[1..], parse);
      assert LocateAll(data, parse) == [Locate(data[0], parse)] + LocateAll(data[1..], parse);
      assert LocateAll(data, parse)[1..] == LocateAll(data[1..], parse);
      var rest := ValidData(data[1..], parse);
      if Locatable(data[0], parse) {
        var l := Locate(data[0], parse).value;
        assert ValidData(data, parse) == [l] + rest;
        assert RowsOf([l] + rest) == [data[0]] + RowsOf(rest);
      } else {
        assert ValidData(data, parse) == rest;
      }
    }
  }

  /** The map keeps the data's order and never adds rows. */
  lemma ValidDataIsSubsequence(data: seq<Row>, parse: Parser)
    ensures SubsequenceOf(RowsOf(ValidData(data, parse)), data)
    ensures |ValidData(data, parse)| <= |data|
    ensures forall r :: r in RowsOf(ValidData(data, parse)) <==> r in data && Locatable(r, parse)
  {
    ValidDataExact(data, parse);
    FilterIsSubsequence(data, r => Locatable(r, parse));
    FilterMembers(data, r => Locatable(r, parse));
  }

  /**
   * A row is placed exactly when its location cell is set and gives
   * coordinates, and a placed row carries those coordinates.
   */
  lemma PlacedRowsHaveLocation(data: seq<Row>, parse: Parser)
    ensures forall l :: l in ValidData(data, parse) ==>
              Truthy(Get(l.row, LocationColumn))
              && Coordinates(Get(l.row, LocationColumn).value, parse) == Some((l.lat, l.lng))
    ensures forall r :: r in RowsOf(ValidData(data, parse)) <==>
              r in data && Truthy(Get(r, LocationColumn))
              && Coordinates(Get(r, LocationColumn).value, parse).Some?
  {
    ValidDataExact(data, parse);
    ValidDataIsSubsequence(data, parse);
  }

  /** Parts after the second are ignored. */
  lemma ExtraPartsIgnored(lat: string, lng: string, rest: string, parse: Parser)
    requires ',' !in lat && ',' !in lng
    ensures Coordinates(lat + "," + lng + "," + rest, parse) == Coordinates(lat + "," + lng, parse)
  {
    SplitAtSeparator(lat, lng + "," + rest, ',');
    SplitAtSeparator(lng, rest, ',');
    SplitWithoutSeparator(lng, ',');
    assert lat + "," + lng + "," + rest == lat + [','] + (lng + [','] + rest);
    assert lat + "," + lng == lat + [','] + lng;
    assert lng + "," + rest == lng + [','] + rest;
    SplitAtSeparator(lat, lng, ',');
  }

  /** A location without a comma has no second part, so the row is dropped. */
  lemma NoSecondPartDropped(loc: string, parse: Parser)
    requires ',' !in loc
    ensures Coordinates(loc, parse) == None
  {
    SplitWithoutSeparator(loc, ',');
  }

  /** `"lat,lng"` with two parseable parts gives exactly those two numbers. */
  lemma TwoPartsParsed(lat: string, lng: string, x: real, y: real, parse: Parser)
    requires ',' !in lat && ',' !in lng
    requires parse(lat) == Some(x) && parse(lng) == Some(y)
    ensures Coordinates(lat + "," + lng, parse) == Some((x, y))
  {
    assert lat + "," + lng == lat + [','] + lng;
    SplitAtSeparator(lat, lng, ',');
    SplitWithoutSeparator(lng, ',');
  }

  /** The centre is the first locatable row's coordinates, or the default when there is none. */
  lemma CenterIsFirstLocatable(data: seq<Row>, parse: Parser)
    ensures (forall r :: r in data ==> !Locatable(r, parse)) ==> Center(ValidData(data, parse)) == DefaultCenter
    ensures forall k :: 0 <= k < |data| && Locatable(data[k], parse) &&
                        (forall j :: 0 <= j < k ==> !Locatable(data[j], parse)) ==>
              Center(ValidData(data, parse)) == (Locate(data[k], parse).value.lat, Locate(data[k], parse).value.lng)
  {
    ValidDataIsSubsequence(data, parse);
    var valid := ValidData(data, parse);
    if |valid| > 0 {
      assert RowsOf(valid)[0] in RowsOf(valid);
    }
    forall k | 0 <= k < |data| && Locatable(data[k], parse) && (forall j :: 0 <= j < k ==> !Locatable(data[j], parse))
      ensures Center(ValidData(data, parse)) == (Locate(data[k], parse).value.lat, Locate(data[k], parse).value.lng)
    {
      FirstLocated(data, parse, k);
    }
  }

  lemma {:induction false} FirstLocated(data: seq<Row>, parse: Parser, k: int)
    requires 0 <= k < |data| && Locatable(data[k], parse)
    requires forall j :: 0 <= j < k ==> !Locatable(data[j], parse)
    ensures |ValidData(data, parse)| > 0 && ValidData(data, parse)[0] == Locate(data[k], parse).value
  {
    assert LocateAll(data, parse) == [Locate(data[0], parse)] + LocateAll(data[1..], parse);
    assert LocateAll(data, parse)[1..] == LocateAll(data[1..], parse);
    if k > 0 {
      FirstLocated(data[1..], parse, k - 1);
      assert !Locatable(data[0], parse);
    }
  }
}
