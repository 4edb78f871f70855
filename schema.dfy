/**
 * The schema gate run when an upload has been parsed: which required
 * columns the first row lacks, and the summary line shown to the user.
 */
module Schema {
  import opened Records
  import opened Seqs

  /** The columns an upload must have, in the order the error message lists them. */
  const Required: seq<string> := [
    "Pole", "Lokalizacja", "Wydajność (kg/h)", "Wilgotność (%)", "pH", "Próchnica (%)",
    "P", "K", "Mg", "B", "Cu", "Zn", "Mn", "EC",
    "Struktura gleby", "Rodzaj zasiewu", "Nawożenie", "Typ gleby"
  ]

  const MissingPrefix := "❌ Brakuje kolumn: "

  /** The detected columns: the keys of the first row only, none when nothing was parsed. */
  function DetectedKeys(parsed: seq<Row>): seq<string>
  {
    if |parsed| == 0 then [] else Keys(parsed[0])
  }

  /** The required columns that were not detected, in the required order. */
  function MissingColumns(required: seq<string>, detected: seq<string>): seq<string>
  {
    Filter(required, col => col !in detected)
  }

  /** The missing columns are exactly the required ones not detected, in the required order. */
  lemma MissingColumnsExact(required: seq<string>, detected: seq<string>)
    ensures forall c ::
              c in MissingColumns(required, detected) <==> c in required && c !in detected
    ensures SubsequenceOf(MissingColumns(required, detected), required)
    ensures NoDuplicates(required) ==> NoDuplicates(MissingColumns(required, detected))
  {
    FilterMembers(required, col => col !in detected);
    FilterIsSubsequence(required, col => col !in detected);
    if NoDuplicates(required) {
      FilterNoDuplicates(required, col => col !in detected);
    }
  }

  /** A name's length with its first and last character; names that differ here differ. */
  function Signature(c: string): (int, char, char)
  {
    if |c| == 0 then (0, ' ', ' ') else (|c|, c[0], c[|c| - 1])
  }

  /** The required list names each column once. */
  lemma RequiredNoDuplicates()
    ensures NoDuplicates(Required)
  {
    var sigs := seq(|Required|, i requires 0 <= i < |Required| => Signature(Required[i]));
    assert sigs == [(4, 'P', 'e'), (11, 'L', 'a'), (16, 'W', ')'), (14, 'W', ')'), (2, 'p', 'H'),
                    (13, 'P', ')'), (1, 'P', 'P'), (1, 'K', 'K'), (2, 'M', 'g'), (1, 'B', 'B'),
                    (2, 'C', 'u'), (2, 'Z', 'n'), (2, 'M', 'n'), (2, 'E', 'C'), (15, 'S', 'y'),
                    (14, 'R', 'u'), (9, 'N', 'e'), (9, 'T', 'y')];
    forall i, j | 0 <= i < j < |Required| ensures Required[i] != Required[j] {
      assert sigs[i] != sigs[j];
    }
  }

  /** The error line names each missing column once, in the required order. */
  lemma MissingNamedOnce(detected: seq<string>)
    ensures NoDuplicates(MissingColumns(Required, detected))
    ensures SubsequenceOf(MissingColumns(Required, detected), Required)
  {
    RequiredNoDuplicates();
    MissingColumnsExact(Required, detected);
  }

  /** An upload passes the gate exactly when its first row has every required column. */
  lemma {:induction false} GatePassesIffAllPresent(parsed: seq<Row>)
    ensures |MissingColumns(Required, DetectedKeys(parsed))| == 0 <==>
              forall c :: c in Required ==> c in DetectedKeys(parsed)
  {
    var m := MissingColumns(Required, DetectedKeys(parsed));
    MissingColumnsExact(Required, DetectedKeys(parsed));
    if |m| > 0 {
      assert m[0] in m;
    }
  }

  /** With nothing parsed there are no keys, so every required column is reported missing. */
  lemma {:induction false} NothingParsedMissesAll(required: seq<string>)
    ensures MissingColumns(required, DetectedKeys([])) == required
  {
    FilterKeepsAll(required, col => col !in DetectedKeys([]));
  }

  /** Only the first row decides the detected columns. */
  lemma FirstRowDecides(first: Row, rest: seq<Row>, other: seq<Row>)
    ensures DetectedKeys([first] + rest) == DetectedKeys([first] + other) == Keys(first)
  {
  }

  /** The message shown when columns are missing. */
  function MissingSummary(missing: seq<string>): string
  {
    MissingPrefix + Join(missing, ", ")
  }

  /** The message shown after a successful upload. */
  function LoadedSummary(count: nat, detected: seq<string>): string
  {
    "✅ Wczytano " + DecimalString(count) + " rekordów\n📊 Kolumny: " + Join(detected, ", ")
  }

  /** The decimal digits of a count, as a template literal prints it. */
  function DecimalString(n: nat): (s: string)
    ensures |s| >= 1
    ensures forall i :: 0 <= i < |s| ==> '0' <= s[i] <= '9'
  {
    var digit := "0123456789"[n % 10];
    if n < 10 then [digit] else DecimalString(n / 10) + [digit]
  }

  /** The number a string of decimal digits denotes. */
  function DigitsValue(s: string): nat
    requires forall i :: 0 <= i < |s| ==> '0' <= s[i] <= '9'
  {
    if |s| == 0 then 0
    else DigitsValue(s[..|s| - 1]) * 10 + ((s[|s| - 1] as int) - ('0' as int))
  }

  /** The printed count reads back as the count, without leading zeros. */
  lemma {:induction false} DecimalStringRoundTrip(n: nat)
    ensures DigitsValue(DecimalString(n)) == n
    ensures DecimalString(n)[0] == '0' ==> n == 0
  {
    var s := DecimalString(n);
    if n >= 10 {
      DecimalStringRoundTrip(n / 10);
      assert s[..|s| - 1] == DecimalString(n / 10);
    }
  }
}
