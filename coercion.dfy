/** The two type conversions of the session: the bind-type letter chosen for each outgoing
    query argument (`_castValues`), and the classification of each incoming column by the
    driver's field type code (the fetch loop of `_executeResultArray`). */
module Coercion {
  import opened Php

  // ---------------------------------------------------------------------------------------
  // Outbound: bind types
  // ---------------------------------------------------------------------------------------

  /** `$v == ''` under the loose comparison of PHP 5 and 7: `null` becomes "", a boolean
      is compared with `(bool)''` (false), and a number with `''` read as the number 0. */
  predicate LooselyEqualsEmptyString(v: PValue) {
    match v
    case PNull => true
    case PBool(b) => !b
    case PInt(i) => i == 0
    case PFloat(z) => z
    case PStr(s) => s == ""
  }

  /** `$v == $b` for a boolean `$b`: both sides are compared as booleans. */
  predicate LooselyEqualsBool(v: PValue, b: bool) {
    Truthy(v) == b
  }

  /** The letter one argument adds to the type string. The source switches on the value
      itself, so each case label (`''`, then the booleans `is_null($v)`, `is_bool($v)`,
      `is_int($v)`, `is_float($v)`, `is_string($v)`) is compared with it loosely, and the
      first label that compares equal picks the letter. */
  function BindLetter(v: PValue): string
  {
    if LooselyEqualsEmptyString(v) then "s"
    else if LooselyEqualsBool(v, v.PNull?) || LooselyEqualsBool(v, v.PBool?) || LooselyEqualsBool(v, v.PInt?) then "i"
    else if LooselyEqualsBool(v, v.PFloat?) then "d"
    else if LooselyEqualsBool(v, v.PStr?) then "s"
    else ""
  }

  /** What the loose switch amounts to, value kind by value kind: `null`, `false`, `0` and
      `0.0` give "s"; `true`, non-zero integers and the string "0" give "i"; non-zero floats
      give "d"; every other string gives "s". */
  function LetterTable(v: PValue): char
  {
    match v
    case PNull => 's'
    case PBool(b) => if b then 'i' else 's'
    case PInt(i) => if i == 0 then 's' else 'i'
    case PFloat(z) => if z then 's' else 'd'
    case PStr(s) => if s == "0" then 'i' else 's'
  }

  lemma BindLetterMatchesTable(v: PValue)
    ensures BindLetter(v) == [LetterTable(v)]
    ensures LetterTable(v) in "ids"
  {
  }

  /** The type string for a list of arguments, one letter each, in argument order. */
  function Signature(args: seq<PValue>): string
  {
    if args == [] then "" else Signature(args[..|args| - 1]) + BindLetter(args[|args| - 1])
  }

  /** The type string has exactly one letter per argument, the one the table gives for it. */
  lemma {:induction false} SignatureShape(args: seq<PValue>)
    ensures |Signature(args)| == |args|
    ensures forall i :: 0 <= i < |args| ==> Signature(args)[i] == LetterTable(args[i])
  {
    if args != [] {
      var n := |args| - 1;
      SignatureShape(args[..n]);
      BindLetterMatchesTable(args[n]);
      var t := Signature(args);
      assert t == Signature(args[..n]) + [LetterTable(args[n])];
      forall i | 0 <= i < |args|
        ensures t[i] == LetterTable(args[i])
      {
        if i < n {
          assert args[i] == args[..n][i];
        }
      }
    }
  }

  /** Only the letters "i", "d" and "s" occur: the blob letter "b" is never chosen. */
  lemma SignatureHasNoBlob(args: seq<PValue>)
    ensures forall i :: 0 <= i < |Signature(args)| ==> Signature(args)[i] in "ids"
  {
    SignatureShape(args);
    forall i | 0 <= i < |args|
      ensures Signature(args)[i] in "ids"
    {
      BindLetterMatchesTable(args[i]);
    }
  }

  /** `_castValues`: build the type string in one pass over the arguments and hand the
      arguments back unchanged. */
  method CastValues(args: seq<PValue>) returns (types: string, values: seq<PValue>)
    ensures values == args
    ensures types == Signature(args)
  {
    types := "";
    var n := 0;
    while n < |args|
      invariant 0 <= n <= |args|
      invariant types == Signature(args[..n])
    {
      assert args[..n + 1][..n] == args[..n];
      types := types + BindLetter(args[n]);
      n := n + 1;
    }
    assert args[..n] == args;
    values := args;
  }

  // ---------------------------------------------------------------------------------------
  // Inbound: column decoding
  // ---------------------------------------------------------------------------------------

  /** A raw column value as the driver hands it over: SQL NULL or the value's text. */
  type RawValue = Option<string>

  /** Column metadata: the field name and the driver's type code. */
  datatype Field = Field(name: string, code: int)

  /** What the fetch loop turns a column into. */
  datatype Decoding = AsDateTime | AsBool | AsFloat | AsIs

  /** The fixed code table: timestamp (7), date (10), time (11) and datetime (12) become
      date-times, bit (16) becomes a boolean, float (4), double (5) and decimal (246) become
      floats, every other code is kept as it is. */
  function Classify(code: int): Decoding
  {
    if code == 7 || code == 10 || code == 11 || code == 12 then AsDateTime
    else if code == 16 then AsBool
    else if code == 4 || code == 5 || code == 246 then AsFloat
    else AsIs
  }

  /** A decoded column: which conversion was applied, to which raw value. The conversions
      themselves (date parsing, `(bool)`, `floatval`) are not modelled. */
  datatype Cell =
    | DateTimeCell(text: string)
    | BoolCell(raw: RawValue)
    | FloatCell(raw: RawValue)
    | PlainCell(raw: RawValue)

  /** The raw value a cell was made from. */
  function RawOf(c: Cell): RawValue
  {
    match c
    case DateTimeCell(t) => Some(t)
    case BoolCell(r) => r
    case FloatCell(r) => r
    case PlainCell(r) => r
  }

  /** One column of one fetched row. A NULL date-time column is left as NULL: no parse is
      attempted. */
  function DecodeCell(code: int, raw: RawValue): (c: Cell)
    ensures RawOf(c) == raw
    ensures c.DateTimeCell? <==> Classify(code) == AsDateTime && raw.Some?
    ensures c.BoolCell? <==> Classify(code) == AsBool
    ensures c.FloatCell? <==> Classify(code) == AsFloat
    ensures c.PlainCell? <==> Classify(code) == AsIs || (Classify(code) == AsDateTime && raw.None?)
  {
    match Classify(code)
    case AsDateTime => if raw.Some? then DateTimeCell(raw.value) else PlainCell(raw)
    case AsBool => BoolCell(raw)
    case AsFloat => FloatCell(raw)
    case AsIs => PlainCell(raw)
  }

  function Names(fields: seq<Field>): set<string>
  {
    set i | 0 <= i < |fields| :: fields[i].name
  }

  /** One fetched row, keyed by field name. Each column writes its decoded value under its
      name in column order, so with duplicate names the last column wins. */
  function DecodeRow(fields: seq<Field>, raw: seq<RawValue>): (row: map<string, Cell>)
    requires |raw| == |fields|
    ensures row.Keys == Names(fields)
  {
    if fields == [] then map[]
    else
      var n := |fields| - 1;
      assert Names(fields) == Names(fields[..n]) + {fields[n].name} by {
        assert forall i | 0 <= i < n :: fields[..n][i] == fields[i];
      }
      DecodeRow(fields[..n], raw[..n])[fields[n].name := DecodeCell(fields[n].code, raw[n])]
  }

  /** The value under a column's name is that column's decoding, unless a later column
      carries the same name. */
  lemma {:induction false} DecodeRowAt(fields: seq<Field>, raw: seq<RawValue>, i: nat)
    requires |raw| == |fields| && i < |fields|
    requires forall j :: i < j < |fields| ==> fields[j].name != fields[i].name
    ensures fields[i].name in DecodeRow(fields, raw)
    ensures DecodeRow(fields, raw)[fields[i].name] == DecodeCell(fields[i].code, raw[i])
  {
    var n := |fields| - 1;
    if i < n {
      DecodeRowAt(fields[..n], raw[..n], i);
    }
  }

  /** With distinct field names, every column shows up under its own name with its own
      decoding. */
  lemma DecodeRowDistinct(fields: seq<Field>, raw: seq<RawValue>)
    requires |raw| == |fields|
    requires forall i, j :: 0 <= i < j < |fields| ==> fields[i].name != fields[j].name
    ensures forall i :: 0 <= i < |fields| ==>
      fields[i].name in DecodeRow(fields, raw) &&
      DecodeRow(fields, raw)[fields[i].name] == DecodeCell(fields[i].code, raw[i])
  {
    forall i | 0 <= i < |fields|
      ensures fields[i].name in DecodeRow(fields, raw)
      ensures DecodeRow(fields, raw)[fields[i].name] == DecodeCell(fields[i].code, raw[i])
    {
      DecodeRowAt(fields, raw, i);
    }
  }

  /** Every fetched row decoded, in fetch order. The driver returns one raw value per
      field for every row. */
  function DecodeRows(fields: seq<Field>, fetched: seq<seq<RawValue>>): (rows: seq<map<string, Cell>>)
    requires forall k :: 0 <= k < |fetched| ==> |fetched[k]| == |fields|
    ensures |rows| == |fetched|
  {
    if fetched == [] then []
    else DecodeRows(fields, fetched[..|fetched| - 1]) + [DecodeRow(fields, fetched[|fetched| - 1])]
  }

  /** Row `k` of the result is the decoding of the `k`-th fetch, keyed by the field names. */
  lemma {:induction false} DecodeRowsAt(fields: seq<Field>, fetched: seq<seq<RawValue>>, k: nat)
    requires forall k :: 0 <= k < |fetched| ==> |fetched[k]| == |fields|
    requires k < |fetched|
    ensures DecodeRows(fields, fetched)[k] == DecodeRow(fields, fetched[k])
    ensures DecodeRows(fields, fetched)[k].Keys == Names(fields)
  {
    var n := |fetched| - 1;
    if k < n {
      DecodeRowsAt(fields, fetched[..n], k);
    }
  }

  /** The fetch loop of `_executeResultArray`: one decoded row per fetch, in fetch order. */
  method FetchRows(fields: seq<Field>, fetched: seq<seq<RawValue>>) returns (result: seq<map<string, Cell>>)
    requires forall k :: 0 <= k < |fetched| ==> |fetched[k]| == |fields|
    ensures result == DecodeRows(fields, fetched)
  {
    result := [];
    var n := 0;
    while n < |fetched|
      invariant 0 <= n <= |fetched|
      invariant result == DecodeRows(fields, fetched[..n])
    {
      assert fetched[..n + 1][..n] == fetched[..n];
      var raw := fetched[n];
      var c: map<string, Cell> := map[];
      var j := 0;
      while j < |fields|
        invariant 0 <= j <= |fields|
        invariant c == DecodeRow(fields[..j], raw[..j])
      {
        assert fields[..j + 1][..j] == fields[..j] && raw[..j + 1][..j] == raw[..j];
        c := c[fields[j].name := DecodeCell(fields[j].code, raw[j])];
        j := j + 1;
      }
      assert fields[..j] == fields && raw[..j] == raw;
      result := result + [c];
      n := n + 1;
    }
    assert fetched[..n] == fetched;
  }
}
