/** Values shared by every extractor: optional fields, the cell type of an
    output row, the Cocoa epoch shift and decimal rendering of integers. */
module Common {

  datatype Option<+T> = None | Some(value: T)

  /** What reading a decoded record can fail with: a key the extractor reads
      unconditionally is absent (the source raises KeyError and the artifact
      produces no table). */
  datatype Failure = MissingKey(key: string)

  datatype Result<+T> = Ok(value: T) | Err(failure: Failure)

  /** One cell of a normalized row. `Time` holds a Unix-epoch second count whose
      calendar rendering is left to the report layer. */
  datatype Value =
    | Null
    | Bool(b: bool)
    | Int(i: int)
    | Real(r: real)
    | Text(s: string)
    | Time(unix: int)

  /** An output table: one header row and the rows aligned with it. */
  datatype Table = Table(headers: seq<string>, rows: seq<seq<Value>>)

  /** Row arity equals header arity for every row. */
  ghost predicate Aligned(t: Table)
  {
    forall i :: 0 <= i < |t.rows| ==> |t.rows[i]| == |t.headers|
  }

  /** Seconds from 1970-01-01T00:00:00Z to 2001-01-01T00:00:00Z. */
  const CocoaEpochOffset: int := 978307200

  /** A stored Cocoa (2001-based) second count as a Unix-epoch second count. */
  function UnixFromCocoa(cocoa: int): (unix: int)
    ensures CocoaFromUnix(unix) == cocoa
  {
    cocoa + CocoaEpochOffset
  }

  /** The stored Cocoa offset a rendered Unix time came from. */
  function CocoaFromUnix(unix: int): (cocoa: int)
  {
    unix - CocoaEpochOffset
  }

  /** A nullable stored Cocoa date as a cell: NULL stays NULL. */
  function DateCell(cocoa: Option<int>): (v: Value)
    ensures cocoa.None? <==> v == Null
    ensures cocoa.Some? ==> v.Time? && CocoaFromUnix(v.unix) == cocoa.value
  {
    match cocoa
    case None => Null
    case Some(t) => Time(UnixFromCocoa(t))
  }

  /** A nullable text column as a cell. */
  function TextCell(o: Option<string>): Value
  {
    match o
    case None => Null
    case Some(s) => Text(s)
  }

  /** A nullable integer column as a cell. */
  function IntCell(o: Option<int>): Value
  {
    match o
    case None => Null
    case Some(n) => Int(n)
  }

  // ---------------------------------------------------------------------
  // Decimal rendering, as SQLite's `||` and Python's str() render integers.

  predicate IsDigit(c: char)
  {
    '0' <= c <= '9'
  }

  function DigitChar(d: nat): (c: char)
    requires d < 10
    ensures IsDigit(c)
  {
    ['0', '1', '2', '3', '4', '5', '6', '7', '8', '9'][d]
  }

  function DigitValue(c: char): (d: nat)
    requires IsDigit(c)
    ensures d < 10
  {
    (c as int - '0' as int) as nat
  }

  predicate AllDigits(s: string)
  {
    forall i :: 0 <= i < |s| ==> IsDigit(s[i])
  }

  /** The decimal digits of n, most significant first, without leading zeros. */
  function NatToString(n: nat): (s: string)
    ensures |s| > 0 && AllDigits(s)
    ensures ParseNat(s) == n
    decreases n
  {
    if n < 10 then [DigitChar(n)]
    else
      var s := NatToString(n / 10) + [DigitChar(n % 10)];
      assert s[..|s| - 1] == NatToString(n / 10);
      s
  }

  /** The value of a string of decimal digits. */
  function ParseNat(s: string): (n: nat)
    requires AllDigits(s)
  {
    if s == [] then 0
    else ParseNat(s[..|s| - 1]) * 10 + DigitValue(s[|s| - 1])
  }

  /** An integer in decimal, with a leading '-' when negative. */
  function IntToString(n: int): (s: string)
    ensures |s| > 0
    ensures s[0] == '-' <==> n < 0
    ensures IsDigit(s[0]) <==> n >= 0
  {
    if n < 0 then "-" + NatToString(-n) else NatToString(n)
  }

  /** Reads back what IntToString writes, or None for anything else. */
  function ParseInt(s: string): Option<int>
  {
    if |s| > 1 && s[0] == '-' && AllDigits(s[1..]) then Some(-(ParseNat(s[1..]) as int))
    else if |s| > 0 && AllDigits(s) then Some(ParseNat(s))
    else None
  }

  lemma IntToStringRoundTrip(n: int)
    ensures ParseInt(IntToString(n)) == Some(n)
  {
    if n < 0 {
      var s := IntToString(n);
      assert s[1..] == NatToString(-n);
    }
  }
}
