/** Joining strings with ", " (Python's `", ".join`) and the split that
    undoes it (Python's `s.split(", ")`). */
module UrlList {

  /** s holds no ", " anywhere. */
  predicate NoSeparator(s: string)
    decreases |s|
  {
    |s| < 2 || (!(s[0] == ',' && s[1] == ' ') && NoSeparator(s[1..]))
  }

  /** The parts in order with ", " between neighbours; "" for no parts. */
  function Join(parts: seq<string>): (s: string)
    ensures |parts| == 1 ==> s == parts[0]
  {
    if parts == [] then ""
    else if |parts| == 1 then parts[0]
    else parts[0] + ", " + Join(parts[1..])
  }

  /** The pieces of s between the occurrences of ", ", scanning from the left. */
  function Split(s: string): (parts: seq<string>)
    ensures |parts| > 0
    decreases |s|
  {
    if |s| < 2 then [s]
    else if s[0] == ',' && s[1] == ' ' then [""] + Split(s[2..])
    else
      var r := Split(s[1..]);
      [[s[0]] + r[0]] + r[1..]
  }

  lemma {:induction false} SplitWithoutSeparator(s: string)
    requires NoSeparator(s)
    ensures Split(s) == [s]
    decreases |s|
  {
    if |s| >= 2 {
      SplitWithoutSeparator(s[1..]);
      assert [s[0]] + s[1..] == s;
    }
  }

  /** The first separator of x + ", " + rest is the one after x. */
  lemma {:induction false} SplitAfterPart(x: string, rest: string)
    requires NoSeparator(x)
    ensures Split(x + ", " + rest) == [x] + Split(rest)
    decreases |x|
  {
    var s := x + ", " + rest;
    if x == [] {
      assert s[2..] == rest;
    } else {
      assert s[1..] == x[1..] + ", " + rest;
      if |x| == 1 {
        assert s[1] == ',';
      } else {
        assert s[1] == x[1];
      }
      SplitAfterPart(x[1..], rest);
      assert [x[0]] + x[1..] == x;
    }
  }

  /** Splitting undoes joining, as long as no part holds the separator. */
  lemma {:induction false} SplitJoin(parts: seq<string>)
    requires |parts| > 0
    requires forall i :: 0 <= i < |parts| ==> NoSeparator(parts[i])
    ensures Split(Join(parts)) == parts
  {
    if |parts| == 1 {
      SplitWithoutSeparator(parts[0]);
    } else {
      SplitJoin(parts[1..]);
      SplitAfterPart(parts[0], Join(parts[1..]));
      assert [parts[0]] + parts[1..] == parts;
    }
  }
}
