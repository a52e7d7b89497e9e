/** Dotted numeric version numbers and the iOS-version dispatch of the
    shared-library asset extractor. */
module Versions {

  import opened Common

  /** The numeric release components of a version, most significant first. */
  type Version = seq<nat>

  /** Component i, with missing trailing components read as 0. */
  function At(v: Version, i: nat): nat
  {
    if i < |v| then v[i] else 0
  }

  function Rest(v: Version): Version
  {
    if v == [] then [] else v[1..]
  }

  /** -1, 0 or 1 as a is below, equal to or above b, comparing component by
      component and padding the shorter version with zeros ("16" == "16.0"). */
  function Compare(a: Version, b: Version): (c: int)
    ensures -1 <= c <= 1
    decreases |a| + |b|
  {
    if a == [] && b == [] then 0
    else if At(a, 0) < At(b, 0) then -1
    else if At(a, 0) > At(b, 0) then 1
    else Compare(Rest(a), Rest(b))
  }

  predicate Le(a: Version, b: Version) { Compare(a, b) <= 0 }
  predicate Lt(a: Version, b: Version) { Compare(a, b) < 0 }

  lemma {:induction false} CompareAntisymmetric(a: Version, b: Version)
    ensures Compare(a, b) == -Compare(b, a)
    decreases |a| + |b|
  {
    if !(a == [] && b == []) && At(a, 0) == At(b, 0) {
      CompareAntisymmetric(Rest(a), Rest(b));
    }
  }

  /** Two versions compare equal exactly when they agree on every component
      once padded with zeros. */
  lemma {:induction false} CompareZeroMeansPaddedEqual(a: Version, b: Version)
    ensures Compare(a, b) == 0 <==> forall i: nat :: At(a, i) == At(b, i)
    decreases |a| + |b|
  {
    if a == [] && b == [] {
    } else if At(a, 0) != At(b, 0) {
    } else {
      CompareZeroMeansPaddedEqual(Rest(a), Rest(b));
      assert forall i: nat :: At(Rest(a), i) == At(a, i + 1) && At(Rest(b), i) == At(b, i + 1);
      if forall i: nat :: At(Rest(a), i) == At(Rest(b), i) {
        forall i: nat ensures At(a, i) == At(b, i) {
          if i > 0 { assert At(Rest(a), i - 1) == At(Rest(b), i - 1); }
        }
      }
    }
  }

  /** The order is ascending: at the first component where the zero-padded
      versions differ, the smaller component makes the smaller version. */
  lemma {:induction false} CompareAtFirstDifference(a: Version, b: Version, i: nat)
    requires forall k: nat :: k < i ==> At(a, k) == At(b, k)
    requires At(a, i) != At(b, i)
    ensures Compare(a, b) < 0 <==> At(a, i) < At(b, i)
    ensures Compare(a, b) > 0 <==> At(a, i) > At(b, i)
    decreases i
  {
    if i > 0 {
      assert At(a, 0) == At(b, 0);
      assert forall k: nat :: At(Rest(a), k) == At(a, k + 1) && At(Rest(b), k) == At(b, k + 1);
      CompareAtFirstDifference(Rest(a), Rest(b), i - 1);
    }
  }

  lemma {:induction false} CompareTransitive(a: Version, b: Version, c: Version)
    requires Compare(a, b) <= 0 && Compare(b, c) <= 0
    ensures Compare(a, c) <= 0
    ensures Compare(a, b) < 0 || Compare(b, c) < 0 ==> Compare(a, c) < 0
    decreases |a| + |b| + |c|
  {
    if a == [] && b == [] {
    } else if b == [] && c == [] {
    } else if a == [] && c == [] {
      // 0 <= b <= 0 forces b to be all zeros
      if At(b, 0) == 0 {
        CompareTransitive(Rest(a), Rest(b), Rest(c));
      }
    } else if At(a, 0) == At(b, 0) == At(c, 0) {
      CompareTransitive(Rest(a), Rest(b), Rest(c));
    }
  }

  // ---------------------------------------------------------------------
  // Dispatch of Ph32AssetsIniCldSPLwContrib on the iOS version.

  const LastUnsupported: Version := [15, 8, 2]
  const LayoutAFrom: Version := [16]
  const LayoutBFrom: Version := [18]

  /** The two query layouts: iOS 16 and 17 (52 columns), iOS 18 on (55 columns). */
  datatype Layout = LayoutA | LayoutB

  /** What the version checks decide: whether "Unsupported version" is logged,
      and which layout, if any, opens the database. The first check is a
      separate `if`; the layout checks are an `if`/`elif` after it. */
  datatype Dispatched = Dispatched(logsUnsupported: bool, layout: Option<Layout>)

  function Dispatch(v: Version): (d: Dispatched)
    ensures d.layout == Some(LayoutB) <==> Le(LayoutBFrom, v)
  {
    CompareAntisymmetric(v, LayoutBFrom);
    var logs := Le(v, LastUnsupported);
    var layout :=
      if Le(LayoutAFrom, v) && Lt(v, LayoutBFrom) then Some(LayoutA)
      else if Le(LayoutBFrom, v) then Some(LayoutB)
      else None;
    Dispatched(logs, layout)
  }

  /** The branches are mutually exclusive: a version that is reported as
      unsupported never opens the database. */
  lemma UnsupportedOpensNothing(v: Version)
    requires Dispatch(v).logsUnsupported
    ensures Dispatch(v).layout == None
  {
    assert Compare(LastUnsupported, LayoutAFrom) < 0;
    if Le(LayoutAFrom, v) {
      CompareTransitive(LayoutAFrom, v, LastUnsupported);
    }
    if Le(LayoutBFrom, v) {
      CompareTransitive(LayoutBFrom, v, LastUnsupported);
    }
  }

  /** A version strictly between 15.8.2 and 16 (such as 15.9) matches no
      branch at all: nothing is logged and nothing is opened. */
  lemma GapMatchesNothing(v: Version)
    requires Lt(LastUnsupported, v) && Lt(v, LayoutAFrom)
    ensures Dispatch(v) == Dispatched(false, None)
  {
    CompareAntisymmetric(LastUnsupported, v);
    CompareAntisymmetric(LayoutAFrom, v);
    if Le(LayoutBFrom, v) {
      assert Compare(LayoutAFrom, LayoutBFrom) < 0;
      CompareTransitive(LayoutAFrom, LayoutBFrom, v);
    }
  }

  /** Every version at 16 or later opens the database with exactly one layout. */
  lemma SupportedOpensOneLayout(v: Version)
    requires Le(LayoutAFrom, v)
    ensures !Dispatch(v).logsUnsupported && Dispatch(v).layout.Some?
  {
    CompareAntisymmetric(v, LayoutBFrom);
    if Le(v, LastUnsupported) {
      CompareTransitive(LayoutAFrom, v, LastUnsupported);
    }
  }

  /** The whole branch table: "Unsupported version" is logged exactly up to
      15.8.2, layout A is chosen exactly from 16 below 18, layout B exactly
      from 18 on, nothing opens below 16, and a logged version opens nothing. */
  lemma DispatchCases(v: Version)
    ensures Dispatch(v).logsUnsupported <==> Le(v, LastUnsupported)
    ensures Dispatch(v).layout == Some(LayoutA) <==> Le(LayoutAFrom, v) && Lt(v, LayoutBFrom)
    ensures Dispatch(v).layout == Some(LayoutB) <==> Le(LayoutBFrom, v)
    ensures Dispatch(v).layout == None <==> Lt(v, LayoutAFrom)
    ensures Dispatch(v).logsUnsupported ==> Dispatch(v).layout == None
  {
    CompareAntisymmetric(v, LayoutAFrom);
    CompareAntisymmetric(v, LayoutBFrom);
    if Le(LayoutBFrom, v) {
      assert Compare(LayoutAFrom, LayoutBFrom) < 0;
      CompareTransitive(LayoutAFrom, LayoutBFrom, v);
    }
    if Dispatch(v).logsUnsupported {
      UnsupportedOpensNothing(v);
    }
  }

  lemma DispatchExamples()
    ensures Dispatch([15, 9]) == Dispatched(false, None)
    ensures Dispatch([15, 8, 2, 0]) == Dispatched(true, None)
    ensures Dispatch([16, 0]).layout == Some(LayoutA)
    ensures Dispatch([17, 7, 1]).layout == Some(LayoutA)
    ensures Dispatch([18]).layout == Some(LayoutB)
  {
    GapMatchesNothing([15, 9]);
    UnsupportedOpensNothing([15, 8, 2, 0]);
  }
}
