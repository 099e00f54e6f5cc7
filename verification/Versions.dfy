/**
 The update check's version comparison: a loop over dot segments, the order it
 decides, and what that order is on version strings.
 */
module Versions {
  import opened Wrappers
  import Separated

  type Segments = seq<int>

  /** A missing segment counts as 0. */
  function SegmentAt(v: Segments, i: nat): int {
    if i < |v| then v[i] else 0
  }

  /** `a` is newer at its first difference from `b`, at or after segment `i`. */
  ghost predicate Newer(a: Segments, b: Segments) {
    exists i: nat :: NewerAt(a, b, i)
  }

  ghost predicate NewerAt(a: Segments, b: Segments, i: nat) {
    SegmentAt(a, i) > SegmentAt(b, i) && forall k :: 0 <= k < i ==> SegmentAt(a, k) == SegmentAt(b, k)
  }

  // ---- The loop -------------------------------------------------------------

  method IsNewer(a: Segments, b: Segments) returns (newer: bool)
    ensures newer <==> Newer(a, b)
  {
    var length := if |a| > |b| then |a| else |b|;
    for i := 0 to length
      invariant forall k :: 0 <= k < i ==> SegmentAt(a, k) == SegmentAt(b, k)
    {
      var ai := if i < |a| then a[i] else 0;
      var bi := if i < |b| then b[i] else 0;
      if ai != bi {
        assert ai > bi ==> NewerAt(a, b, i);
        assert SegmentAt(a, i) != SegmentAt(b, i);
        return ai > bi;
      }
    }
    return false;
  }

  /** The part before the first '-' or '+'. */
  function Core(v: string): string {
    if v == "" || v[0] == '-' || v[0] == '+' then "" else [v[0]] + Core(v[1..])
  }

  /** `number` trims a segment and parses it, if it can. */
  function Parse(v: string, number: string -> Option<int>): Segments {
    Mapped((segment: string) => number(segment).GetOrElse(0), Separated.Split(Core(v), '.'))
  }

  method IsNewerVersion(candidate: string, current: string, number: string -> Option<int>) returns (newer: bool)
    ensures newer <==> Newer(Parse(candidate, number), Parse(current, number))
  {
    newer := IsNewer(Parse(candidate, number), Parse(current, number));
  }

  // ---- A strict weak order --------------------------------------------------

  lemma Irreflexive(a: Segments)
    ensures !Newer(a, a)
  {
  }

  lemma Transitive(a: Segments, b: Segments, c: Segments)
    requires Newer(a, b) && Newer(b, c)
    ensures Newer(a, c)
  {
    var i: nat :| NewerAt(a, b, i);
    var j: nat :| NewerAt(b, c, j);
    var first := if i < j then i else j;
    assert NewerAt(a, c, first);
  }

  lemma Asymmetric(a: Segments, b: Segments)
    requires Newer(a, b)
    ensures !Newer(b, a)
  {
    if Newer(b, a) {
      Transitive(a, b, a);
      Irreflexive(a);
      assert false;
    }
  }

  /** Trailing zeros dropped: the normal form of a version. */
  function Stripped(v: Segments): (r: Segments)
    ensures r != [] ==> r[|r| - 1] != 0
    ensures r <= v
    ensures forall i: nat :: SegmentAt(r, i) == SegmentAt(v, i)
  {
    if v == [] || v[|v| - 1] != 0 then v else Stripped(v[..|v| - 1])
  }

  /** Somewhere in the first `n` segments the versions differ, and the first difference decides. */
  lemma {:induction false} FirstDifference(a: Segments, b: Segments, n: nat)
    ensures Newer(a, b) || Newer(b, a) || forall k: nat :: k < n ==> SegmentAt(a, k) == SegmentAt(b, k)
  {
    if n > 0 {
      FirstDifference(a, b, n - 1);
      if !Newer(a, b) && !Newer(b, a) {
        assert !NewerAt(a, b, n - 1) && !NewerAt(b, a, n - 1);
      }
    }
  }

  lemma NoShorter(x: Segments, y: Segments)
    requires x != [] ==> x[|x| - 1] != 0
    requires forall i: nat :: SegmentAt(x, i) == SegmentAt(y, i)
    ensures |x| <= |y|
  {
    if x != [] { assert SegmentAt(x, |x| - 1) == SegmentAt(y, |x| - 1); }
  }

  /** Two versions tie exactly when they are equal up to trailing zeros; so ties are transitive. */
  lemma {:induction false} TiesAreEqualUpToZeros(a: Segments, b: Segments)
    ensures !Newer(a, b) && !Newer(b, a) <==> Stripped(a) == Stripped(b)
  {
    var x, y := Stripped(a), Stripped(b);
    if !Newer(a, b) && !Newer(b, a) {
      FirstDifference(a, b, |a| + |b|);
      forall k: nat ensures SegmentAt(x, k) == SegmentAt(y, k) {
        assert SegmentAt(x, k) == SegmentAt(a, k) && SegmentAt(y, k) == SegmentAt(b, k);
      }
      NoShorter(x, y);
      NoShorter(y, x);
      forall k | 0 <= k < |x| ensures x[k] == y[k] { assert SegmentAt(x, k) == SegmentAt(y, k); }
    }
    if x == y {
      forall k: nat ensures SegmentAt(a, k) == SegmentAt(b, k) {
        assert SegmentAt(x, k) == SegmentAt(a, k) && SegmentAt(y, k) == SegmentAt(b, k);
      }
    }
  }

  // ---- Lexicographic order --------------------------------------------------

  /** The usual order on lists: a proper prefix comes first. */
  predicate Less(a: Segments, b: Segments) {
    b != [] && (a == [] || a[0] < b[0] || (a[0] == b[0] && Less(a[1..], b[1..])))
  }

  predicate StartsNegative(v: Segments) {
    v != [] && (v[0] < 0 || (v[0] == 0 && StartsNegative(v[1..])))
  }

  /** One version continues the other, and the first segment of the continuation that counts is negative. */
  predicate ContinuesNegative(a: Segments, b: Segments) {
    if a == [] then StartsNegative(b)
    else if b == [] then StartsNegative(a)
    else a[0] == b[0] && ContinuesNegative(a[1..], b[1..])
  }

  lemma NewerStep(a: Segments, b: Segments)
    ensures Newer(a, b) <==>
              SegmentAt(a, 0) > SegmentAt(b, 0) || (SegmentAt(a, 0) == SegmentAt(b, 0) && Newer(Tail(a), Tail(b)))
  {
    forall i: nat ensures SegmentAt(Tail(a), i) == SegmentAt(a, i + 1) && SegmentAt(Tail(b), i) == SegmentAt(b, i + 1) {}
    if SegmentAt(a, 0) > SegmentAt(b, 0) { assert NewerAt(a, b, 0); }
    if SegmentAt(a, 0) == SegmentAt(b, 0) && Newer(Tail(a), Tail(b)) {
      var i: nat :| NewerAt(Tail(a), Tail(b), i);
      forall k | 0 <= k < i + 1 ensures SegmentAt(a, k) == SegmentAt(b, k) {
        if k > 0 { assert SegmentAt(Tail(a), k - 1) == SegmentAt(Tail(b), k - 1); }
      }
      assert NewerAt(a, b, i + 1);
    }
    if Newer(a, b) {
      var i: nat :| NewerAt(a, b, i);
      if i > 0 { assert NewerAt(Tail(a), Tail(b), i - 1); }
    }
  }

  function Tail(v: Segments): Segments { if v == [] then [] else v[1..] }

  /** Against nothing but zeros, the first segment that is not zero decides. */
  lemma {:induction false} AgainstZero(v: Segments)
    requires v != [] && v[|v| - 1] != 0
    ensures Newer([], v) <==> StartsNegative(v)
    ensures Newer(v, []) <==> !StartsNegative(v)
  {
    NewerStep([], v);
    NewerStep(v, []);
    if v[0] == 0 { AgainstZero(v[1..]); }
  }

  lemma {:induction false} TightVersionsAreLexicographic(a: Segments, b: Segments)
    requires a != [] ==> a[|a| - 1] != 0
    requires b != [] ==> b[|b| - 1] != 0
    ensures (Newer(a, b) <==> Less(b, a)) <==> !ContinuesNegative(a, b)
  {
    NewerStep(a, b);
    if a == [] && b == [] {
      Irreflexive([]);
    } else if a == [] {
      AgainstZero(b);
    } else if b == [] {
      AgainstZero(a);
    } else if a[0] == b[0] {
      TightVersionsAreLexicographic(a[1..], b[1..]);
    }
  }

  /**
   The loop decides lexicographic order up to trailing zeros, exactly unless one
   version continues the other with a negative segment.
   */
  lemma {:induction false} NewerIsLexicographic(a: Segments, b: Segments)
    ensures (Newer(a, b) <==> Less(Stripped(b), Stripped(a))) <==> !ContinuesNegative(Stripped(a), Stripped(b))
  {
    SameSegments(a, b, Stripped(a), Stripped(b));
    TightVersionsAreLexicographic(Stripped(a), Stripped(b));
  }

  lemma SameSegments(a: Segments, b: Segments, x: Segments, y: Segments)
    requires forall i: nat :: SegmentAt(x, i) == SegmentAt(a, i)
    requires forall i: nat :: SegmentAt(y, i) == SegmentAt(b, i)
    ensures Newer(a, b) <==> Newer(x, y)
  {
    if Newer(a, b) {
      var i: nat :| NewerAt(a, b, i);
      assert NewerAt(x, y, i);
    }
    if Newer(x, y) {
      var i: nat :| NewerAt(x, y, i);
      assert NewerAt(a, b, i);
    }
  }

  // ---- Version strings ------------------------------------------------------

  /** A pre-release or build suffix is ignored. */
  lemma {:induction false} SuffixIsIgnored(v: string, suffix: string, number: string -> Option<int>)
    requires suffix != "" && (suffix[0] == '-' || suffix[0] == '+')
    ensures Parse(v + suffix, number) == Parse(v, number)
  {
    CoreIgnoresSuffix(v, suffix);
  }

  lemma {:induction false} CoreIgnoresSuffix(v: string, suffix: string)
    requires suffix != "" && (suffix[0] == '-' || suffix[0] == '+')
    ensures Core(v + suffix) == Core(v)
  {
    if v == "" {
      assert v + suffix == suffix;
    } else {
      assert (v + suffix)[1..] == v[1..] + suffix;
      CoreIgnoresSuffix(v[1..], suffix);
    }
  }

  // ---- Joined segments ------------------------------------------------------

  /** Text of one segment: no dot, and no start of a suffix. */
  predicate SegmentText(s: string) { '.' !in s && '-' !in s && '+' !in s }

  lemma {:induction false} JoinedHasNoSuffix(texts: seq<string>)
    requires forall t :: t in texts ==> SegmentText(t)
    ensures '-' !in Separated.Join(texts, '.') && '+' !in Separated.Join(texts, '.')
  {
    if texts != [] {
      assert texts[0] in texts;
      JoinedHasNoSuffix(texts[1..]);
    }
  }

  lemma {:induction false} CoreOfNoSuffix(v: string)
    requires '-' !in v && '+' !in v
    ensures Core(v) == v
  {
    if v != "" {
      assert v[0] in v && forall c :: c in v[1..] ==> c in v;
      CoreOfNoSuffix(v[1..]);
      assert [v[0]] + v[1..] == v;
    }
  }

  /** Every segment is parsed, in its place; one that is no number counts as 0. */
  lemma ParsesEverySegment(texts: seq<string>, suffix: string, number: string -> Option<int>)
    requires texts != [] && forall t :: t in texts ==> SegmentText(t)
    requires suffix != "" ==> suffix[0] == '-' || suffix[0] == '+'
    ensures var parsed := Parse(Separated.Join(texts, '.') + suffix, number);
            && |parsed| == |texts|
            && forall k :: 0 <= k < |texts| ==> parsed[k] == if number(texts[k]).Some? then number(texts[k]).value else 0
  {
    var v := Separated.Join(texts, '.');
    JoinedHasNoSuffix(texts);
    CoreOfNoSuffix(v);
    if suffix == "" { assert v + suffix == v; } else { CoreIgnoresSuffix(v, suffix); }
    Separated.SplitJoin(texts, '.');
  }

  /**
   On version texts the method compares the lists of their numbers: the candidate is
   newer exactly if at some place its number is larger and all before are equal,
   places that are missing counting 0, whatever the suffixes.
   */
  lemma ComparesTheNumbers(xs: seq<string>, xSuffix: string, ys: seq<string>, ySuffix: string, number: string -> Option<int>)
    requires xs != [] && ys != [] && forall t :: t in xs + ys ==> SegmentText(t)
    requires xSuffix != "" ==> xSuffix[0] == '-' || xSuffix[0] == '+'
    requires ySuffix != "" ==> ySuffix[0] == '-' || ySuffix[0] == '+'
    ensures Newer(Parse(Separated.Join(xs, '.') + xSuffix, number), Parse(Separated.Join(ys, '.') + ySuffix, number)) <==>
            exists i: nat ::
              && NumberAt(xs, i, number) > NumberAt(ys, i, number)
              && forall k :: 0 <= k < i ==> NumberAt(xs, k, number) == NumberAt(ys, k, number)
  {
    forall t | t in xs ensures SegmentText(t) { assert t in xs + ys; }
    forall t | t in ys ensures SegmentText(t) { assert t in xs + ys; }
    ParsesEverySegment(xs, xSuffix, number);
    ParsesEverySegment(ys, ySuffix, number);
    var a, b := Parse(Separated.Join(xs, '.') + xSuffix, number), Parse(Separated.Join(ys, '.') + ySuffix, number);
    assert forall i: nat :: SegmentAt(a, i) == NumberAt(xs, i, number) && SegmentAt(b, i) == NumberAt(ys, i, number);
    forall i: nat
      ensures NewerAt(a, b, i) <==>
              (NumberAt(xs, i, number) > NumberAt(ys, i, number)
               && forall k :: 0 <= k < i ==> NumberAt(xs, k, number) == NumberAt(ys, k, number))
    {
    }
  }

  /** The number written at place `i`, 0 if there is none. */
  function NumberAt(texts: seq<string>, i: nat, number: string -> Option<int>): int {
    if i >= |texts| then 0 else if number(texts[i]).None? then 0 else number(texts[i]).value
  }

  /** A tag with no number in it is an update exactly when the running version's first segment that counts is negative. */
  lemma MalformedTagIsNewerExactly(tag: string, current: string, number: string -> Option<int>)
    requires forall segment :: segment in Separated.Split(Core(tag), '.') ==> number(segment).None?
    ensures Newer(Parse(tag, number), Parse(current, number)) <==> StartsNegative(Parse(current, number))
  {
    var zeros, b := Parse(tag, number), Parse(current, number);
    assert forall i: nat :: SegmentAt(zeros, i) == 0;
    SameSegments(zeros, b, [], Stripped(b));
    StrippedStart(b);
    if Stripped(b) != [] { AgainstZero(Stripped(b)); } else { Irreflexive([]); }
  }

  lemma {:induction false} StrippedStart(v: Segments)
    ensures StartsNegative(Stripped(v)) <==> StartsNegative(v)
  {
    if v != [] && v[|v| - 1] == 0 {
      DropZero(v);
      StrippedStart(v[..|v| - 1]);
    }
  }

  lemma {:induction false} DropZero(v: Segments)
    requires v != [] && v[|v| - 1] == 0
    ensures StartsNegative(v[..|v| - 1]) <==> StartsNegative(v)
  {
    if |v| > 1 {
      assert v[1..][..|v| - 2] == v[..|v| - 1][1..];
      DropZero(v[1..]);
    }
  }

  // ---- Where lexicographic order and the promise about tags fail ------------

  /** 64 one bits, which parse to the signed value -1. */
  const ALL_ONES := "0xFFFFFFFFFFFFFFFF"

  /** The numbers the two runs below parse. */
  function SampleNumber(segment: string): Option<int> {
    if segment == ALL_ONES then Some(-1) else if segment == "1" then Some(1) else None
  }

  lemma ParsesOne(s: string, number: string -> Option<int>)
    requires SegmentText(s)
    ensures Parse(s, number) == [number(s).GetOrElse(0)]
  {
    ParsesEverySegment([s], "", number);
    assert s + "" == s;
  }

  lemma ParsesTwo(t: string, s: string, number: string -> Option<int>)
    requires SegmentText(t) && SegmentText(s)
    ensures Parse(t + ['.'] + s, number) == [number(t).GetOrElse(0), number(s).GetOrElse(0)]
  {
    ParsesEverySegment([t, s], "", number);
    assert [t, s][1..] == [s];
    assert Separated.Join([t, s], '.') + "" == t + ['.'] + s;
  }

  /** The tag "x" is an update of version 0xFFFFFFFFFFFFFFFF. */
  lemma AMalformedTagNags()
    ensures Newer(Parse("x", SampleNumber), Parse(ALL_ONES, SampleNumber))
  {
    ParsesOne("x", SampleNumber);
    ParsesOne(ALL_ONES, SampleNumber);
    assert NewerAt([0], [-1], 0);
  }

  /** Version 1 is an update of 1.0xFFFFFFFFFFFFFFFF, although it is a proper prefix of it. */
  lemma APrefixIsNewer()
    ensures var a, b := Parse("1", SampleNumber), Parse("1" + "." + ALL_ONES, SampleNumber);
            Newer(a, b) && Less(Stripped(a), Stripped(b)) && !Less(Stripped(b), Stripped(a))
  {
    ParsesOne("1", SampleNumber);
    ParsesTwo("1", ALL_ONES, SampleNumber);
    assert NewerAt([1], [1, -1], 1);
    assert Stripped([1]) == [1] && Stripped([1, -1]) == [1, -1];
  }
}
