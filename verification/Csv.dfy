/**
 The comma-joined lists that cross the C ABI between the Kotlin monitor and the
 Go engine: `joinToString(",")` on one side, `strings.Split` plus
 `strings.TrimSpace` on the other.
 */
module Csv {
  import Separated

  /** The characters that strings.TrimSpace removes (Unicode White_Space). */
  predicate IsSpace(c: char) {
    var n := c as int;
    || 9 <= n <= 13 || n == 0x20 || n == 0x85 || n == 0xA0 || n == 0x1680
    || 0x2000 <= n <= 0x200A || n == 0x2028 || n == 0x2029 || n == 0x202F
    || n == 0x205F || n == 0x3000
  }

  /** The code points with the Unicode property White_Space. */
  const WHITE_SPACE: set<int> := {
    0x09, 0x0A, 0x0B, 0x0C, 0x0D, 0x20, 0x85, 0xA0, 0x1680, 0x2000, 0x2001, 0x2002, 0x2003, 0x2004, 0x2005,
    0x2006, 0x2007, 0x2008, 0x2009, 0x200A, 0x2028, 0x2029, 0x202F, 0x205F, 0x3000}

  lemma SpacesAreWhiteSpace(c: char)
    ensures IsSpace(c) <==> c as int in WHITE_SPACE
  {
  }

  function TrimLeft(s: string): string {
    if s != [] && IsSpace(s[0]) then TrimLeft(s[1..]) else s
  }

  function TrimRight(s: string): string {
    if s != [] && IsSpace(s[|s| - 1]) then TrimRight(s[..|s| - 1]) else s
  }

  function Trim(s: string): string { TrimRight(TrimLeft(s)) }

  /** joinToString(","). */
  function Join(items: seq<string>): string { Separated.Join(items, ',') }

  /** strings.Split(s, ","). */
  function Split(s: string): (parts: seq<string>)
    ensures parts != []
  {
    Separated.Split(s, ',')
  }

  /** The trimmed, non-empty parts, in order. */
  function Kept(parts: seq<string>): seq<string> {
    if parts == [] then []
    else
      var p := Trim(parts[0]);
      (if p == "" then [] else [p]) + Kept(parts[1..])
  }

  /** What the Go side reads out of one comma-joined field. */
  function Items(csv: string): seq<string> {
    if csv == "" then [] else Kept(Split(csv))
  }

  /** The order-preserving subsequence of the items that `parses` accepts. */
  function Filter(items: seq<string>, parses: string -> bool): seq<string> {
    if items == [] then []
    else (if parses(items[0]) then [items[0]] else []) + Filter(items[1..], parses)
  }

  /** An item that survives the bridge: not empty, no comma, nothing to trim. */
  predicate Clean(item: string) {
    item != "" && ',' !in item && Trim(item) == item
  }

  // ---- The Go loops ---------------------------------------------------------

  method SplitNonEmpty(csv: string) returns (out: seq<string>)
    ensures out == Items(csv)
  {
    if csv == "" { return []; }
    var parts := Split(csv);
    out := [];
    ghost var all := Kept(parts);
    assert parts[0..] == parts;
    for i := 0 to |parts|
      invariant out + Kept(parts[i..]) == all
    {
      var p := Trim(parts[i]);
      KeptStep(parts, i);
      if p != "" {
        Regroup(out, p, Kept(parts[i + 1..]));
        out := out + [p];
      }
    }
  }

  method ParsePrefixes(csv: string, parses: string -> bool) returns (out: seq<string>)
    ensures out == Filter(Items(csv), parses)
  {
    if csv == "" { return []; }
    var parts := Split(csv);
    out := [];
    ghost var all := Filter(Kept(parts), parses);
    assert parts[0..] == parts;
    for i := 0 to |parts|
      invariant out + Filter(Kept(parts[i..]), parses) == all
    {
      var p := Trim(parts[i]);
      KeptStep(parts, i);
      if p == "" { continue; }
      FilterCons(p, Kept(parts[i + 1..]), parses);
      if parses(p) {
        Regroup(out, p, Filter(Kept(parts[i + 1..]), parses));
        out := out + [p];
      }
    }
  }

  lemma Regroup(a: seq<string>, x: string, b: seq<string>)
    ensures a + ([x] + b) == a + [x] + b
  {
  }

  lemma KeptStep(parts: seq<string>, i: nat)
    requires i < |parts|
    ensures var p, rest := Trim(parts[i]), Kept(parts[i + 1..]);
            Kept(parts[i..]) == if p == "" then rest else [p] + rest
  {
    assert parts[i..][1..] == parts[i + 1..];
  }

  lemma FilterCons(x: string, rest: seq<string>, parses: string -> bool)
    ensures var tail := Filter(rest, parses);
            Filter([x] + rest, parses) == if parses(x) then [x] + tail else tail
  {
    assert ([x] + rest)[1..] == rest;
  }

  // ---- What is trimmed and kept ----------------------------------------------

  predicate AllSpace(s: string) { forall c :: c in s ==> IsSpace(c) }

  lemma {:induction false} TrimLeftExactly(s: string)
    ensures var t := TrimLeft(s);
            |t| <= |s| && s[|s| - |t|..] == t && AllSpace(s[..|s| - |t|]) && (t != "" ==> !IsSpace(t[0]))
  {
    if s != "" && IsSpace(s[0]) {
      TrimLeftExactly(s[1..]);
      var t := TrimLeft(s);
      assert s[..|s| - |t|] == [s[0]] + s[1..][..|s| - 1 - |t|];
    }
  }

  lemma {:induction false} TrimRightExactly(s: string)
    ensures var t := TrimRight(s);
            t <= s && AllSpace(s[|t|..]) && (t != "" ==> !IsSpace(t[|t| - 1]))
  {
    if s != "" && IsSpace(s[|s| - 1]) {
      TrimRightExactly(s[..|s| - 1]);
      var t := TrimRight(s);
      assert s[|t|..] == s[..|s| - 1][|t|..] + [s[|s| - 1]];
    }
  }

  /** Trimming takes spaces off both ends, all of them, and nothing else. */
  lemma TrimExactly(s: string)
    ensures exists a: string, b: string ::
              s == a + Trim(s) + b && AllSpace(a) && AllSpace(b)
    ensures Trim(s) != "" ==> !IsSpace(Trim(s)[0]) && !IsSpace(Trim(s)[|Trim(s)| - 1])
  {
    TrimLeftExactly(s);
    var l := TrimLeft(s);
    TrimRightExactly(l);
    var t := Trim(s);
    assert s == s[..|s| - |l|] + t + l[|t|..];
  }

  /** What one piece contributes. */
  function KeptPiece(x: string): seq<string> { if Trim(x) == "" then [] else [Trim(x)] }

  lemma KeptCons(x: string, rest: seq<string>)
    ensures Kept([x] + rest) == KeptPiece(x) + Kept(rest)
  {
    assert ([x] + rest)[1..] == rest;
  }

  lemma Reassociate(a: seq<string>, b: seq<string>, c: seq<string>)
    ensures (a + b) + c == a + (b + c)
  {
  }

  lemma {:induction false} KeptAppend(a: seq<string>, b: seq<string>)
    ensures Kept(a + b) == Kept(a) + Kept(b)
  {
    if a == [] {
      assert a + b == b;
    } else {
      var x, rest := a[0], a[1..];
      KeptAppend(rest, b);
      assert a + b == [x] + (rest + b) && a == [x] + rest;
      KeptCons(x, rest + b);
      KeptCons(x, rest);
      Reassociate(KeptPiece(x), Kept(rest), Kept(b));
    }
  }

  lemma BlankExactly(x: string)
    ensures Trim(x) == "" <==> AllSpace(x)
  {
    TrimExactly(x);
    if Trim(x) != "" {
      var a, b :| x == a + Trim(x) + b && AllSpace(a) && AllSpace(b);
      assert x[|a|] == Trim(x)[0] && x[|a|] in x;
    }
  }

  /** Of any comma-free pieces the engine reads exactly the trimmed ones that are not blank, piece by piece. */
  lemma ItemsPieceByPiece(a: seq<string>, x: string, b: seq<string>)
    requires a + [x] + b != [""]
    requires forall y :: y in a + [x] + b ==> ',' !in y
    ensures Items(Join(a + [x] + b)) == Kept(a) + (if AllSpace(x) then [] else [Trim(x)]) + Kept(b)
  {
    var all := a + [x] + b;
    Separated.SplitJoin(all, ',');
    PiecesAreSomething(all);
    assert all == a + ([x] + b);
    KeptAppend(a, [x] + b);
    KeptCons(x, b);
    BlankExactly(x);
    Reassociate(Kept(a), KeptPiece(x), Kept(b));
  }

  /** Only the list of one empty piece joins to nothing. */
  lemma PiecesAreSomething(pieces: seq<string>)
    requires pieces != [] && pieces != [""]
    ensures Join(pieces) != ""
  {
  }

  /** Every clean list survives the join, split and trim unchanged. */
  lemma {:induction false} RoundTrip(items: seq<string>)
    requires forall x :: x in items ==> Clean(x)
    ensures Items(Join(items)) == items
  {
    if items != [] {
      assert items[0] in items;
      JoinNotEmpty(items);
      Separated.SplitJoin(items, ',');
      KeptClean(items);
    }
  }

  lemma {:induction false} JoinNotEmpty(items: seq<string>)
    requires items != [] && items[0] != ""
    ensures Join(items) != ""
  {
    assert |Join(items)| >= |items[0]|;
  }

  lemma {:induction false} KeptClean(items: seq<string>)
    requires forall x :: x in items ==> Clean(x)
    ensures Kept(items) == items
  {
    if items != [] {
      assert Clean(items[0]);
      KeptClean(items[1..]);
    }
  }

  /** Text without any space is left alone by the trim. */
  lemma {:induction false} NothingToTrim(s: string)
    requires forall c :: c in s ==> !IsSpace(c)
    ensures Trim(s) == s
  {
    if s != "" {
      assert s[0] in s && s[|s| - 1] in s;
    }
  }

  /** Exactly the accepted items come through, and in the order they were sent. */
  lemma {:induction false} FilterSelects(items: seq<string>, parses: string -> bool, x: string)
    ensures x in Filter(items, parses) <==> x in items && parses(x)
  {
    if items != [] { FilterSelects(items[1..], parses, x); }
  }

  lemma {:induction false} FilterAppend(a: seq<string>, b: seq<string>, parses: string -> bool)
    ensures Filter(a + b, parses) == Filter(a, parses) + Filter(b, parses)
  {
    if a == [] {
      assert a + b == b;
    } else {
      var head, tail := a[0], a[1..];
      FilterAppend(tail, b, parses);
      assert a + b == [head] + (tail + b) && a == [head] + tail;
      FilterCons(head, tail + b, parses);
      FilterCons(head, tail, parses);
      assert forall x, y, z: seq<string> :: (x + y) + z == x + (y + z);
    }
  }

  lemma FilterOne(x: string, parses: string -> bool)
    ensures Filter([x], parses) == if parses(x) then [x] else []
  {
    assert [x][1..] == [];
  }

  /** Of two items that parse, the one sent first comes through first. */
  lemma FilterKeepsOrder(a: seq<string>, x: string, b: seq<string>, y: string, c: seq<string>, parses: string -> bool)
    requires parses(x) && parses(y)
    ensures Filter(a + [x] + b + [y] + c, parses) == Filter(a, parses) + [x] + Filter(b, parses) + [y] + Filter(c, parses)
  {
    FilterAppend(a + [x] + b + [y], c, parses);
    FilterAppend(a + [x] + b, [y], parses);
    FilterAppend(a + [x], b, parses);
    FilterAppend(a, [x], parses);
    FilterOne(x, parses);
    FilterOne(y, parses);
  }
}
