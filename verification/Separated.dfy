/** Text split at, and joined with, one separator character. */
module Separated {

  function Join(parts: seq<string>, sep: char): string {
    if parts == [] then ""
    else if |parts| == 1 then parts[0]
    else parts[0] + [sep] + Join(parts[1..], sep)
  }

  /** Always at least one part. */
  function Split(s: string, sep: char): (parts: seq<string>)
    ensures parts != []
    ensures forall p :: p in parts ==> sep !in p
  {
    if s == "" then [""]
    else if s[0] == sep then [""] + Split(s[1..], sep)
    else
      var rest := Split(s[1..], sep);
      [[s[0]] + rest[0]] + rest[1..]
  }

  // ---- Join and Split are inverse -------------------------------------------

  /** Split loses nothing: joining the parts gives the text back. */
  lemma {:induction false} JoinSplit(s: string, sep: char)
    ensures Join(Split(s, sep), sep) == s
  {
    if s != "" {
      var rest := Split(s[1..], sep);
      JoinSplit(s[1..], sep);
      assert s == [s[0]] + s[1..];
      if s[0] == sep {
        JoinCons("", rest, sep);
      } else {
        JoinHead(s[0], rest, sep);
      }
    }
  }

  lemma JoinCons(x: string, rest: seq<string>, sep: char)
    requires rest != []
    ensures Join([x] + rest, sep) == x + [sep] + Join(rest, sep)
  {
    assert ([x] + rest)[1..] == rest;
  }

  lemma JoinHead(c: char, parts: seq<string>, sep: char)
    requires parts != []
    ensures Join([[c] + parts[0]] + parts[1..], sep) == [c] + Join(parts, sep)
  {
    if |parts| > 1 {
      JoinCons([c] + parts[0], parts[1..], sep);
    }
  }

  /** A head without the separator, followed by one, is cut off exactly there. */
  lemma {:induction false} SplitHead(item: string, tail: string, sep: char)
    requires sep !in item
    ensures Split(item + [sep] + tail, sep) == [item] + Split(tail, sep)
  {
    var s := item + [sep] + tail;
    if item == "" {
      assert s[1..] == tail;
    } else {
      SplitHead(item[1..], tail, sep);
      assert s[1..] == item[1..] + [sep] + tail;
      assert [item[0]] + item[1..] == item;
    }
  }

  lemma {:induction false} SplitSingle(item: string, sep: char)
    requires sep !in item
    ensures Split(item, sep) == [item]
  {
    if item != "" {
      SplitSingle(item[1..], sep);
      assert [item[0]] + item[1..] == item;
    }
  }

  /** Parts without the separator are found again, all of them and in order: a text has one such list of parts. */
  lemma {:induction false} SplitJoin(parts: seq<string>, sep: char)
    requires parts != []
    requires forall x :: x in parts ==> sep !in x
    ensures Split(Join(parts, sep), sep) == parts
  {
    assert parts[0] in parts;
    if |parts| == 1 {
      SplitSingle(parts[0], sep);
    } else {
      SplitJoin(parts[1..], sep);
      SplitHead(parts[0], Join(parts[1..], sep), sep);
    }
  }
}
