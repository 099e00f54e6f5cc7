/**
 Newline framing over a byte stream that arrives in arbitrary chunks: the
 read-and-cut loop of the pipe worker, and what it delivers for every chunking.
 */
module LineFraming {

  type Byte = n: int | 0 <= n < 256

  type Bytes = seq<Byte>

  const NEWLINE: Byte := 0x0A

  /** One pass of the worker's loop: a line, a closed pipe, or still blocked in ReadFile. */
  datatype Cut =
    | Line(line: Bytes, leftover: Bytes, rest: seq<Bytes>)
    | Closed(leftover: Bytes, rest: seq<Bytes>)
    | Blocked(leftover: Bytes)

  /** indexOf(0x0A), or the length when there is none. */
  function NewlineAt(b: Bytes): (i: nat)
    ensures i <= |b| && NEWLINE !in b[..i]
    ensures i < |b| ==> b[i] == NEWLINE
  {
    if b == [] || b[0] == NEWLINE then 0 else 1 + NewlineAt(b[1..])
  }

  function Flatten(chunks: seq<Bytes>): Bytes {
    if chunks == [] then [] else chunks[0] + Flatten(chunks[1..])
  }

  /** The stream a sequence of lines makes on the wire. */
  function Unlines(lines: seq<Bytes>): Bytes {
    if lines == [] then [] else lines[0] + [NEWLINE] + Unlines(lines[1..])
  }

  /** The loop as a function: `chunks` are the coming ReadFile results, an empty one a failed read. */
  function ReadLine(leftover: Bytes, chunks: seq<Bytes>): Cut
    decreases |chunks|
  {
    var nl := NewlineAt(leftover);
    if nl < |leftover| then Line(leftover[..nl], leftover[nl + 1..], chunks)
    else if chunks == [] then Blocked(leftover)
    else if chunks[0] == [] then Closed(leftover, chunks[1..])
    else ReadLine(leftover + chunks[0], chunks[1..])
  }

  class PipeWorker {
    var leftover: Bytes

    constructor ()
      ensures leftover == []
    {
      leftover := [];
    }

    /** Reads until `leftover` holds a whole line, then cuts that line off. */
    method ReadReply(chunks: seq<Bytes>) returns (r: Cut)
      modifies this
      ensures r == ReadLine(old(leftover), chunks)
      ensures leftover == r.leftover
    {
      var next := 0;
      var nl := NewlineAt(leftover);
      assert chunks[0..] == chunks;
      while nl == |leftover|
        invariant next <= |chunks| && nl == NewlineAt(leftover)
        invariant ReadLine(leftover, chunks[next..]) == ReadLine(old(leftover), chunks)
        decreases |chunks| - next
      {
        if next == |chunks| { return Blocked(leftover); }
        var got := chunks[next];
        assert chunks[next..][1..] == chunks[next + 1..];
        next := next + 1;
        if got == [] { return Closed(leftover, chunks[next..]); }
        leftover := leftover + got;
        nl := NewlineAt(leftover);
      }
      r := Line(leftover[..nl], leftover[nl + 1..], chunks[next..]);
      leftover := leftover[nl + 1..];
    }
  }

  // ---- Framing does not depend on the chunking ------------------------------

  lemma {:induction false} NewlineEndsLine(line: Bytes, rest: Bytes)
    requires NEWLINE !in line
    ensures NewlineAt(line + [NEWLINE] + rest) == |line|
  {
    var b := line + [NEWLINE] + rest;
    if line != [] {
      NewlineEndsLine(line[1..], rest);
      assert b[1..] == line[1..] + [NEWLINE] + rest;
      assert line[0] in line;
    }
  }

  lemma NoNewlineYet(b: Bytes)
    requires NEWLINE !in b
    ensures NewlineAt(b) == |b|
  {
  }

  /** If what is buffered and coming starts with `line` and a newline, that line is what is cut. */
  lemma {:induction false} ReadsTheFirstLine(leftover: Bytes, chunks: seq<Bytes>, line: Bytes, rest: Bytes)
    requires NEWLINE !in line && [] !in chunks
    requires leftover + Flatten(chunks) == line + [NEWLINE] + rest
    ensures var c := ReadLine(leftover, chunks);
            c.Line? && c.line == line && c.leftover + Flatten(c.rest) == rest && [] !in c.rest
    decreases |chunks|
  {
    var stream := line + [NEWLINE] + rest;
    if |leftover| > |line| {
      assert leftover == stream[..|leftover|];
      var tail := leftover[|line| + 1..];
      assert leftover == line + [NEWLINE] + tail;
      NewlineEndsLine(line, tail);
      assert stream == line + [NEWLINE] + (tail + Flatten(chunks));
      assert stream[|line| + 1..] == rest && stream[|line| + 1..] == tail + Flatten(chunks);
    } else {
      assert leftover == stream[..|leftover|] && leftover == line[..|leftover|];
      NoNewlineYet(leftover);
      assert chunks != [];
      assert chunks[0] in chunks && forall c :: c in chunks[1..] ==> c in chunks;
      assert (leftover + chunks[0]) + Flatten(chunks[1..]) == leftover + Flatten(chunks);
      ReadsTheFirstLine(leftover + chunks[0], chunks[1..], line, rest);
    }
  }

  /** `n` passes of the loop: the lines delivered so far. */
  function Deliver(leftover: Bytes, chunks: seq<Bytes>, n: nat): seq<Bytes>
    decreases n
  {
    if n == 0 then []
    else
      match ReadLine(leftover, chunks)
      case Line(line, left, rest) => [line] + Deliver(left, rest, n - 1)
      case Closed(_, _) => []
      case Blocked(_) => []
  }

  /** For every chunking of the same stream the reader delivers exactly the lines that were sent. */
  lemma {:induction false} EveryChunkingDelivers(leftover: Bytes, chunks: seq<Bytes>, lines: seq<Bytes>, rest: Bytes)
    requires [] !in chunks && forall l :: l in lines ==> NEWLINE !in l
    requires leftover + Flatten(chunks) == Unlines(lines) + rest
    ensures Deliver(leftover, chunks, |lines|) == lines
    decreases |lines|
  {
    if lines != [] {
      assert lines[0] in lines;
      var after := Unlines(lines[1..]) + rest;
      assert Unlines(lines) + rest == lines[0] + [NEWLINE] + after;
      ReadsTheFirstLine(leftover, chunks, lines[0], after);
      var c := ReadLine(leftover, chunks);
      EveryChunkingDelivers(c.leftover, c.rest, lines[1..], rest);
    }
  }
}
