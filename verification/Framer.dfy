/** The chat adapter's reader of a child's standard output: interim text frames are passed on live, every other line is
    kept as the final answer, and both count against one cap. Which lines are frames is a parameter. */
module Framer {
  import opened Common
  import opened Utf8

  const LF: Byte := 10
  const CR: Byte := 13

  datatype Event = TextDelta(text: seq<Byte>) | MessageCompleted

  type Parser = seq<Byte> -> Option<Event>

  // What the whole stream means, however it was cut into reads.

  /** The position of the first line feed, or the length when there is none. */
  function FirstBreak(s: seq<Byte>): (i: nat)
    ensures i <= |s|
    ensures forall k :: 0 <= k < i ==> s[k] != LF
    ensures i < |s| ==> s[i] == LF
  {
    if s == [] || s[0] == LF then 0 else 1 + FirstBreak(s[1..])
  }

  /** The line without one trailing carriage return. */
  function Chomp(line: seq<Byte>): seq<Byte> {
    if line != [] && line[|line| - 1] == CR then line[..|line| - 1] else line
  }

  /** The terminated lines of a stream. */
  function Lines(s: seq<Byte>): seq<seq<Byte>>
    decreases |s|
  {
    var i := FirstBreak(s);
    if i == |s| then [] else [Chomp(s[..i])] + Lines(s[i + 1..])
  }

  /** What follows the last line feed. */
  function Rest(s: seq<Byte>): seq<Byte>
    decreases |s|
  {
    var i := FirstBreak(s);
    if i == |s| then s else Rest(s[i + 1..])
  }

  /** All lines; an unterminated last one keeps its carriage return. */
  function AllLines(s: seq<Byte>): seq<seq<Byte>> {
    Lines(s) + (if Rest(s) == [] then [] else [Rest(s)])
  }

  function Answer(lines: seq<seq<Byte>>, frame: Parser): seq<Byte> {
    if lines == [] then []
    else
      var last := lines[|lines| - 1];
      Answer(lines[..|lines| - 1], frame) + (if frame(last).None? then last + [LF] else [])
  }

  function Events(lines: seq<seq<Byte>>, frame: Parser): seq<Option<Event>> {
    if lines == [] then []
    else
      var last := lines[|lines| - 1];
      Events(lines[..|lines| - 1], frame) + (if frame(last).None? then [] else [frame(last)])
  }

  /** The bytes that count against the cap: every line with its line feed, frames included. */
  function Size(lines: seq<seq<Byte>>): nat {
    if lines == [] then 0 else Size(lines[..|lines| - 1]) + |lines[|lines| - 1]| + 1
  }

  function Concat(chunks: seq<seq<Byte>>): seq<Byte> {
    if chunks == [] then [] else Concat(chunks[..|chunks| - 1]) + chunks[|chunks| - 1]
  }

  /** What the reader holds against the cap after these bytes: complete lines, frames included, and pending bytes. */
  function Load(s: seq<Byte>): nat {
    Size(Lines(s)) + |Rest(s)|
  }

  /** This read finds too much: what was kept, what was pending and the chunk itself. */
  predicate Bursts(chunks: seq<seq<Byte>>, i: nat, cap: nat)
    requires i < |chunks|
  {
    Load(Concat(chunks[..i])) + |chunks[i]| > cap
  }

  /** The reader gives up: at some read, or because of the line feed it adds to an unterminated last line. */
  ghost predicate Overflows(chunks: seq<seq<Byte>>, cap: nat) {
    || (exists i :: 0 <= i < |chunks| && Bursts(chunks, i, cap))
    || Size(AllLines(Concat(chunks))) > cap
  }

  /** How many terminated lines ended in a carriage return. */
  function Stripped(s: seq<Byte>): nat
    decreases |s|
  {
    var i := FirstBreak(s);
    if i == |s| then 0 else (if i > 0 && s[i - 1] == CR then 1 else 0) + Stripped(s[i + 1..])
  }

  lemma {:induction false} SizeAppend(a: seq<seq<Byte>>, b: seq<seq<Byte>>)
    ensures Size(a + b) == Size(a) + Size(b)
    decreases |b|
  {
    if b == [] {
      assert a + b == a;
    } else {
      assert (a + b)[..|a + b| - 1] == a + b[..|b| - 1];
      SizeAppend(a, b[..|b| - 1]);
    }
  }

  /** Kept and pending bytes are the bytes read, less the stripped carriage returns. */
  lemma {:induction false} SizeExact(s: seq<Byte>)
    ensures Load(s) + Stripped(s) == |s|
    decreases |s|
  {
    var i := FirstBreak(s);
    if i < |s| {
      var line := Chomp(s[..i]);
      SizeExact(s[i + 1..]);
      SizeAppend([line], Lines(s[i + 1..]));
      assert Size([line]) == |line| + 1 by {
        var none: seq<seq<Byte>> := [];
        assert [line][..0] == none;
      }
    }
  }

  lemma FirstBreakIs(s: seq<Byte>, i: nat)
    requires i <= |s| && (forall k :: 0 <= k < i ==> s[k] != LF) && (i < |s| ==> s[i] == LF)
    ensures FirstBreak(s) == i
  {
  }

  lemma OneLine(s: seq<Byte>, i: nat)
    requires i < |s| && (forall k :: 0 <= k < i ==> s[k] != LF) && s[i] == LF
    ensures Lines(s) == [Chomp(s[..i])] + Lines(s[i + 1..]) && Rest(s) == Rest(s[i + 1..])
    ensures Stripped(s) == (if i > 0 && s[i - 1] == CR then 1 else 0) + Stripped(s[i + 1..])
  {
    FirstBreakIs(s, i);
  }

  lemma NoLine(s: seq<Byte>)
    requires FirstBreak(s) == |s|
    ensures Lines(s) == [] && Rest(s) == s && Stripped(s) == 0
  {
  }

  /** Splitting can be resumed from the pending bytes: this is why the cut into chunks cannot be seen. */
  lemma {:induction false} SplitResumes(s: seq<Byte>, t: seq<Byte>)
    ensures Lines(s + t) == Lines(s) + Lines(Rest(s) + t)
    ensures Rest(s + t) == Rest(Rest(s) + t)
    ensures Stripped(s + t) == Stripped(s) + Stripped(Rest(s) + t)
    decreases |s|
  {
    hide *;
    var i := FirstBreak(s);
    if i < |s| {
      var tail := s[i + 1..];
      OneLine(s, i);
      OneLine(s + t, i);
      assert (s + t)[..i] == s[..i];
      assert (s + t)[i + 1..] == tail + t;
      SplitResumes(tail, t);
      assert [Chomp(s[..i])] + (Lines(tail) + Lines(Rest(tail) + t))
          == ([Chomp(s[..i])] + Lines(tail)) + Lines(Rest(tail) + t);
    } else {
      NoLine(s);
      assert [] + Lines(s + t) == Lines(s + t);
    }
  }

  /** Whatever the chunking: a stream whose lines fit with their carriage returns never overflows, one whose lines do
      not fit without them always does; so without carriage returns the cut into chunks decides nothing. */
  lemma OverflowBounds(chunks: seq<seq<Byte>>, cap: nat)
    ensures var s := Concat(chunks);
            && (Size(AllLines(s)) > cap ==> Overflows(chunks, cap))
            && (Overflows(chunks, cap) ==> Size(AllLines(s)) + Stripped(s) > cap)
            && (Stripped(s) == 0 ==> (Overflows(chunks, cap) <==> |s| + (if Rest(s) == [] then 0 else 1) > cap))
  {
    var s := Concat(chunks);
    SizeExact(s);
    AllSize(s);
    forall i | 0 <= i < |chunks| && Bursts(chunks, i, cap)
      ensures |s| > cap
    {
      BurstIsLong(chunks, i, cap);
    }
  }

  lemma AllSize(s: seq<Byte>)
    ensures Size(AllLines(s)) == Size(Lines(s)) + (if Rest(s) == [] then 0 else |Rest(s)| + 1)
  {
    if Rest(s) == [] {
      assert AllLines(s) == Lines(s);
    } else {
      assert AllLines(s)[..|AllLines(s)| - 1] == Lines(s);
    }
  }

  lemma AllLinesSplit(s: seq<Byte>)
    ensures AllLines(s) == if Rest(s) == [] then Lines(s) else Lines(s) + [Rest(s)]
  {
  }

  lemma BurstIsLong(chunks: seq<seq<Byte>>, i: nat, cap: nat)
    requires i < |chunks| && Bursts(chunks, i, cap)
    ensures |Concat(chunks)| > cap
  {
    SizeExact(Concat(chunks[..i]));
    assert chunks[..i + 1][..i] == chunks[..i];
    PrefixShorter(chunks, i + 1);
  }

  lemma {:induction false} PrefixShorter(chunks: seq<seq<Byte>>, n: nat)
    requires n <= |chunks|
    ensures |Concat(chunks[..n])| <= |Concat(chunks)|
    decreases |chunks|
  {
    if n == |chunks| {
      assert chunks[..n] == chunks;
    } else {
      assert chunks[..|chunks| - 1][..n] == chunks[..n];
      PrefixShorter(chunks[..|chunks| - 1], n);
    }
  }

  class StdoutReader {
    const cap: nat
    const frame: Parser
    var retained: seq<Byte>
    var frameBytes: nat
    var pending: seq<Byte>
    /** What the consumer of events receives; None marks the end. */
    var queue: seq<Option<Event>>

    constructor (cap: nat, frame: Parser)
      ensures this.cap == cap && this.frame == frame
      ensures retained == [] && frameBytes == 0 && pending == [] && queue == []
    {
      this.cap, this.frame := cap, frame;
      retained, frameBytes, pending, queue := [], 0, [], [];
    }

    /** These lines were consumed, and they fit. */
    ghost predicate Has(lines: seq<seq<Byte>>)
      reads this
    {
      && retained == Answer(lines, frame)
      && queue == Events(lines, frame)
      && |retained| + frameBytes == Size(lines) <= cap
    }

    method Consume(line: seq<Byte>, ghost lines: seq<seq<Byte>>) returns (ok: bool)
      requires Has(lines)
      modifies this`retained, this`frameBytes, this`queue
      ensures ok <==> Size(lines + [line]) <= cap
      ensures ok ==> Has(lines + [line])
      ensures !ok ==> Has(lines)
    {
      assert (lines + [line])[..|lines|] == lines;
      if |retained| + frameBytes + |line| + 1 > cap {
        return false;
      }
      var event := frame(line);
      if event.None? {
        retained := retained + line;
        retained := retained + [LF];
        return true;
      }
      frameBytes := frameBytes + |line| + 1;
      queue := queue + [event];
      return true;
    }

    /** Takes every terminated line out of the pending bytes. */
    method Drain(ghost before: seq<seq<Byte>>) returns (ok: bool)
      requires Has(before) && |retained| + frameBytes + |pending| <= cap
      modifies this`retained, this`frameBytes, this`queue, this`pending
      ensures ok && Has(before + Lines(old(pending))) && pending == Rest(old(pending))
      ensures |retained| + frameBytes + |pending| <= cap
    {
      ghost var lines := before;
      assert before + Lines(pending) == lines + Lines(pending);
      var brk := FirstBreak(pending);
      while brk < |pending|
        invariant brk == FirstBreak(pending)
        invariant Has(lines) && |retained| + frameBytes + |pending| <= cap
        invariant lines + Lines(pending) == before + Lines(old(pending))
        invariant Rest(pending) == Rest(old(pending))
        decreases |pending|
      {
        var line := Chomp(pending[..brk]);
        ghost var rest := Lines(pending[brk + 1..]);
        assert lines + ([line] + rest) == (lines + [line]) + rest;
        assert (lines + [line])[..|lines|] == lines;
        pending := pending[brk + 1..];
        ok := Consume(line, lines);
        lines := lines + [line];
        brk := FirstBreak(pending);
      }
      assert lines + Lines(pending) == lines;
      ok := true;
    }

    method ReadChunk(chunk: seq<Byte>, ghost before: seq<Byte>) returns (ok: bool)
      requires Has(Lines(before)) && pending == Rest(before)
      modifies this`retained, this`frameBytes, this`queue, this`pending
      ensures ok <==> Load(before) + |chunk| <= cap
      ensures ok ==> Has(Lines(before + chunk)) && pending == Rest(before + chunk)
      ensures !ok ==> Has(Lines(before))
    {
      hide Lines, Rest, Size, Answer, Events;
      SplitResumes(before, chunk);
      pending := pending + chunk;
      if |retained| + frameBytes + |pending| > cap {
        return false;
      }
      ok := Drain(Lines(before));
      if !ok || |retained| + frameBytes + |pending| > cap {
        assert false;
      }
    }

    /** The end of the stream: an unterminated last line is consumed as it is. */
    method Finish(ghost s: seq<Byte>) returns (answer: Option<seq<Byte>>)
      requires Has(Lines(s)) && pending == Rest(s)
      modifies this`retained, this`frameBytes, this`queue
      ensures answer.None? <==> Size(AllLines(s)) > cap
      ensures answer.Some? ==> Has(AllLines(s)) && answer.value == retained
      ensures answer.None? ==> Has(Lines(s))
    {
      hide Lines, Rest, AllLines, Size, Answer, Events;
      AllLinesSplit(s);
      if pending != [] {
        var ok := Consume(pending, Lines(s));
        if !ok {
          return None;
        }
      }
      answer := Some(retained);
    }

    /** The read loop. */
    method ReadAll(chunks: seq<seq<Byte>>) returns (ok: bool, ghost read: nat)
      requires Has([]) && pending == []
      modifies this`retained, this`frameBytes, this`queue, this`pending
      ensures read <= |chunks| && Has(Lines(Concat(chunks[..read])))
      ensures ok ==> read == |chunks| && pending == Rest(Concat(chunks))
      ensures ok <==> forall n :: 0 <= n < |chunks| ==> !Bursts(chunks, n, cap)
    {
      NothingRead(chunks);
      hide Lines, Rest, AllLines, Size, Answer, Events, Concat, Has, Load;
      for i := 0 to |chunks|
        invariant Has(Lines(Concat(chunks[..i]))) && pending == Rest(Concat(chunks[..i]))
        invariant forall n :: 0 <= n < i ==> !Bursts(chunks, n, cap)
      {
        OneMoreChunk(chunks, i);
        ok := ReadChunk(chunks[i], Concat(chunks[..i]));
        if !ok {
          assert Bursts(chunks, i, cap);
          return ok, i;
        }
      }
      assert chunks[..|chunks|] == chunks;
      return true, |chunks|;
    }

    /** Reads a stream to its end, in whatever chunks it arrives. Without a failure the events and the answer are those
        of splitting the whole stream at its line feeds; it fails exactly when it must by the cap. On a failure too, the
        bytes held stay within the cap, what was passed on belongs to a run of leading lines, and the end is marked. */
    method ReadStdout(chunks: seq<seq<Byte>>) returns (answer: Option<seq<Byte>>)
      requires retained == [] && frameBytes == 0 && pending == [] && queue == []
      requires forall c :: c in chunks ==> c != []
      modifies this
      ensures answer.None? <==> Overflows(chunks, cap)
      ensures var lines := AllLines(Concat(chunks));
              answer.Some? ==> answer.value == Answer(lines, frame) && queue == Events(lines, frame) + [None]
      ensures |retained| + frameBytes <= cap
      ensures answer.None? ==>
                exists n :: 0 <= n <= |chunks| && queue == Events(Lines(Concat(chunks[..n])), frame) + [None]
    {
      hide Lines, Rest, AllLines, Concat, Bursts;
      var ok, read := ReadAll(chunks);
      assert chunks[..|chunks|] == chunks;
      if ok {
        answer := Finish(Concat(chunks));
      } else {
        answer := None;
      }
      queue := queue + [None];
    }
  }

  lemma NothingRead(chunks: seq<seq<Byte>>)
    ensures Lines(Concat(chunks[..0])) == [] && Rest(Concat(chunks[..0])) == []
  {
  }

  lemma OneMoreChunk(chunks: seq<seq<Byte>>, i: nat)
    requires i < |chunks|
    ensures Concat(chunks[..i + 1]) == Concat(chunks[..i]) + chunks[i]
  {
    assert chunks[..i + 1][..i] == chunks[..i];
  }
}
