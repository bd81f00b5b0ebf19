/** Shortening old tool output in the summarizer's copy of the history, on character boundaries. */
module Elision {
  import opened Common
  import opened Messages
  import opened Utf8

  datatype EvidencePolicy = EvidencePolicy(keepRecent: nat, headBytes: nat, tailBytes: nat)

  const MARKER_ALLOWANCE: nat := 256

  function Digits(n: nat): Text {
    if n < 10 then [(n + 48) as char] else Digits(n / 10) + [(n % 10 + 48) as char]
  }

  const MARKER_HEAD: Text := "\n[... "
  const MARKER_BYTES: Text := " bytes of older "
  const MARKER_OUTPUT: Text := "tool output elided "
  const MARKER_BEFORE: Text := "before checkpoint "
  const MARKER_SUMMARY: Text := "summarization; "
  const MARKER_JOURNAL: Text := "the session journal "
  const MARKER_KEEPS: Text := "keeps the full text ...]\n"

  function Marker(removed: nat): Text {
    MARKER_HEAD + Digits(removed)
    + MARKER_BYTES + MARKER_OUTPUT + MARKER_BEFORE + MARKER_SUMMARY + MARKER_JOURNAL + MARKER_KEEPS
  }

  predicate Ascii(t: Text) { forall i :: 0 <= i < |t| ==> t[i] as int < 0x80 }

  lemma {:induction false} AsciiBytes(t: Text)
    requires Ascii(t)
    ensures TextBytes(t) == |t|
  {
    if t != [] {
      AsciiBytes(t[1..]);
    }
  }

  function Pow10(k: nat): nat {
    if k == 0 then 1 else 10 * Pow10(k - 1)
  }

  lemma {:induction false} DigitsShort(n: nat, k: nat)
    requires n < Pow10(k + 1)
    ensures |Digits(n)| <= k + 1 && Ascii(Digits(n))
    decreases k
  {
    if n >= 10 && k > 0 {
      DigitsShort(n / 10, k - 1);
    }
  }

  lemma U64HasTwentyDigits()
    ensures U64_MAX < Pow10(20)
  {
    assert Pow10(4) == 10000;
    assert Pow10(8) == 1_0000_0000;
    assert Pow10(12) == 1_0000_0000_0000;
    assert Pow10(16) == 1_0000_0000_0000_0000;
    assert Pow10(20) == 1_0000_0000_0000_0000_0000;
  }

  lemma MarkerStartIsAscii()
    ensures Ascii(MARKER_HEAD) && Ascii(MARKER_BYTES) && Ascii(MARKER_OUTPUT)
    ensures |MARKER_HEAD| + |MARKER_BYTES| + |MARKER_OUTPUT| == 41
  {
  }

  lemma MarkerEndIsAscii()
    ensures Ascii(MARKER_BEFORE) && Ascii(MARKER_SUMMARY) && Ascii(MARKER_JOURNAL) && Ascii(MARKER_KEEPS)
    ensures |MARKER_BEFORE| + |MARKER_SUMMARY| + |MARKER_JOURNAL| + |MARKER_KEEPS| == 78
  {
  }

  lemma MarkerFits(removed: nat)
    requires removed <= U64_MAX
    ensures TextBytes(Marker(removed)) < MARKER_ALLOWANCE
  {
    U64HasTwentyDigits();
    DigitsShort(removed, 19);
    MarkerStartIsAscii();
    MarkerEndIsAscii();
    hide Digits, Pow10;
    AsciiBytes(Marker(removed));
  }

  /** The longest suffix of at most the given number of bytes. */
  function TailText(t: Text, limit: nat): Text {
    if TextBytes(t) <= limit then t else TailText(t[1..], limit)
  }

  /** A head and a tail of the text around a marker that reports the bytes cut; None when the text is short. */
  function Elide(t: Text, policy: EvidencePolicy): Option<(Text, nat)> {
    if TextBytes(t) <= policy.headBytes + policy.tailBytes + MARKER_ALLOWANCE then None
    else
      var head, tail := FloorText(t, policy.headBytes), TailText(t, policy.tailBytes);
      CutBetween(t, policy);
      var removed := TextBytes(t) - TextBytes(head) - TextBytes(tail);
      Some((head + Marker(removed) + tail, removed))
  }

  /** The head is the longest prefix within its limit. */
  lemma {:induction false} FloorIsLongest(t: Text, limit: nat)
    ensures FloorText(t, limit) <= t && TextBytes(FloorText(t, limit)) <= limit
    ensures forall k :: |FloorText(t, limit)| < k <= |t| ==> Offset(t, k) > limit
    decreases |t|
  {
    if t != [] && CharBytes(t[0]) <= limit {
      var rest, left := t[1..], limit - CharBytes(t[0]);
      FloorIsLongest(rest, left);
      assert FloorText(t, limit)[1..] == FloorText(rest, left);
      forall k | |FloorText(t, limit)| < k <= |t| ensures Offset(t, k) > limit {
        assert t[..k][1..] == rest[..k - 1];
        assert Offset(rest, k - 1) > left;
      }
    } else {
      forall k | 0 < k <= |t| ensures Offset(t, k) > limit {
        assert t[..k][0] == t[0];
      }
    }
  }

  /** The tail is the longest suffix within its limit. */
  lemma {:induction false} TailIsLongest(t: Text, limit: nat)
    ensures |TailText(t, limit)| <= |t| && t[|t| - |TailText(t, limit)|..] == TailText(t, limit)
    ensures TextBytes(TailText(t, limit)) <= limit
    ensures forall k :: 0 <= k < |t| - |TailText(t, limit)| ==> TextBytes(t[k..]) > limit
    decreases |t|
  {
    if TextBytes(t) > limit {
      var rest := t[1..];
      TailIsLongest(rest, limit);
      var tail := TailText(rest, limit);
      assert t[|t| - |tail|..] == rest[|rest| - |tail|..];
      forall k | 0 <= k < |t| - |tail| ensures TextBytes(t[k..]) > limit {
        if k > 0 {
          assert t[k..] == rest[k - 1..];
        } else {
          assert t[0..] == t;
        }
      }
    } else {
      assert t[0..] == t;
    }
  }

  /** Head, cut and tail are three consecutive character slices; the cut is longer than any marker. */
  lemma CutBetween(t: Text, policy: EvidencePolicy)
    requires TextBytes(t) > policy.headBytes + policy.tailBytes + MARKER_ALLOWANCE
    ensures var head, tail := FloorText(t, policy.headBytes), TailText(t, policy.tailBytes);
            && |head| + |tail| <= |t|
            && t == head + t[|head|..|t| - |tail|] + tail
            && TextBytes(t) == TextBytes(head) + TextBytes(t[|head|..|t| - |tail|]) + TextBytes(tail)
            && TextBytes(t[|head|..|t| - |tail|]) > MARKER_ALLOWANCE
  {
    var head, tail := FloorText(t, policy.headBytes), TailText(t, policy.tailBytes);
    FloorIsLongest(t, policy.headBytes);
    TailIsLongest(t, policy.tailBytes);
    if |head| + |tail| > |t| {
      assert t[..|head|] == head;
      SplitBytes(t, |t| - |tail|);
      SplitBytes(t, |head|);
      LongerSuffix(t, |t| - |tail|, |head|);
    }
    var cut := t[|head|..|t| - |tail|];
    assert t == head + cut + tail;
    TextBytesConcat(head + cut, tail);
    TextBytesConcat(head, cut);
  }

  lemma SplitBytes(t: Text, k: nat)
    requires k <= |t|
    ensures TextBytes(t) == TextBytes(t[..k]) + TextBytes(t[k..])
  {
    assert t == t[..k] + t[k..];
    TextBytesConcat(t[..k], t[k..]);
  }

  lemma LongerSuffix(t: Text, j: nat, k: nat)
    requires j <= k <= |t|
    ensures TextBytes(t[k..]) <= TextBytes(t[j..])
  {
    assert t[j..] == t[j..k] + t[k..];
    TextBytesConcat(t[j..k], t[k..]);
  }

  lemma PartBytes(head: Text, marker: Text, tail: Text)
    ensures TextBytes(head + marker + tail) == TextBytes(head) + TextBytes(marker) + TextBytes(tail)
  {
    TextBytesConcat(head + marker, tail);
    TextBytesConcat(head, marker);
  }

  /** Elision shortens, reports exactly what it cut, keeps whole characters of both ends, and has nothing left to do
      on its own result. Lengths are those of a 64-bit machine. */
  lemma ElideFacts(t: Text, policy: EvidencePolicy)
    requires TextBytes(t) <= U64_MAX && Elide(t, policy).Some?
    ensures var r := Elide(t, policy).value;
            var head, tail := FloorText(t, policy.headBytes), TailText(t, policy.tailBytes);
            && |head| + |tail| <= |t|
            && r.0 == head + Marker(r.1) + tail
            && t == head + t[|head|..|t| - |tail|] + tail && r.1 == TextBytes(t[|head|..|t| - |tail|])
            && TextBytes(r.0) == TextBytes(t) - r.1 + TextBytes(Marker(r.1))
            && TextBytes(r.0) < TextBytes(t)
    ensures Elide(Elide(t, policy).value.0, policy).None?
  {
    var head, tail := FloorText(t, policy.headBytes), TailText(t, policy.tailBytes);
    CutBetween(t, policy);
    FloorIsLongest(t, policy.headBytes);
    TailIsLongest(t, policy.tailBytes);
    hide Marker, FloorText, TailText, TextBytes, MARKER_ALLOWANCE;
    var removed := TextBytes(t[|head|..|t| - |tail|]);
    MarkerFits(removed);
    PartBytes(head, Marker(removed), tail);
  }

  /** The character position of a byte boundary. */
  function CharIndex(t: Text, i: nat): nat {
    if t == [] || i < CharBytes(t[0]) then 0 else 1 + CharIndex(t[1..], i - CharBytes(t[0]))
  }

  lemma {:induction false} CharIndexAt(t: Text, i: nat)
    requires i <= |EncodeAll(t)| && IsBoundary(EncodeAll(t), i)
    ensures CharIndex(t, i) <= |t| && Offset(t, CharIndex(t, i)) == i
  {
    var k := BoundaryIsOffset(t, i);
    CharIndexOfOffset(t, k);
  }

  lemma {:induction false} CharIndexOfOffset(t: Text, k: nat)
    requires k <= |t|
    ensures CharIndex(t, Offset(t, k)) == k
  {
    if k > 0 {
      assert t[..k][1..] == t[1..][..k - 1];
      CharIndexOfOffset(t[1..], k - 1);
    }
  }

  lemma OffsetOrder(t: Text, j: nat, k: nat)
    requires j < k <= |t|
    ensures Offset(t, j) < Offset(t, k)
  {
    OffsetSplit(t, j, k);
  }

  /** The largest byte boundary within the limit cuts off the longest prefix within it. */
  lemma HeadCut(t: Text, limit: nat, i: nat)
    requires i <= limit && i <= |EncodeAll(t)| && IsBoundary(EncodeAll(t), i)
    requires forall b :: i < b <= limit && b <= |EncodeAll(t)| ==> !IsBoundary(EncodeAll(t), b)
    ensures CharIndex(t, i) <= |t| && t[..CharIndex(t, i)] == FloorText(t, limit)
  {
    var f := |FloorText(t, limit)|;
    CharIndexAt(t, i);
    var k := CharIndex(t, i);
    FloorIsLongest(t, limit);
    assert t[..f] == FloorText(t, limit);
    OffsetIsBoundary(t, f);
    if k < f {
      OffsetOrder(t, k, f);
    }
  }

  /** The smallest byte boundary from which at most the limit remains starts the longest suffix within it. */
  lemma TailCut(t: Text, limit: nat, i: nat)
    requires limit <= |EncodeAll(t)| && |EncodeAll(t)| - limit <= i <= |EncodeAll(t)| && IsBoundary(EncodeAll(t), i)
    requires forall b :: |EncodeAll(t)| - limit <= b < i ==> !IsBoundary(EncodeAll(t), b)
    ensures CharIndex(t, i) <= |t| && t[CharIndex(t, i)..] == TailText(t, limit)
  {
    var f := |t| - |TailText(t, limit)|;
    CharIndexAt(t, i);
    var k := CharIndex(t, i);
    TailIsLongest(t, limit);
    SplitBytes(t, f);
    SplitBytes(t, k);
    OffsetIsBoundary(t, f);
    if f < k {
      OffsetOrder(t, f, k);
    }
  }

  lemma CutsAgree(t: Text, policy: EvidencePolicy, headEnd: nat, tailStart: nat)
    requires |EncodeAll(t)| > policy.headBytes + policy.tailBytes + MARKER_ALLOWANCE
    requires headEnd < tailStart <= |EncodeAll(t)|
    requires IsBoundary(EncodeAll(t), headEnd) && IsBoundary(EncodeAll(t), tailStart)
    requires CharIndex(t, headEnd) <= |t| && t[..CharIndex(t, headEnd)] == FloorText(t, policy.headBytes)
    requires CharIndex(t, tailStart) <= |t| && t[CharIndex(t, tailStart)..] == TailText(t, policy.tailBytes)
    ensures Elide(t, policy) ==
            Some((t[..CharIndex(t, headEnd)] + Marker(tailStart - headEnd) + t[CharIndex(t, tailStart)..],
                  tailStart - headEnd))
  {
    CharIndexAt(t, headEnd);
    CharIndexAt(t, tailStart);
    SplitBytes(t, CharIndex(t, tailStart));
    hide Marker, FloorText, TailText, TextBytes, EncodeAll, CharIndex, IsBoundary;
  }

  /** The byte-level search for the two cut points gives those two slices. */
  method ElideText(t: Text, policy: EvidencePolicy) returns (r: Option<(Text, nat)>)
    ensures r == Elide(t, policy)
  {
    var bytes := EncodeAll(t);
    if |bytes| <= policy.headBytes + policy.tailBytes + MARKER_ALLOWANCE {
      return None;
    }
    hide Marker, FloorText, TailText, TextBytes, EncodeAll, CharIndex, IsBoundary, Elide;
    var headEnd := FloorBoundary(bytes, policy.headBytes);
    var found := CeilBoundary(bytes, |bytes| - policy.tailBytes);
    var tailStart := Max(found, headEnd);
    assert tailStart == found > headEnd;
    HeadCut(t, policy.headBytes, headEnd);
    TailCut(t, policy.tailBytes, tailStart);
    CutsAgree(t, policy, headEnd, tailStart);
    var removed := tailStart - headEnd;
    return Some((t[..CharIndex(t, headEnd)] + Marker(removed) + t[CharIndex(t, tailStart)..], removed));
  }

  // The summarizer's copy of the history

  function ElideBlock(b: ContentBlock, policy: EvidencePolicy): (ContentBlock, nat) {
    if b.TextBlock? && Elide(b.text, policy).Some?
    then (TextBlock(Elide(b.text, policy).value.0), Elide(b.text, policy).value.1)
    else (b, 0)
  }

  function ElideBlocks(bs: seq<ContentBlock>, policy: EvidencePolicy): (seq<ContentBlock>, nat) {
    if bs == [] then ([], 0)
    else
      var init := ElideBlocks(bs[..|bs| - 1], policy);
      var last := ElideBlock(bs[|bs| - 1], policy);
      (init.0 + [last.0], init.1 + last.1)
  }

  function ElideContent(c: Content, policy: EvidencePolicy): (Content, nat) {
    match c
    case Plain(text) =>
      if Elide(text, policy).Some? then (Plain(Elide(text, policy).value.0), Elide(text, policy).value.1) else (c, 0)
    case Blocks(blocks) => (Blocks(ElideBlocks(blocks, policy).0), ElideBlocks(blocks, policy).1)
    case OtherContent => (c, 0)
  }

  function ResultsFrom(ms: seq<Message>, i: nat): nat
    requires i <= |ms|
    decreases |ms| - i
  {
    if i == |ms| then 0 else (if ms[i].ToolResult? then 1 else 0) + ResultsFrom(ms, i + 1)
  }

  /** A tool result with at least keepRecent newer ones. */
  predicate Stale(ms: seq<Message>, i: nat, policy: EvidencePolicy)
    requires i < |ms|
  {
    ms[i].ToolResult? && ResultsFrom(ms, i) > policy.keepRecent
  }

  function ElideAt(ms: seq<Message>, i: nat, policy: EvidencePolicy): Message
    requires i < |ms|
  {
    if Stale(ms, i, policy)
    then ToolResult(ms[i].callId, ms[i].toolName, ElideContent(ms[i].content, policy).0, ms[i].isError)
    else ms[i]
  }

  function RemovedFrom(ms: seq<Message>, i: nat, policy: EvidencePolicy): nat
    requires i <= |ms|
    decreases |ms| - i
  {
    if i == |ms| then 0
    else (if Stale(ms, i, policy) then ElideContent(ms[i].content, policy).1 else 0) + RemovedFrom(ms, i + 1, policy)
  }

  /** The loop over the blocks of one content. */
  method ElideContentText(c: Content, policy: EvidencePolicy) returns (out: Content, removed: nat)
    ensures (out, removed) == ElideContent(c, policy)
  {
    out, removed := c, 0;
    match c
    case Plain(text) =>
      var r := ElideText(text, policy);
      if r.Some? {
        out, removed := Plain(r.value.0), r.value.1;
      }
    case Blocks(blocks) =>
      var edited: seq<ContentBlock> := [];
      assert blocks[..0] == [];
      for i := 0 to |blocks|
        invariant (edited, removed) == ElideBlocks(blocks[..i], policy)
      {
        assert blocks[..i + 1][..i] == blocks[..i];
        var b := blocks[i];
        if b.TextBlock? {
          var r := ElideText(b.text, policy);
          if r.Some? {
            b, removed := TextBlock(r.value.0), removed + r.value.1;
          }
        }
        edited := edited + [b];
      }
      assert blocks[..|blocks|] == blocks;
      out := Blocks(edited);
    case OtherContent =>
  }

  /** Walks the history backwards and edits it in place: only the text of tool results older than the newest
      keepRecent changes, and the result is the number of bytes cut. */
  method ElideStaleToolResults(evidence: array<Message>, policy: EvidencePolicy) returns (removed: nat)
    modifies evidence
    ensures forall i :: 0 <= i < evidence.Length ==> evidence[i] == ElideAt(old(evidence[..]), i, policy)
    ensures removed == RemovedFrom(old(evidence[..]), 0, policy)
  {
    ghost var ms := evidence[..];
    var i, seen := evidence.Length, 0;
    removed := 0;
    while i > 0
      invariant 0 <= i <= evidence.Length
      invariant seen == ResultsFrom(ms, i) && removed == RemovedFrom(ms, i, policy)
      invariant forall k :: 0 <= k < i ==> evidence[k] == ms[k]
      invariant forall k :: i <= k < evidence.Length ==> evidence[k] == ElideAt(ms, k, policy)
    {
      i := i - 1;
      if evidence[i].ToolResult? {
        seen := seen + 1;
        if seen > policy.keepRecent {
          var out, cut := ElideContentText(evidence[i].content, policy);
          evidence[i] := ToolResult(evidence[i].callId, evidence[i].toolName, out, evidence[i].isError);
          removed := removed + cut;
        }
      }
    }
  }

  function ElideAll(ms: seq<Message>, policy: EvidencePolicy): seq<Message> {
    seq(|ms|, i requires 0 <= i < |ms| => ElideAt(ms, i, policy))
  }

  /** No text of the content is longer than a 64-bit machine can hold. */
  predicate Sized(c: Content) {
    match c
    case Plain(text) => TextBytes(text) <= U64_MAX
    case Blocks(blocks) =>
      forall i :: 0 <= i < |blocks| && blocks[i].TextBlock? ==> TextBytes(blocks[i].text) <= U64_MAX
    case OtherContent => true
  }

  lemma {:induction false} BlocksSettle(bs: seq<ContentBlock>, policy: EvidencePolicy)
    requires forall i :: 0 <= i < |bs| && bs[i].TextBlock? ==> TextBytes(bs[i].text) <= U64_MAX
    ensures ElideBlocks(ElideBlocks(bs, policy).0, policy) == (ElideBlocks(bs, policy).0, 0)
  {
    if bs != [] {
      var init, b := bs[..|bs| - 1], bs[|bs| - 1];
      BlocksSettle(init, policy);
      if b.TextBlock? && Elide(b.text, policy).Some? {
        ElideFacts(b.text, policy);
      }
      var done := ElideBlocks(init, policy).0;
      var last := ElideBlock(b, policy).0;
      assert (done + [last])[..|done + [last]| - 1] == done;
      hide Elide;
    }
  }

  lemma ContentSettles(c: Content, policy: EvidencePolicy)
    requires Sized(c)
    ensures ElideContent(ElideContent(c, policy).0, policy) == (ElideContent(c, policy).0, 0)
  {
    match c
    case Plain(text) =>
      if Elide(text, policy).Some? {
        ElideFacts(text, policy);
      }
    case Blocks(blocks) => BlocksSettle(blocks, policy);
    case OtherContent =>
  }

  lemma {:induction false} SameResults(ms: seq<Message>, policy: EvidencePolicy, i: nat)
    requires i <= |ms|
    ensures ResultsFrom(ElideAll(ms, policy), i) == ResultsFrom(ms, i)
    decreases |ms| - i
  {
    if i < |ms| {
      SameResults(ms, policy, i + 1);
    }
  }

  /** Elision is idempotent: a second pass changes nothing and removes nothing. */
  lemma {:induction false} ElisionIsIdempotent(ms: seq<Message>, policy: EvidencePolicy, i: nat)
    requires i <= |ms|
    requires forall k :: 0 <= k < |ms| && ms[k].ToolResult? ==> Sized(ms[k].content)
    ensures RemovedFrom(ElideAll(ms, policy), i, policy) == 0
    ensures forall k :: i <= k < |ms| ==> ElideAt(ElideAll(ms, policy), k, policy) == ElideAll(ms, policy)[k]
    decreases |ms| - i
  {
    if i < |ms| {
      ElisionIsIdempotent(ms, policy, i + 1);
      SameResults(ms, policy, i);
      if Stale(ms, i, policy) {
        ContentSettles(ms[i].content, policy);
      }
      hide ElideContent;
    }
  }
}
