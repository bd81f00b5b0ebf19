/** Checkpoints: what survives of the message history, and why nothing of it depends on how often it was compacted. */
module Compaction {
  import opened Common
  import opened Messages

  const MAX_SUMMARY_BYTES: nat := 16384
  const MAX_RECEIPTS: nat := 4
  const MAX_RECEIPT_BYTES: nat := 1024

  predicate IsWhite(c: char) {
    var n := c as int;
    || 9 <= n <= 13 || n == 0x20 || n == 0x85 || n == 0xA0 || n == 0x1680
    || 0x2000 <= n <= 0x200A || n == 0x2028 || n == 0x2029 || n == 0x202F || n == 0x205F || n == 0x3000
  }

  function TextsBytes(ts: seq<Text>): nat {
    if ts == [] then 0
    else JsonBytes(ts[0]) + (if |ts| > 1 then 1 else 0) + TextsBytes(ts[1..])
  }

  /** Serialized size of a five-field summary. */
  function SummaryBytes(s: Summary): nat
    requires s.Summary?
  {
    68 + JsonBytes(s.objective)
    + TextsBytes(s.constraints) + TextsBytes(s.changes) + TextsBytes(s.tests) + TextsBytes(s.pending)
  }

  predicate ValidSummary(s: Summary, maxBytes: nat) {
    && s.Summary?
    && (exists i :: 0 <= i < |s.objective| && !IsWhite(s.objective[i]))
    && SummaryBytes(s) <= maxBytes
  }

  /** The newest user message that is neither a checkpoint nor a continuation notice. */
  function LatestUser(ms: seq<Message>): Option<Message> {
    if ms == [] then None
    else
      var last := ms[|ms| - 1];
      if last.User? && !last.isContinuation then Some(last) else LatestUser(ms[..|ms| - 1])
  }

  function ReceiptSum(rs: seq<Receipt>): nat {
    if rs == [] then 0 else rs[0].Bytes() + ReceiptSum(rs[1..])
  }

  /** Serialized size of a receipt list: brackets, items, commas. */
  function ReceiptBytes(rs: seq<Receipt>): nat {
    2 + ReceiptSum(rs) + if rs == [] then 0 else |rs| - 1
  }

  predicate Fits(rs: seq<Receipt>) {
    |rs| <= MAX_RECEIPTS && ReceiptBytes(rs) <= MAX_RECEIPT_BYTES
  }

  /** Drops receipts from the front until the rest fits. */
  function Trim(rs: seq<Receipt>): seq<Receipt> {
    if rs == [] || Fits(rs) then rs else Trim(rs[1..])
  }

  function StatusOf(isError: Option<bool>): Status {
    match isError
    case None => UnknownStatus
    case Some(e) => if e then Error else Success
  }

  function ReceiptOf(call: ToolCall, result: Message): Receipt
    requires result.ToolResult?
  {
    Receipt(Excerpt(call.name, 32), Excerpt(call.Target(), 120), StatusOf(result.isError),
            Excerpt(result.content.FirstText(), 160))
  }

  /** What the scan of a message list has gathered: bounded receipts, and calls still waiting for their result. */
  datatype Evidence = Evidence(receipts: seq<Receipt>, calls: map<Id, ToolCall>)

  const NO_EVIDENCE := Evidence([], map[])

  function AddCalls(calls: map<Id, ToolCall>, cs: seq<ToolCall>): map<Id, ToolCall>
    decreases |cs|
  {
    if cs == [] then calls else AddCalls(calls[cs[0].id := cs[0]], cs[1..])
  }

  /** One message, before the receipts are trimmed. */
  function Note(ev: Evidence, m: Message): Option<Evidence> {
    match m
    case Checkpoint(_, receipts) => Some(ev.(receipts := receipts))
    case Assistant(blocks, _) =>
      if ToolCalls(blocks).None? then None
      else Some(ev.(calls := AddCalls(ev.calls, ToolCalls(blocks).value)))
    case ToolResult(callId, _, _, _) =>
      if callId.Some? && callId.value in ev.calls
      then Some(Evidence(ev.receipts + [ReceiptOf(ev.calls[callId.value], m)], ev.calls - {callId.value}))
      else Some(ev)
    case _ => Some(ev)
  }

  function Observe(ev: Evidence, m: Message): Option<Evidence> {
    match Note(ev, m)
    case None => None
    case Some(noted) => Some(noted.(receipts := Trim(noted.receipts)))
  }

  function ObserveAll(ms: seq<Message>): Option<Evidence> {
    if ms == [] then Some(NO_EVIDENCE)
    else
      var before := ObserveAll(ms[..|ms| - 1]);
      if before.None? then None else Observe(before.value, ms[|ms| - 1])
  }

  /** The context that replaces a message list: the newest request and one checkpoint carrying the receipts. */
  function CheckpointMessages(summary: Summary, ms: seq<Message>): Option<seq<Message>> {
    var ev := ObserveAll(ms);
    var user := LatestUser(ms);
    if ev.None? || user.None? then None
    else Some([user.value, Checkpoint(summary, ev.value.receipts)])
  }

  lemma LatestUserSnoc(ms: seq<Message>, m: Message)
    ensures LatestUser(ms + [m]) == if m.User? && !m.isContinuation then Some(m) else LatestUser(ms)
  {
    assert (ms + [m])[..|ms + [m]| - 1] == ms;
  }

  lemma ObserveSnoc(ms: seq<Message>, m: Message)
    ensures ObserveAll(ms + [m]) ==
            if ObserveAll(ms).None? then None else Observe(ObserveAll(ms).value, m)
  {
    assert (ms + [m])[..|ms + [m]| - 1] == ms;
  }

  lemma {:induction false} LatestUserIsUser(ms: seq<Message>)
    requires LatestUser(ms).Some?
    ensures LatestUser(ms).value.User? && !LatestUser(ms).value.isContinuation && LatestUser(ms).value in ms
  {
    var last := ms[|ms| - 1];
    if !(last.User? && !last.isContinuation) {
      LatestUserIsUser(ms[..|ms| - 1]);
    }
  }

  // The receipt window

  ghost predicate IsSuffix<T>(t: seq<T>, s: seq<T>) {
    |t| <= |s| && s[|s| - |t|..] == t
  }

  /** t is the longest suffix of rs that fits. */
  ghost predicate LongestFitting(t: seq<Receipt>, rs: seq<Receipt>) {
    && IsSuffix(t, rs)
    && Fits(t)
    && forall k :: 0 <= k < |rs| - |t| ==> !Fits(rs[k..])
  }

  lemma ReceiptSumConcat(a: seq<Receipt>, b: seq<Receipt>)
    ensures ReceiptSum(a + b) == ReceiptSum(a) + ReceiptSum(b)
  {
    if a == [] {
      assert a + b == b;
    } else {
      assert (a + b)[1..] == a[1..] + b;
      ReceiptSumConcat(a[1..], b);
    }
  }

  /** The trimming loop keeps exactly the longest suffix within the two limits. */
  lemma {:induction false} TrimIsLongestFitting(rs: seq<Receipt>)
    ensures LongestFitting(Trim(rs), rs)
    decreases |rs|
  {
    if rs != [] && !Fits(rs) {
      TrimIsLongestFitting(rs[1..]);
      var t := Trim(rs[1..]);
      assert rs[|rs| - |t|..] == rs[1..][|rs[1..]| - |t|..];
      forall k | 0 <= k < |rs| - |t| ensures !Fits(rs[k..]) {
        if k == 0 {
          assert rs[0..] == rs;
        } else {
          assert rs[k..] == rs[1..][k - 1..];
        }
      }
    }
  }

  /** Trimming early loses nothing: a window carried across any cut equals the window over everything. */
  lemma {:induction false} TrimTrim(a: seq<Receipt>, b: seq<Receipt>)
    ensures Trim(Trim(a) + b) == Trim(a + b)
    decreases |a|
  {
    if a != [] && !Fits(a) {
      TrimTrim(a[1..], b);
      assert (a + b)[1..] == a[1..] + b;
      if Fits(a + b) {
        PrefixFits(a, b);
      }
    }
  }

  lemma PrefixFits(a: seq<Receipt>, b: seq<Receipt>)
    requires Fits(a + b)
    ensures Fits(a)
  {
    ReceiptSumConcat(a, b);
  }

  lemma TrimFits(rs: seq<Receipt>)
    ensures Fits(Trim(rs)) && Trim(Trim(rs)) == Trim(rs)
  {
    TrimIsLongestFitting(rs);
  }

  /** The receipts of every settled call of a message list, unbounded. */
  function NoteAll(ms: seq<Message>): Option<Evidence> {
    if ms == [] then Some(NO_EVIDENCE)
    else
      var before := NoteAll(ms[..|ms| - 1]);
      if before.None? then None else Note(before.value, ms[|ms| - 1])
  }

  /** One message keeps the window the trimmed form of the unbounded list. */
  lemma WindowStep(full: Evidence, m: Message)
    ensures var window := full.(receipts := Trim(full.receipts));
            Observe(window, m) ==
            match Note(full, m)
            case None => None
            case Some(noted) => Some(noted.(receipts := Trim(noted.receipts)))
  {
    if m.ToolResult? && m.callId.Some? && m.callId.value in full.calls {
      TrimTrim(full.receipts, [ReceiptOf(full.calls[m.callId.value], m)]);
    } else {
      TrimFits(full.receipts);
    }
    hide Trim, Fits, ReceiptOf, ToolCalls, AddCalls;
  }

  /** The sliding window over any message list is the longest fitting suffix of all its settled receipts. */
  lemma {:induction false} WindowIsLongestSuffix(ms: seq<Message>)
    ensures ObserveAll(ms).Some? <==> NoteAll(ms).Some?
    ensures ObserveAll(ms).Some? ==>
            && LongestFitting(ObserveAll(ms).value.receipts, NoteAll(ms).value.receipts)
            && ObserveAll(ms).value.receipts == Trim(NoteAll(ms).value.receipts)
            && ObserveAll(ms).value.calls == NoteAll(ms).value.calls
  {
    TrimIsLongestFitting([]);
    hide Note, Observe, Fits, LongestFitting;
    if ms != [] {
      var init, m := ms[..|ms| - 1], ms[|ms| - 1];
      WindowIsLongestSuffix(init);
      if NoteAll(init).Some? {
        WindowStep(NoteAll(init).value, m);
      }
    }
    if NoteAll(ms).Some? {
      TrimIsLongestFitting(NoteAll(ms).value.receipts);
    }
  }

  /** A fresh checkpoint carries its receipts on unchanged. */
  lemma CheckpointCarries(summary: Summary, ms: seq<Message>)
    requires CheckpointMessages(summary, ms).Some?
    ensures var after := CheckpointMessages(summary, ms).value;
            && ObserveAll(after) == Some(Evidence(ObserveAll(ms).value.receipts, map[]))
            && LatestUser(after) == LatestUser(ms)
  {
    var user, receipts := LatestUser(ms).value, ObserveAll(ms).value.receipts;
    var checkpoint := Checkpoint(summary, receipts);
    LatestUserIsUser(ms);
    WindowIsLongestSuffix(ms);
    TrimFits(NoteAll(ms).value.receipts);
    ObserveSnoc([], user);
    ObserveSnoc([user], checkpoint);
    LatestUserSnoc([], user);
    LatestUserSnoc([user], checkpoint);
    assert [] + [user] == [user] && [user] + [checkpoint] == [user, checkpoint];
  }

  /** The inner loop: drop the oldest receipt while there are too many, or too many bytes of them. */
  method TrimReceipts(receipts: seq<Receipt>) returns (window: seq<Receipt>)
    ensures window == Trim(receipts)
  {
    window := receipts;
    while |window| > MAX_RECEIPTS || ReceiptBytes(window) > MAX_RECEIPT_BYTES
      invariant Trim(window) == Trim(receipts)
      decreases |window|
    {
      window := window[1..];
    }
  }

  /** One turn of the message loop. */
  method ObserveMessage(receipts0: seq<Receipt>, calls0: map<Id, ToolCall>, m: Message)
    returns (ok: bool, receipts: seq<Receipt>, calls: map<Id, ToolCall>)
    ensures ok <==> Observe(Evidence(receipts0, calls0), m).Some?
    ensures ok ==> Observe(Evidence(receipts0, calls0), m) == Some(Evidence(receipts, calls))
  {
    ok, receipts, calls := true, receipts0, calls0;
    if m.Checkpoint? {
      receipts := m.receipts;
    }
    if m.Assistant? {
      var cs := ToolCalls(m.blocks);
      if cs.None? {
        return false, receipts, calls;
      }
      calls := AddCalls(calls, cs.value);
    } else if m.ToolResult? && m.callId.Some? && m.callId.value in calls {
      receipts := receipts + [ReceiptOf(calls[m.callId.value], m)];
      calls := calls - {m.callId.value};
    }
    receipts := TrimReceipts(receipts);
  }

  /** The loop over the messages, with its receipt vector and its map of open calls. */
  method BuildCheckpoint(summary: Summary, ms: seq<Message>) returns (r: Option<seq<Message>>)
    ensures r == CheckpointMessages(summary, ms)
  {
    hide Observe, Note, LatestUser;
    var receipts: seq<Receipt> := [];
    var calls: map<Id, ToolCall> := map[];
    var ok;
    assert ms[..0] == [];
    for i := 0 to |ms|
      invariant ObserveAll(ms[..i]) == Some(Evidence(receipts, calls))
    {
      assert ms[..i + 1] == ms[..i] + [ms[i]];
      ObserveSnoc(ms[..i], ms[i]);
      ObserveAllFails(ms, i + 1);
      ok, receipts, calls := ObserveMessage(receipts, calls, ms[i]);
      if !ok {
        return None;
      }
    }
    assert ms[..|ms|] == ms;
    var user := LatestUser(ms);
    if user.None? {
      return None;
    }
    return Some([user.value, Checkpoint(summary, receipts)]);
  }

  lemma {:induction false} ObserveAllFails(ms: seq<Message>, k: nat)
    requires k <= |ms|
    ensures ObserveAll(ms[..k]).None? ==> ObserveAll(ms).None?
  {
    if k == |ms| {
      assert ms[..k] == ms;
    } else {
      assert ms[..|ms| - 1][..k] == ms[..k];
      ObserveAllFails(ms[..|ms| - 1], k);
    }
  }
}
