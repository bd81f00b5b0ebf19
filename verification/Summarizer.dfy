/** Turning the evidence text into a checkpoint summary, fragment by fragment, within the request budget. */
module Summarizer {
  import opened Common
  import opened LongTask
  import opened Messages
  import opened Compaction
  import opened Utf8
  import opened Journal
  import opened Durable
  import opened Gate

  const MAX_CHUNKS: nat := 32

  /** The wire size of the request for one fragment: previous summary, fragment index, fragment. */
  type Wire = (Option<Summary>, nat, seq<Byte>) -> Option<nat>

  /** Every boundary of the text, computed once. */
  function Table(t: Text): (table: seq<int>)
    ensures |table| == |t| + 1
    ensures forall k :: 0 <= k <= |t| ==> table[k] == Offset(t, k)
  {
    seq(|t| + 1, k requires 0 <= k <= |t| => Offset(t, k))
  }

  lemma TableIncreases(t: Text)
    ensures forall j, k :: 0 <= j < k <= |t| ==> Table(t)[j] < Table(t)[k]
    ensures Table(t)[0] == 0 && Table(t)[|t|] == |EncodeAll(t)|
  {
    forall j, k | 0 <= j < k <= |t| ensures Table(t)[j] < Table(t)[k] {
      OffsetSplit(t, j, k);
    }
    assert t[..|t|] == t;
  }

  /** The suffix of the table that starts at an offset, shifted by it, is the table of the remaining text. */
  lemma TableShift(t: Text, k: nat)
    requires k <= |t|
    ensures |Table(t[k..])| == |Table(t)| - k
    ensures forall j :: 0 <= j <= |t| - k ==> Table(t[k..])[j] == Table(t)[k + j] - Table(t)[k]
  {
    forall j | 0 <= j <= |t| - k ensures Table(t[k..])[j] == Table(t)[k + j] - Table(t)[k] {
      OffsetSplit(t, k, k + j);
      assert t[k..][..j] == t[k..k + j];
    }
  }

  /** The first index whose entry is not below the offset. */
  method PartitionPoint(table: seq<int>, offset: nat) returns (base: nat)
    requires forall j, k :: 0 <= j < k < |table| ==> table[j] < table[k]
    ensures base <= |table|
    ensures forall j :: 0 <= j < base ==> table[j] < offset
    ensures forall j :: base <= j < |table| ==> table[j] >= offset
  {
    base := 0;
    var hi := |table|;
    while base < hi
      invariant base <= hi <= |table|
      invariant forall j :: 0 <= j < base ==> table[j] < offset
      invariant forall j :: hi <= j < |table| ==> table[j] >= offset
    {
      var mid := base + (hi - base) / 2;
      if table[mid] < offset {
        base := mid + 1;
      } else {
        hi := mid;
      }
    }
  }

  /** The request for the fragment t[k..m] is within the threshold. */
  predicate Fitting(wire: Wire, previous: Option<Summary>, part: nat, t: Text, k: nat, m: nat, threshold: nat)
    requires k <= m <= |t|
  {
    var size := wire(previous, part, EncodeAll(t[k..m]));
    size.Some? && size.value <= threshold
  }

  /** Longer fragments never make shorter requests, and every size can be computed. */
  ghost predicate MonotoneFrom(wire: Wire, previous: Option<Summary>, part: nat, t: Text, k: nat)
    requires k <= |t|
  {
    && (forall m :: k <= m <= |t| ==> wire(previous, part, EncodeAll(t[k..m])).Some?)
    && (forall m, n :: k <= m <= n <= |t| ==>
          wire(previous, part, EncodeAll(t[k..m])).value <= wire(previous, part, EncodeAll(t[k..n])).value)
  }

  /** The fragment search: m is a cut after k that fits while the next cut does not, so under a monotone wire size
      it is the longest fragment that fits. */
  ghost predicate LongestFragment(wire: Wire, previous: Option<Summary>, part: nat, t: Text, k: nat, m: nat,
                                  threshold: nat)
    requires k < m <= |t|
  {
    && Fitting(wire, previous, part, t, k, m, threshold)
    && (m < |t| ==> !Fitting(wire, previous, part, t, k, m + 1, threshold))
    && (MonotoneFrom(wire, previous, part, t, k) ==>
          forall n :: m < n <= |t| ==> !Fitting(wire, previous, part, t, k, n, threshold))
  }

  /** Binary search over the shared boundary table, by exact wire size. None is a provider error; an end equal to
      the offset means that not even one character fits. */
  method FragmentEnd(wire: Wire, previous: Option<Summary>, part: nat, t: Text, bytes: seq<Byte>, table: seq<int>,
                     ghost k: nat, offset: nat, threshold: nat)
    returns (end: Option<nat>, ghost m: nat)
    requires bytes == EncodeAll(t) && table == Table(t)
    requires k <= |t| && offset == Offset(t, k)
    ensures end.Some? ==> k <= m <= |t| && end.value == Offset(t, m) - offset
    ensures end.Some? ==> exists n :: k <= n <= |t| && end.value == Offset(t, n) - offset
    ensures end.Some? && end.value > 0 ==> k < m && LongestFragment(wire, previous, part, t, k, m, threshold)
  {
    hide Offset, EncodeAll, Table, Fitting, MonotoneFrom, LongestFragment;
    TableIncreases(t);
    var base := PartitionPoint(table, offset);
    PointIsUnique(t, base, k);
    var count := |table| - base;
    var lo, hi := 0, count;
    while lo + 1 < hi
      invariant 0 <= lo < hi <= count
      invariant lo > 0 ==> Fitting(wire, previous, part, t, k, k + lo, threshold)
      invariant hi < count ==> !Fitting(wire, previous, part, t, k, k + hi, threshold)
    {
      var mid := lo + (hi - lo) / 2;
      SliceIs(t, k, k + mid);
      var size := wire(previous, part, bytes[offset..table[base + mid]]);
      if size.None? {
        return None, k;
      }
      FittingIs(wire, previous, part, t, k, k + mid, threshold);
      if size.value <= threshold {
        lo := mid;
      } else {
        hi := mid;
      }
    }
    m := k + lo;
    end := Some(table[base + lo] - offset);
    if lo > 0 {
      LargestFits(wire, previous, part, t, k, m, threshold);
    }
  }

  lemma PointIsUnique(t: Text, base: nat, k: nat)
    requires base <= |t| + 1 && k <= |t|
    requires forall j :: 0 <= j < base ==> Table(t)[j] < Offset(t, k)
    requires forall j :: base <= j <= |t| ==> Table(t)[j] >= Offset(t, k)
    ensures base == k
  {
    TableIncreases(t);
    assert forall j :: 0 <= j < k ==> Table(t)[j] < Offset(t, k);
    assert Table(t)[k] == Offset(t, k);
    var found := if base <= |t| then Table(t)[base] else -1;
    assert base <= |t| ==> found >= Offset(t, k);
  }

  lemma FittingIs(wire: Wire, previous: Option<Summary>, part: nat, t: Text, k: nat, m: nat, threshold: nat)
    requires k <= m <= |t|
    ensures Fitting(wire, previous, part, t, k, m, threshold) <==>
            wire(previous, part, EncodeAll(t[k..m])).Some?
            && wire(previous, part, EncodeAll(t[k..m])).value <= threshold
  {
  }

  lemma SliceIs(t: Text, k: nat, m: nat)
    requires k <= m <= |t|
    ensures 0 <= Offset(t, k) <= Offset(t, m) <= |EncodeAll(t)|
    ensures EncodeAll(t)[Offset(t, k)..Offset(t, m)] == EncodeAll(t[k..m])
  {
    OffsetSplit(t, k, m);
  }

  lemma LargestFits(wire: Wire, previous: Option<Summary>, part: nat, t: Text, k: nat, m: nat, threshold: nat)
    requires k < m <= |t| && Fitting(wire, previous, part, t, k, m, threshold)
    requires m < |t| ==> !Fitting(wire, previous, part, t, k, m + 1, threshold)
    ensures LongestFragment(wire, previous, part, t, k, m, threshold)
  {
    if MonotoneFrom(wire, previous, part, t, k) && m < |t| {
      forall n | m < n <= |t| ensures !Fitting(wire, previous, part, t, k, n, threshold) {
        assert wire(previous, part, EncodeAll(t[k..m + 1])).value <= wire(previous, part, EncodeAll(t[k..n])).value;
      }
    }
  }

  /** One summary request: gated in a long task, direct otherwise. made counts the requests tried, also one whose
      reservation the gate refuses and that is not sent. */
  method Ask(request: Request, long: bool, host: Host, session: Session, ledger: Ledger, ghost made0: nat)
    returns (reply: Option<Message>, ghost made: nat)
    requires request.ForSummary?
    requires Synced(session, ledger) && ledger.pendingResponse.None?
    requires ScanOf(session).recovery.Complete()
    modifies host, session, ledger
    ensures Still(session, old(session.entries), session.entries)
    ensures made == made0 + 1
    ensures host.sent in {old(host.sent), old(host.sent) + [request]}
    ensures reply.Some? || !long ==> host.sent == old(host.sent) + [request]
    ensures reply.Some? ==> Synced(session, ledger) && SameContext(old(ScanOf(session)), ScanOf(session))
    ensures !long ==> session.entries == old(session.entries) && ledger.fields == old(ledger.fields)
    ensures reply.Some? ==>
              && ledger.pendingResponse.None?
              && ledger.fields.limits == old(ledger.fields.limits)
              && (long ==> ledger.fields.state == Ready && ledger.fields.requests == old(ledger.fields.requests) + 1)
  {
    hide Added, Outcomes, OnlyTasks;
    made := made0 + 1;
    GrownSelf(session, session.entries);
    if long {
      reply := CompleteWith(request, host, session, ledger);
    } else {
      host.Send(request);
      var failed: bool := *;
      var message := ProviderReply();
      reply := if failed then None else Some(message);
    }
  }

  /** The summary of a terminal, text-only reply; what its text parses to is up to the model. */
  method ReadSummary(reply: Message) returns (candidate: Option<Summary>)
    ensures candidate.Some? ==>
              reply.Assistant? && reply.stop == StopEnd && forall b <- reply.blocks :: b.Words?
  {
    if !reply.Assistant? || reply.stop != StopEnd || exists b <- reply.blocks :: !b.Words? {
      return None;
    }
    var parsed: Summary := *;
    return Some(parsed);
  }

  /** The cuts chosen so far with the summaries obtained and the fragments sent between them. */
  datatype Cutting = Cutting(cuts: seq<nat>, summaries: seq<Summary>, fragments: seq<seq<Byte>>) {
    ghost predicate Shape() {
      |cuts| == |summaries| + 1 && |fragments| == |summaries|
    }

    function Last(): nat
      requires cuts != []
    {
      cuts[|cuts| - 1]
    }

    function Previous(i: nat): Option<Summary>
      requires i <= |summaries|
    {
      if i == 0 then None else Some(summaries[i - 1])
    }
  }

  const UNCUT := Cutting([0], [], [])

  /** Piece i: a nonempty slice between two characters, the longest that fitted after the summary before it. */
  ghost predicate GoodPiece(wire: Wire, t: Text, threshold: nat, c: Cutting, i: nat)
    requires c.Shape() && i < |c.summaries|
  {
    && c.cuts[i] < c.cuts[i + 1] <= |t|
    && LongestFragment(wire, c.Previous(i), i, t, c.cuts[i], c.cuts[i + 1], threshold)
    && c.fragments[i] == EncodeAll(t[c.cuts[i]..c.cuts[i + 1]])
    && c.fragments[i] != []
  }

  /** The pieces are the beginning of the text, in order and without a gap. */
  ghost predicate Sliced(wire: Wire, t: Text, threshold: nat, c: Cutting) {
    && c.Shape() && c.cuts[0] == 0 && c.Last() <= |t|
    && (forall i :: 0 <= i < |c.summaries| ==> GoodPiece(wire, t, threshold, c, i))
    && Flatten(c.fragments) == EncodeAll(t[..c.Last()])
  }

  function Flatten(fragments: seq<seq<Byte>>): seq<Byte> {
    if fragments == [] then [] else Flatten(fragments[..|fragments| - 1]) + fragments[|fragments| - 1]
  }

  /** How far a summary run has come: the journal only grew, the context is the one it started with, and in a
      long task the ledger has counted every request made. */
  ghost predicate Held(long: bool, es0: seq<Entry>, l0: Snapshot, requests: nat, session: Session, ledger: Ledger)
    reads session, ledger
  {
    && Read(session.task, es0).Some?
    && Synced(session, ledger) && ledger.pendingResponse.None?
    && Still(session, es0, session.entries)
    && SameContext(Read(session.task, es0).value.scan, ScanOf(session))
    && ledger.fields.limits == l0.limits
    && ScanOf(session).recovery.Complete()
    && (long ==> ledger.fields.requests == l0.requests + requests)
    && (!long ==> session.entries == es0 && ledger.fields == l0)
  }

  /** The requests for one fragment: none, the first, or the first and its repair. */
  function Tries(request: Request, n: int): seq<Request>
    requires request.ForSummary?
  {
    if n <= 0 then [] else if n == 1 then [request] else [request, request.(repair := true)]
  }

  /** The requests for one fragment: a single one, or two if the repair is still available and needed. */
  method AskForSummary(request: Request, maxSummary: nat, remaining0: nat, repair0: bool, long: bool, host: Host,
                       session: Session, ledger: Ledger, ghost es0: seq<Entry>, ghost l0: Snapshot,
                       ghost requests0: nat)
    returns (summary: Option<Summary>, remaining: nat, repair: bool, ghost made: nat, ghost tries: nat)
    requires remaining0 >= 1 && request.ForSummary? && !request.repair
    requires Held(long, es0, l0, requests0, session, ledger)
    modifies host, session, ledger
    ensures 1 <= remaining <= remaining0 && (repair ==> repair0)
    ensures remaining0 - remaining == made <= 1 + (if repair0 && !repair then 1 else 0)
    ensures host.sent == old(host.sent) + Tries(request, tries) && tries <= made
    ensures summary.Some? ==>
              && tries == made && ValidSummary(summary.value, maxSummary)
              && remaining0 - remaining == 1 + (if repair0 && !repair then 1 else 0)
              && Held(long, es0, l0, requests0 + remaining0 - remaining, session, ledger)
              && (long ==> ledger.fields.state == Ready)
    ensures Still(session, es0, session.entries)
    ensures !long ==> session.entries == es0 && ledger.fields == l0
  {
    var repairing := false;
    remaining, repair, summary, made, tries := remaining0, repair0, None, 0, 0;
    while true
      invariant 1 <= remaining <= remaining0 && (repair ==> repair0)
      invariant remaining0 - remaining == made == if repair0 && !repair then 1 else 0
      invariant Held(long, es0, l0, requests0 + remaining0 - remaining, session, ledger)
      invariant host.sent == old(host.sent) + Tries(request, made) && tries == made
      invariant repairing <==> made == 1
      decreases repair
    {
      if remaining <= 1 {
        return;
      }
      remaining := remaining - 1;
      var reply;
      ghost var sent := host.sent;
      reply, made := Ask(request.(repair := repairing), long, host, session, ledger, made);
      tries := if host.sent == sent then tries else made;
      if reply.None? {
        return;
      }
      var parsed := ReadSummary(reply.value);
      if parsed.None? {
        return;
      }
      if ValidSummary(parsed.value, maxSummary) {
        summary := parsed;
        return;
      }
      if !repair {
        return;
      }
      repair, repairing := false, true;
    }
  }

  lemma HeldStart(long: bool, session: Session, ledger: Ledger)
    requires Synced(session, ledger) && ledger.pendingResponse.None?
    requires ScanOf(session).recovery.Complete()
    ensures Held(long, session.entries, ledger.fields, 0, session, ledger)
  {
  }

  lemma HeldGrown(long: bool, es0: seq<Entry>, l0: Snapshot, requests: nat, session: Session, ledger: Ledger)
    requires Held(long, es0, l0, requests, session, ledger)
    ensures Still(session, es0, session.entries)
    ensures !long ==> session.entries == es0 && ledger.fields == l0
  {
  }

  lemma SlicedStart(wire: Wire, t: Text, threshold: nat)
    ensures Sliced(wire, t, threshold, UNCUT) && Offset(t, 0) == 0
    ensures UNCUT == Cutting([0], [], []) && UNCUT.Last() == 0 && UNCUT.Previous(0) == None
  {
  }

  lemma FlattenNext(t: Text, fragments: seq<seq<Byte>>, k: nat, m: nat)
    requires k < m <= |t| && Flatten(fragments) == EncodeAll(t[..k])
    ensures Flatten(fragments + [EncodeAll(t[k..m])]) == EncodeAll(t[..m])
    ensures EncodeAll(t[k..m]) != []
  {
    assert t[..m] == t[..k] + t[k..m];
    TextBytesConcat(t[..k], t[k..m]);
    OffsetSplit(t, k, m);
    var longer := fragments + [EncodeAll(t[k..m])];
    assert longer[..|longer| - 1] == fragments;
  }

  lemma SlicedNext(wire: Wire, t: Text, threshold: nat, c: Cutting, m: nat, s: Summary) returns (d: Cutting)
    requires Sliced(wire, t, threshold, c) && c.Last() < m <= |t|
    requires LongestFragment(wire, c.Previous(|c.summaries|), |c.summaries|, t, c.Last(), m, threshold)
    ensures d == Cutting(c.cuts + [m], c.summaries + [s], c.fragments + [EncodeAll(t[c.Last()..m])])
    ensures Sliced(wire, t, threshold, d)
  {
    var k := c.Last();
    d := Cutting(c.cuts + [m], c.summaries + [s], c.fragments + [EncodeAll(t[k..m])]);
    FlattenNext(t, c.fragments, k, m);
    hide LongestFragment, EncodeAll, Flatten;
    forall i | 0 <= i < |d.summaries| ensures GoodPiece(wire, t, threshold, d, i) {
      if i < |c.summaries| {
        PieceKept(wire, t, threshold, c, d, i);
      }
    }
  }

  /** The state of the cutting after one more fragment, as the loop sees it. */
  lemma SlicedAdvance(wire: Wire, t: Text, threshold: nat, c: Cutting, m: nat, s: Summary, offset: nat, end: nat)
    returns (d: Cutting)
    requires |c.cuts| == |c.summaries| + 1 && Sliced(wire, t, threshold, c)
    requires c.Last() < m <= |t| && offset == Offset(t, c.Last()) && offset + end == Offset(t, m)
    requires LongestFragment(wire, c.Previous(|c.summaries|), |c.summaries|, t, c.Last(), m, threshold)
    ensures 0 <= offset <= offset + end <= |EncodeAll(t)|
    ensures d == Cutting(c.cuts + [m], c.summaries + [s], c.fragments + [EncodeAll(t)[offset..offset + end]])
    ensures Sliced(wire, t, threshold, d) && d.Last() == m && d.Previous(|d.summaries|) == Some(s)
  {
    hide LongestFragment, EncodeAll, Offset, Flatten, GoodPiece;
    SliceIs(t, c.Last(), m);
    d := SlicedNext(wire, t, threshold, c, m, s);
  }

  lemma PieceKept(wire: Wire, t: Text, threshold: nat, c: Cutting, d: Cutting, i: nat)
    requires c.Shape() && d.Shape() && i < |c.summaries| && GoodPiece(wire, t, threshold, c, i)
    requires c.cuts <= d.cuts && c.summaries <= d.summaries && c.fragments <= d.fragments
    ensures GoodPiece(wire, t, threshold, d, i)
  {
    hide LongestFragment, EncodeAll;
    assert d.Previous(i) == c.Previous(i);
  }

  lemma SlicedAll(wire: Wire, t: Text, threshold: nat, c: Cutting)
    requires Sliced(wire, t, threshold, c) && Offset(t, c.Last()) == |EncodeAll(t)|
    ensures c.Last() == |t| && Flatten(c.fragments) == EncodeAll(t)
  {
    OffsetSplit(t, c.Last(), |t|);
    assert t[..|t|] == t;
  }

  // The requests sent for the pieces

  /** A summary request whose wire size is within the threshold. */
  predicate FitsWire(wire: Wire, threshold: nat, request: Request) {
    && request.ForSummary?
    && wire(request.previous, request.part, request.fragment).Some?
    && wire(request.previous, request.part, request.fragment).value <= threshold
  }

  /** The requests without their repairs. */
  function Firsts(requests: seq<Request>): seq<Request> {
    if requests == [] then []
    else
      var last := requests[|requests| - 1];
      Firsts(requests[..|requests| - 1]) + if last.ForSummary? && last.repair then [] else [last]
  }

  /** The request for each piece: the piece itself, its number, and the summary of the pieces before it. */
  ghost function Asked(c: Cutting): seq<Request>
    requires c.Shape()
  {
    seq(|c.summaries|, i requires 0 <= i < |c.summaries| => ForSummary(c.Previous(i), i, c.fragments[i], false))
  }

  /** A repair directly follows the request it repeats. */
  predicate RepairsFollow(requests: seq<Request>) {
    forall i :: 0 <= i < |requests| && requests[i].ForSummary? && requests[i].repair ==>
      i > 0 && requests[i - 1].ForSummary? && requests[i] == requests[i - 1].(repair := true)
  }

  ghost predicate AllFit(wire: Wire, threshold: nat, requests: seq<Request>) {
    && (forall request <- requests :: FitsWire(wire, threshold, request))
    && RepairsFollow(requests)
  }

  /** Exactly the pieces were sent, in order, each with the summary of those before it, some of them twice. */
  ghost predicate Sends(wire: Wire, threshold: nat, c: Cutting, requests: seq<Request>) {
    && c.Shape() && AllFit(wire, threshold, requests) && Firsts(requests) == Asked(c)
  }

  lemma SendsStart(wire: Wire, threshold: nat)
    ensures Sends(wire, threshold, UNCUT, [])
  {
  }

  lemma FirstsOfTries(requests: seq<Request>, request: Request, n: nat)
    requires request.ForSummary? && !request.repair
    ensures Firsts(requests + Tries(request, n)) == Firsts(requests) + if n == 0 then [] else [request]
  {
    if n == 0 {
      assert requests + [] == requests;
    } else {
      assert (requests + [request])[..|requests|] == requests;
      if n > 1 {
        var again := request.(repair := true);
        assert (requests + [request, again])[..|requests| + 1] == requests + [request];
      }
    }
  }

  /** A piece that fits was tried n times. */
  lemma FitNext(wire: Wire, threshold: nat, requests: seq<Request>, request: Request, n: nat)
    requires AllFit(wire, threshold, requests) && FitsWire(wire, threshold, request) && !request.repair
    ensures AllFit(wire, threshold, requests + Tries(request, n))
  {
    var more := Tries(request, n);
    forall q <- requests + more ensures FitsWire(wire, threshold, q) {
      assert q in requests || q in more;
    }
  }

  lemma SendsNext(wire: Wire, threshold: nat, c: Cutting, d: Cutting, requests: seq<Request>, request: Request, n: nat)
    requires Sends(wire, threshold, c, requests) && FitsWire(wire, threshold, request) && n >= 1
    requires d.Shape() && |d.summaries| == |c.summaries| + 1
    requires c.summaries <= d.summaries && c.fragments <= d.fragments
    requires request == ForSummary(c.Previous(|c.summaries|), |c.summaries|, d.fragments[|c.fragments|], false)
    ensures Sends(wire, threshold, d, requests + Tries(request, n))
  {
    FitNext(wire, threshold, requests, request, n);
    FirstsOfTries(requests, request, n);
    hide AllFit, Firsts, FitsWire;
    assert d.Previous(|c.summaries|) == c.Previous(|c.summaries|);
    assert forall i :: 0 <= i < |c.summaries| ==> d.Previous(i) == c.Previous(i);
    assert Asked(d) == Asked(c) + [request];
  }

  lemma PieceFits(wire: Wire, previous: Option<Summary>, part: nat, t: Text, k: nat, m: nat, threshold: nat)
    requires k < m <= |t| && LongestFragment(wire, previous, part, t, k, m, threshold)
    ensures FitsWire(wire, threshold, ForSummary(previous, part, EncodeAll(t[k..m]), false))
  {
  }

  /** One fragment: find its end, then obtain a summary for it. Nothing is asked if no character fits. */
  method TakeFragment(wire: Wire, previous: Option<Summary>, part: nat, t: Text, bytes: seq<Byte>, table: seq<int>,
                      ghost k: nat, offset: nat, threshold: nat, remaining0: nat, repair0: bool, long: bool,
                      host: Host, session: Session, ledger: Ledger, ghost es0: seq<Entry>, ghost l0: Snapshot,
                      ghost requests0: nat)
    returns (summary: Option<Summary>, remaining: nat, repair: bool, end: nat, ghost m: nat, ghost made: nat,
             ghost tries: nat)
    requires bytes == EncodeAll(t) && table == Table(t) && k <= |t| && offset == Offset(t, k)
    requires remaining0 >= 1
    requires Held(long, es0, l0, requests0, session, ledger)
    modifies host, session, ledger
    ensures 1 <= remaining <= remaining0 && (repair ==> repair0)
    ensures remaining0 - remaining == made <= 1 + (if repair0 && !repair then 1 else 0)
    ensures PieceTried(wire, previous, part, t, k, m, threshold, old(host.sent), host.sent, tries) && tries <= made
    ensures summary.Some? ==>
              && tries == made && k <= m <= |t| && offset + end == Offset(t, m)
              && ValidSummary(summary.value, Min(threshold / 8, MAX_SUMMARY_BYTES))
              && remaining0 - remaining == 1 + (if repair0 && !repair then 1 else 0)
              && Held(long, es0, l0, requests0 + remaining0 - remaining, session, ledger)
              && (long ==> ledger.fields.state == Ready)
    ensures Still(session, es0, session.entries)
    ensures !long ==> session.entries == es0 && ledger.fields == l0
  {
    HeldGrown(long, es0, l0, requests0, session, ledger);
    var maxSummary := Min(threshold / 8, MAX_SUMMARY_BYTES);
    assert maxSummary >= 0;
    NothingTried(wire, previous, part, t, k, threshold, host.sent);
    hide *;
    summary, remaining, repair, end, m, made, tries := None, remaining0, repair0, 0, k, 0, 0;
    if remaining <= 1 {
      return;
    }
    var request;
    request, end, m := FragmentRequest(wire, previous, part, t, bytes, table, k, offset, threshold);
    if request.None? {
      return;
    }
    ghost var sent := host.sent;
    summary, remaining, repair, made, tries :=
      AskForSummary(request.value, maxSummary, remaining, repair, long, host, session, ledger, es0, l0, requests0);
    TriedIs(wire, previous, part, t, k, m, threshold, sent, host.sent, tries);
  }

  /** The request for the longest fragment that fits, unless not even one character does. */
  method FragmentRequest(wire: Wire, previous: Option<Summary>, part: nat, t: Text, bytes: seq<Byte>, table: seq<int>,
                         ghost k: nat, offset: nat, threshold: nat)
    returns (request: Option<Request>, end: nat, ghost m: nat)
    requires bytes == EncodeAll(t) && table == Table(t) && k <= |t| && offset == Offset(t, k)
    ensures request.Some? ==>
              && k < m <= |t| && offset + end == Offset(t, m)
              && LongestFragment(wire, previous, part, t, k, m, threshold)
              && request.value == ForSummary(previous, part, EncodeAll(t[k..m]), false)
  {
    hide *;
    var found, cut := FragmentEnd(wire, previous, part, t, bytes, table, k, offset, threshold);
    end, m := 0, k;
    if found.None? || found.value == 0 {
      return None, end, m;
    }
    end, m := found.value, cut;
    SliceIs(t, k, m);
    request := Some(ForSummary(previous, part, bytes[offset..offset + end], false));
  }

  /** What was sent for one piece: nothing, or the longest piece that fits, n times. */
  ghost predicate PieceTried(wire: Wire, previous: Option<Summary>, part: nat, t: Text, k: nat, m: nat, threshold: nat,
                             before: seq<Request>, after: seq<Request>, n: nat)
  {
    if n == 0 then after == before
    else
      && k < m <= |t| && LongestFragment(wire, previous, part, t, k, m, threshold)
      && after == before + Tries(ForSummary(previous, part, EncodeAll(t[k..m]), false), n)
  }

  lemma NothingTried(wire: Wire, previous: Option<Summary>, part: nat, t: Text, k: nat, threshold: nat,
                     sent: seq<Request>)
    ensures PieceTried(wire, previous, part, t, k, k, threshold, sent, sent, 0)
    ensures forall m: nat :: PieceTried(wire, previous, part, t, k, m, threshold, sent, sent, 0)
  {
  }

  lemma TriedIs(wire: Wire, previous: Option<Summary>, part: nat, t: Text, k: nat, m: nat, threshold: nat,
                before: seq<Request>, after: seq<Request>, n: nat)
    requires k < m <= |t| && LongestFragment(wire, previous, part, t, k, m, threshold)
    requires after == before + Tries(ForSummary(previous, part, EncodeAll(t[k..m]), false), n)
    ensures PieceTried(wire, previous, part, t, k, m, threshold, before, after, n)
  {
    hide LongestFragment;
  }

  /** The cutting and the requests sent, after one more piece was tried. */
  lemma AfterPiece(wire: Wire, t: Text, threshold: nat, c: Cutting, requests: seq<Request>, sent0: seq<Request>,
                   sent1: seq<Request>, sent2: seq<Request>, m: nat, summary: Option<Summary>, offset: nat, end: nat,
                   n: nat)
    returns (d: Cutting, longer: seq<Request>)
    requires Sliced(wire, t, threshold, c) && |c.cuts| == |c.summaries| + 1 && c.Last() <= |t|
    requires Sends(wire, threshold, c, requests)
    requires sent1 == sent0 + requests && n <= 2
    requires PieceTried(wire, c.Previous(|c.summaries|), |c.summaries|, t, c.Last(), m, threshold, sent1, sent2, n)
    requires offset == Offset(t, c.Last())
    requires summary.Some? ==> n >= 1 && c.Last() <= m <= |t| && offset + end == Offset(t, m)
    ensures sent2 == sent0 + longer && |longer| == |requests| + n && AllFit(wire, threshold, longer)
    ensures summary.None? ==> d == c
    ensures summary.Some? ==>
              && 0 <= offset <= offset + end <= |EncodeAll(t)|
              && d == Cutting(c.cuts + [m], c.summaries + [summary.value],
                              c.fragments + [EncodeAll(t)[offset..offset + end]])
              && Sliced(wire, t, threshold, d) && d.Last() == m && d.Previous(|d.summaries|) == summary
              && Sends(wire, threshold, d, longer)
  {
    SendsFit(wire, threshold, c, requests);
    hide LongestFragment, EncodeAll, Offset, FitsWire, AllFit, Firsts, Sends, Sliced, Tries;
    d := c;
    longer := PieceSent(wire, c.Previous(|c.summaries|), |c.summaries|, t, c.Last(), m, threshold, requests, sent0,
                        sent1, sent2, n);
    if summary.Some? {
      SliceIs(t, c.Last(), m);
      d := SlicedAdvance(wire, t, threshold, c, m, summary.value, offset, end);
      var request := ForSummary(c.Previous(|c.summaries|), |c.summaries|, EncodeAll(t[c.Last()..m]), false);
      SlicedShape(wire, t, threshold, c);
      SlicedShape(wire, t, threshold, d);
      SendsNext(wire, threshold, c, d, requests, request, n);
    }
  }

  lemma SlicedShape(wire: Wire, t: Text, threshold: nat, c: Cutting)
    requires Sliced(wire, t, threshold, c)
    ensures c.Shape()
  {
  }

  lemma PieceSent(wire: Wire, previous: Option<Summary>, part: nat, t: Text, k: nat, m: nat, threshold: nat,
                  requests: seq<Request>, sent0: seq<Request>, sent1: seq<Request>, sent2: seq<Request>, n: nat)
    returns (longer: seq<Request>)
    requires PieceTried(wire, previous, part, t, k, m, threshold, sent1, sent2, n)
    requires AllFit(wire, threshold, requests) && sent1 == sent0 + requests && n <= 2
    ensures sent2 == sent0 + longer && |longer| == |requests| + n && AllFit(wire, threshold, longer)
    ensures n > 0 ==>
              && k < m <= |t| && LongestFragment(wire, previous, part, t, k, m, threshold)
              && var request := ForSummary(previous, part, EncodeAll(t[k..m]), false);
                 longer == requests + Tries(request, n) && FitsWire(wire, threshold, request)
  {
    longer := requests;
    if n > 0 {
      var request := ForSummary(previous, part, EncodeAll(t[k..m]), false);
      PieceFits(wire, previous, part, t, k, m, threshold);
      FitNext(wire, threshold, requests, request, n);
      longer := requests + Tries(request, n);
      TriesCount(request, n);
    }
    hide LongestFragment, AllFit, FitsWire;
  }

  lemma TriesCount(request: Request, n: nat)
    requires request.ForSummary?
    ensures n <= 2 ==> |Tries(request, n)| == n
  {
  }

  /** Summarizes the whole evidence text. Every exit leaves at least one request for the next action, and the
      counter falls by exactly the requests tried: one per fragment, plus one repair at most over all of them. On
      success the fragments are the text, in order, without a gap, each the longest that fitted, and exactly they were
      sent; on every exit no request was larger than the threshold. */
  method Summarize(t: Text, threshold: nat, remaining0: nat, wire: Wire, long: bool, host: Host, session: Session,
                   ledger: Ledger, ghost es0: seq<Entry>, ghost l0: Snapshot)
    returns (summary: Option<Summary>, remaining: nat, fragments: seq<seq<Byte>>, ghost c: Cutting, ghost made: nat,
             ghost requests: seq<Request>)
    requires remaining0 >= 1
    requires Held(long, es0, l0, 0, session, ledger)
    modifies host, session, ledger
    ensures 1 <= remaining <= remaining0
    ensures remaining0 - remaining == made <= MAX_CHUNKS + 1
    ensures made <= |fragments| + 2 && |fragments| <= MAX_CHUNKS
    ensures host.sent == old(host.sent) + requests && |requests| <= made && AllFit(wire, threshold, requests)
    ensures summary.Some? ==>
              && Sends(wire, threshold, c, requests) && |requests| == made
              && |fragments| <= made <= |fragments| + 1
              && Sliced(wire, t, threshold, c) && c.fragments == fragments && c.Last() == |t|
              && Flatten(fragments) == EncodeAll(t)
              && ValidSummary(summary.value, Min(threshold / 8, MAX_SUMMARY_BYTES))
              && Held(long, es0, l0, made, session, ledger)
              && (long ==> ledger.fields.state == Ready)
    ensures Still(session, es0, session.entries)
    ensures !long ==> session.entries == es0 && ledger.fields == l0
  {
    HeldGrown(long, es0, l0, 0, session, ledger);
    SlicedStart(wire, t, threshold);
    SendsStart(wire, threshold);
    hide *;
    var bytes, table := EncodeAll(t), Table(t);
    var repair, offset := true, 0;
    remaining, fragments, summary, c, made, requests := remaining0, [], None, UNCUT, 0, [];
    SendsFit(wire, threshold, c, requests);
    for part := 0 to MAX_CHUNKS
      invariant 1 <= remaining <= remaining0 && remaining0 - remaining == made == part + if repair then 0 else 1
      invariant |c.summaries| == |c.cuts| - 1 == part == |fragments|
      invariant Sliced(wire, t, threshold, c)
      invariant c.fragments == fragments && summary == c.Previous(part)
      invariant c.Last() <= |t| && offset == Offset(t, c.Last())
      invariant host.sent == old(host.sent) + requests && |requests| == made
      invariant Sends(wire, threshold, c, requests) && AllFit(wire, threshold, requests)
      invariant Held(long, es0, l0, remaining0 - remaining, session, ledger)
      invariant Still(session, es0, session.entries)
      invariant !long ==> session.entries == es0 && ledger.fields == l0
    {
      var end: nat;
      ghost var m: nat;
      ghost var more: nat;
      ghost var tries: nat;
      ghost var sent := host.sent;
      summary, remaining, repair, end, m, more, tries :=
        TakeFragment(wire, summary, part, t, bytes, table, c.Last(), offset, threshold, remaining, repair, long,
                     host, session, ledger, es0, l0, remaining0 - remaining);
      made := made + more;
      c, requests := AfterPiece(wire, t, threshold, c, requests, old(host.sent), sent, host.sent, m, summary, offset,
                                end, tries);
      if summary.None? {
        return;
      }
      fragments := fragments + [bytes[offset..offset + end]];
      offset := offset + end;
      if offset == |bytes| {
        SlicedAll(wire, t, threshold, c);
        return;
      }
    }
    summary := None;
  }

  lemma SendsFit(wire: Wire, threshold: nat, c: Cutting, requests: seq<Request>)
    requires Sends(wire, threshold, c, requests)
    ensures AllFit(wire, threshold, requests)
  {
  }
}
