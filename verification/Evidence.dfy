/** The evidence a checkpoint is made from: the context with its old tool output elided, as one text, in fragments. */
module Evidence {
  import opened Common
  import opened LongTask
  import opened Messages
  import opened Compaction
  import opened Utf8
  import opened Journal
  import opened Durable
  import opened Gate
  import opened Elision
  import opened Summarizer

  /** The serialized evidence of a context. */
  type Render = seq<Message> -> Text

  const DEFAULT := EvidencePolicy(4, 1536, 1536)

  function EvidenceText(render: Render, ms: seq<Message>): Text {
    render(ElideAll(ms, DEFAULT))
  }

  /** Elides the summarizer's copy, serializes it once and summarizes all of it: on success the fragments sent
      are, in order, the whole evidence of the elided context, each the longest that fitted. */
  method SummarizeContext(render: Render, ms: seq<Message>, threshold: nat, remaining0: nat, wire: Wire, long: bool,
                          host: Host, session: Session, ledger: Ledger, ghost es0: seq<Entry>, ghost l0: Snapshot)
    returns (summary: Option<Summary>, remaining: nat, ghost c: Cutting, ghost made: nat, ghost requests: seq<Request>)
    requires remaining0 >= 1
    requires Held(long, es0, l0, 0, session, ledger)
    modifies host, session, ledger
    ensures 1 <= remaining && remaining0 - remaining == made <= MAX_CHUNKS + 1
    ensures host.sent == old(host.sent) + requests && |requests| <= made && AllFit(wire, threshold, requests)
    ensures summary.Some? ==>
              && Sliced(wire, EvidenceText(render, ms), threshold, c) && Sends(wire, threshold, c, requests)
              && |requests| == made <= |c.fragments| + 1
              && Flatten(c.fragments) == EncodeAll(EvidenceText(render, ms))
              && ValidSummary(summary.value, Min(threshold / 8, MAX_SUMMARY_BYTES))
              && Held(long, es0, l0, made, session, ledger)
              && (long ==> ledger.fields.state == Ready)
    ensures Still(session, es0, session.entries)
    ensures !long ==> session.entries == es0 && ledger.fields == l0
  {
    var copy := Copy(ms);
    var removed := ElideStaleToolResults(copy, DEFAULT);
    assert copy[..] == ElideAll(ms, DEFAULT);
    var text := render(copy[..]);
    hide *;
    assert text == EvidenceText(render, ms) by {
      Serialized(render, ms, text);
    }
    var fragments;
    summary, remaining, fragments, c, made, requests :=
      Summarize(text, threshold, remaining0, wire, long, host, session, ledger, es0, l0);
  }

  lemma Serialized(render: Render, ms: seq<Message>, text: Text)
    requires text == render(ElideAll(ms, DEFAULT))
    ensures text == EvidenceText(render, ms)
  {
  }

  method Copy(ms: seq<Message>) returns (copy: array<Message>)
    ensures fresh(copy) && copy[..] == ms
  {
    copy := new Message[|ms|](i requires 0 <= i < |ms| => ms[i]);
  }
}
