/**
 * What task_callback does to each message before queueing it: a capture
 * failure stops the assistant, a drop report is enriched, every other
 * message passes through unchanged.
 */
module Interceptor {
  import opened DropStatistics
  import opened Messages
  import opened Tasks

  /** The capture failures that make task_callback call stop(). */
  predicate IsFatal(kind: AsstMsg) {
    kind == PtrIsNull || kind == ImageIsEmpty
  }

  /** A message whose detail organize_stage_drop rewrites. */
  predicate IsDropReport(m: Message) {
    m.kind == StageDrops && m.detail.ReportDetail?
  }

  predicate AnyFatal(ms: seq<Message>) {
    exists i :: 0 <= i < |ms| && IsFatal(ms[i].kind)
  }

  /** How many of `ms` are capture failures, that is, how many stop() calls they cause. */
  function FatalCount(ms: seq<Message>): nat
    decreases |ms|
  {
    if ms == [] then 0
    else FatalCount(ms[..|ms| - 1]) + (if IsFatal(ms[|ms| - 1].kind) then 1 else 0)
  }

  /** The drop accumulator after task_callback handles `m`. */
  function AccAfter(acc: map<string, int>, m: Message): map<string, int> {
    if IsDropReport(m) then Accumulate(acc, m.detail.report.drops) else acc
  }

  function AccAfterAll(acc: map<string, int>, ms: seq<Message>): map<string, int>
    decreases |ms|
  {
    if ms == [] then acc
    else AccAfter(AccAfterAll(acc, ms[..|ms| - 1]), ms[|ms| - 1])
  }

  /** The task queue after task_callback handles every message of `ms`. */
  function QueueAfterRun(q: seq<Task>, ms: seq<Message>): seq<Task> {
    if AnyFatal(ms) then [] else q
  }

  /**
   * `out` is what task_callback queues for `m`, given the accumulator
   * `acc` as it was before: the same kind, and the same detail unless `m`
   * is a drop report, which is enriched.
   */
  ghost predicate Intercepted(m: Message, out: Message, acc: map<string, int>, names: map<string, string>) {
    if IsDropReport(m) then
      out.kind == m.kind && out.detail.ReportDetail? && IsOrganized(m.detail.report, out.detail.report, acc, names)
    else
      out == m
  }

  /** `outs` is what task_callback queues for the messages `ms`, handled in order. */
  ghost predicate InterceptedAll(ms: seq<Message>, outs: seq<Message>, acc: map<string, int>, names: map<string, string>) {
    && |outs| == |ms|
    && forall k :: 0 <= k < |ms| ==> Intercepted(ms[k], outs[k], AccAfterAll(acc, ms[..k]), names)
  }

  /**
   * The queue task_callback builds keeps the kinds of the posted messages,
   * in order, and every message but a drop report is queued unchanged.
   */
  lemma {:induction false} InterceptedKeepsOrder(ms: seq<Message>, outs: seq<Message>, acc: map<string, int>, names: map<string, string>)
    requires InterceptedAll(ms, outs, acc, names)
    ensures |outs| == |ms|
    ensures forall k :: 0 <= k < |ms| ==> outs[k].kind == ms[k].kind
    ensures forall k :: 0 <= k < |ms| && !IsDropReport(ms[k]) ==> outs[k] == ms[k]
  {
    forall k | 0 <= k < |ms|
      ensures outs[k].kind == ms[k].kind
      ensures !IsDropReport(ms[k]) ==> outs[k] == ms[k]
    {
      assert Intercepted(ms[k], outs[k], AccAfterAll(acc, ms[..k]), names);
    }
  }

  /** Handling one more message: a stop is caused iff one was already or the new message is a capture failure. */
  lemma {:induction false} AnyFatalSnoc(ms: seq<Message>, m: Message)
    ensures AnyFatal(ms + [m]) <==> AnyFatal(ms) || IsFatal(m.kind)
    ensures FatalCount(ms + [m]) == FatalCount(ms) + (if IsFatal(m.kind) then 1 else 0)
  {
    assert (ms + [m])[..|ms|] == ms;
    if AnyFatal(ms) {
      var k :| 0 <= k < |ms| && IsFatal(ms[k].kind);
      assert (ms + [m])[k] == ms[k];
    }
    if IsFatal(m.kind) {
      assert (ms + [m])[|ms|] == m;
    }
    if AnyFatal(ms + [m]) && !IsFatal(m.kind) {
      var k :| 0 <= k < |ms| + 1 && IsFatal((ms + [m])[k].kind);
      assert k < |ms| && ms[k] == (ms + [m])[k];
    }
  }

  /** Extends InterceptedAll by one message handled after the others. */
  lemma {:induction false} InterceptedAllSnoc(ms: seq<Message>, outs: seq<Message>, m: Message, out: Message,
                           acc: map<string, int>, names: map<string, string>)
    requires InterceptedAll(ms, outs, acc, names)
    requires Intercepted(m, out, AccAfterAll(acc, ms), names)
    ensures InterceptedAll(ms + [m], outs + [out], acc, names)
    ensures AccAfterAll(acc, ms + [m]) == AccAfter(AccAfterAll(acc, ms), m)
  {
    var ms', outs' := ms + [m], outs + [out];
    assert ms'[..|ms|] == ms;
    forall k | 0 <= k < |ms'|
      ensures Intercepted(ms'[k], outs'[k], AccAfterAll(acc, ms'[..k]), names)
    {
      if k < |ms| {
        assert ms'[..k] == ms[..k];
        assert ms'[k] == ms[k] && outs'[k] == outs[k];
      }
    }
  }

  /** The accumulator after a run is the accumulator after all its drop reports, in order. */
  lemma {:induction false} AccAfterAllConcat(acc: map<string, int>, a: seq<Message>, b: seq<Message>)
    ensures AccAfterAll(acc, a + b) == AccAfterAll(AccAfterAll(acc, a), b)
    decreases |b|
  {
    if b == [] {
      assert a + b == a;
    } else {
      assert (a + b)[..|a + b| - 1] == a + b[..|b| - 1];
      AccAfterAllConcat(acc, a, b[..|b| - 1]);
    }
  }
}
