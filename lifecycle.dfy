/**
 * The BasicCPP plugin's private time anchor `baseDay` as a pure state machine.
 * Zero means "not anchored yet": the first propagation anchors the plugin to
 * that call's Julian day, and disabling the plugin clears the anchor again.
 */
module Lifecycle {
  import opened OpiTypes

  const SecondsPerDay: real := 86400.0

  /** The anchor after a propagation at `julianDay` from anchor `baseDay`. */
  function Anchor(baseDay: real, julianDay: real): real
  {
    if baseDay == 0.0 then julianDay else baseDay
  }

  /** Seconds handed to the kernel by a propagation at (`julianDay`, `dt`). */
  function ElapsedSeconds(baseDay: real, julianDay: real, dt: real): real
  {
    (julianDay - Anchor(baseDay, julianDay)) * SecondsPerDay + dt
  }

  /** The plugin entry points that read or write the anchor. */
  datatype Call = Propagate(julianDay: real, dt: real) | Disable | Enable

  /** What a call yields: the elapsed seconds of a propagation, or a bare status. */
  datatype Reply = Propagated(seconds: real) | Status(code: ErrorCode)

  function NextBaseDay(baseDay: real, c: Call): real
  {
    match c
    case Propagate(julianDay, _) => Anchor(baseDay, julianDay)
    case Disable => 0.0
    case Enable => baseDay
  }

  function ReplyTo(baseDay: real, c: Call): Reply
  {
    match c
    case Propagate(julianDay, dt) => Propagated(ElapsedSeconds(baseDay, julianDay, dt))
    case Disable => Status(Success)
    case Enable => Status(Success)
  }

  /** The anchor after performing `calls` in order, starting from `baseDay`. */
  function FinalBaseDay(baseDay: real, calls: seq<Call>): real
    decreases |calls|
  {
    if calls == [] then baseDay else FinalBaseDay(NextBaseDay(baseDay, calls[0]), calls[1..])
  }

  /** The replies to `calls` in order, starting from anchor `baseDay`; one per call. */
  function Replies(baseDay: real, calls: seq<Call>): (r: seq<Reply>)
    ensures |r| == |calls|
    decreases |calls|
  {
    if calls == [] then []
    else [ReplyTo(baseDay, calls[0])] + Replies(NextBaseDay(baseDay, calls[0]), calls[1..])
  }

  /** No call in `calls` disables the plugin. */
  predicate StaysEnabled(calls: seq<Call>)
  {
    forall k :: 0 <= k < |calls| ==> !calls[k].Disable?
  }

  /** The first propagation of an unanchored plugin sees exactly `dt` and anchors to its day. */
  lemma FirstPropagation(julianDay: real, dt: real)
    ensures NextBaseDay(0.0, Propagate(julianDay, dt)) == julianDay
    ensures ReplyTo(0.0, Propagate(julianDay, dt)) == Propagated(dt)
  {
  }

  /** An anchored plugin keeps its anchor and measures time from it. */
  lemma LaterPropagation(baseDay: real, julianDay: real, dt: real)
    requires baseDay != 0.0
    ensures NextBaseDay(baseDay, Propagate(julianDay, dt)) == baseDay
    ensures ReplyTo(baseDay, Propagate(julianDay, dt))
         == Propagated((julianDay - baseDay) * SecondsPerDay + dt)
  {
  }

  /**
   * Zero doubles as the "unset" value: a propagation at Julian day 0 leaves the
   * plugin unanchored, so the next propagation anchors to its own day.
   */
  lemma ZeroDayIsNotAnAnchor(dt0: real, julianDay: real, dt: real)
    ensures NextBaseDay(0.0, Propagate(0.0, dt0)) == 0.0
    ensures FinalBaseDay(0.0, [Propagate(0.0, dt0), Propagate(julianDay, dt)]) == julianDay
    ensures Replies(0.0, [Propagate(0.0, dt0), Propagate(julianDay, dt)])
         == [Propagated(dt0), Propagated(dt)]
  {
    var calls := [Propagate(0.0, dt0), Propagate(julianDay, dt)];
    assert calls[1..] == [Propagate(julianDay, dt)];
    assert calls[1..][1..] == [];
    assert FinalBaseDay(julianDay, []) == julianDay;
    assert FinalBaseDay(0.0, calls[1..]) == julianDay;
  }

  /** Enable, disable and the status they report, from any anchor. */
  lemma EnableDisableStatus(baseDay: real)
    ensures NextBaseDay(baseDay, Enable) == baseDay && ReplyTo(baseDay, Enable) == Status(Success)
    ensures NextBaseDay(baseDay, Disable) == 0.0 && ReplyTo(baseDay, Disable) == Status(Success)
  {
  }

  /** Performing `xs` and then `ys` replies as `xs` does, then as `ys` does from where `xs` left off. */
  lemma {:induction false} RepliesAppend(baseDay: real, xs: seq<Call>, ys: seq<Call>)
    ensures FinalBaseDay(baseDay, xs + ys) == FinalBaseDay(FinalBaseDay(baseDay, xs), ys)
    ensures Replies(baseDay, xs + ys)
         == Replies(baseDay, xs) + Replies(FinalBaseDay(baseDay, xs), ys)
    decreases |xs|
  {
    if xs == [] {
      assert xs + ys == ys;
    } else {
      assert (xs + ys)[0] == xs[0];
      assert (xs + ys)[1..] == xs[1..] + ys;
      RepliesAppend(NextBaseDay(baseDay, xs[0]), xs[1..], ys);
    }
  }

  /**
   * The reset contract: whatever happened before, disabling and then enabling
   * the plugin makes every later call reply exactly as it would on a freshly
   * constructed plugin (whose anchor is 0).
   */
  lemma {:induction false} ResetRestoresBaseline(baseDay: real, history: seq<Call>, later: seq<Call>)
    ensures Replies(baseDay, history + [Disable, Enable] + later)
         == Replies(baseDay, history) + [Status(Success), Status(Success)] + Replies(0.0, later)
    ensures FinalBaseDay(baseDay, history + [Disable, Enable] + later) == FinalBaseDay(0.0, later)
  {
    var reset := [Disable, Enable];
    RepliesAppend(baseDay, history + reset, later);
    RepliesAppend(baseDay, history, reset);
    var b := FinalBaseDay(baseDay, history);
    assert reset[1..] == [Enable];
    assert reset[1..][1..] == [];
    assert FinalBaseDay(b, reset) == 0.0;
    assert Replies(b, reset) == [Status(Success), Status(Success)];
  }

  /** Hence the first propagation after disable and enable sees exactly `dt`, as the first one ever did. */
  lemma ResetThenPropagate(baseDay: real, history: seq<Call>, julianDay: real, dt: real)
    ensures Replies(baseDay, history + [Disable, Enable, Propagate(julianDay, dt)])[|history| + 2]
         == Replies(0.0, [Propagate(julianDay, dt)])[0]
         == Propagated(dt)
  {
    var p := [Propagate(julianDay, dt)];
    assert history + [Disable, Enable, Propagate(julianDay, dt)] == history + [Disable, Enable] + p;
    ResetRestoresBaseline(baseDay, history, p);
  }

  /**
   * While the plugin stays enabled, an anchored plugin keeps its anchor and every
   * propagation reports the time elapsed since the anchor day plus its own `dt`.
   */
  lemma {:induction false} AnchoredWhileEnabled(baseDay: real, calls: seq<Call>)
    requires baseDay != 0.0
    requires StaysEnabled(calls)
    ensures FinalBaseDay(baseDay, calls) == baseDay
    ensures forall k :: 0 <= k < |calls| && calls[k].Propagate? ==>
              Replies(baseDay, calls)[k]
              == Propagated((calls[k].julianDay - baseDay) * SecondsPerDay + calls[k].dt)
    ensures forall k :: 0 <= k < |calls| && !calls[k].Propagate? ==>
              Replies(baseDay, calls)[k] == Status(Success)
    decreases |calls|
  {
    if calls != [] {
      assert !calls[0].Disable?;
      assert NextBaseDay(baseDay, calls[0]) == baseDay;
      assert StaysEnabled(calls[1..]) by {
        forall k | 0 <= k < |calls[1..]| ensures !calls[1..][k].Disable? {
          assert calls[1..][k] == calls[k + 1];
        }
      }
      AnchoredWhileEnabled(baseDay, calls[1..]);
      var r := Replies(baseDay, calls);
      forall k | 1 <= k < |calls|
        ensures r[k] == Replies(baseDay, calls[1..])[k - 1] && calls[k] == calls[1..][k - 1]
      {
      }
    }
  }

  /**
   * From a fresh plugin, a first propagation at a non-zero day anchors the plugin:
   * every propagation after it (while enabled) reports seconds since that day.
   */
  lemma FirstCallAnchorsLaterCalls(julianDay: real, dt: real, later: seq<Call>)
    requires julianDay != 0.0
    requires StaysEnabled(later)
    ensures Replies(0.0, [Propagate(julianDay, dt)] + later)[0] == Propagated(dt)
    ensures FinalBaseDay(0.0, [Propagate(julianDay, dt)] + later) == julianDay
    ensures forall k :: 0 <= k < |later| && later[k].Propagate? ==>
              Replies(0.0, [Propagate(julianDay, dt)] + later)[k + 1]
              == Propagated((later[k].julianDay - julianDay) * SecondsPerDay + later[k].dt)
  {
    var first := [Propagate(julianDay, dt)];
    RepliesAppend(0.0, first, later);
    assert first[1..] == [];
    assert FinalBaseDay(0.0, first) == julianDay;
    assert Replies(0.0, first) == [Propagated(dt)];
    AnchoredWhileEnabled(julianDay, later);
  }

  /** Repeating a propagation at the same day and step reports the same seconds again. */
  lemma RepeatedPropagationSeesSameTime(baseDay: real, julianDay: real, dt: real)
    ensures ElapsedSeconds(NextBaseDay(baseDay, Propagate(julianDay, dt)), julianDay, dt)
         == ElapsedSeconds(baseDay, julianDay, dt)
  {
  }
}
