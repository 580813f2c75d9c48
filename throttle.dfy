/**
  The throttling rule of a queue-state logger, as pure functions over its
  "last emitted" timestamp, and what follows from it for a run of calls.
  Times are whole seconds.
 */
module Throttle {
  import opened Wrappers
  import opened QueueStates

  /** The window inside which a logger emits at most once. */
  const ThrottleWindowSeconds: nat := 60

  /** A call `log(state)` made at time `at`. */
  datatype Call = Call(state: QueueState, at: int)

  /** Whether the window has passed since the last emission; never having emitted counts as passed. */
  predicate WindowElapsed(lastLoggedAt: Option<int>, now: int, window: nat) {
    lastLoggedAt.None? || now - lastLoggedAt.value >= window
  }

  /** The outcome of one call: whether it emits, and the new "last emitted" timestamp. */
  datatype Decision = Decision(emit: bool, lastLoggedAt: Option<int>)

  /**
    One call of the rule. A state other than IN_QUEUE changes nothing; an
    emission lies at least a window after the previous one; and the
    timestamp never moves back.
   */
  function Decide(lastLoggedAt: Option<int>, state: QueueState, now: int, window: nat): (d: Decision)
    ensures state != InQueue ==> d == Decision(false, lastLoggedAt)
    ensures d.emit ==> d.lastLoggedAt == Some(now) && (lastLoggedAt.Some? ==> now - lastLoggedAt.value >= window)
    ensures lastLoggedAt.Some? ==> d.lastLoggedAt.Some? && d.lastLoggedAt.value >= lastLoggedAt.value
  {
    if state == InQueue && WindowElapsed(lastLoggedAt, now, window) then
      Decision(true, Some(now))
    else
      Decision(false, lastLoggedAt)
  }

  /** The emission times of a run of calls on one logger, and its timestamp afterwards. */
  datatype Replayed = Replayed(emitted: seq<int>, lastLoggedAt: Option<int>)

  function Replay(lastLoggedAt: Option<int>, calls: seq<Call>, window: nat): Replayed
    decreases |calls|
  {
    if calls == [] then
      Replayed([], lastLoggedAt)
    else
      var before := Replay(lastLoggedAt, calls[..|calls| - 1], window);
      var c := calls[|calls| - 1];
      var d := Decide(before.lastLoggedAt, c.state, c.at, window);
      Replayed(before.emitted + (if d.emit then [c.at] else []), d.lastLoggedAt)
  }

  /** The calls `log(IN_QUEUE)` made at the given times, in order. */
  function InQueueCalls(times: seq<int>): seq<Call> {
    seq(|times|, i requires 0 <= i < |times| => Call(InQueue, times[i]))
  }

  /** Consecutive emission times lie at least a window apart. */
  ghost predicate Spaced(ts: seq<int>, window: nat) {
    forall i :: 0 < i < |ts| ==> ts[i] - ts[i - 1] >= window
  }

  function LastEmission(ts: seq<int>): Option<int> {
    if ts == [] then None else Some(ts[|ts| - 1])
  }

  /**
    On a logger that has never emitted, a run of `log(IN_QUEUE)` calls none of
    which comes a full window or more after the first (the clock may step
    back) emits exactly once, at the
    first call, and leaves that call's time as the timestamp.
   */
  lemma {:induction false} OnlyFirstInWindowEmits(calls: seq<Call>, window: nat)
    requires |calls| >= 1
    requires forall i :: 0 <= i < |calls| ==> calls[i].state == InQueue
    requires forall i :: 0 <= i < |calls| ==> calls[i].at < calls[0].at + window
    ensures Replay(None, calls, window) == Replayed([calls[0].at], Some(calls[0].at))
  {
    if |calls| > 1 {
      var prefix := calls[..|calls| - 1];
      OnlyFirstInWindowEmits(prefix, window);
    }
  }

  /**
    Whatever the calls, a logger that starts without an emission never emits
    twice within one window, and its timestamp is the time of its latest
    emission.
   */
  lemma {:induction false} ReplayKeepsSpacing(calls: seq<Call>, window: nat)
    ensures Spaced(Replay(None, calls, window).emitted, window)
    ensures Replay(None, calls, window).lastLoggedAt == LastEmission(Replay(None, calls, window).emitted)
  {
    if calls != [] {
      var prefix := calls[..|calls| - 1];
      ReplayKeepsSpacing(prefix, window);
      var before := Replay(None, prefix, window);
      var c := calls[|calls| - 1];
      var d := Decide(before.lastLoggedAt, c.state, c.at, window);
      if d.emit {
        var ts := before.emitted + [c.at];
        assert ts[..|ts| - 1] == before.emitted;
        assert ts[|ts| - 1] == c.at;
        assert Spaced(ts, window);
      } else {
        assert before.emitted + [] == before.emitted;
      }
    }
  }
}
