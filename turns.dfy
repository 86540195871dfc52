/** The `isAIResponding` flag of app.js over a whole run: interruption ticks, inbound
    realtime events and teardowns interleave freely, and the detector never cancels twice
    within one responding period. */
module Turns {
  import opened Js
  import opened Protocol
  import opened Interruption
  import opened Dispatch

  /** The events that read or write the flag: a firing of the 100 ms detector interval (with
      its guard, the loudness it measured and whether the control socket is OPEN), an inbound
      message, and `disconnect`. */
  datatype Step =
    | DetectorTick(active: bool, level: Loudness, socketOpen: bool)
    | Message(m: Inbound)
    | Teardown

  /** The flag after one step. The dispatcher's effect on the flag does not depend on the
      transcript, so any transcript may be passed. */
  function Next(responding: bool, s: Step): bool {
    match s
    case DetectorTick(active, level, socketOpen) => Tick(active, level, responding, socketOpen, 0).responding
    case Message(m) => HandleMessage(responding, "", m).responding
    case Teardown => false
  }

  /** The step sends `response.cancel`. */
  predicate Cancels(responding: bool, s: Step) {
    s.DetectorTick? && Tick(s.active, s.level, responding, s.socketOpen, 0).cancelSent
  }

  /** The step sets the flag again. */
  predicate Rearms(s: Step) {
    s.Message? && Arms(s.m)
  }

  function After(r0: bool, trace: seq<Step>): bool {
    if trace == [] then r0 else Next(After(r0, trace[..|trace| - 1]), trace[|trace| - 1])
  }

  lemma {:induction false} AfterAppend(r0: bool, a: seq<Step>, b: seq<Step>)
    ensures After(r0, a + b) == After(After(r0, a), b)
    decreases |b|
  {
    if b == [] {
      assert a + b == a;
    } else {
      assert (a + b)[..|a + b| - 1] == a + b[..|b| - 1];
      AfterAppend(r0, a, b[..|b| - 1]);
    }
  }

  /** A cleared flag stays cleared until a re-arming event. */
  lemma {:induction false} StaysQuiet(trace: seq<Step>)
    requires forall k :: 0 <= k < |trace| ==> !Rearms(trace[k])
    ensures !After(false, trace)
  {
    if trace != [] {
      StaysQuiet(trace[..|trace| - 1]);
    }
  }

  /** A cancel clears the flag, and a step sets it only by re-arming. */
  lemma CancelClears(responding: bool, s: Step)
    ensures Cancels(responding, s) ==> responding && !Next(responding, s)
    ensures !responding && Next(responding, s) ==> Rearms(s)
  {
  }

  /** Between two cancels of a run there is always a `response.created` or
      `response.output_item.added`: at most one cancel per responding period. */
  lemma {:induction false} NoSecondCancel(r0: bool, trace: seq<Step>, i: nat, j: nat)
    requires i < j < |trace|
    requires Cancels(After(r0, trace[..i]), trace[i])
    requires Cancels(After(r0, trace[..j]), trace[j])
    ensures exists k :: i < k < j && Rearms(trace[k])
  {
    if forall k :: i < k < j ==> !Rearms(trace[k]) {
      var mid := trace[i + 1..j];
      CancelClears(After(r0, trace[..i]), trace[i]);
      assert trace[..i + 1][..i] == trace[..i];
      assert !After(r0, trace[..i + 1]);
      assert forall k :: 0 <= k < |mid| ==> mid[k] == trace[i + 1 + k];
      StaysQuiet(mid);
      assert trace[..j] == trace[..i + 1] + mid;
      AfterAppend(r0, trace[..i + 1], mid);
      assert false;
    }
  }
}
