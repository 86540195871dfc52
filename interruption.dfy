/** The interruption detector of app.js: every 100 ms the microphone analyser's byte
    frequency bins are averaged; loud input while the AI is responding cancels the response
    (`cancelAIResponse`), quiet input counts towards a silence counter. */
module Interruption {
  import opened Js

  /** `audioAnalyser.fftSize`; the analyser yields `fftSize / 2` bins. */
  const FftSize: nat := 256
  const BinCount: nat := FftSize / 2
  const SilenceThreshold: nat := 20
  const ActivityThreshold: nat := 30

  function BinSum(bins: seq<nat>): nat {
    if bins == [] then 0 else BinSum(bins[..|bins| - 1]) + bins[|bins| - 1]
  }

  /** The summing loop of the 100 ms interval. */
  method SumBins(bins: seq<nat>) returns (sum: nat)
    ensures sum == BinSum(bins)
  {
    sum := 0;
    var i := 0;
    while i < |bins|
      invariant 0 <= i <= |bins|
      invariant sum == BinSum(bins[..i])
    {
      assert bins[..i + 1][..i] == bins[..i];
      sum := sum + bins[i];
      i := i + 1;
    }
    assert bins[..|bins|] == bins;
  }

  datatype Loudness = Speech | Silence | Neither

  lemma DivAbove(a: real, n: real, t: real)
    requires n > 0.0
    ensures a / n > t <==> a > t * n
    ensures a / n < t <==> a < t * n
  {
    var q := a / n;
    assert a == q * n;
    if q > t {
      assert q * n > t * n;
    }
    if q < t {
      assert q * n < t * n;
    }
    if a > t * n {
      assert q * n > t * n;
    }
    if a < t * n {
      assert q * n < t * n;
    }
  }

  /** Where the average `sum / n` falls. The source compares the floating-point average with
      the thresholds; the integer comparisons below decide the same, and with no bin at all
      the average is NaN, which is neither above nor below anything. */
  function Classify(sum: nat, n: nat): Loudness {
    if n == 0 then Neither
    else if sum > ActivityThreshold * n then Speech
    else if sum < SilenceThreshold * n then Silence
    else Neither
  }

  /** `Classify` decides speech exactly when the average exceeds the activity threshold, and
      silence exactly when it falls below the silence threshold. */
  lemma ClassifyIsAverage(sum: nat, n: nat)
    ensures Classify(sum, n) == Speech <==> n > 0 && (sum as real) / (n as real) > ActivityThreshold as real
    ensures Classify(sum, n) == Silence <==> n > 0 && (sum as real) / (n as real) < SilenceThreshold as real
  {
    if n > 0 {
      DivAbove(sum as real, n as real, ActivityThreshold as real);
      DivAbove(sum as real, n as real, SilenceThreshold as real);
    }
  }

  /** What one firing of the interval does to the detector's part of the session state.
      `active` is the interval's guard (an analyser exists and the session is connected). */
  datatype TickOutcome = TickOutcome(responding: bool, cancelSent: bool, speechDetected: bool, silenceCount: nat)

  /** `cancelAIResponse`: send `response.cancel` only on an OPEN socket while the AI responds,
      then clear the flag; otherwise nothing. */
  function Cancel(socketOpen: bool, responding: bool): (sent: bool)
  {
    socketOpen && responding
  }

  function Tick(active: bool, level: Loudness, responding: bool, socketOpen: bool, silence: nat): (r: TickOutcome)
    ensures !active ==> r == TickOutcome(responding, false, false, silence)
    ensures r.cancelSent <==> active && level == Speech && responding && socketOpen
    ensures r.responding <==> responding && !r.cancelSent
    ensures r.speechDetected <==> active && level == Speech && responding
    ensures active && level == Silence ==> r.silenceCount == silence + 1
    ensures active && level != Silence ==> r.silenceCount == 0
  {
    if !active then TickOutcome(responding, false, false, silence)
    else if level == Speech && responding then
      var sent := Cancel(socketOpen, responding);
      TickOutcome(responding && !sent, sent, true, 0)
    else if level == Silence then TickOutcome(responding, false, false, silence + 1)
    else TickOutcome(responding, false, false, 0)
  }
}
