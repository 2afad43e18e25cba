// The get-to-pickup sheet's timed progression: progress climbs in fixed ticks
// until the car arrives, the ETA label is recomputed on every tick, and the
// completion callback fires once at the end. Delays are not modelled.

module GetToPickup {

  const StartProgress: real := 0.3
  const Tick: real := 0.01

  /** The ETA text: "<m> min", "<s>s" or "Arrived". */
  datatype EtaLabel = Minutes(minutes: int) | Seconds(seconds: int) | Arrived

  /** The label shown before the first tick ("4 min"). */
  const InitialLabel: EtaLabel := Minutes(4)

  /** Minutes left at `progress`, out of four for the whole leg; never negative. */
  function RemainingTime(progress: real): (r: real)
    ensures r >= 0.0
    ensures r == 0.0 <==> progress >= 1.0
    ensures progress <= 1.0 ==> r + 4.0 * progress == 4.0
  {
    if 4.0 * (1.0 - progress) >= 0.0 then 4.0 * (1.0 - progress) else 0.0
  }

  /**
   * The label for `progress`: whole minutes while at least one is left, else whole seconds of the
   * fractional minute, and "Arrived" when nothing is left. `toInt` of a non-negative value is its floor.
   */
  function EtaLabelFor(progress: real): EtaLabel {
    var remainingTime := RemainingTime(progress);
    var remainingMinutes := remainingTime.Floor;
    var remainingSeconds := ((remainingTime - remainingTime.Floor as real) * 60.0).Floor;
    if remainingTime <= 0.0 then Arrived
    else if remainingMinutes > 0 then Minutes(remainingMinutes)
    else Seconds(remainingSeconds)
  }

  /** Which label shows for which progress, and that its numbers stay in range. */
  lemma EtaLabelRanges(progress: real)
    ensures EtaLabelFor(progress) == Arrived <==> progress >= 1.0
    ensures EtaLabelFor(progress).Minutes? <==> progress <= 0.75
    ensures EtaLabelFor(progress).Seconds? <==> 0.75 < progress < 1.0
    ensures 0.0 <= progress <= 0.75 ==> 1 <= EtaLabelFor(progress).minutes <= 4
    ensures EtaLabelFor(progress).Seconds? ==> 0 <= EtaLabelFor(progress).seconds < 60
  {
    var r := RemainingTime(progress);
    if progress <= 0.75 {
      assert r >= 1.0;
      assert r.Floor >= 1;
      if progress >= 0.0 {
        assert r <= 4.0;
      }
    } else if progress < 1.0 {
      assert 0.0 < r < 1.0;
      assert r.Floor == 0;
      assert r * 60.0 < 60.0;
    }
  }

  /** The number a label shows: whole minutes left, or whole seconds of the last minute, rounded down. */
  lemma EtaLabelValue(progress: real)
    ensures EtaLabelFor(progress).Minutes? ==>
      EtaLabelFor(progress).minutes as real <= RemainingTime(progress) < EtaLabelFor(progress).minutes as real + 1.0
    ensures EtaLabelFor(progress).Seconds? ==>
      EtaLabelFor(progress).seconds as real <= 60.0 * RemainingTime(progress) < EtaLabelFor(progress).seconds as real + 1.0
  {
    EtaLabelRanges(progress);
  }

  /**
   * The progression effect. While visible it ticks until progress reaches 1.0, relabelling after each
   * tick, then calls the completion callback once. `trace` is every progress value, the starting one first,
   * and `labels` the label shown with each of them.
   */
  method RunGetToPickup(isVisible: bool, start: real, startEtaLabel: EtaLabel)
    returns (progress: real, etaLabel: EtaLabel, completions: nat, trace: seq<real>, labels: seq<EtaLabel>)
    ensures !isVisible ==> progress == start && etaLabel == startEtaLabel && completions == 0 && trace == [start]
    ensures isVisible ==> progress >= 1.0 && completions == 1
    ensures isVisible && start < 1.0 ==> progress < 1.0 + Tick && etaLabel == Arrived
    ensures |trace| >= 1 && trace[0] == start && trace[|trace| - 1] == progress
    ensures forall k :: 0 <= k < |trace| - 1 ==> trace[k] < 1.0 && trace[k + 1] == trace[k] + Tick
    ensures |labels| == |trace| && labels[0] == startEtaLabel && labels[|labels| - 1] == etaLabel
    ensures forall k :: 1 <= k < |labels| ==> labels[k] == EtaLabelFor(trace[k])
  {
    progress, etaLabel, completions, trace, labels := start, startEtaLabel, 0, [start], [startEtaLabel];
    if isVisible {
      while progress < 1.0
        invariant |trace| >= 1 && trace[0] == start && trace[|trace| - 1] == progress
        invariant forall k :: 0 <= k < |trace| - 1 ==> trace[k] < 1.0 && trace[k + 1] == trace[k] + Tick
        invariant start < 1.0 ==> progress < 1.0 + Tick
        invariant (|trace| == 1 && etaLabel == startEtaLabel) || etaLabel == EtaLabelFor(progress)
        invariant start >= 1.0 ==> progress == start
        invariant |labels| == |trace| && labels[0] == startEtaLabel && labels[|labels| - 1] == etaLabel
        invariant forall k :: 1 <= k < |labels| ==> labels[k] == EtaLabelFor(trace[k])
        decreases ((1.0 - progress) * 100.0).Floor
      {
        progress := progress + Tick;
        etaLabel := EtaLabelFor(progress);
        trace := trace + [progress];
        labels := labels + [etaLabel];
      }
      if progress >= 1.0 {
        completions := completions + 1;
      }
      EtaLabelRanges(progress);
    }
  }

  /** The first tick replaces the fixed "4 min" with the label progress gives, "2 min". */
  lemma FirstTickRelabels()
    ensures InitialLabel == Minutes(4)
    ensures EtaLabelFor(StartProgress + Tick) == Minutes(2)
  {
    assert RemainingTime(StartProgress + Tick) == 2.76;
    assert (2.76).Floor == 2;
  }
}
