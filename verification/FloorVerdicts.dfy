/** Runs with one floor: the exact condition, on what was observed, under which a verdict
    reported for a side at its floor holds for every real value
    (`internal/report/build.go:580-591`). */
module FloorVerdicts {
  import opened OrderStats
  import opened Summaries
  import opened Comparing
  import opened ComparingLaws
  import opened PeakFloor
  import opened FloorNoise
  import opened FloorNoiseMeans
  import opened FloorNoiseHalves

  /** A side of at least two runs with one floor, at it, compared by its median or mean. */
  ghost predicate SideWithFloor(peaks: seq<int>, floors: seq<int>, side: Side, g: nat, m: Metric) {
    && OneFloor(peaks, floors, side.floor, g) && side.samples == AsSamples(peaks)
    && SideAtFloor(side, m) && (m.Median? || m.Mean?)
  }

  /** The gate lets the widest real values pass: for medians no more than half of the runs are
      at the floor, not counting a greatest one, and the dispersion with nothing used by those
      is within the limit. */
  ghost predicate WidestIsQuiet(peaks: seq<int>, floors: seq<int>, g: nat, m: Metric, limit: real, sqrt: Root)
    requires |floors| == |peaks|
  {
    (m.Mean? || !MostAtFloor(peaks, floors)) && SummaryOf(Barest(peaks, floors, g), sqrt).Dispersion(m) <= limit
  }

  lemma DispersionIs(s: seq<real>, m: Metric, sqrt: Root)
    requires s != []
    ensures SummaryOf(s, sqrt).Dispersion(m) == if m.Mean? then Spread(s, sqrt) else RobustSpread(Sort(s))
  {
  }

  lemma NoTruthIsWider(truth: seq<real>, peaks: seq<int>, floors: seq<int>, side: Side, g: nat, m: Metric, limit: real, sqrt: Root)
    requires SideWithFloor(peaks, floors, side, g, m) && limit > 0.0 && IsRoot(sqrt)
    requires WidestIsQuiet(peaks, floors, g, m, limit, sqrt) && Explains(truth, peaks, floors) && AllPositive(truth)
    ensures SummaryOf(truth, sqrt).Dispersion(m) <= limit
  {
    DispersionIs(truth, m, sqrt);
    DispersionIs(Barest(peaks, floors, g), m, sqrt);
    if m.Mean? {
      BarestIsWidest(truth, peaks, floors, side.floor, g, sqrt, limit);
    } else {
      MedianAtFloorIsMostOrHalf(peaks, floors, side, g);
      BarestIsMostSpread(truth, peaks, floors, side.floor, g);
    }
  }

  lemma SomeTruthIsWider(peaks: seq<int>, floors: seq<int>, side: Side, g: nat, m: Metric, limit: real, sqrt: Root)
    returns (truth: seq<real>)
    requires SideWithFloor(peaks, floors, side, g, m) && limit > 0.0 && IsRoot(sqrt)
    requires !WidestIsQuiet(peaks, floors, g, m, limit, sqrt)
    ensures Explains(truth, peaks, floors) && AllPositive(truth) && SummaryOf(truth, sqrt).Dispersion(m) > limit
    ensures Greatest(truth) == Greatest(side.samples) && Least(truth) <= Least(side.samples)
  {
    DispersionIs(Barest(peaks, floors, g), m, sqrt);
    if m.Mean? {
      truth := SomeTruthIsWide(peaks, floors, side.floor, g, sqrt, limit);
    } else if MostAtFloor(peaks, floors) {
      truth := MostAreWide(peaks, floors, limit);
    } else {
      MedianAtFloorIsMostOrHalf(peaks, floors, side, g);
      truth := SomeTruthIsSpread(peaks, floors, side.floor, g, limit);
    }
    DispersionIs(truth, m, sqrt);
  }

  /** A regression reported from a base with one floor holds for every real value the base can
      have had if and only if the gate is off, the head is separated from what was observed,
      or the widest real values are quiet. */
  lemma RegressionHoldsExactly(peaks: seq<int>, floors: seq<int>, g: nat, base: Side, head: Side, o: Options,
                               draws: seq<Draw>, sqrt: Root)
    requires SideWithFloor(peaks, floors, base, g, o.metric) && head.samples != [] && NotNegative(head.samples)
    requires ReportedFromFloor(base, head, o, draws, sqrt) && !o.higherIsBetter && o.maxPercent >= 0.0 && IsRoot(sqrt)
    ensures (forall truth | Explains(truth, peaks, floors) && AllPositive(truth) ::
               Compared(truth, head.samples, o, draws, sqrt).verdict == Regression)
      <==> o.maxCV <= 0.0 || Least(head.samples) > Greatest(base.samples)
           || WidestIsQuiet(peaks, floors, g, o.metric, o.maxCV, sqrt)
  {
    if o.maxCV <= 0.0 || Least(head.samples) > Greatest(base.samples) || WidestIsQuiet(peaks, floors, g, o.metric, o.maxCV, sqrt) {
      forall truth | Explains(truth, peaks, floors) && AllPositive(truth)
        ensures Compared(truth, head.samples, o, draws, sqrt).verdict == Regression
      {
        if o.maxCV <= 0.0 || Least(head.samples) > Greatest(base.samples) {
          SeparatedTruthIsCalled(truth, peaks, floors, base, head, o, draws, sqrt);
        } else {
          NoTruthIsWider(truth, peaks, floors, base, g, o.metric, o.maxCV, sqrt);
          QuietTruthIsCalled(truth, peaks, floors, base, head, o, draws, sqrt);
        }
      }
    } else {
      var truth := SomeTruthIsWider(peaks, floors, base, g, o.metric, o.maxCV, sqrt);
      ReportedOverlaps(base, head, o, draws, sqrt);
      WideTruthIsNotCalled(truth, head.samples, o, draws, sqrt);
    }
  }

  /** And an improvement reported to a head with one floor. */
  lemma ImprovementHoldsExactly(peaks: seq<int>, floors: seq<int>, g: nat, base: Side, head: Side, o: Options,
                                draws: seq<Draw>, sqrt: Root)
    requires SideWithFloor(peaks, floors, head, g, o.metric) && base.samples != []
    requires ReportedToFloor(base, head, o, draws, sqrt) && !o.higherIsBetter && o.maxPercent >= 0.0 && IsRoot(sqrt)
    ensures (forall truth | Explains(truth, peaks, floors) && AllPositive(truth) ::
               Compared(base.samples, truth, o, draws, sqrt).verdict == Improved)
      <==> o.maxCV <= 0.0 || Greatest(head.samples) < Least(base.samples)
           || WidestIsQuiet(peaks, floors, g, o.metric, o.maxCV, sqrt)
  {
    if o.maxCV <= 0.0 || Greatest(head.samples) < Least(base.samples) || WidestIsQuiet(peaks, floors, g, o.metric, o.maxCV, sqrt) {
      forall truth | Explains(truth, peaks, floors) && AllPositive(truth)
        ensures Compared(base.samples, truth, o, draws, sqrt).verdict == Improved
      {
        if o.maxCV <= 0.0 || Greatest(head.samples) < Least(base.samples) {
          SeparatedTruthIsImproved(truth, peaks, floors, base, head, o, draws, sqrt);
        } else {
          NoTruthIsWider(truth, peaks, floors, head, g, o.metric, o.maxCV, sqrt);
          QuietTruthIsImproved(truth, peaks, floors, base, head, o, draws, sqrt);
        }
      }
    } else {
      var truth := SomeTruthIsWider(peaks, floors, head, g, o.metric, o.maxCV, sqrt);
      ReportedOverlapsBelow(base, head, o, draws, sqrt);
      WideTruthIsNotImproved(truth, peaks, floors, base, head, o, draws, sqrt);
    }
  }
}
