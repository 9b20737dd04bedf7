/** Peak RSS floors: what an observed peak says about the real one
    (`internal/report/build.go`, `model.go`).

    An observation is the larger of two numbers, the real peak and one inherited from the
    process that started the command; all that is known of the inherited one is a bound,
    the floor of that run. */
module PeakFloor {
  import opened RealArithmetic
  import opened OrderStats
  import opened Summaries
  import opened Comparing
  import opened ComparingLaws

  function Larger(a: real, b: real): real {
    if a >= b then a else b
  }

  /** One run: the peak the kernel reported for a command that really used truth,
      started by a process whose peak was inherited, at most floor. */
  ghost predicate Observed(peak: int, truth: real, inherited: real, floor: int) {
    0.0 <= inherited <= floor as real && peak as real == Larger(truth, inherited)
  }

  /** The real values that explain the observed ones. */
  ghost predicate Explains(truth: seq<real>, peaks: seq<int>, floors: seq<int>) {
    && |truth| == |peaks| == |floors|
    && forall i | 0 <= i < |truth| :: Possible(peaks[i], truth[i], floors[i])
  }

  ghost predicate Possible(peak: int, truth: real, floor: int) {
    truth >= 0.0 && exists inherited :: Observed(peak, truth, inherited, floor)
  }

  /** A real value is the observed one, or anything below when that is at its
      floor. */
  lemma ExplainsMeans(truth: seq<real>, peaks: seq<int>, floors: seq<int>)
    requires |truth| == |peaks| == |floors| && forall i | 0 <= i < |floors| :: floors[i] >= 0
    ensures Explains(truth, peaks, floors) <==>
      forall i | 0 <= i < |truth| ::
        0.0 <= truth[i] <= peaks[i] as real && (truth[i] == peaks[i] as real || peaks[i] <= floors[i])
  {
    forall i | 0 <= i < |truth|
      ensures Possible(peaks[i], truth[i], floors[i]) <==>
        (0.0 <= truth[i] <= peaks[i] as real && (truth[i] == peaks[i] as real || peaks[i] <= floors[i]))
    {
      OneRun(peaks[i], truth[i], floors[i]);
    }
  }

  lemma OneRun(peak: int, truth: real, floor: int)
    requires floor >= 0
    ensures Possible(peak, truth, floor) <==>
      (0.0 <= truth <= peak as real && (truth == peak as real || peak <= floor))
  {
    if 0.0 <= truth <= peak as real && (truth == peak as real || peak <= floor) {
      assert Observed(peak, truth, if truth == peak as real then 0.0 else peak as real, floor);
    }
  }

  function AsSamples(peaks: seq<int>): (s: seq<real>)
    ensures |s| == |peaks| && forall i | 0 <= i < |s| :: s[i] == peaks[i] as real
  {
    seq(|peaks|, i requires 0 <= i < |peaks| => peaks[i] as real)
  }

  function LargestFloor(floors: seq<int>): (f: int)
    ensures f >= 0 && forall i | 0 <= i < |floors| :: floors[i] <= f
    ensures f == 0 || f in floors
  {
    if floors == [] then 0
    else
      var rest, last := LargestFloor(floors[..|floors| - 1]), floors[|floors| - 1];
      if rest >= last then rest else last
  }

  /** How many runs are at or below their own floor. */
  function CountAtFloor(peaks: seq<int>, floors: seq<int>): nat
    requires |peaks| == |floors|
  {
    if peaks == [] then 0
    else
      var last := |peaks| - 1;
      CountAtFloor(peaks[..last], floors[..last]) + if floors[last] > 0 && peaks[last] <= floors[last] then 1 else 0
  }

  lemma OneMoreRun(peaks: seq<int>, floors: seq<int>, i: nat)
    requires |peaks| == |floors| && i < |floors|
    ensures LargestFloor(floors[..i + 1]) == if LargestFloor(floors[..i]) >= floors[i] then LargestFloor(floors[..i]) else floors[i]
    ensures CountAtFloor(peaks[..i + 1], floors[..i + 1])
         == CountAtFloor(peaks[..i], floors[..i]) + if floors[i] > 0 && peaks[i] <= floors[i] then 1 else 0
  {
    assert floors[..i + 1][..i] == floors[..i] && peaks[..i + 1][..i] == peaks[..i];
  }

  /** floorOf: nothing is known when the two slices do not go together. */
  method FloorOf(peaks: seq<int>, floors: seq<int>) returns (floor: int, at: nat)
    ensures |floors| != |peaks| ==> floor == 0 && at == 0
    ensures |floors| == |peaks| ==> floor == LargestFloor(floors) && at == CountAtFloor(peaks, floors)
  {
    if |floors| != |peaks| {
      return 0, 0;
    }
    floor, at := 0, 0;
    for i := 0 to |floors|
      invariant floor == LargestFloor(floors[..i]) && at == CountAtFloor(peaks[..i], floors[..i])
    {
      OneMoreRun(peaks, floors, i);
      floor := if floor >= floors[i] then floor else floors[i];
      if floors[i] > 0 && peaks[i] <= floors[i] {
        at := at + 1;
      }
    }
    assert floors[..|floors|] == floors && peaks[..|peaks|] == peaks;
  }

  /** With no run at its floor the observed values are the real ones. */
  lemma {:induction false} NoneAtFloorIsExact(truth: seq<real>, peaks: seq<int>, floors: seq<int>)
    requires Explains(truth, peaks, floors)
    requires forall i | 0 <= i < |floors| :: floors[i] >= 0
    requires forall i | 0 <= i < |peaks| :: peaks[i] > 0
    requires CountAtFloor(peaks, floors) == 0
    ensures truth == AsSamples(peaks)
  {
    ExplainsMeans(truth, peaks, floors);
    if peaks != [] {
      var last := |peaks| - 1;
      ExplainsMeans(truth[..last], peaks[..last], floors[..last]);
      NoneAtFloorIsExact(truth[..last], peaks[..last], floors[..last]);
      assert truth == truth[..last] + [truth[last]];
      assert AsSamples(peaks) == AsSamples(peaks[..last]) + [peaks[last] as real];
    }
  }

  predicate AtFloor(floor: int, v: real) {
    floor > 0 && v <= floor as real
  }

  /** The smallest real values that explain the observations: nothing at all for
      a run at its own floor. */
  function Lowest(peaks: seq<int>, floors: seq<int>): (t: seq<real>)
    requires |peaks| == |floors|
    ensures |t| == |peaks|
    ensures forall i | 0 <= i < |t| :: t[i] == if peaks[i] <= floors[i] then 0.0 else peaks[i] as real
  {
    seq(|peaks|, i requires 0 <= i < |peaks| => if peaks[i] <= floors[i] then 0.0 else peaks[i] as real)
  }

  lemma LowestIsLowest(truth: seq<real>, peaks: seq<int>, floors: seq<int>)
    requires Explains(truth, peaks, floors) && forall i | 0 <= i < |floors| :: floors[i] >= 0
    ensures Below(Lowest(peaks, floors), truth) && Explains(Lowest(peaks, floors), peaks, floors)
  {
    ExplainsMeans(truth, peaks, floors);
    ExplainsMeans(Lowest(peaks, floors), peaks, floors);
  }

  // Comparing across a floor.

  /** One side of a comparison: its samples, its floor, and whether it was measured. */
  datatype Side = Side(samples: seq<real>, floor: int, measured: bool)

  function Raised(samples: seq<real>, floor: int): (r: seq<real>)
    ensures |r| == |samples| && forall i | 0 <= i < |r| :: r[i] == Larger(samples[i], floor as real)
  {
    seq(|samples|, i requires 0 <= i < |samples| => Larger(samples[i], floor as real))
  }

  function SamplesOf(side: Side, atFloor: bool): seq<real> {
    if atFloor then Raised(side.samples, side.floor) else side.samples
  }

  /** raiseToFloor. */
  method RaiseToFloor(side: Side, atFloor: bool) returns (out: seq<real>)
    ensures out == SamplesOf(side, atFloor)
  {
    if !atFloor {
      return side.samples;
    }
    out := [];
    for i := 0 to |side.samples|
      invariant |out| == i && forall j | 0 <= j < i :: out[j] == Larger(side.samples[j], side.floor as real)
    {
      out := out + [Larger(side.samples[i], side.floor as real)];
    }
  }

  datatype Outcome = Skipped(atFloor: bool) | Called(verdict: Verdict, reason: Reason) | InconclusiveAtFloor

  function StatOf(side: Side, m: Metric): real {
    if side.samples == [] then 0.0 else Statistic(side.samples, m)
  }

  predicate SideAtFloor(side: Side, m: Metric) {
    AtFloor(side.floor, StatOf(side, m))
  }

  /** The layer above Compare: which of its verdicts survive a side at its floor. */
  function Reported(c: Comparison, baseAtFloor: bool, headAtFloor: bool): Outcome {
    if c.base.count > 0 && c.head.count > 0 && (baseAtFloor || headAtFloor)
       && !(c.verdict == Regression && !headAtFloor) && !(c.verdict == Improved && !baseAtFloor)
    then InconclusiveAtFloor
    else Called(c.verdict, c.reason)
  }

  /** What Compare is given. */
  ghost function Floored(base: Side, head: Side, o: Options, draws: seq<Draw>, sqrt: Root): Comparison
    requires base.samples != [] && head.samples != [] ==> Fits(draws, base.samples, head.samples)
  {
    Compared(SamplesOf(base, SideAtFloor(base, o.metric)), SamplesOf(head, SideAtFloor(head, o.metric)), o, draws, sqrt)
  }

  /** compareMetric. */
  method CompareMetric(base: Side, head: Side, o: Options, draws: seq<Draw>, sqrt: Root) returns (r: Outcome)
    requires base.samples != [] && head.samples != [] ==> Fits(draws, base.samples, head.samples)
    ensures r == if !base.measured || !head.measured then Skipped(false)
                 else if SideAtFloor(base, o.metric) && SideAtFloor(head, o.metric) then Skipped(true)
                 else Reported(Floored(base, head, o, draws, sqrt), SideAtFloor(base, o.metric), SideAtFloor(head, o.metric))
  {
    if !base.measured || !head.measured {
      return Skipped(false);
    }
    var baseAtFloor, headAtFloor := SideAtFloor(base, o.metric), SideAtFloor(head, o.metric);
    if baseAtFloor && headAtFloor {
      return Skipped(true);
    }
    var b := RaiseToFloor(base, baseAtFloor);
    var h := RaiseToFloor(head, headAtFloor);
    var c := Compare(b, h, o, draws, sqrt);
    r := Called(c.verdict, c.reason);
    if c.base.count > 0 && c.head.count > 0 && (baseAtFloor || headAtFloor) {
      var regression := c.verdict == Regression && !headAtFloor;
      var improvement := c.verdict == Improved && !baseAtFloor;
      if !regression && !improvement {
        r := InconclusiveAtFloor;
      }
    }
  }

  lemma TruthIsBelow(truth: seq<real>, peaks: seq<int>, floors: seq<int>, floor: int)
    requires Explains(truth, peaks, floors)
    ensures Below(truth, AsSamples(peaks)) && Below(truth, Raised(AsSamples(peaks), floor))
    ensures NotNegative(truth) && NotNegative(AsSamples(peaks))
  {
    forall i | 0 <= i < |truth|
      ensures 0.0 <= truth[i] <= peaks[i] as real
    {
      assert Possible(peaks[i], truth[i], floors[i]);
      var inherited :| Observed(peaks[i], truth[i], inherited, floors[i]);
    }
  }

  /** A regression called with the base at its floor is what comparing any real
      values of the base would call too, with at least its evidence, unless the
      noise gate stops that comparison. */
  lemma RegressionFromFloor(truth: seq<real>, basePeaks: seq<int>, baseFloors: seq<int>, base: Side, head: Side,
                            o: Options, draws: seq<Draw>, sqrt: Root)
    requires Explains(truth, basePeaks, baseFloors) && AllPositive(truth)
    requires base.samples == AsSamples(basePeaks) && NotNegative(head.samples)
    requires base.samples != [] && head.samples != [] && Fits(draws, base.samples, head.samples)
    requires !o.higherIsBetter && o.maxPercent >= 0.0
    ensures var c := Floored(base, head, o, draws, sqrt);
      var real' := Compared(truth, head.samples, o, draws, sqrt);
      SideAtFloor(base, o.metric) && !SideAtFloor(head, o.metric) && Reported(c, true, false).Called? ==>
        && c.verdict == Regression
        && real'.change >= c.change && Abs(real'.difference) >= Abs(c.difference) && real'.probRegression >= c.probRegression
        && (real'.verdict == Regression <==> !TooNoisy(real'.base, real'.head, o))
  {
    TruthIsBelow(truth, basePeaks, baseFloors, base.floor);
    RegressionOnlyStrengthens(Raised(base.samples, base.floor), head.samples, truth, head.samples, o, draws, sqrt);
  }

  /** And an improvement called with the head at its floor. */
  lemma ImprovementToFloor(truth: seq<real>, headPeaks: seq<int>, headFloors: seq<int>, base: Side, head: Side,
                           o: Options, draws: seq<Draw>, sqrt: Root)
    requires Explains(truth, headPeaks, headFloors)
    requires head.samples == AsSamples(headPeaks)
    requires base.samples != [] && head.samples != [] && Fits(draws, base.samples, head.samples)
    requires !o.higherIsBetter && o.maxPercent >= 0.0
    ensures var c := Floored(base, head, o, draws, sqrt);
      var real' := Compared(base.samples, truth, o, draws, sqrt);
      SideAtFloor(head, o.metric) && !SideAtFloor(base, o.metric) && Reported(c, false, true).Called? ==>
        && c.verdict == Improved
        && real'.change <= c.change && Abs(real'.difference) >= Abs(c.difference) && real'.probImprovement >= c.probImprovement
        && (real'.verdict == Improved <==> !TooNoisy(real'.base, real'.head, o))
  {
    TruthIsBelow(truth, headPeaks, headFloors, head.floor);
    ImprovementOnlyStrengthens(base.samples, Raised(head.samples, head.floor), base.samples, truth, o, draws, sqrt);
  }

  /** The runs as observed are one explanation of themselves. */
  lemma ObservedExplains(peaks: seq<int>, floors: seq<int>)
    requires |floors| == |peaks| && (forall i | 0 <= i < |floors| :: floors[i] >= 0) && forall i | 0 <= i < |peaks| :: peaks[i] > 0
    ensures Explains(AsSamples(peaks), peaks, floors) && AllPositive(AsSamples(peaks))
    ensures Explains(Lowest(peaks, floors), peaks, floors)
  {
    ExplainsMeans(AsSamples(peaks), peaks, floors);
    ExplainsMeans(Lowest(peaks, floors), peaks, floors);
  }

  /** The noise gate cannot stop it when it is off or the sides were separated. */
  lemma SeparatedStaysQuiet(base: seq<real>, head: seq<real>, truth: seq<real>, o: Options, sqrt: Root)
    requires base != [] && head != [] && Below(truth, base) && AllPositive(truth)
    requires o.maxCV <= 0.0 || (Least(head) > 0.0 && Least(head) > Greatest(base))
    ensures !TooNoisy(SummaryOf(truth, sqrt), SummaryOf(head, sqrt), o)
  {
    if o.maxCV > 0.0 {
      StatisticMonotone(truth, base, Max);
      DisjointIsSeparated(truth, head, sqrt);
    }
  }
}
