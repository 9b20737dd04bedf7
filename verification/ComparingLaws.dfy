/** What holds of every bootstrap comparison, whatever is drawn.

    (A predicate compared with true in a contract is used as one fact, so that the verifier
    does not prove its clauses again.) */
module ComparingLaws {
  import opened RealArithmetic
  import opened OrderStats
  import opened Summaries
  import opened Comparing

  ghost predicate NotNegative(s: seq<real>) {
    forall i | 0 <= i < |s| :: s[i] >= 0.0
  }

  // One draw.

  lemma ResampleBelow(s: seq<real>, t: seq<real>, places: seq<nat>)
    requires Below(s, t) && Picks(places, |s|)
    ensures Below(Resample(s, places), Resample(t, places))
  {
  }

  lemma DrawnBelow(s: seq<real>, t: seq<real>, m: Metric, places: seq<nat>)
    requires s != [] && Below(s, t) && Picks(places, |s|)
    ensures Statistic(Resample(s, places), m) <= Statistic(Resample(t, places), m)
  {
    ResampleBelow(s, t, places);
    StatisticMonotone(Resample(s, places), Resample(t, places), m);
  }

  lemma DrawnWithin(s: seq<real>, m: Metric, places: seq<nat>, lo: real, hi: real)
    requires s != [] && Within(s, lo, hi) && Picks(places, |s|)
    ensures lo <= Statistic(Resample(s, places), m) <= hi
  {
    StatisticWithin(Resample(s, places), m, lo, hi);
  }

  lemma PositiveDefines(base: seq<real>, m: Metric, draws: seq<Draw>)
    requires base != [] && AllPositive(base) && forall k | 0 <= k < |draws| :: Picks(draws[k].base, |base|)
    ensures Defined(base, m, draws)
  {
    ExtremaAreEnds(base);
    forall k | 0 <= k < |draws|
      ensures DrawnBase(base, m, draws[k]) > 0.0
    {
      DrawnWithin(base, m, draws[k].base, Least(base), Greatest(base));
    }
  }

  /** A smaller base and a larger head give a larger change. */
  lemma ChangeMonotone(b: real, h: real, b': real, h': real)
    requires 0.0 < b' <= b && h <= h' && h' >= 0.0
    ensures Change(b, h) <= Change(b', h')
  {
    QuotientMonotone(h, h', b);
    QuotientAntitone(h', b', b);
  }

  lemma RawChangesBelow(base: seq<real>, head: seq<real>, base': seq<real>, head': seq<real>, m: Metric, draws: seq<Draw>)
    requires base != [] && head != [] && Fits(draws, base, head)
    requires Below(base', base) && Below(head, head') && NotNegative(head')
    requires Defined(base, m, draws) && Defined(base', m, draws)
    ensures Below(RawChanges(base, head, m, draws), RawChanges(base', head', m, draws))
  {
    forall k | 0 <= k < |draws|
      ensures RawChanges(base, head, m, draws)[k] <= RawChanges(base', head', m, draws)[k]
    {
      DrawnBelow(base', base, m, draws[k].base);
      DrawnBelow(head, head', m, draws[k].head);
      DrawnWithin(head', m, draws[k].head, 0.0, Greatest(head'));
      ChangeMonotone(DrawnBase(base, m, draws[k]), DrawnHead(head, m, draws[k]),
                     DrawnBase(base', m, draws[k]), DrawnHead(head', m, draws[k]));
    }
  }

  // Counting.

  lemma {:induction false} CountsFollow(c: seq<real>, c': seq<real>, o: Options)
    requires Below(c, c') && !o.higherIsBetter
    ensures CountWorse(c, o) <= CountWorse(c', o) && CountBetter(c, o) >= CountBetter(c', o)
  {
    if c != [] {
      CountsFollow(c[..|c| - 1], c'[..|c'| - 1], o);
    }
  }

  lemma ShareMonotone(a: nat, b: nat, n: nat)
    requires a <= b
    ensures Share(a, n) <= Share(b, n)
  {
    if n > 0 {
      QuotientMonotone(a as real, b as real, n as real);
    }
  }

  lemma SharesFollow(c: seq<real>, c': seq<real>, o: Options)
    requires Below(c, c') && !o.higherIsBetter
    ensures Share(CountWorse(c, o), |c|) <= Share(CountWorse(c', o), |c'|)
    ensures Share(CountBetter(c, o), |c|) >= Share(CountBetter(c', o), |c'|)
  {
    CountsFollow(c, c', o);
    ShareMonotone(CountWorse(c, o), CountWorse(c', o), |c|);
    ShareMonotone(CountBetter(c', o), CountBetter(c, o), |c|);
  }

  lemma Decided(base: seq<real>, head: seq<real>, o: Options, draws: seq<Draw>, sqrt: Root)
    requires base != [] && head != [] && Fits(draws, base, head) && Statistic(base, o.metric) > 0.0
    ensures SummaryOf(base, sqrt).Value(o.metric) == Statistic(base, o.metric)
    ensures SummaryOf(head, sqrt).Value(o.metric) == Statistic(head, o.metric)
    ensures Compared(base, head, o, draws, sqrt)
         == Judged(SummaryOf(base, sqrt), SummaryOf(head, sqrt), Changes(base, head, o.metric, draws), o)
  {
    SummaryValue(base, sqrt, o.metric);
    SummaryValue(head, sqrt, o.metric);
  }

  /** A regression or improvement was judged from defined changes. */
  lemma CalledFromEvidence(base: seq<real>, head: seq<real>, o: Options, draws: seq<Draw>, sqrt: Root)
    requires base != [] && head != [] && Fits(draws, base, head)
    ensures Compared(base, head, o, draws, sqrt).verdict in {Regression, Improved} ==>
      Statistic(base, o.metric) > 0.0 && Defined(base, o.metric, draws)
  {
    SummaryValue(base, sqrt, o.metric);
  }

  // Sharing draws: a change made larger stays called.

  /** How a comparison moves when the base shrinks and the head grows. */
  lemma EvidenceFollows(base: seq<real>, head: seq<real>, base': seq<real>, head': seq<real>,
                        o: Options, draws: seq<Draw>, sqrt: Root)
    requires base != [] && head != [] && Fits(draws, base, head) && !o.higherIsBetter
    requires Below(base', base) && Below(head, head') && NotNegative(head')
    requires Statistic(base, o.metric) > 0.0 && Statistic(base', o.metric) > 0.0
    requires Defined(base, o.metric, draws) && Defined(base', o.metric, draws)
    ensures var c, c' := Compared(base, head, o, draws, sqrt), Compared(base', head', o, draws, sqrt);
      && c.change <= c'.change && c.difference <= c'.difference
      && c.low <= c'.low && c.high <= c'.high
      && c.probRegression <= c'.probRegression && c.probImprovement >= c'.probImprovement
  {
    Decided(base, head, o, draws, sqrt);
    Decided(base', head', o, draws, sqrt);
    StatisticMonotone(base', base, o.metric);
    StatisticMonotone(head, head', o.metric);
    StatisticWithin(head', o.metric, 0.0, Greatest(head'));
    RawChangesBelow(base, head, base', head', o.metric, draws);
    SortMonotone(RawChanges(base, head, o.metric, draws), RawChanges(base', head', o.metric, draws));
    JudgedFollows(SummaryOf(base, sqrt), SummaryOf(head, sqrt), Changes(base, head, o.metric, draws),
                  SummaryOf(base', sqrt), SummaryOf(head', sqrt), Changes(base', head', o.metric, draws), o);
  }

  lemma JudgedFollows(b: Summary, h: Summary, changes: seq<real>, b': Summary, h': Summary, changes': seq<real>, o: Options)
    requires !o.higherIsBetter && 0.0 < b'.Value(o.metric) <= b.Value(o.metric)
    requires h.Value(o.metric) <= h'.Value(o.metric) && h'.Value(o.metric) >= 0.0
    requires changes != [] && Below(changes, changes')
    ensures var c, c' := Judged(b, h, changes, o), Judged(b', h', changes', o);
      && c.change <= c'.change && c.difference <= c'.difference
      && c.low <= c'.low && c.high <= c'.high
      && c.probRegression <= c'.probRegression && c.probImprovement >= c'.probImprovement
  {
    ChangeMonotone(b.Value(o.metric), h.Value(o.metric), b'.Value(o.metric), h'.Value(o.metric));
    SharesFollow(changes, changes', o);
    PercentileOfBelow(changes, changes', (1.0 - o.confidence) / 2.0);
    PercentileOfBelow(changes, changes', 1.0 - (1.0 - o.confidence) / 2.0);
  }

  lemma Signs(b: real, h: real)
    requires b > 0.0
    ensures Change(b, h) > 0.0 <==> h > b
    ensures Change(b, h) < 0.0 <==> h < b
  {
    QuotientAndOne(h, b);
  }

  /** With at least the evidence of a regression, only the noise gate can stop one. */
  lemma RegressionStays(b: Summary, h: Summary, changes: seq<real>, b': Summary, h': Summary, changes': seq<real>, o: Options)
    requires b.Value(o.metric) > 0.0 && b'.Value(o.metric) > 0.0
    requires b'.count == b.count && h'.count == h.count && |changes'| == |changes|
    requires var c, c' := Judged(b, h, changes, o), Judged(b', h', changes', o);
      && c.verdict == Regression && Abs(c'.difference) >= Abs(c.difference) && c'.probRegression >= c.probRegression
      && Degradation(c'.change, o.higherIsBetter) >= Degradation(c.change, o.higherIsBetter)
    ensures Judged(b', h', changes', o).verdict == Regression <==> !TooNoisy(b', h', o)
  {
  }

  lemma ImprovementStays(b: Summary, h: Summary, changes: seq<real>, b': Summary, h': Summary, changes': seq<real>, o: Options)
    requires b.Value(o.metric) > 0.0 && b'.Value(o.metric) > 0.0 && o.maxPercent >= 0.0
    requires b'.count == b.count && h'.count == h.count && |changes'| == |changes|
    requires var c, c' := Judged(b, h, changes, o), Judged(b', h', changes', o);
      && c.verdict == Improved && Abs(c'.difference) >= Abs(c.difference) && c'.probImprovement >= c.probImprovement
      && Degradation(c'.change, o.higherIsBetter) <= Degradation(c.change, o.higherIsBetter)
    ensures Judged(b', h', changes', o).verdict == Improved <==> !TooNoisy(b', h', o)
  {
  }

  lemma RegressionEvidence(base: seq<real>, head: seq<real>, base': seq<real>, head': seq<real>,
                           o: Options, draws: seq<Draw>, sqrt: Root)
    requires base != [] && head != [] && Fits(draws, base, head)
    requires !o.higherIsBetter && o.maxPercent >= 0.0
    requires Below(base', base) && AllPositive(base') && Below(head, head') && NotNegative(head')
    requires Compared(base, head, o, draws, sqrt).verdict == Regression
    ensures Statistic(base, o.metric) > 0.0 && Statistic(base', o.metric) > 0.0
    ensures Defined(base, o.metric, draws) && Defined(base', o.metric, draws)
    ensures var c, c' := Compared(base, head, o, draws, sqrt), Compared(base', head', o, draws, sqrt);
      && c'.change >= c.change && Abs(c'.difference) >= Abs(c.difference) && c'.probRegression >= c.probRegression
  {
    CalledFromEvidence(base, head, o, draws, sqrt);
    PositiveDefines(base', o.metric, draws);
    StatisticWithin(base', o.metric, Least(base'), Greatest(base'));
    EvidenceFollows(base, head, base', head', o, draws, sqrt);
    Decided(base, head, o, draws, sqrt);
    Signs(Statistic(base, o.metric), Statistic(head, o.metric));
  }

  /** A regression only gets stronger when the base used less or the head used
      more: it is still called, unless the noise gate now holds it back. */
  lemma RegressionOnlyStrengthens(base: seq<real>, head: seq<real>, base': seq<real>, head': seq<real>,
                                  o: Options, draws: seq<Draw>, sqrt: Root)
    requires base != [] && head != [] && Fits(draws, base, head)
    requires !o.higherIsBetter && o.maxPercent >= 0.0
    requires Below(base', base) && AllPositive(base') && Below(head, head') && NotNegative(head')
    ensures var c, c' := Compared(base, head, o, draws, sqrt), Compared(base', head', o, draws, sqrt);
      c.verdict == Regression ==>
        && c'.change >= c.change && Abs(c'.difference) >= Abs(c.difference)
        && c'.probRegression >= c.probRegression
        && (c'.verdict == Regression <==> !TooNoisy(c'.base, c'.head, o))
  {
    if Compared(base, head, o, draws, sqrt).verdict == Regression {
      RegressionEvidence(base, head, base', head', o, draws, sqrt);
      Decided(base, head, o, draws, sqrt);
      Decided(base', head', o, draws, sqrt);
      RegressionStays(SummaryOf(base, sqrt), SummaryOf(head, sqrt), Changes(base, head, o.metric, draws),
                      SummaryOf(base', sqrt), SummaryOf(head', sqrt), Changes(base', head', o.metric, draws), o);
    }
  }

  lemma MoreDefines(base: seq<real>, base': seq<real>, m: Metric, draws: seq<Draw>)
    requires base != [] && Below(base, base') && forall k | 0 <= k < |draws| :: Picks(draws[k].base, |base|)
    requires Defined(base, m, draws) && Statistic(base, m) > 0.0
    ensures Defined(base', m, draws) && Statistic(base', m) > 0.0
  {
    StatisticMonotone(base, base', m);
    forall k | 0 <= k < |draws|
      ensures DrawnBase(base', m, draws[k]) > 0.0
    {
      DrawnBelow(base, base', m, draws[k].base);
      assert DrawnBase(base, m, draws[k]) > 0.0;
    }
  }

  lemma ImprovementEvidence(base: seq<real>, head: seq<real>, base': seq<real>, head': seq<real>,
                            o: Options, draws: seq<Draw>, sqrt: Root)
    requires base != [] && head != [] && Fits(draws, base, head)
    requires !o.higherIsBetter && o.maxPercent >= 0.0
    requires Below(base, base') && Below(head', head) && NotNegative(head)
    requires Compared(base, head, o, draws, sqrt).verdict == Improved
    ensures Statistic(base, o.metric) > 0.0 && Statistic(base', o.metric) > 0.0
    ensures Defined(base, o.metric, draws) && Defined(base', o.metric, draws)
    ensures var c, c' := Compared(base, head, o, draws, sqrt), Compared(base', head', o, draws, sqrt);
      && c'.change <= c.change && Abs(c'.difference) >= Abs(c.difference) && c'.probImprovement >= c.probImprovement
  {
    CalledFromEvidence(base, head, o, draws, sqrt);
    MoreDefines(base, base', o.metric, draws);
    EvidenceFollows(base', head', base, head, o, draws, sqrt);
    Decided(base, head, o, draws, sqrt);
    Signs(Statistic(base, o.metric), Statistic(head, o.metric));
  }

  /** And an improvement, when the head used less or the base used more. */
  lemma ImprovementOnlyStrengthens(base: seq<real>, head: seq<real>, base': seq<real>, head': seq<real>,
                                   o: Options, draws: seq<Draw>, sqrt: Root)
    requires base != [] && head != [] && Fits(draws, base, head)
    requires !o.higherIsBetter && o.maxPercent >= 0.0
    requires Below(base, base') && Below(head', head) && NotNegative(head)
    ensures var c, c' := Compared(base, head, o, draws, sqrt), Compared(base', head', o, draws, sqrt);
      c.verdict == Improved ==>
        && c'.change <= c.change && Abs(c'.difference) >= Abs(c.difference)
        && c'.probImprovement >= c.probImprovement
        && (c'.verdict == Improved <==> !TooNoisy(c'.base, c'.head, o))
  {
    if Compared(base, head, o, draws, sqrt).verdict == Improved {
      ImprovementEvidence(base, head, base', head', o, draws, sqrt);
      Decided(base, head, o, draws, sqrt);
      Decided(base', head', o, draws, sqrt);
      ImprovementStays(SummaryOf(base, sqrt), SummaryOf(head, sqrt), Changes(base, head, o.metric, draws),
                       SummaryOf(base', sqrt), SummaryOf(head', sqrt), Changes(base', head', o.metric, draws), o);
    }
  }

  // Separated sides.

  /** No sample of one side reaches the other, and none is zero. */
  predicate Disjoint(base: seq<real>, head: seq<real>)
    requires base != [] && head != []
  {
    && Least(base) > 0.0 && Least(head) > 0.0
    && (Least(head) > Greatest(base) || Greatest(head) < Least(base))
  }

  lemma DisjointIsSeparated(base: seq<real>, head: seq<real>, sqrt: Root)
    requires base != [] && head != []
    ensures Disjoint(base, head) <==> Separated(SummaryOf(base, sqrt), SummaryOf(head, sqrt))
  {
    ExtremaAreEnds(base);
    ExtremaAreEnds(head);
  }

  /** The changes of separated sides are all defined and on one side of zero. */
  lemma SeparatedChanges(base: seq<real>, head: seq<real>, m: Metric, draws: seq<Draw>)
    requires base != [] && head != [] && Fits(draws, base, head) && Disjoint(base, head)
    ensures Defined(base, m, draws) && Statistic(base, m) > 0.0
    ensures var up := Least(head) > Greatest(base);
      && (Statistic(head, m) > Statistic(base, m) <==> up) && (Statistic(head, m) < Statistic(base, m) <==> !up)
      && forall k | 0 <= k < |draws| :: var c := RawChanges(base, head, m, draws)[k]; if up then c > 0.0 else c < 0.0
  {
    PositiveDefines(base, m, draws);
    StatisticWithin(base, m, Least(base), Greatest(base));
    StatisticWithin(head, m, Least(head), Greatest(head));
    forall k | 0 <= k < |draws|
      ensures Least(head) > Greatest(base) ==> RawChanges(base, head, m, draws)[k] > 0.0
      ensures Greatest(head) < Least(base) ==> RawChanges(base, head, m, draws)[k] < 0.0
    {
      DrawnWithin(base, m, draws[k].base, Least(base), Greatest(base));
      DrawnWithin(head, m, draws[k].head, Least(head), Greatest(head));
      Signs(DrawnBase(base, m, draws[k]), DrawnHead(head, m, draws[k]));
    }
  }

  ghost predicate OneSided(c: seq<real>, up: bool) {
    forall i | 0 <= i < |c| :: if up then c[i] > 0.0 else c[i] < 0.0
  }

  lemma SortedIsOneSided(c: seq<real>, up: bool)
    requires OneSided(c, up)
    ensures OneSided(Sort(c), up)
  {
    forall i | 0 <= i < |c|
      ensures if up then Sort(c)[i] > 0.0 else Sort(c)[i] < 0.0
    {
      SortMember(c, i);
    }
  }

  /** Changes on the good side are never counted as worse, nor the other way. */
  lemma {:induction false} OneSidedCounts(c: seq<real>, up: bool, o: Options)
    requires OneSided(c, up) && o.maxPercent >= 0.0
    ensures up == o.higherIsBetter ==> CountWorse(c, o) == 0
    ensures up != o.higherIsBetter ==> CountBetter(c, o) == 0
  {
    if c != [] {
      OneSidedCounts(c[..|c| - 1], up, o);
    }
  }

  /** Separated sides are never given the verdict of the opposite direction, and
      never an undefined draw. */
  lemma SeparatedVerdict(base: seq<real>, head: seq<real>, o: Options, draws: seq<Draw>, sqrt: Root)
    requires base != [] && head != [] && Fits(draws, base, head) && o.maxPercent >= 0.0
    requires Separated(SummaryOf(base, sqrt), SummaryOf(head, sqrt))
    ensures var c := Compared(base, head, o, draws, sqrt);
      var up := c.head.min > c.base.max;
      && OneSided(Changes(base, head, o.metric, draws), up)
      && OneSided([c.change], up)
      && c.reason !in {ZeroBase, ZeroBootstrapBase, NoSamples, Noisy}
      && (if up == o.higherIsBetter then c.probRegression == 0.0 && c.verdict != Regression
          else c.probImprovement == 0.0 && c.verdict != Improved)
  {
    DisjointIsSeparated(base, head, sqrt);
    ExtremaAreEnds(base);
    ExtremaAreEnds(head);
    SeparatedChanges(base, head, o.metric, draws);
    var up := Least(head) > Greatest(base);
    var raw := RawChanges(base, head, o.metric, draws);
    assert OneSided(raw, up);
    SortedIsOneSided(raw, up);
    Decided(base, head, o, draws, sqrt);
    Signs(Statistic(base, o.metric), Statistic(head, o.metric));
    SeparatedJudged(SummaryOf(base, sqrt), SummaryOf(head, sqrt), Sort(raw), o, up);
  }

  lemma SeparatedJudged(b: Summary, h: Summary, changes: seq<real>, o: Options, up: bool)
    requires b.Value(o.metric) > 0.0 && Separated(b, h) && changes != []
    requires o.maxPercent >= 0.0 && OneSided(changes, up)
    requires OneSided([Change(b.Value(o.metric), h.Value(o.metric))], up)
    ensures var c := Judged(b, h, changes, o);
      && OneSided([c.change], up)
      && c.reason !in {ZeroBase, ZeroBootstrapBase, NoSamples, Noisy}
      && (if up == o.higherIsBetter then c.probRegression == 0.0 && c.verdict != Regression
          else c.probImprovement == 0.0 && c.verdict != Improved)
  {
    OneSidedCounts(changes, up, o);
    assert [Change(b.Value(o.metric), h.Value(o.metric))][0] == Change(b.Value(o.metric), h.Value(o.metric));
  }

  // The tolerance and the direction.

  lemma {:induction false} CountsShrink(c: seq<real>, o: Options, o': Options)
    requires o' == o.(maxPercent := o'.maxPercent) && o.maxPercent <= o'.maxPercent
    ensures CountWorse(c, o') <= CountWorse(c, o) && CountBetter(c, o') <= CountBetter(c, o)
  {
    if c != [] {
      CountsShrink(c[..|c| - 1], o, o');
    }
  }

  lemma JudgedWithLargerTolerance(b: Summary, h: Summary, changes: seq<real>, o: Options, o': Options)
    requires o' == o.(maxPercent := o'.maxPercent) && 0.0 <= o.maxPercent <= o'.maxPercent && b.Value(o.metric) > 0.0
    ensures Judged(b, h, changes, o').verdict in {Regression, Improved} ==>
      Judged(b, h, changes, o).verdict == Judged(b, h, changes, o').verdict
  {
    CountsShrink(changes, o, o');
    ShareMonotone(CountWorse(changes, o'), CountWorse(changes, o), |changes|);
    ShareMonotone(CountBetter(changes, o'), CountBetter(changes, o), |changes|);
  }

  /** A larger tolerance never creates a regression or an improvement. */
  lemma LargerToleranceCallsLess(base: seq<real>, head: seq<real>, o: Options, o': Options, draws: seq<Draw>, sqrt: Root)
    requires base != [] && head != [] ==> Fits(draws, base, head)
    requires o' == o.(maxPercent := o'.maxPercent) && 0.0 <= o.maxPercent <= o'.maxPercent
    ensures var c, c' := Compared(base, head, o, draws, sqrt), Compared(base, head, o', draws, sqrt);
      c'.verdict in {Regression, Improved} ==> c.verdict == c'.verdict
  {
    var b, h := SummaryOf(base, sqrt), SummaryOf(head, sqrt);
    if base != [] && head != [] && b.Value(o.metric) > 0.0 {
      JudgedWithLargerTolerance(b, h, Changes(base, head, o.metric, draws), o, o');
    }
  }

  lemma {:induction false} CountsSwap(c: seq<real>, o: Options, o': Options)
    requires o' == o.(higherIsBetter := !o.higherIsBetter)
    ensures CountWorse(c, o') == CountBetter(c, o) && CountBetter(c, o') == CountWorse(c, o)
  {
    if c != [] {
      CountsSwap(c[..|c| - 1], o, o');
    }
  }

  lemma JudgedSwaps(b: Summary, h: Summary, changes: seq<real>, o: Options, o': Options)
    requires o' == o.(higherIsBetter := !o.higherIsBetter) && o.maxPercent >= 0.0 && b.Value(o.metric) > 0.0
    ensures var c, c' := Judged(b, h, changes, o), Judged(b, h, changes, o');
      && (c'.verdict == Improved <==> c.verdict == Regression)
      && (c'.verdict == Regression <==> c.verdict == Improved)
      && c'.probRegression == c.probImprovement && c'.probImprovement == c.probRegression
      && c'.change == c.change && c'.low == c.low && c'.high == c.high
  {
    CountsSwap(changes, o, o');
  }

  /** Reading the metric the other way round swaps regression and improvement
      exactly, and changes no estimate. */
  lemma OtherDirectionSwaps(base: seq<real>, head: seq<real>, o: Options, o': Options, draws: seq<Draw>, sqrt: Root)
    requires base != [] && head != [] ==> Fits(draws, base, head)
    requires o' == o.(higherIsBetter := !o.higherIsBetter) && o.maxPercent >= 0.0
    ensures var c, c' := Compared(base, head, o, draws, sqrt), Compared(base, head, o', draws, sqrt);
      && (c'.verdict == Improved <==> c.verdict == Regression)
      && (c'.verdict == Regression <==> c.verdict == Improved)
      && c'.probRegression == c.probImprovement && c'.probImprovement == c.probRegression
      && c'.change == c.change && c'.low == c.low && c'.high == c.high
  {
    var b, h := SummaryOf(base, sqrt), SummaryOf(head, sqrt);
    if base != [] && head != [] && b.Value(o.metric) > 0.0 {
      JudgedSwaps(b, h, Changes(base, head, o.metric, draws), o, o');
    }
  }

  // The reported interval and probabilities.

  lemma {:induction false} NeverBoth(c: seq<real>, o: Options)
    requires o.maxPercent >= 0.0
    ensures CountWorse(c, o) + CountBetter(c, o) <= |c|
  {
    if c != [] {
      NeverBoth(c[..|c| - 1], o);
    }
  }

  /** The interval has its ends in order, and the two probabilities leave each
      other room. */
  lemma EstimatesAreSane(base: seq<real>, head: seq<real>, o: Options, draws: seq<Draw>, sqrt: Root)
    requires base != [] && head != [] ==> Fits(draws, base, head)
    requires o.confidence >= 0.0 && o.maxPercent >= 0.0
    ensures var c := Compared(base, head, o, draws, sqrt);
      c.low <= c.high && 0.0 <= c.probRegression && 0.0 <= c.probImprovement && c.probRegression + c.probImprovement <= 1.0
  {
    var b, h := SummaryOf(base, sqrt), SummaryOf(head, sqrt);
    if base != [] && head != [] && b.Value(o.metric) > 0.0 {
      if Defined(base, o.metric, draws) {
        SortSorts(RawChanges(base, head, o.metric, draws));
      }
      JudgedIsSane(b, h, Changes(base, head, o.metric, draws), o);
    }
  }

  lemma JudgedIsSane(b: Summary, h: Summary, changes: seq<real>, o: Options)
    requires b.Value(o.metric) > 0.0 && Sorted(changes) && o.confidence >= 0.0 && o.maxPercent >= 0.0
    ensures var c := Judged(b, h, changes, o);
      c.low <= c.high && 0.0 <= c.probRegression && 0.0 <= c.probImprovement && c.probRegression + c.probImprovement <= 1.0
  {
    if changes != [] {
      PercentileMonotone(changes, (1.0 - o.confidence) / 2.0, 1.0 - (1.0 - o.confidence) / 2.0);
      NeverBoth(changes, o);
      SharesAddUp(CountWorse(changes, o), CountBetter(changes, o), |changes|);
    }
  }

  lemma SharesAddUp(a: nat, b: nat, n: nat)
    requires a + b <= n && n > 0
    ensures 0.0 <= Share(a, n) && 0.0 <= Share(b, n) && Share(a, n) + Share(b, n) <= 1.0
  {
    ShareMonotone(0, a, n);
    ShareMonotone(0, b, n);
    QuotientMonotone((a + b) as real, n as real, n as real);
    QuotientUndone(1.0, n as real);
    assert (a as real + b as real) / n as real == a as real / n as real + b as real / n as real;
  }

  // A change of unit.

  lemma ResampleScales(s: seq<real>, places: seq<nat>, k: real)
    requires Picks(places, |s|)
    ensures Resample(Scaled(s, k), places) == Scaled(Resample(s, places), k)
  {
  }

  lemma DrawnScales(s: seq<real>, m: Metric, places: seq<nat>, k: real)
    requires s != [] && Picks(places, |s|) && k > 0.0
    ensures Statistic(Resample(Scaled(s, k), places), m) == Times(k, Statistic(Resample(s, places), m))
  {
    ResampleScales(s, places, k);
    StatisticScales(Resample(s, places), m, k);
  }

  lemma ChangeScales(b: real, h: real, k: real)
    requires b > 0.0 && k > 0.0
    ensures Times(k, b) > 0.0 && Change(Times(k, b), Times(k, h)) == Change(b, h)
  {
    ProductPositive(k, b);
    QuotientOfScaled(k, h, b);
  }

  lemma DrawScales(base: seq<real>, head: seq<real>, m: Metric, draw: Draw, k: real)
    requires base != [] && head != [] && Picks(draw.base, |base|) && Picks(draw.head, |head|) && k > 0.0
    ensures DrawnBase(Scaled(base, k), m, draw) > 0.0 <==> DrawnBase(base, m, draw) > 0.0
    ensures DrawnBase(base, m, draw) > 0.0 ==>
      Change(DrawnBase(Scaled(base, k), m, draw), DrawnHead(Scaled(head, k), m, draw))
      == Change(DrawnBase(base, m, draw), DrawnHead(head, m, draw))
  {
    DrawnScales(base, m, draw.base, k);
    DrawnScales(head, m, draw.head, k);
    ChangeOfScaled(DrawnBase(base, m, draw), DrawnHead(head, m, draw),
                   DrawnBase(Scaled(base, k), m, draw), DrawnHead(Scaled(head, k), m, draw), k);
  }

  lemma ChangeOfScaled(b: real, h: real, b': real, h': real, k: real)
    requires k > 0.0 && b' == Times(k, b) && h' == Times(k, h)
    ensures b' > 0.0 <==> b > 0.0
    ensures b > 0.0 ==> Change(b', h') == Change(b, h)
  {
    ProductOrders(k, 0.0, b);
    if b > 0.0 {
      ChangeScales(b, h, k);
    }
  }

  lemma ChangesScale(base: seq<real>, head: seq<real>, m: Metric, draws: seq<Draw>, k: real)
    requires base != [] && head != [] && Fits(draws, base, head) && k > 0.0
    ensures Fits(draws, Scaled(base, k), Scaled(head, k))
    ensures Changes(Scaled(base, k), Scaled(head, k), m, draws) == Changes(base, head, m, draws)
  {
    forall i | 0 <= i < |draws|
      ensures DrawnBase(Scaled(base, k), m, draws[i]) > 0.0 <==> DrawnBase(base, m, draws[i]) > 0.0
      ensures DrawnBase(base, m, draws[i]) > 0.0 ==>
        Change(DrawnBase(Scaled(base, k), m, draws[i]), DrawnHead(Scaled(head, k), m, draws[i]))
        == Change(DrawnBase(base, m, draws[i]), DrawnHead(head, m, draws[i]))
    {
      DrawScales(base, head, m, draws[i], k);
    }
    if Defined(base, m, draws) {
      assert Defined(Scaled(base, k), m, draws);
      assert RawChanges(Scaled(base, k), Scaled(head, k), m, draws) == RawChanges(base, head, m, draws);
    }
  }

  /** The verdict does not depend on the unit of the samples. */
  lemma UnitIndependence(base: seq<real>, head: seq<real>, o: Options, draws: seq<Draw>, sqrt: Root, k: real)
    requires base != [] && head != [] && Fits(draws, base, head) && k > 0.0 && IsRoot(sqrt)
    ensures Fits(draws, Scaled(base, k), Scaled(head, k))
    ensures Same(Compared(base, head, o, draws, sqrt),
                 Compared(Scaled(base, k), Scaled(head, k), InUnit(o, k), draws, sqrt), k) == true
  {
    SummaryScales(base, sqrt, k);
    SummaryScales(head, sqrt, k);
    ChangesScale(base, head, o.metric, draws, k);
    var changes := Changes(base, head, o.metric, draws);
    OnSummaries(base, head, o, draws, sqrt);
    OnSummaries(Scaled(base, k), Scaled(head, k), InUnit(o, k), draws, sqrt);
    FromSummariesScales(SummaryOf(base, sqrt), SummaryOf(head, sqrt),
                        SummaryOf(Scaled(base, k), sqrt), SummaryOf(Scaled(head, k), sqrt), changes, o, k);
  }

  function FromSummaries(b: Summary, h: Summary, changes: seq<real>, o: Options): Comparison {
    if b.Value(o.metric) <= 0.0 then Undecided(b, h, b.Value(o.metric), h.Value(o.metric), ZeroBase)
    else Judged(b, h, changes, o)
  }

  lemma OnSummaries(base: seq<real>, head: seq<real>, o: Options, draws: seq<Draw>, sqrt: Root)
    requires base != [] && head != [] && Fits(draws, base, head)
    ensures Compared(base, head, o, draws, sqrt)
         == FromSummaries(SummaryOf(base, sqrt), SummaryOf(head, sqrt), Changes(base, head, o.metric, draws), o)
  {
  }

  lemma FromSummariesScales(b: Summary, h: Summary, b': Summary, h': Summary, changes: seq<real>, o: Options, k: real)
    requires k > 0.0 && IsScaled(b, b', k) && IsScaled(h, h', k)
    ensures Same(FromSummaries(b, h, changes, o), FromSummaries(b', h', changes, InUnit(o, k)), k) == true
  {
    assert b'.Value(o.metric) == Times(k, b.Value(o.metric)) && h'.Value(o.metric) == Times(k, h.Value(o.metric));
    ProductOrders(k, 0.0, b.Value(o.metric));
    if b.Value(o.metric) > 0.0 {
      JudgedScales(b, h, b', h', changes, o, k);
    }
  }

  /** The same conclusions, about sizes k times as large. */
  ghost predicate Same(c: Comparison, c': Comparison, k: real) {
    && c'.verdict == c.verdict && c'.reason == c.reason
    && c'.change == c.change && c'.low == c.low && c'.high == c.high
    && c'.probRegression == c.probRegression && c'.probImprovement == c.probImprovement
    && c'.baseValue == Times(k, c.baseValue) && c'.headValue == Times(k, c.headValue)
  }

  function InUnit(o: Options, k: real): Options {
    o.(minDifference := Times(k, o.minDifference))
  }

  lemma SeparationScales(b: Summary, h: Summary, b': Summary, h': Summary, k: real)
    requires k > 0.0 && IsScaled(b, b', k) && IsScaled(h, h', k)
    ensures Separated(b', h') <==> Separated(b, h)
  {
    assert b'.Value(Min) == Times(k, b.Value(Min)) && b'.Value(Max) == Times(k, b.Value(Max));
    assert h'.Value(Min) == Times(k, h.Value(Min)) && h'.Value(Max) == Times(k, h.Value(Max));
    ProductOrders(k, 0.0, b.min);
    ProductOrders(k, 0.0, h.min);
    ProductOrders(k, b.max, h.min);
    ProductOrders(k, h.max, b.min);
  }

  lemma TimesZero(k: real)
    ensures Times(k, 0.0) == 0.0
  {
  }

  lemma AbsScales(d: real, k: real)
    requires k > 0.0
    ensures Abs(Times(k, d)) == Times(k, Abs(d))
  {
    TimesZero(k);
    TimesOrders(k, d, 0.0);
    Distributes(k, 0.0, d);
  }

  lemma DistanceScales(d: real, m: real, k: real)
    requires k > 0.0
    ensures Times(k, m) > 0.0 <==> m > 0.0
    ensures Abs(Times(k, d)) < Times(k, m) <==> Abs(d) < m
  {
    AbsScales(d, k);
    TimesZero(k);
    TimesOrders(k, 0.0, m);
    TimesOrders(k, Abs(d), m);
  }

  lemma JudgedScales(b: Summary, h: Summary, b': Summary, h': Summary, changes: seq<real>, o: Options, k: real)
    requires k > 0.0 && b.Value(o.metric) > 0.0 && b'.Value(o.metric) > 0.0
    requires IsScaled(b, b', k) && IsScaled(h, h', k)
    ensures Same(Judged(b, h, changes, o), Judged(b', h', changes, InUnit(o, k)), k)
  {
    var o' := InUnit(o, k);
    var bv, hv := b.Value(o.metric), h.Value(o.metric);
    SeparationScales(b, h, b', h', k);
    ChangeScales(bv, hv, k);
    CountsIgnoreDifference(changes, o, o');
    assert b'.Value(o.metric) == Times(k, bv) && h'.Value(o.metric) == Times(k, hv);
    DecisionScales(Few(b, h, o), TooNoisy(b, h, o), changes == [], bv, hv, Degradation(Change(bv, hv), o.higherIsBetter),
                   Share(CountWorse(changes, o), |changes|), Share(CountBetter(changes, o), |changes|), o, k);
  }

  lemma DecisionScales(few: bool, noisy: bool, undefined: bool, bv: real, hv: real, degradation: real,
                       probRegression: real, probImprovement: real, o: Options, k: real)
    requires k > 0.0
    ensures Decide(few, noisy, undefined, Times(k, hv) - Times(k, bv), degradation, probRegression, probImprovement, InUnit(o, k))
         == Decide(few, noisy, undefined, hv - bv, degradation, probRegression, probImprovement, o)
  {
    Distributes(k, hv, bv);
    DistanceScales(hv - bv, o.minDifference, k);
  }

  lemma {:induction false} CountsIgnoreDifference(c: seq<real>, o: Options, o': Options)
    requires o' == o.(minDifference := o'.minDifference)
    ensures CountWorse(c, o') == CountWorse(c, o) && CountBetter(c, o') == CountBetter(c, o)
  {
    if c != [] {
      CountsIgnoreDifference(c[..|c| - 1], o, o');
    }
  }

  // What the probabilities count.

  /** Whether a change degrades beyond the tolerance, or improves beyond it. */
  predicate Beyond(change: real, o: Options, worse: bool) {
    if worse then Degradation(change, o.higherIsBetter) > o.maxPercent + EPSILON
    else Degradation(change, o.higherIsBetter) < -o.maxPercent - EPSILON
  }

  function CountBeyond(c: seq<real>, o: Options, worse: bool): nat {
    if worse then CountWorse(c, o) else CountBetter(c, o)
  }

  lemma CountSnoc(c: seq<real>, x: real, o: Options, worse: bool)
    ensures CountBeyond(c + [x], o, worse) == CountBeyond(c, o, worse) + if Beyond(x, o, worse) then 1 else 0
  {
    assert (c + [x])[..|c|] == c;
  }

  lemma {:induction false} CountCons(x: real, c: seq<real>, o: Options, worse: bool)
    ensures CountBeyond([x] + c, o, worse) == CountBeyond(c, o, worse) + if Beyond(x, o, worse) then 1 else 0
  {
    if c == [] {
      CountSnoc([], x, o, worse);
      assert [] + [x] == [x] + c;
    } else {
      var init, last := c[..|c| - 1], c[|c| - 1];
      CountCons(x, init, o, worse);
      CountSnoc([x] + init, last, o, worse);
      CountSnoc(init, last, o, worse);
      assert [x] + c == ([x] + init) + [last] && c == init + [last];
    }
  }

  lemma {:induction false} InsertCounts(x: real, c: seq<real>, o: Options, worse: bool)
    ensures CountBeyond(Insert(x, c), o, worse) == CountBeyond(c, o, worse) + if Beyond(x, o, worse) then 1 else 0
  {
    if c == [] || x <= c[0] {
      CountCons(x, c, o, worse);
    } else {
      InsertCounts(x, c[1..], o, worse);
      CountCons(c[0], Insert(x, c[1..]), o, worse);
      CountCons(c[0], c[1..], o, worse);
      assert c == [c[0]] + c[1..];
    }
  }

  /** Sorting the changes does not change how many are beyond the tolerance. */
  lemma {:induction false} SortCounts(c: seq<real>, o: Options, worse: bool)
    ensures CountBeyond(Sort(c), o, worse) == CountBeyond(c, o, worse)
  {
    if c != [] {
      SortCounts(c[1..], o, worse);
      InsertCounts(c[0], Sort(c[1..]), o, worse);
      CountCons(c[0], c[1..], o, worse);
      assert c == [c[0]] + c[1..];
    }
  }

  ghost function PlacesBeyond(c: seq<real>, o: Options, worse: bool): set<int> {
    set i | 0 <= i < |c| && Beyond(c[i], o, worse)
  }

  lemma PlacesSnoc(c: seq<real>, x: real, o: Options, worse: bool)
    ensures |c| !in PlacesBeyond(c, o, worse)
    ensures PlacesBeyond(c + [x], o, worse) == PlacesBeyond(c, o, worse) + if Beyond(x, o, worse) then {|c|} else {}
  {
  }

  lemma {:induction false} CountIsCardinality(c: seq<real>, o: Options, worse: bool)
    ensures CountBeyond(c, o, worse) == |PlacesBeyond(c, o, worse)|
  {
    if c == [] {
      assert PlacesBeyond(c, o, worse) == {};
    } else {
      var init, last := c[..|c| - 1], c[|c| - 1];
      assert c == init + [last];
      CountIsCardinality(init, o, worse);
      CountSnoc(init, last, o, worse);
      PlacesSnoc(init, last, o, worse);
    }
  }

  lemma SubsetIsNoLarger<T>(a: set<T>, b: set<T>)
    requires a <= b
    ensures |a| <= |b|
  {
    assert b == a + (b - a);
  }

  /** The draws whose change is beyond the tolerance. */
  ghost function DrawsBeyond(base: seq<real>, head: seq<real>, o: Options, draws: seq<Draw>, worse: bool): set<int>
    requires base != [] && head != [] && Fits(draws, base, head) && Defined(base, o.metric, draws)
  {
    set k | 0 <= k < |draws| && Beyond(Change(DrawnBase(base, o.metric, draws[k]), DrawnHead(head, o.metric, draws[k])), o, worse)
  }

  lemma CountsAreDraws(base: seq<real>, head: seq<real>, o: Options, draws: seq<Draw>, worse: bool)
    requires base != [] && head != [] && Fits(draws, base, head) && Defined(base, o.metric, draws)
    ensures CountBeyond(Changes(base, head, o.metric, draws), o, worse) == |DrawsBeyond(base, head, o, draws, worse)|
  {
    var raw := RawChanges(base, head, o.metric, draws);
    SortCounts(raw, o, worse);
    CountIsCardinality(raw, o, worse);
    assert PlacesBeyond(raw, o, worse) == DrawsBeyond(base, head, o, draws, worse);
  }

  /** The probabilities are the shares of the draws whose change degrades, or improves,
      beyond the tolerance. */
  lemma ProbabilitiesAreShares(base: seq<real>, head: seq<real>, o: Options, draws: seq<Draw>, sqrt: Root)
    requires base != [] && head != [] && Fits(draws, base, head)
    requires Statistic(base, o.metric) > 0.0 && Defined(base, o.metric, draws)
    ensures var c := Compared(base, head, o, draws, sqrt);
      && c.probRegression == |DrawsBeyond(base, head, o, draws, true)| as real / |draws| as real
      && c.probImprovement == |DrawsBeyond(base, head, o, draws, false)| as real / |draws| as real
  {
    Decided(base, head, o, draws, sqrt);
    CountsAreDraws(base, head, o, draws, true);
    CountsAreDraws(base, head, o, draws, false);
  }

  /** A regression needs enough runs on both sides, no noise, an observed degradation
      beyond the tolerance, no smaller difference than asked for, and the required share
      of draws; with all of that, it is one. */
  lemma RegressionMeans(base: seq<real>, head: seq<real>, o: Options, draws: seq<Draw>, sqrt: Root)
    requires base != [] && head != [] && Fits(draws, base, head)
    requires Statistic(base, o.metric) > 0.0 && Defined(base, o.metric, draws)
    ensures var b, h := Statistic(base, o.metric), Statistic(head, o.metric);
      Compared(base, head, o, draws, sqrt).verdict == Regression <==>
        && |base| >= o.minSamples && |head| >= o.minSamples
        && !TooNoisy(SummaryOf(base, sqrt), SummaryOf(head, sqrt), o)
        && (o.minDifference > 0.0 ==> Abs(h - b) >= o.minDifference)
        && Beyond(Change(b, h), o, true)
        && |DrawsBeyond(base, head, o, draws, true)| as real / |draws| as real >= o.confidence
  {
    Decided(base, head, o, draws, sqrt);
    CountsAreDraws(base, head, o, draws, true);
  }

  /** The same for an improvement. */
  lemma ImprovementMeans(base: seq<real>, head: seq<real>, o: Options, draws: seq<Draw>, sqrt: Root)
    requires base != [] && head != [] && Fits(draws, base, head) && o.maxPercent >= 0.0
    requires Statistic(base, o.metric) > 0.0 && Defined(base, o.metric, draws)
    ensures var b, h := Statistic(base, o.metric), Statistic(head, o.metric);
      Compared(base, head, o, draws, sqrt).verdict == Improved <==>
        && |base| >= o.minSamples && |head| >= o.minSamples
        && !TooNoisy(SummaryOf(base, sqrt), SummaryOf(head, sqrt), o)
        && (o.minDifference > 0.0 ==> Abs(h - b) >= o.minDifference)
        && Beyond(Change(b, h), o, false)
        && |DrawsBeyond(base, head, o, draws, false)| as real / |draws| as real >= o.confidence
  {
    Decided(base, head, o, draws, sqrt);
    CountsAreDraws(base, head, o, draws, false);
  }
}
