# himorime, verified

A Dafny model of the parts of himorime whose correctness argument is spread over
several functions, processes or packages, with proofs of what they promise.
`dafny verify dfyconfig.toml` checks all of it.

| files | what they model |
|---|---|
| `Framing` | the messages between himorime and its spawner: length, body and descriptors over a byte stream that may fragment, interrupt or fail at every call |
| `Spawner`, `SpawnerInvariant`, `SpawnerSafety`, `SpawnerReports` | the spawner protocol: two processes with two threads each, every interleaving, every failure; an inductive invariant and the theorems that follow from it, and what a run reports |
| `RunningTree`, `SpawnerPool`, `DirectRun` | the mutex-guarded process tree, the pool of idle spawners, and running a command without a spawner |
| `RealArithmetic`, `OrderStats`, `Summaries` | sorting, percentiles, medians, means and dispersions |
| `Comparing`, `ComparingLaws`, `SlowSample`, `Throughput` | the bootstrap comparison, its laws, exactly what one slow sample can do, and the throughput comparison derived from it |
| `PeakFloor`, `FloorNoise`, `FloorNoiseMeans`, `FloorNoiseHalves`, `FloorVerdicts`, `Budgets` | verdicts and budgets when a peak RSS is only known up to a floor, and when exactly they hold for every real value |
| `Measuring`, `MeasuringLaws` | the measuring loop: units, rounds, sticky failures, skipped metrics, adaptive stopping |
| `Results`, `Judgement` | results, and the two folds that turn a tree of measurements into results and into an exit code |
| `Section`, `SectionLaws`, `SectionEdit` | replacing a section of a Markdown document |
| `Runes`, `WordCount` | the three word counters: byte by byte, in parallel, and by fields of text |

Code that works step by step is a method or a class, proved against functions that
say what it computes; the lemmas are about those functions. Threads and processes
are transition systems, and a theorem about them holds in every state of every
execution. What the environment decides is a parameter: how much a system call
moves, when a timeout fires, which samples a resample draws, the order of the units
in a round, what a run of a command does.

## What the proofs found

* `internal/report/build.go:580-585` says that a regression from a base at its floor
  still holds for the real values. Raising samples to the floor narrows them, so the
  noise gate can pass the raised samples and stop the real ones. With one floor, the
  regression holds for every possible real base exactly when the gate is off, when the
  least head run is above the greatest base run, or when the widest real values are
  quiet: for means those where the runs at the floor used nothing; for medians the same,
  but never when more than half of the runs, not counting a greatest one, are at the floor
  (`FloorVerdicts.RegressionHoldsExactly`, `FloorVerdicts.ImprovementHoldsExactly`). With
  floors that differ from run to run and most of the runs at their own, only the
  separation is left (`FloorNoise.ReportedRegressionHolds`). Ten runs under the default
  settings are an example, whatever is drawn
  (`FloorNoise.CalledAtFloorButNoisyInTruth`).
* `internal/report/budgets.go:69-70` says that what the floor does not meet cannot be
  decided. The observed statistic bounds the real one too, so a bound between the two
  is met by every real value and still becomes a metric error
  (`Budgets.AtFloorIsDecided`, `Budgets.UndecidedExample`). A reported pass is always
  right; a reported fail is right for the maximum, and otherwise exactly when it fails
  with nothing used by the runs at their own floor (`Budgets.FailIsRightExactly`,
  `Budgets.FailExample`).
* `internal/stats/compare.go:111-113` says that a single slow sample cannot fail a
  build. For any settings and any draws it cannot exactly when there are too few samples
  to judge, when one sample does not carry the statistic, or when no sample is in the
  required share of the draws (`SlowSample.SafeExactly`). One sample carries a mean and
  the median of two, and no median of three or more, which are safe whatever is drawn
  (`SlowSample.SafeWhateverIsDrawn`). Ten runs compared by their means, and two by their
  medians, are examples for every list of draws (`SlowSample.SlowMeanFails`,
  `SlowSample.SlowPairFails`).
* Replacing a Markdown section a second time gives the same bytes exactly when the
  inserted text shows no marker line and leaves no fence open; in a document whose first
  line is a front matter delimiter that is never closed, inserted text with that line
  closes it and hides the section (`SectionLaws.ReplacingTwice`,
  `SectionLaws.SectionIsFoundAgain`, `SectionLaws.TrappedSectionIsLost`).
* A message is read back exactly when its body is at most 64 MiB and it carries at most
  eight descriptors. The length is not checked when sending and wraps at 4 GiB, from where
  on part of a frame can read as a message (`Framing.FrameRoundTrip`,
  `Framing.CutFrameIsNoMessage`).
* Counting words by fields agrees with counting them by bytes on text whose only spaces
  are those of ASCII, and beyond it can give fewer words or more (`WordCount.FieldsAgree`,
  `WordCount.FieldsCanDiffer`).
* A result can say that a command timed out although the command had exited by itself:
  the watcher looks at `done` before the main goroutine closes it
  (`DirectRun.LateTimeoutIsReported`).

## Model

| member | source | states |
|---|---|---|
| Framing.HeadRoundTrip | internal/proc/spawner_unix.go:130 | the four length bytes read back the length modulo 2^32 |
| Framing.FrameRoundTrip | internal/proc/spawner_unix.go:171-226 | a frame followed by anything is read back with its own body and descriptors if and only if the body is at most maxMessage and the descriptors fit |
| Framing.StreamRoundTrip | internal/proc/spawner_unix.go:125-243 | any list of sendable messages followed by any bytes comes out first, in order, each with its own descriptors |
| Framing.CutFrameIsNoMessage | internal/proc/spawner_client_unix.go:337-341 | no proper prefix of a frame yields a message, so a request whose send failed cannot be decoded; with a body of 4 GiB or more, exactly those prefixes do that hold the wrapped length |
| Framing.TruncationIsDetected | internal/proc/spawner_unix.go:203-220 | a stream cut anywhere, also in a frame too long to be read, gives the whole messages before the cut and then an end or an error, never a wrong message |
| Framing.FramesAreAtBoundary | internal/proc/spawner_unix.go:125-153 | on every stream of frames, whole or cut, descriptors ride only where recv looks for them |
| Framing.Stream.Write | internal/proc/spawner_unix.go:155-167 | whatever each call writes, all bytes are appended in order, or a proper prefix and a failure is reported |
| Framing.Stream.Send | internal/proc/spawner_unix.go:125-153 | success appends exactly one frame, failure a proper prefix of it, also after a short first sendmsg |
| Framing.Stream.SendHead | internal/proc/spawner_unix.go:136-147 | the descriptors go out with the first bytes of the header, once, whatever is interrupted |
| Framing.Stream.Read | internal/proc/spawner_unix.go:228-243 | the buffer is filled with the next bytes of the stream, or the end or a failure is reported |
| Framing.Stream.RecvHead | internal/proc/spawner_unix.go:172-206 | the first call returns the descriptors of the frame even when it reads only part of the header |
| Framing.Stream.RecvHeader | internal/proc/spawner_unix.go:171-211 | without failing calls, the end is reported exactly on an empty stream and a size exactly when four bytes are there |
| Framing.Stream.Recv | internal/proc/spawner_unix.go:171-226 | a delivered message is the one at the head of the stream, with its descriptors, and the bytes after its frame are left; failing calls only add errors |
| Framing.Exchange | internal/proc/spawner_unix.go:125-243 | for any messages within the limits, however both sides fragment and interrupt, receiving until the end gives exactly the messages sent, in order, with their own descriptors |
| SpawnerInvariant.InvStep | internal/proc/spawner_unix.go:278-463 | every step of every thread of both processes keeps the invariant |
| SpawnerInvariant.InvHolds | internal/proc/spawner_client_unix.go:292-390 | the invariant holds in every state of every execution |
| SpawnerSafety.KillsStayWithTheirRun | internal/proc/spawner_client_unix.go:346-370 | a kill sent for one run never signals the process group of another, in any interleaving |
| SpawnerSafety.NoRequestIsSwallowed | internal/proc/spawner_unix.go:425-463 | the spawner's watcher only ever reads kills of the command it watches or the end of the stream |
| SpawnerSafety.WakePipeIsEmptyAtRequest | internal/proc/spawner_unix.go:278-281 | no wake byte and no watch is left over when a request is received |
| SpawnerSafety.OneReplyPerRequest | internal/proc/spawner_unix.go:287-307 | requests are accepted once, in order, each answered exactly once before the next; the spawner leaves only for an owner that is gone or a request it cannot read |
| SpawnerSafety.AnswersBelongToTheirRun | internal/proc/spawner_client_unix.go:357-376 | every answer read is for the run that waits for it, though replies carry no number |
| SpawnerSafety.StartedAtMostOnce | internal/proc/proc.go:91-98 | a command is started at most once, counting the direct start when its pipes could not be opened or its request not be sent |
| SpawnerSafety.OwnEnvironment | internal/proc/spawner_client_unix.go:332-342 | every command runs in the environment resolved for its own run, also when the request said to reuse the last one |
| SpawnerSafety.AnOrderedStopReachesTheGroup | internal/proc/spawner_unix.go:384-409 | once a stop was ordered and the start recorded, in either order, the group has been signalled |
| SpawnerSafety.StoppedBeforeReply | internal/proc/spawner_unix.go:339-382 | before a reply, and before leaving for an owner that is gone, every started group was stopped; there is never more than one |
| SpawnerSafety.OneThreadPerEnd | internal/proc/spawner_unix.go:279-281 | at either end at most one thread writes and at most one reads, so frames never mix |
| SpawnerSafety.NeverStuck | internal/proc/spawner_unix.go:339-382 | unless both sides are at rest some thread can always take a step of its own |
| SpawnerSafety.StopAdvances | internal/proc/spawner_unix.go:432-463 | while a stop is on its way to a running command, some step other than the command's own exit brings it closer |
| SpawnerSafety.StopReachesTheCommand | internal/proc/spawner_unix.go:420-463 | once a timeout fired, a kill was sent or himorime is gone, no execution comes to its end with the group of a command that never exits still running |
| SpawnerSafety.ServingStep | internal/proc/spawner_unix.go:360-382 | a command being served can always be brought to its end: the watch ends after the wake byte and its recv never blocks |
| SpawnerSafety.MeasureDrops | internal/proc/spawner_client_unix.go:346-370 | every step but beginning a run uses up some of a bounded amount of work |
| SpawnerSafety.RunsEnd | internal/proc/spawner_client_unix.go:292-390 | an execution that begins n runs has at most 31 n + 6 steps, whatever is killed, refused or dies |
| SpawnerReports.ReportsHold | internal/proc/spawner_client_unix.go:349-389 | what the watcher of a run decided, what it sent and what the run reports stay together in every state of every execution |
| SpawnerReports.ReportTellsTheKill | internal/proc/spawner_client_unix.go:370-389 | a run is reported as timed out or canceled exactly when its command started and its own watcher decided so before the answer, for that reason |
| SpawnerReports.SignalsWereDecided | internal/proc/proc.go:229-249 | every kill that signals a group comes from a watcher that decided to kill |
| RunningTree.RunningTree.Started | internal/proc/spawner_unix.go:393-400 | recording the start stops the group when a kill came first |
| RunningTree.RunningTree.Kill | internal/proc/spawner_unix.go:402-409 | a kill stops the recorded group and marks the tree for one that starts later |
| RunningTree.RunningTree.Close | internal/proc/spawner_unix.go:412-418 | closing stops whatever the command left in its group |
| RunningTree.OrderDoesNotMatter | internal/proc/spawner_unix.go:384-409 | kill and started leave the same tree in either order, with the group stopped |
| RunningTree.ProtocolUsesTheTree | internal/proc/spawner_unix.go:393-418 | the steps of the protocol change its tree exactly as these methods do |
| RunningTree.NothingElseTouchesTheTree | internal/proc/spawner_unix.go:337-373 | no other step of the spawner records or signals a group |
| SpawnerPool.Pool.Take | internal/proc/spawner_client_unix.go:37-56 | a spawner goes to one run only, the last returned first; a start that failed is never tried again |
| SpawnerPool.Pool.Prepare | internal/proc/spawner_client_unix.go:61-73 | one is started only when none is idle and none failed to start |
| SpawnerPool.Pool.Return | internal/proc/spawner_client_unix.go:75-79 | a spawner given back is idle once and no longer held |
| SpawnerPool.Pool.Discard | internal/proc/spawner_client_unix.go:82-85 | a discarded spawner is never handed out again |
| DirectRun.InvStep | internal/proc/proc.go:100-203 | every step of the two goroutines keeps the invariant |
| DirectRun.KillsFindTheTreeOpen | internal/proc/proc.go:161-189 | the watcher kills at most once, and never after the tree handle was released |
| DirectRun.ReportTellsTheKill | internal/proc/proc.go:191-197 | timed out or canceled is reported exactly when the watcher killed for that reason, and only with a timeout or a canceled context |
| DirectRun.StartedAtMostOnce | internal/proc/proc.go:122-134 | the command starts at most once, and not at all exactly when it was canceled before or could not start |
| DirectRun.NothingAfterReturn | internal/proc/proc.go:176-189 | after the return nothing the program does is left running |
| DirectRun.NeverStuck | internal/proc/proc.go:161-197 | until the return some step of the program is possible |
| DirectRun.RunsEnd | internal/proc/proc.go:100-203 | every execution has at most 13 steps |
| DirectRun.LateTimeoutIsReported | internal/proc/proc.go:229-258 | an execution in which the command exits by itself and is reported as timed out |
| OrderStats.SortSorts | internal/stats/stats.go:52-53 | sorting gives the same samples in ascending order |
| OrderStats.SortIsUnique | internal/stats/compare.go:224 | there is no other ascending arrangement, whatever algorithm is used |
| OrderStats.SortMonotone | internal/stats/compare.go:224 | sorting keeps samples pointwise below others |
| OrderStats.PercentileMonotone | internal/stats/compare.go:246-261 | a percentile grows with p and stays between the first and the last sample |
| OrderStats.PercentileOfBelow | internal/stats/compare.go:246-261 | the percentile of pointwise smaller samples is smaller |
| OrderStats.MedianIsHalf | internal/stats/stats.go:100-106 | the median is the percentile at one half, for odd and even counts |
| OrderStats.ExtremaAreEnds | internal/stats/stats.go:60-61 | the ends of the sorted samples are their least and greatest |
| OrderStats.StatisticIsPercentile | internal/stats/compare.go:230-242 | every statistic but the mean is a percentile of the sorted samples |
| OrderStats.StatisticMonotone | internal/stats/compare.go:230-242 | mean, median, minimum and maximum of pointwise smaller samples are smaller |
| OrderStats.StatisticWithin | internal/stats/compare.go:190-199 | each of them lies between any bounds of the samples |
| OrderStats.StatisticScales | internal/stats/compare.go:230-242 | each of them scales with the unit |
| Summaries.MeanFloat | internal/stats/stats.go:91-97 | the loop computes the mean |
| Summaries.SortInPlace | internal/stats/compare.go:240 | the buffer holds the sorted samples |
| Summaries.Summarize | internal/stats/stats.go:47-80 | the summary of the samples, all zero without any |
| Summaries.SummaryIsSane | internal/stats/stats.go:47-80 | mean and median lie between the extremes and no dispersion is negative |
| Summaries.SummaryValue | internal/stats/stats.go:152-163 | the value picked from a summary is the statistic of the samples |
| Summaries.RobustSpreadNotNegative | internal/stats/stats.go:74-77 | the robust dispersion is never negative |
| Summaries.SummaryScales | internal/stats/stats.go:47-80 | in another unit sizes scale and both dispersions stay |
| Summaries.Aggregate | internal/stats/stats.go:119-139 | the aggregation of the samples, and no value without samples |
| Summaries.AggregateMonotone | internal/stats/stats.go:119-139 | every aggregation of pointwise smaller samples is smaller |
| Summaries.AggregateWithin | internal/stats/stats.go:119-139 | every aggregation lies between any bounds of the samples |
| Summaries.AggregationsAreOrdered | internal/metric/threshold.go:168-203 | minimum, median, percentiles above it and maximum are in order |
| Comparing.MetricOf | internal/stats/compare.go:230-242 | the statistic of the buffer, which is sorted only for the median |
| Comparing.BootstrapChanges | internal/stats/compare.go:202-227 | the changes of all draws, sorted, and nothing when any draw is undefined |
| Comparing.CountBoth | internal/stats/compare.go:148-157 | how many changes degrade and how many improve beyond the tolerance |
| Comparing.Compare | internal/stats/compare.go:114-188 | the comparison for given draws, with every early return |
| ComparingLaws.RegressionMeans | internal/stats/compare.go:93-113 | a regression is called exactly with enough runs, no noise, an observed degradation beyond the tolerance, no smaller difference than asked for, and the required share of draws beyond it |
| ComparingLaws.ImprovementMeans | internal/stats/compare.go:93-113 | an improvement is called exactly under the same conditions in the other direction |
| ComparingLaws.ProbabilitiesAreShares | internal/stats/compare.go:82-86 | the probabilities are the shares of the draws whose change degrades, or improves, beyond the tolerance |
| ComparingLaws.RegressionOnlyStrengthens | internal/report/build.go:580-585 | with the same draws, a regression only gains evidence when the base used less or the head more, and stays one if and only if the noise gate lets it |
| ComparingLaws.ImprovementOnlyStrengthens | internal/report/build.go:580-585 | the same for an improvement when the head used less or the base more |
| ComparingLaws.EvidenceFollows | internal/stats/compare.go:202-227 | change, difference, interval and probabilities all follow a smaller base and a larger head |
| ComparingLaws.SeparatedChanges | internal/stats/compare.go:190-199 | separated samples make every draw defined and every change of one strict sign |
| ComparingLaws.SeparatedVerdict | internal/stats/compare.go:190-199 | separated samples never get the verdict of the opposite direction nor are they too noisy |
| ComparingLaws.LargerToleranceCallsLess | internal/stats/compare.go:45-46 | raising the tolerance never creates a regression or an improvement |
| ComparingLaws.OtherDirectionSwaps | internal/stats/compare.go:42-44 | reading the metric the other way round swaps regression and improvement exactly and changes no estimate |
| ComparingLaws.EstimatesAreSane | internal/stats/compare.go:78-87 | the interval has its ends in order and the two probabilities add up to at most one |
| ComparingLaws.UnitIndependence | internal/stats/stats.go:4-7 | one positive factor on all samples and on the minimal difference changes no verdict, reason, change, interval or probability |
| SlowSample.StatisticIgnoresOne | internal/stats/stats.go:99-106 | a minimum, and a median of three samples or more, is at most any bound of all samples but one |
| SlowSample.UncarriedIsNoRegression | internal/stats/compare.go:111-113 | with a statistic one sample does not carry, all head samples but one within the tolerance are no regression, whatever is drawn |
| SlowSample.RegressionNeedsTheSlowSample | internal/stats/compare.go:93-113 | for every statistic, when all head samples but one are within the tolerance, a regression needs that one in the required share of the draws |
| SlowSample.SlowSampleDecides | internal/stats/compare.go:93-113 | a slow enough sample that carries the statistic, and that the gates let through, is a regression exactly when it is in that share |
| SlowSample.SafeExactly | internal/stats/compare.go:111-113 | for any settings, counts and draws, one slow sample cannot fail the comparison if and only if there are too few samples, it does not carry the statistic, or no sample is in the required share of the draws |
| SlowSample.SafeWhateverIsDrawn | internal/stats/compare.go:111-113 | whatever is drawn, if and only if there are too few samples or it does not carry the statistic; for medians of enough samples, from three on |
| SlowSample.SlowMeanFails | internal/stats/compare.go:111-113 | ten runs a side compared by their means, nine as fast as the base: for every list of draws, a regression exactly when the tenth is in the required share |
| SlowSample.SlowPairFails | internal/stats/compare.go:111-113 | two runs a side compared by their medians, likewise for every confidence |
| Throughput.ReciprocalIsInvolution | internal/report/build.go:521-523 | turning a latency change into a rate change twice gives it back |
| Throughput.ReciprocalReverses | internal/report/build.go:492-494 | it reverses the order, which is why the interval ends are exchanged |
| Throughput.DerivedAgreesWithRates | internal/report/build.go:484-514 | the derived change is the change of the reported rates, its interval is in order, and the rate shrinks beyond the derived tolerance exactly when the latency grows beyond its own |
| PeakFloor.ExplainsMeans | internal/report/model.go:193-198 | the possible real values of a run are the observed one, and anything below it when it is at its floor |
| PeakFloor.FloorOf | internal/report/build.go:336-349 | the largest floor and the number of runs at their own |
| PeakFloor.NoneAtFloorIsExact | internal/report/build.go:334-349 | with no run at its floor the observed values are the real ones |
| PeakFloor.RaiseToFloor | internal/report/build.go:627-636 | every sample below the floor is raised to it when the statistic is at the floor |
| PeakFloor.CompareMetric | internal/report/build.go:525-593 | which verdicts are reported for sides that were not measured, or are at their floor |
| PeakFloor.RegressionFromFloor | internal/report/build.go:580-591 | a regression reported for a base at its floor has at least as much evidence for every possible real base, and is called for it if and only if the noise gate lets it |
| PeakFloor.ImprovementToFloor | internal/report/build.go:580-591 | the same for an improvement reported for a head at its floor |
| PeakFloor.SeparatedStaysQuiet | internal/stats/compare.go:168-170 | the noise gate cannot stop the comparison of the real values when it is off or the sides were separated |
| FloorNoise.RegressionForEveryTruth | internal/report/build.go:580-591 | without the noise gate, or for medians with most of the base at its floor, a comparison is a regression for all possible real values of both sides if and only if it is one without the gate, with the base as observed and the head's runs at their own floor using nothing, and the gate is off or those are separated |
| FloorNoise.ReportedRegressionHolds | internal/report/build.go:580-591 | a regression reported from a base with most runs at their own floor, whatever these are, holds for every possible real base if and only if the gate is off or the head is above all that was observed |
| FloorNoise.ReportedImprovementHolds | internal/report/build.go:580-591 | the same for an improvement to a head with most runs at their own floor |
| FloorNoise.OddMedianAtFloorIsMost | internal/report/build.go:554-558 | for an odd number of runs with one floor, from three on, a median at the floor means that most are |
| FloorNoise.CountedMarks | internal/report/build.go:334-349 | how many runs are at their own floor, but for a greatest one, is told by the reported count |
| FloorNoise.CalledAtFloorButNoisyInTruth | internal/report/build.go:580-585 | ten runs a side under the default settings, for every list of draws: reported as a regression when the usual draws have the required share, while possible real values are too noisy to call |
| FloorNoiseMeans.BarestIsWidest | internal/stats/stats.go:63-72 | with one floor, no real values have a larger coefficient of variation than those with nothing used at the floor |
| FloorNoiseHalves.BarestIsMostSpread | internal/stats/stats.go:73-77 | with one floor and half of the runs at it, none have a larger robust dispersion |
| FloorVerdicts.RegressionHoldsExactly | internal/report/build.go:580-591 | for medians and means of runs with one floor: a reported regression holds for every possible real base if and only if the gate is off, the head is above all that was observed, or the widest real values are within the limit |
| FloorVerdicts.ImprovementHoldsExactly | internal/report/build.go:580-591 | the same for a reported improvement |
| Budgets.Command.MeasuredBudget | internal/report/budgets.go:58-79 | the check of a measured budget; one that the floor leaves open makes the command a metric error |
| Budgets.Command.EvaluateBudget | internal/report/budgets.go:27-56 | a waived metric is skipped, a missing one is a metric error |
| Budgets.Command.CheckBudgets | internal/report/budgets.go:14-25 | every budget of the command is checked, in order, and its result worsens by exactly what they say |
| Budgets.BudgetResult | internal/report/budgets.go:9-13 | the result is an error exactly when it was one or a required check could not be assessed |
| Budgets.PassIsRight | internal/report/budgets.go:61-75 | a budget reported as met is met by every possible real value, for every aggregation |
| Budgets.FailIsRightExactly | internal/report/budgets.go:61-67 | a budget reported as failed is failed by every possible real value if and only if it fails with nothing used by the runs at their own floor |
| Budgets.MaximumFailIsRight | internal/report/budgets.go:61-67 | for the maximum a reported fail is always right |
| Budgets.AtFloorIsDecided | internal/report/budgets.go:69-75 | at the floor every possible real value meets the bound if and only if the observed statistic does |
| Budgets.FailExample | internal/report/budgets.go:61-67 | a mean reported as failed whose possible real mean meets the budget |
| Budgets.UndecidedExample | internal/report/budgets.go:69-78 | a check left open although every possible real value meets it |
| Results.WorstOfIsWorst | internal/report/model.go:40-58 | the worst of several results is one of them and none is worse |
| Judgement.CommandFailure | internal/report/build.go:163-192 | a command failed exactly when something concerning it failed or is missing, as a metric error exactly when every failure is one |
| Judgement.CompareMetrics | internal/report/build.go:449-479 | every metric to compare is compared from the samples of both sides, and only gated verdicts worsen the result |
| Judgement.JudgeCommand | internal/report/build.go:136-155 | the result of one command from its budgets and, only when both sides are there and neither failed, from the comparison of its metrics |
| Judgement.ShowCommands | internal/report/build.go:121-131 | in a comparison a command measured on no side is left out |
| Judgement.JudgeBenchmark | internal/report/build.go:105-157 | the benchmark's commands and the worst of its own failure and their results |
| Judgement.JudgeSuite | internal/report/build.go:57-94 | the same for a suite; one that is new in the head is judged as a plain run |
| Judgement.FailedBenchmarkJudgesNothing | internal/report/build.go:142-147 | every command of a benchmark that failed is an error at least as bad as the benchmark's |
| Judgement.Summary.Count | internal/report/aggregate.go:13-30 | one result is counted where it belongs |
| Judgement.Summary.CountBenchmark | internal/report/aggregate.go:38-50 | a benchmark's own failure is counted exactly when no command stands for it |
| Judgement.Summary.Summarize | internal/report/aggregate.go:9-64 | each counter is how often its result occurs and the exit code follows from them |
| Judgement.TalliedMeans | internal/report/aggregate.go:13-30 | a counter is the number of occurrences of its result |
| Judgement.BenchmarksFoldsAgree | internal/report/aggregate.go:38-50 | the worst result counted for benchmarks is the worst of their results |
| Judgement.ExitCodesAgree | internal/report/aggregate.go:52-63 | for every tree the judging builds, the exit code found by counting is the one of the worst suite result |
| Judgement.ExitZeroMeans | internal/exitcode/exitcode.go:10-11 | for every tree the judging builds, the process exits with 0 if and only if no build and no benchmark failed and every command shown passed, improved or, without the flag, was inconclusive |
| Judgement.RegressionFailsTheProcess | internal/report/build.go:464-475 | a gated metric whose comparison is a regression, with a head above its floor, keeps the process from exiting with 0 |
| Judgement.Judge | internal/report/build.go:39-55 | the judged suites, their counts, and that exit code |
| Judgement.CleanCommand | internal/report/build.go:136-155 | a command no worse than inconclusive was measured, nothing failed, every budget was met or waived and no gated comparison is a regression |
| Judgement.CleanExit | internal/exitcode/exitcode.go:10-11 | with exit code 0 no command shown is worse than inconclusive |
| Judgement.CleanExitMeetsPeakBudgets | internal/exitcode/exitcode.go:10-11 | with exit code 0 every peak RSS budget of every command shown is met by every possible real value |
| Measuring.Measurement.Skip | internal/runner/result.go:111-123 | a skipped group keeps no samples |
| Measuring.Measurement.UsageFailure | internal/runner/runner.go:718-730 | what a missing usage value means under the skip and the fail policy |
| Measuring.Unit.RecordRun | internal/runner/runner.go:684-712 | a run is recorded in every collected slice, or nothing is when its usage failed |
| Measuring.Unit.RunOnce | internal/runner/runner.go:609-680 | what one attempt does to a measurement |
| Measuring.Round | internal/runner/runner.go:336-356 | every healthy unit runs once, failed ones are left alone, and without an interrupt the outcome is the same for every order |
| Measuring.Done | internal/runner/runner.go:372-388 | the stopping rule |
| Measuring.WarmUp | internal/runner/runner.go:281-287 | the warmup rounds, up to the first interrupt |
| Measuring.Measure | internal/runner/runner.go:257-299 | rounds run until the stopping rule holds for the first time, no unit is left or one is interrupted, never more than runs or max_runs, with a state that no order of the units changes |
| MeasuringLaws.RoundKeepsStep | internal/runner/runner.go:682-712 | a round keeps every collected slice as long as the samples and skipped ones empty, and adds one sample to a unit that stays healthy |
| MeasuringLaws.SamplesCountRounds | internal/runner/runner.go:370-371 | at the head of every measured round each healthy unit has one sample for each round before it |
| MeasuringLaws.FailuresStick | internal/runner/runner.go:340-342 | a unit that failed is never touched again |
| MeasuringLaws.CheckComparable | internal/cli/measure.go:500-521 | settings are accepted exactly when every benchmark can reach min_samples |
| MeasuringLaws.EnoughSamples | internal/runner/runner.go:358-368 | in an accepted comparison a unit healthy at the end has at least min_samples samples |
| MeasuringLaws.SeriesOf | internal/report/build.go:227-261 | the values of every metric that has any, computed run by run |
| MeasuringLaws.SeriesAreComplete | internal/report/build.go:227-261 | every metric of a requested group that was not skipped has a value for every run, and only requested ones have values |
| MeasuringLaws.DerivedPerRun | internal/report/build.go:224-226 | rates and utilization are those of each run: multiplied by its time they give back its work and its CPU time |
| MeasuringLaws.FewSamplesIsUnreachable | internal/stats/compare.go:165-167 | for two healthy sides of an accepted comparison Compare never says that there are too few samples |
| MeasuringLaws.CommandUnits | internal/runner/runner.go:305-321 | a compared command is measured on every side, an excluded one on the head only and only for its budgets, each once |
| SectionEdit.SplitLines | internal/report/section.go:144-173 | the lines of the document with their positions, and exactly the front matter marked |
| SectionEdit.CutLines | internal/report/section.go:144-155 | each line with its text and where it starts and ends |
| SectionEdit.ClosingLine | internal/report/section.go:159-172 | the line that closes the front matter, if one does |
| SectionEdit.Classify | internal/report/section.go:69-99 | what kind of line it is and which fence is open after it |
| SectionEdit.ScanLines | internal/report/section.go:68-103 | the marker lines and the last heading above the begin marker, or a marker found twice |
| SectionEdit.LocateSection | internal/report/section.go:68-112 | where the section is, or why it is refused |
| SectionEdit.SpliceLines | internal/report/section.go:126-131 | the bytes up to the begin line, the new text, the bytes from the end line |
| SectionEdit.ReplaceSection | internal/report/section.go:63-132 | the replacement, byte for byte, or its refusal |
| SectionLaws.ScanFinds | internal/report/section.go:55-62 | a section is found exactly with one begin and one later end marker outside fences and front matter, at the level below the last heading above it |
| SectionLaws.JoinOfSegments | internal/report/section.go:142-155 | the lines joined are the document |
| SectionLaws.EverythingElseIsKept | internal/report/section.go:24-28 | every byte up to the end of the begin line and from the end line on is kept |
| SectionLaws.SectionIsFoundAgain | internal/report/section.go:63-112 | after a replacement the section is found where it was if and only if the text is quiet and closes no front matter |
| SectionLaws.TrappedSectionIsLost | internal/report/section.go:156-173 | when the inserted text closes a front matter block and there is no other begin marker below, a second replacement is refused |
| SectionLaws.ReplacingTwice | internal/report/section.go:63-132 | unless it closes a front matter block, a second replacement returns the same bytes if and only if the inserted text is quiet |
| WordCount.TallySplits | examples/tools/wordcount/main.go:156-159 | the counts of a stretch are the sum of the counts of its parts, also when a word spans them |
| WordCount.CountScanner | examples/tools/wordcount/main.go:124-146 | the lines, word starts and bytes of the input |
| WordCount.CountChunk | examples/tools/wordcount/main.go:177-193 | what a chunk contributes, counting a word only where it starts |
| WordCount.RunWorkers | examples/tools/wordcount/main.go:168-195 | every worker's share, in whatever order they finish, and zero for idle ones |
| WordCount.CountParallel | examples/tools/wordcount/main.go:160-203 | the same counts for every worker count, including more workers than bytes |
| WordCount.CountBytes | examples/tools/wordcount/main.go:148-154 | the newlines, the fields of the text read rune by rune, and the bytes |
| WordCount.FieldsAgree | examples/tools/wordcount/main.go:148-154 | counting fields gives the counts of the other two when no space but those of ASCII occurs |
| WordCount.FieldsCanDiffer | examples/tools/wordcount/main.go:148-154 | a text with fewer fields than words, and one with more |
| WordCount.Count | examples/tools/wordcount/main.go:103-122 | the answer does not depend on the implementation or the worker count, except as FieldsCanDiffer says |

## Left out

- PeakFloor.RegressionFromFloor: takes the samples of the head as the real ones; a head whose statistic is above its floor but some of whose runs are at theirs may have used less. PeakFloor.NoneAtFloorIsExact says when the samples are real, FloorNoise.RegressionForEveryTruth what decides when they are not.
- PeakFloor.ImprovementToFloor: takes the samples of the base as the real ones, likewise.
- FloorNoise.ReportedRegressionHolds: with floors that differ from run to run, a mean, or no more than half of the runs at their own, is not characterised on what was observed; PeakFloor.RegressionFromFloor says what decides for each possible real base.
- FloorVerdicts.RegressionHoldsExactly: takes the samples of the head as the real ones, as FloorVerdicts.ImprovementHoldsExactly does those of the base.
- Judgement.CompareMetrics: is given the metrics to compare with their settings; the list of metric definitions, how a seed is derived from names, and the throughput comparison that is only reported are not part of it.
- Judgement.Summary.Summarize: counts results; the numbers of suites, benchmarks, commands, new suites, ungated verdicts and skipped checks are list lengths that would only add easy members.
- Comparing.Compare: is over the reals; float64 rounding, NaN and infinities are not modelled, and the PCG generator is replaced by arbitrary draws, at least one.
- WordCount.Count: does not model worker counts too large to allocate, nor the cache.
- Framing.Stream.Recv: the JSON encoding is an arbitrary codec; errors of parsing control messages are part of a failing call.
- The spawner protocol loses a kill only when the spawner exited; a kill of which a live spawner received part is not modelled. Process ids are not reused.
- The handshake when a spawner starts, copying pipes, reading floors, garbage collection in the spawner, terminals and Windows (suspended starts, Job Objects).
- Relative speeds and geometric means, which need logarithms.
- Setup, prepare and cleanup hooks, working directories and the build: a hook that fails is an attempt that failed, or a failure of the benchmark.
- Loading suites, parsing thresholds, aggregations and percentiles, rendering, reading and writing report files, Git worktrees, flags, and all message texts.
