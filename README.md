# Gloo benchmark runner, modelled in Dafny

This project models `gloo::benchmark::Runner`, the driver of Gloo's collective
benchmarks. One runner runs in each participant process. It:

- picks a transport device, then connects two coordination contexts: one for the broadcast, one for the barrier;
- prints a table header (rank 0 only);
- runs one *size point* for the configured element count, or else sweeps 21 sizes: 1, 2, 5, 10, …, 5000000.

A size point does the following, in order:

1. Connects a fresh context under the namespace `<prefix>-<counter>` and initialises the benchmark for n elements.
2. If verification is on, runs the benchmark once untimed and checks it.
3. Decides how many timed repetitions to run. This is either the fixed count, or the target time divided by the fastest warmup repetition, as rank 0 broadcasts it.
4. Clears the samples and times that many repetitions.
5. Prints one row (rank 0 only) and joins the barrier.

A failed `GLOO_ENFORCE` ends the process. Every method of the model except the constructor therefore requires a running process, one whose trace holds no abort yet, and an abort is always the last event of a run (`Lifecycle.RunAbortLast`).

## How the model is built

- **State.** `SizePoint.State` holds the runner's mutable state: the prefix counter, the current samples, and a *trace*. The trace is a sequence of `Events.Event` values, one for everything another rank or the console could observe:
  - context connects;
  - benchmark initialisation and runs;
  - warmup and timed repetitions with their Timer readings;
  - broadcasts, printed lines, barriers;
  - the fatal error, recorded as `Abort(reason)`. Nothing follows it: no method runs on an aborted runner, and a run records nothing after its abort.
- **Pure functions.** `StartState`, `PointStep`, `HeaderStep`, `SweepStep` and `RunStep` give the state each phase of the source leaves. They are written as functions of the options, the outside world and the previous state.
- **The class.** `Driver.Runner` is a class with the source's counter and samples, the namespaces of the two coordination contexts, and an event trace. Its constructor and methods change those fields step by step, with the source's loops. Each one is proved to leave exactly the state the matching function describes. The constructor establishes the invariant `Valid()`. Every other method requires `Valid()` and a running process and keeps `Valid()`; all of them except `RunSize`, `RunDecade`, `RunSweep` and `Run`, which can abort, also keep the process running.
- **Lemmas.** The properties of the runner are lemmas about those functions.
- **Projections.** `Events.Project` picks one kind of event out of a trace: names, sizes, warmup readings, timed readings, broadcasts, printed lines, barriers or aborts. Orderings and counts are stated with it.

The outside world is a value `Config.Env` of functions, not code:

- the result of `verify()` at each size;
- the Timer reading of each warmup and timed repetition;
- `Distribution::min` and `Distribution::percentile`;
- the value rank 0 broadcasts.

The device libraries the binary was built with (`BENCHMARK_TCP`, `BENCHMARK_IBVERBS`) are a `Config.Build` value.

### Notes on the code's behaviour

- **Division by zero.** When the agreed warmup minimum is 0, `iterationTimeNanos / nanos` divides by zero. That is undefined in C++; it is modelled as a fatal error, `DivisionByZero`.
- **Header labels.** The header labels the fourth and fifth value columns "p99 (us)" and "max (us)". The row prints the 90th and 99th percentiles there, and no maximum at all. `Reporting.ColumnContents` states this as the code does it.
- **Number of contexts.** A run with a fixed element count connects three contexts: the broadcast context, the barrier context and the size point's own. `Lifecycle.FixedCountScenario` states this.

## Model

| member | source | states |
|---|---|---|
| Config.ResolveDevice | gloo/benchmark/runner.cc:34-50 | a device exists exactly when the transport is "tcp" and TCP support is built in, or "ibverbs" and ibverbs support is built in; the device matches the transport |
| Naming.Decimal | gloo/benchmark/runner.cc:62 | the counter is written as a non-empty string of decimal digits without a leading zero |
| Naming.DecimalRoundTrip | gloo/benchmark/runner.cc:62 | reading the decimal numeral of a counter back gives the counter |
| Naming.DecimalInjective | gloo/benchmark/runner.cc:62 | two counters have the same numeral exactly when they are equal |
| Naming.ContextName | gloo/benchmark/runner.cc:61-62 | defines the namespace `<prefix>-<counter>`; `Naming.ContextNameInjective` and `Naming.NamesFromDistinct` characterise it |
| Naming.ContextNameInjective | gloo/benchmark/runner.cc:61-62 | with one prefix, two namespaces `<prefix>-<counter>` are equal exactly when their counters are |
| Naming.NamesFromDistinct | gloo/benchmark/runner.cc:60-62 | N successive calls produce N pairwise-distinct namespaces |
| Naming.NextNameIsFresh | gloo/benchmark/runner.cc:60-62 | the next namespace differs from every earlier one, and handing it out extends the list of names by exactly it |
| Naming.NamesFromSplit | gloo/benchmark/runner.cc:60-62 | the first a + b namespaces are the first a followed by the b after them |
| Sizing.Broadcast | gloo/benchmark/runner.cc:117 | rank 0 keeps its own warmup minimum; every other rank receives rank 0's value |
| Sizing.AgreedMinimum | gloo/benchmark/runner.cc:108-117 | defines the value this rank ends the broadcast with: the broadcast of the minimum of its warmup readings; `Sizing.Broadcast` and `Sizing.RanksAgree` characterise it |
| Sizing.IterationCount | gloo/benchmark/runner.cc:104-118 | a positive fixed count is used as is; otherwise a non-positive target time is fatal; otherwise a zero agreed minimum is a division by zero, and any other minimum gives a count |
| Sizing.IterationCountIsFloor | gloo/benchmark/runner.cc:118 | with adaptive sizing and a nonzero agreed minimum b, the count is the k with k*b <= target < (k+1)*b |
| Sizing.Iterations | gloo/benchmark/runner.cc:104-118 | defines the count a size point settles on, from this rank's warmup readings and rank 0's broadcast; its cases are those of `Sizing.IterationCount`, and `Driver.Runner.ChooseIterations` is proved to return it |
| Sizing.WarmupCount | gloo/benchmark/runner.cc:109 | the warmup loop runs warmupIterationCount times, and not at all exactly when that is not positive |
| Sizing.WarmupSamples | gloo/benchmark/runner.cc:108-113 | the warmup distribution holds one Timer reading per warmup repetition, the i-th being the i-th reading |
| Sizing.TimedSamples | gloo/benchmark/runner.cc:122-127 | after k timed repetitions the samples are exactly k readings, the i-th being the i-th Timer reading |
| Sizing.SizingEvents | gloo/benchmark/runner.cc:105-118 | adaptive sizing runs every warmup repetition and then one broadcast of the agreed minimum; fixed sizing adds no event |
| Sizing.RanksAgree | gloo/benchmark/runner.cc:115-118 | a rank other than 0, given the same sizing options and rank 0's warmup minimum by the broadcast, ends the broadcast with rank 0's value and settles on rank 0's count, the target time divided by rank 0's minimum |
| Sizing.ZeroIterationsAllowed | gloo/benchmark/runner.cc:118-127 | with a positive agreed minimum, an adaptive count is 0, which is not an error, exactly when the target time is below the agreed minimum |
| Reporting.HeaderLabels | gloo/benchmark/runner.cc:136-143 | the header has six labels, no two alike |
| Reporting.ReportRow | gloo/benchmark/runner.cc:145-155 | a row has one value per header label: the element count first, the sample count last, and non-negative microsecond values between |
| Reporting.HeaderEvents | gloo/benchmark/runner.cc:136-143 | defines what printHeader records: the header line on rank 0, nothing elsewhere (line 137); `Lifecycle.HeaderStep` characterises it |
| Reporting.ReportEvents | gloo/benchmark/runner.cc:145-155 | defines what printDistribution records: one row on rank 0, nothing elsewhere (line 146); `SizePoint.ProjectPointPrints` characterises it |
| Reporting.ColumnContents | gloo/benchmark/runner.cc:136-155 | the row has one value per label; under "elements" is the size, under "min (us)" and "p50 (us)" the 0th and 50th percentiles, under "p99 (us)" the 90th percentile, under "max (us)" the 99th, all divided by 1000, and under "samples" the sample count |
| SizePoint.Outcome | gloo/benchmark/runner.cc:98-118 | defines how a size point ends: `VerificationFailed` when verify() fails, otherwise the count or the fatal error of `Sizing.Iterations`; `SizePoint.PointLive`, `SizePoint.ProjectPointAborts` and `SizePoint.VerificationFailureStops` characterise it |
| SizePoint.PointEvents | gloo/benchmark/runner.cc:92-134 | a size point starts with the connect under the current counter and the initialisation for n, and ends with the barrier when it completes or with its fatal error when it fails |
| SizePoint.PointStep | gloo/benchmark/runner.cc:92-134 | a size point takes one counter value and only appends to the trace; a completed point holds as many samples as it settled on, and a failed one leaves the samples untouched |
| SizePoint.ProjectPointNames | gloo/benchmark/runner.cc:92-93 | a size point connects exactly one context, named after the current counter |
| SizePoint.ProjectPointSizes | gloo/benchmark/runner.cc:94-95 | a size point initialises exactly one benchmark instance, for its n |
| SizePoint.ProjectPointAborts | gloo/benchmark/runner.cc:98-118 | a size point records its fatal error exactly once when it fails and no abort when it completes |
| SizePoint.ProjectPointPrints | gloo/benchmark/runner.cc:129 | a size point prints exactly one row, made from its samples, when it completes on rank 0, and nothing otherwise |
| SizePoint.ProjectPointBarriers | gloo/benchmark/runner.cc:131-133 | a size point joins the barrier once when it completes and never when it aborts |
| SizePoint.ProjectPointWarmup | gloo/benchmark/runner.cc:105-113 | the warmup readings are all warmupIterationCount Timer readings when sizing is adaptive and verification passed, and none otherwise |
| SizePoint.ProjectPointTimed | gloo/benchmark/runner.cc:121-127 | the timed readings of a size point that settles on k repetitions are exactly its first k Timer readings, and there are none when it fails |
| SizePoint.ProjectPointBroadcasts | gloo/benchmark/runner.cc:115-117 | a size point broadcasts once, the agreed minimum, when sizing is adaptive and verification passed, and never otherwise |
| SizePoint.ProjectPointRuns | gloo/benchmark/runner.cc:104-127 | the warmup readings, the single broadcast value (adaptive sizing only) and the timed readings of a size point |
| SizePoint.PointKeepsInv | gloo/benchmark/runner.cc:60-62 | a size point keeps the invariant: the contexts are named with counters 0, 1, … up to the counter, in order, and only rank 0 prints (the rank tests at lines 137 and 146) |
| SizePoint.PointLive | gloo/benchmark/runner.cc:92-134 | a running process is still running after a size point exactly when the point completes |
| SizePoint.PointStartsWithVerification | gloo/benchmark/runner.cc:93-101 | with verification on, the first three events of a size point are the connect under the current counter, the initialisation for n, and the verification run with verify()'s result |
| SizePoint.VerificationFailureStops | gloo/benchmark/runner.cc:98-101 | a failed verification aborts straight after the untimed run: no warmup, broadcast, timed repetition, row or barrier, and the samples are untouched |
| SizePoint.FixedIterationCount | gloo/benchmark/runner.cc:104-105 | when verification passes, with a fixed count k > 0 there is no warmup and no broadcast, exactly k timed repetitions, and no abort |
| SizePoint.AdaptiveIterationCount | gloo/benchmark/runner.cc:105-119 | when verification passes and the agreed minimum is positive, without a fixed count and with a positive target time, all the warmup repetitions run, one broadcast carries the agreed minimum, and the number of timed repetitions is the target time divided by it |
| SizePoint.NonPositiveTimeAborts | gloo/benchmark/runner.cc:104-106 | when verification passes and there is no fixed count, a non-positive target time aborts before any warmup or timed repetition |
| SizePoint.CompletedPointEnds | gloo/benchmark/runner.cc:122-133 | a completed size point ends with the barrier, after the row on rank 0; the row's sample count is the number of timed repetitions and of samples held afterwards |
| SizePoint.PointAbortLast | gloo/benchmark/runner.cc:92-134 | from a running process, a size point records no event after an abort |
| SizePoint.SizingBeforeTimed | gloo/benchmark/runner.cc:105-127 | in a size point every warmup repetition and the broadcast come before every timed repetition |
| Lifecycle.StartState | gloo/benchmark/runner.cc:33-58 | an unknown transport aborts with no context connected and no samples; otherwise the broadcast and barrier contexts are connected under counters 0 and 1, and the counter is 2 |
| Lifecycle.StartKeepsInv | gloo/benchmark/runner.cc:33-58 | the constructor leaves the invariant, and the process running exactly when a device was found |
| Lifecycle.SweepFrom | gloo/benchmark/runner.cc:84-85 | from magnitude i the sweep has three sizes per power of ten, all between i and 5000000, and none once i exceeds 1000000 |
| Lifecycle.SweepSizes | gloo/benchmark/runner.cc:84-89 | the sweep visits exactly 1, 2, 5, 10, 20, 50, …, 1000000, 2000000, 5000000, in that order |
| Lifecycle.SweepSizesAscendInt32 | gloo/benchmark/runner.cc:84-85 | the 21 sweep sizes strictly ascend and each is a positive value of a 32-bit int |
| Lifecycle.HeaderStep | gloo/benchmark/runner.cc:136-143 | printing the header keeps the counter and the samples and appends exactly the header line on rank 0, and nothing on other ranks |
| Lifecycle.HeaderKeepsInv | gloo/benchmark/runner.cc:136-143 | printing the header keeps the invariant and adds no context and no size |
| Lifecycle.HeaderLive | gloo/benchmark/runner.cc:136-143 | printing the header neither aborts nor undoes an abort |
| Lifecycle.Sweep | gloo/benchmark/runner.cc:84-89 | defines a sweep of generic steps over a list of sizes, up to and including the first size that stops it; `Lifecycle.SweepCounts`, `Lifecycle.SweepLiveIff`, `Lifecycle.SweepPrefix` and `Lifecycle.SweepAdvance` characterise it |
| Lifecycle.SweepCounts | gloo/benchmark/runner.cc:84-89 | a sweep of steps that each take one counter value and record their size, none of which stops it, takes one counter value per size and records the sizes in order |
| Lifecycle.SweepKeeps | gloo/benchmark/runner.cc:84-89 | a sweep of invariant-keeping steps keeps the invariant |
| Lifecycle.SweepLiveIff | gloo/benchmark/runner.cc:84-89 | a sweep leaves a running process running exactly when none of its sizes stops it |
| Lifecycle.SweepPrefix | gloo/benchmark/runner.cc:84-89 | the sizes a sweep starts extend the earlier ones by a prefix of its list |
| Lifecycle.PointStepAdds | gloo/benchmark/runner.cc:92-95 | a size point takes one counter value and adds its size and its context name to the trace |
| Lifecycle.SweepStep | gloo/benchmark/runner.cc:84-89 | defines the runner's sweep: size points, one per size, up to and including the first that aborts; `Lifecycle.SweepKeepsInv`, `Lifecycle.SweepLive` and `Lifecycle.SweepRunsSizes` characterise it |
| Lifecycle.SweepKeepsInv | gloo/benchmark/runner.cc:84-89 | the sweep keeps the runner invariant |
| Lifecycle.SweepLive | gloo/benchmark/runner.cc:84-89 | the sweep leaves the process running exactly when every size point completes |
| Lifecycle.SweepRunsSizes | gloo/benchmark/runner.cc:84-89 | a sweep that completes runs every size in order and takes one counter value per size |
| Lifecycle.SweepNames | gloo/benchmark/runner.cc:84-93 | under the invariant, a sweep that completes names its k-th context after the counter it started with plus k |
| Lifecycle.SweepSizesPrefix | gloo/benchmark/runner.cc:84-89 | the sizes a sweep starts, aborted or not, are a prefix of its list, in order |
| Lifecycle.SweepAdvance | gloo/benchmark/runner.cc:86-88 | at position k of a list the sweep either stops after that size point, when it aborts, or goes on with the next position |
| Lifecycle.SweepExtends | gloo/benchmark/runner.cc:84-89 | a sweep of steps that each take a counter value and only append to the trace takes one more value per point and only appends |
| Lifecycle.SweepAbortLast | gloo/benchmark/runner.cc:84-89 | a sweep of steps that stop at their abort, started from a running process, records no event after an abort |
| Lifecycle.RunStep | gloo/benchmark/runner.cc:75-90 | run(fn) takes at least one counter value and only appends to the trace |
| Lifecycle.RunAbortLast | gloo/benchmark/runner.cc:75-90 | from a running process, an abort can only be the last event of run(fn) |
| Lifecycle.RunKeepsInv | gloo/benchmark/runner.cc:75-90 | run(fn) keeps the runner invariant |
| Lifecycle.RunSizes | gloo/benchmark/runner.cc:75-90 | from a running process under the invariant, a run that completes runs the configured size alone when it is positive, and otherwise exactly the 21 sweep sizes, taking one counter value each |
| Lifecycle.NamesNeverRepeat | gloo/benchmark/runner.cc:60-62 | under the invariant, no two contexts the runner has connected share a namespace |
| Lifecycle.SizePointCounters | gloo/benchmark/runner.cc:52-57 | from a fresh runner whose transport has a device and with no fixed element count, the broadcast and barrier contexts take counters 0 and 1, and a completed sweep's 21 size points take counters 2 to 22 |
| Lifecycle.StartHeaderRuns | gloo/benchmark/runner.cc:76 | when the transport has a device, before the first size point rank 0 has run no repetition or broadcast and printed only the header |
| Lifecycle.SingleSizeTrace | gloo/benchmark/runner.cc:75-81 | when the transport has a device, with a positive element count, run(fn) is the start, the header and that one size point under counter 2, and leaves the counter at 3 |
| Lifecycle.SingleSizeNames | gloo/benchmark/runner.cc:75-81 | when the transport has a device, with a positive element count, the run connects three contexts, under counters 0, 1 and 2 |
| Lifecycle.FixedCountRuns | gloo/benchmark/runner.cc:104-127 | in the fixed-count scenario there is no warmup and no broadcast, and the timed readings are the first 100 Timer readings at 1000 elements |
| Lifecycle.FixedCountRow | gloo/benchmark/runner.cc:129 | in the fixed-count scenario the size point prints one row, for 1000 elements and its 100 samples |
| Lifecycle.FixedCountPrints | gloo/benchmark/runner.cc:136-155 | in the fixed-count scenario rank 0 prints the header and then that one row |
| Lifecycle.FixedCountScenario | gloo/benchmark/runner.cc:75-81 | rank 0 with a device, 1000 elements, a fixed count of 100 and no verification connects three contexts, skips warmup and broadcast, times 100 repetitions, and prints the header and one row with 1000 elements and 100 samples |
| Driver.Runner.constructor | gloo/benchmark/runner.cc:33-58 | the device comes from the transport; with none the runner aborts, otherwise it connects the broadcast context (counter 0) and then the barrier context (counter 1) |
| Driver.Runner.NewContext | gloo/benchmark/runner.cc:60-73 | on a running process, returns `<prefix>-<counter>`, a name no earlier context had, increments the counter and records the connect |
| Driver.Runner.PrintHeader | gloo/benchmark/runner.cc:136-143 | on a running process, appends the header, on rank 0 only, and keeps the invariant and the process running |
| Driver.Runner.PrintDistribution | gloo/benchmark/runner.cc:145-155 | on a running process, appends one row for the current samples, on rank 0 only, and keeps the invariant and the process running |
| Driver.Runner.VerifyFirstRun | gloo/benchmark/runner.cc:97-101 | on a running process, with verification on, records one untimed run and reports whether verify() passed; with it off, does nothing and passes; keeps the invariant and the process running |
| Driver.Runner.ChooseIterations | gloo/benchmark/runner.cc:103-119 | on a running process, runs the warmup loop and the broadcast when sizing is adaptive and returns the count or the fatal error IterationCount gives; keeps the invariant and the process running |
| Driver.Runner.TimedRepetitions | gloo/benchmark/runner.cc:121-127 | on a running process, clears the samples, then holds exactly the Timer readings of the requested number of repetitions, recorded in order; keeps the invariant and the process running |
| Driver.Runner.CompletePoint | gloo/benchmark/runner.cc:121-133 | on a running process, holds exactly the k timed readings and appends the timed repetitions, the row of those samples on rank 0 and the barrier; keeps the invariant and the process running |
| Driver.Runner.RunSize | gloo/benchmark/runner.cc:92-134 | on a running process, leaves exactly the state PointStep describes, keeps the invariant, and reports whether the size point completed |
| Driver.Runner.RunSweep | gloo/benchmark/runner.cc:83-89 | on a running process, leaves exactly the state the sweep over the 21 sizes describes, stopping at the first abort, and keeps the invariant |
| Driver.Runner.RunDecade | gloo/benchmark/runner.cc:85-88 | on a running process, runs the sizes i, 2i and 5i of one power of ten and reports whether all completed; the sweep goes on from the new state exactly when they did |
| Driver.Runner.Run | gloo/benchmark/runner.cc:75-90 | on a running process, leaves exactly the state RunStep describes (the header, then one size point or the sweep up to its first abort) and keeps the invariant |

## Left out

- Device creation (runner.cc:34-49) is reduced to whether the transport's library was built in. The ibverbs device name, port and index, and the TCP attributes, are not modelled.
- Connecting a context (runner.cc:64-71) is one `ContextCreated` event carrying the namespace. That covers the Redis store, the prefix store and `connectFullMesh`, and their failures, which are coordination errors outside this file. Likewise `benchmark->initialize(n)`, `benchmark->run()`, `broadcast_->run()` and `barrier_->run()` (runner.cc:95, 99, 111, 117, 125, 133) always succeed in the model; their failures are not modelled.
- The broadcast and barrier algorithms are single events. What the broadcast delivers to a rank other than 0 is an input, so agreement between ranks is stated over two models (`Sizing.RanksAgree`), not over a distributed execution.
- The benchmark factory and the benchmark's `run()` are events. The outcome of `verify()` is an input.
- `Timer`, `Distribution::min` and `Distribution::percentile` are inputs. The monotonicity of percentiles is a property of the statistics helper, which is not part of this model.
- Output formatting: the stream field widths (`std::setw(11)`) and line endings. Printed values are modelled as integers.
- Object lifetimes and ownership (the shared and unique pointers) are not modelled.
- Driver.Runner.NewContext: the counter is unbounded, so the overflow of the C++ `int` counter after 2^31−1 contexts (undefined behaviour in C++) is not modelled.
- Sizing.IterationCount: the quotient is computed as `long` and stored in an `int`; that narrowing is not modelled, because the count is unbounded here.
- A failed `GLOO_ENFORCE` is an `Abort` event carrying the reason; the text of its diagnostic message is not modelled.

