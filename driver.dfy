/**
 * The Runner object itself. Its methods change the prefix counter, the samples
 * and the trace of observable events step by step, and each one is proved to
 * leave exactly the state the corresponding function of the specification
 * modules describes.
 */
module Driver {
  import opened Config
  import opened Events
  import opened Naming
  import opened Sizing
  import opened Reporting
  import opened SizePoint
  import opened Lifecycle

  class Runner {
    const options: Options
    const device: Option<Transport>
    /** The namespaces of the broadcast and the barrier contexts. */
    var broadcastContext: string
    var barrierContext: string
    var prefixCounter: nat
    var samples: seq<nat>
    /** Everything the runner has done that another rank or the console can observe. */
    var trace: seq<Event>

    function Snapshot(): State
      reads this
    {
      State(prefixCounter, samples, trace)
    }

    predicate Valid()
      reads this
    {
      Inv(options, Snapshot())
    }

    /**
     * Picks the device for the configured transport and aborts when none was
     * built in; otherwise connects the broadcast context and then the barrier
     * context.
     */
    constructor (options: Options, build: Build)
      ensures this.options == options
      ensures device == ResolveDevice(options.transport, build)
      ensures Snapshot() == StartState(options, build)
      ensures device.Some? ==>
        broadcastContext == ContextName(options.prefix, 0) && barrierContext == ContextName(options.prefix, 1)
      ensures Valid()
    {
      this.options := options;
      device := ResolveDevice(options.transport, build);
      broadcastContext, barrierContext := "", "";
      prefixCounter := 0;
      samples := [];
      trace := [];
      new;
      assert NamesFrom(options.prefix, 0, 0) == [];
      if device.None? {
        trace := trace + [Abort(UnknownTransport(options.transport))];
      } else {
        broadcastContext := NewContext();
        barrierContext := NewContext();
      }
      StartKeepsInv(options, build);
    }

    /** Connects a context under the next name `<prefix>-<counter>` and advances the counter. */
    method NewContext() returns (name: string)
      requires Valid() && Live(Snapshot())
      modifies this`prefixCounter, this`trace
      ensures name == ContextName(options.prefix, old(prefixCounter))
      ensures name !in old(Project(trace, NameOf))
      ensures prefixCounter == old(prefixCounter) + 1
      ensures trace == old(trace) + [ContextCreated(name)]
      ensures Valid() && Live(Snapshot())
    {
      name := ContextName(options.prefix, prefixCounter);
      NextNameIsFresh(options.prefix, prefixCounter);
      ProjectAppend(trace, [ContextCreated(name)], NameOf);
      ProjectAppend(trace, [ContextCreated(name)], PrintOf);
      ProjectOne(ContextCreated(name), NameOf);
      ProjectOne(ContextCreated(name), PrintOf);
      prefixCounter := prefixCounter + 1;
      trace := trace + [ContextCreated(name)];
    }

    /** Rank 0 prints the column labels. */
    method PrintHeader()
      requires Valid() && Live(Snapshot())
      modifies this`trace
      ensures Snapshot() == HeaderStep(options, old(Snapshot()))
      ensures Valid() && Live(Snapshot())
    {
      AppendQuiet(options, Snapshot(), HeaderEvents(options), samples);
      trace := trace + HeaderEvents(options);
    }

    /** Rank 0 prints one row for size point `elements` from the current samples. */
    method PrintDistribution(env: Env, elements: int)
      requires Valid() && Live(Snapshot())
      modifies this`trace
      ensures trace == old(trace) + ReportEvents(options, elements, samples, env.percentile)
      ensures Valid() && Live(Snapshot())
    {
      AppendQuiet(options, Snapshot(), ReportEvents(options, elements, samples, env.percentile), samples);
      trace := trace + ReportEvents(options, elements, samples, env.percentile);
    }

    /**
     * One size point: a new context, the optional verification run, the
     * iteration count, the timed loop, the report and the barrier. The result
     * says whether the point completed; when it is false a GLOO_ENFORCE has
     * failed and the trace ends with the abort.
     */
    method RunSize(env: Env, n: int) returns (ok: bool)
      requires Valid() && Live(Snapshot())
      modifies this`prefixCounter, this`samples, this`trace
      ensures Snapshot() == PointStep(options, env, old(Snapshot()), n)
      ensures ok <==> Outcome(options, env, n).Ok?
      ensures Valid()
    {
      ghost var st := Snapshot();
      ghost var setup, check := SetupEvents(options, st.counter, n), VerifyEvents(options, env, n);
      ghost var sizing, finish := SizingPart(options, env, n), FinishEvents(options, env, n);
      PointKeepsInv(options, env, st, n);
      var name := NewContext();
      AppendQuiet(options, Snapshot(), [Initialized(n)], samples);
      trace := trace + [Initialized(n)];
      assert trace == st.trace + setup;

      var passed := VerifyFirstRun(env, n);
      if !passed {
        trace := trace + [Abort(VerificationFailed)];
        assert sizing == [] && finish == [Abort(VerificationFailed)];
        PointStepFrom(options, env, st, n, trace, samples);
        return false;
      }
      ghost var t1 := trace;
      assert t1 == st.trace + setup + check;
      assert !VerifyFails(options, env, n);
      assert sizing == SizingEvents(options, env, n);

      var iterations := ChooseIterations(env, n);
      if iterations.Err? {
        trace := trace + [Abort(iterations.error)];
        assert finish == [Abort(iterations.error)];
        PointStepFrom(options, env, st, n, trace, samples);
        return false;
      }
      ghost var t2 := trace;
      CompletePoint(env, n, iterations.value);
      FinishAfter(options, env, n, iterations.value, t2);
      PointStepFrom(options, env, st, n, trace, samples);
      ok := true;
    }

    /** The end of a size point that settled on k repetitions: the timed loop, the report and the barrier. */
    method CompletePoint(env: Env, n: int, k: nat)
      requires Valid() && Live(Snapshot())
      modifies this`samples, this`trace
      ensures samples == TimedSamples(env, n, k)
      ensures trace == old(trace) + Repetitions(Timed, samples) + ReportEvents(options, n, samples, env.percentile) + [BarrierRun]
      ensures Valid() && Live(Snapshot())
    {
      ghost var t0 := trace;
      TimedRepetitions(env, n, k);
      ghost var timed := Repetitions(Timed, samples);
      PrintDistribution(env, n);
      ghost var report := ReportEvents(options, n, samples, env.percentile);
      AppendQuiet(options, Snapshot(), [BarrierRun], samples);
      trace := trace + [BarrierRun];
      assert trace == t0 + timed + report + [BarrierRun];
    }

    /** With verification on, one untimed run and its check; the result says whether it passed. */
    method VerifyFirstRun(env: Env, n: int) returns (passed: bool)
      requires Valid() && Live(Snapshot())
      modifies this`trace
      ensures passed <==> !VerifyFails(options, env, n)
      ensures trace == old(trace) + VerifyEvents(options, env, n)
      ensures Valid() && Live(Snapshot())
    {
      passed := true;
      if options.verify {
        passed := env.verifies(n);
        AppendQuiet(options, Snapshot(), [VerifyRun(passed)], samples);
        trace := trace + [VerifyRun(passed)];
      }
    }

    /**
     * How many timed repetitions to run: the configured count, or the target
     * time over the fastest warmup repetition as rank 0 broadcasts it.
     */
    method ChooseIterations(env: Env, n: int) returns (r: Result<nat>)
      requires Valid() && Live(Snapshot())
      modifies this`trace
      ensures r == Iterations(options, env, n)
      ensures trace == old(trace) + SizingEvents(options, env, n)
      ensures Valid() && Live(Snapshot())
    {
      if 0 < options.iterationCount {
        return Ok(options.iterationCount);
      }
      if options.iterationTimeNanos <= 0 {
        return Err(NonPositiveIterationTime);
      }
      ghost var st := Snapshot();
      var warmup: seq<nat> := [];
      var i := 0;
      while i < options.warmupIterationCount
        invariant 0 <= i <= WarmupCount(options)
        invariant warmup == WarmupSamples(options, env, n)[..i]
        invariant trace == old(trace) + Repetitions(Warmup, warmup)
      {
        var dt := env.warmupNanos(n, i);
        RepetitionsSnoc(Warmup, warmup, dt);
        warmup := warmup + [dt];
        trace := trace + [Repetition(Warmup, dt)];
        i := i + 1;
      }
      assert warmup == WarmupSamples(options, env, n);
      var nanos := Broadcast(options.contextRank, env.minimum(warmup), env.rootMinimum(n));
      AppendQuiet(options, st, Repetitions(Warmup, warmup) + [BroadcastRun(nanos)], samples);
      trace := trace + [BroadcastRun(nanos)];
      if nanos == 0 {
        return Err(DivisionByZero);
      }
      return Ok(options.iterationTimeNanos / nanos);
    }

    /** Clears the samples, then runs and times `iterations` repetitions, keeping each reading. */
    method TimedRepetitions(env: Env, n: int, iterations: nat)
      requires Valid() && Live(Snapshot())
      modifies this`samples, this`trace
      ensures samples == TimedSamples(env, n, iterations)
      ensures trace == old(trace) + Repetitions(Timed, samples)
      ensures Valid() && Live(Snapshot())
    {
      ghost var st := Snapshot();
      samples := [];
      var k := 0;
      while k < iterations
        invariant 0 <= k <= iterations
        invariant samples == TimedSamples(env, n, k)
        invariant trace == old(trace) + Repetitions(Timed, samples)
      {
        var dt := env.timedNanos(n, k);
        RepetitionsSnoc(Timed, samples, dt);
        samples := samples + [dt];
        trace := trace + [Repetition(Timed, dt)];
        k := k + 1;
      }
      AppendQuiet(options, st, Repetitions(Timed, samples), samples);
    }

    /**
     * run(fn): the header, then the configured size alone or the sweep over
     * 1, 2, 5, 10, ..., 5000000 elements, which stops at the first size point
     * that aborts.
     */
    method Run(env: Env)
      requires Valid() && Live(Snapshot())
      modifies this`prefixCounter, this`samples, this`trace
      ensures Snapshot() == RunStep(options, env, old(Snapshot()))
      ensures Valid()
    {
      PrintHeader();
      if 0 < options.elements {
        var _ := RunSize(env, options.elements);
      } else {
        RunSweep(env);
      }
    }

    /** The sweep: for each magnitude i = 1, 10, ..., 1000000 the sizes i, 2i and 5i, up to the first abort. */
    method RunSweep(env: Env)
      requires Valid() && Live(Snapshot())
      modifies this`prefixCounter, this`samples, this`trace
      ensures Snapshot() == SweepStep(options, env, old(Snapshot()), SweepFrom(1))
      ensures Valid()
    {
      ghost var goal := SweepStep(options, env, Snapshot(), SweepFrom(1));
      var i := 1;
      while i <= 1000000
        invariant i in {1, 10, 100, 1000, 10000, 100000, 1000000, 10000000}
        invariant Valid() && Live(Snapshot())
        invariant goal == SweepStep(options, env, Snapshot(), SweepFrom(i))
        decreases 10000000 - i
      {
        assert i * 10 <= Int32Max;
        assert SweepFrom(i) == [i * 1, i * 2, i * 5] + SweepFrom(i * 10);
        var ok := RunDecade(env, i, SweepFrom(i * 10));
        if !ok {
          return;
        }
        i := i * 10;
      }
    }

    /**
     * The size points i, 2i and 5i of one magnitude, in order, up to the first
     * abort; the result says whether all three completed. `rest` stands for the
     * sizes the sweep has left after them.
     */
    method RunDecade(env: Env, i: int, ghost rest: seq<int>) returns (ok: bool)
      requires Valid() && Live(Snapshot())
      modifies this`prefixCounter, this`samples, this`trace
      ensures Valid()
      ensures ok ==> Live(Snapshot())
      ensures SweepStep(options, env, old(Snapshot()), [i * 1, i * 2, i * 5] + rest)
           == if ok then SweepStep(options, env, Snapshot(), rest) else Snapshot()
    {
      ghost var goal := SweepStep(options, env, Snapshot(), [i * 1, i * 2, i * 5] + rest);
      var js := [i * 1, i * 2, i * 5];
      var k := 0;
      while k < |js|
        invariant 0 <= k <= |js|
        invariant Valid() && Live(Snapshot())
        invariant goal == SweepStep(options, env, Snapshot(), js[k..] + rest)
      {
        SweepAdvance(options, env, Snapshot(), js, k, rest);
        PointLive(options, env, Snapshot(), js[k]);
        ok := RunSize(env, js[k]);
        if !ok {
          return;
        }
        k := k + 1;
      }
      assert js[3..] + rest == rest;
      ok := true;
    }
  }
}
