/**
 * One size point, `run(fn, n)`: a fresh context and benchmark instance, the
 * optional verification run, iteration sizing, the timed loop, the report on
 * rank 0 and the closing barrier.
 */
module SizePoint {
  import opened Config
  import opened Events
  import opened Naming
  import opened Sizing
  import opened Reporting

  /** The runner's mutable state: the prefix counter, the samples, and the trace so far. */
  datatype State = State(counter: nat, samples: seq<nat>, trace: seq<Event>)

  /** No GLOO_ENFORCE has failed yet, so the process is still running. */
  predicate Live(st: State)
  {
    forall i :: 0 <= i < |st.trace| ==> !st.trace[i].Abort?
  }

  /**
   * What the runner keeps true: the contexts in the trace were named with
   * counter values 0, 1, ... up to the current counter, in that order, and
   * only rank 0 has printed anything.
   */
  predicate Inv(o: Options, st: State)
  {
    && Project(st.trace, NameOf) == NamesFrom(o.prefix, 0, st.counter)
    && (o.contextRank != 0 ==> Project(st.trace, PrintOf) == [])
  }

  /** An event that connects no context, is no abort, and is printed by rank 0 only. */
  predicate QuietEvent(o: Options, e: Event)
  {
    !e.ContextCreated? && !e.Abort? && (o.contextRank != 0 ==> !e.Print?)
  }

  predicate Quiet(o: Options, t: seq<Event>)
  {
    forall i :: 0 <= i < |t| ==> QuietEvent(o, t[i])
  }

  lemma {:induction false} QuietProject(o: Options, t: seq<Event>)
    requires Quiet(o, t)
    ensures Project(t, NameOf) == [] && Project(t, AbortOf) == []
    ensures o.contextRank != 0 ==> Project(t, PrintOf) == []
  {
    if t != [] {
      assert QuietEvent(o, t[0]);
      assert Quiet(o, t[1..]) by {
        assert forall i :: 0 <= i < |t[1..]| ==> t[1..][i] == t[i + 1];
      }
      QuietProject(o, t[1..]);
    }
  }

  /** Quiet events keep the invariant and keep a running process running, whatever the samples become. */
  lemma AppendQuiet(o: Options, st: State, t: seq<Event>, samples: seq<nat>)
    requires Inv(o, st) && Live(st) && Quiet(o, t)
    ensures Inv(o, State(st.counter, samples, st.trace + t))
    ensures Live(State(st.counter, samples, st.trace + t))
  {
    QuietProject(o, t);
    ProjectAppend(st.trace, t, NameOf);
    ProjectAppend(st.trace, t, PrintOf);
    ProjectAppend(st.trace, t, AbortOf);
    NoAbortProject(st.trace);
    NoAbortProject(st.trace + t);
  }

  /** The verification step fails when it is enabled and verify() returns false. */
  predicate VerifyFails(o: Options, env: Env, n: int)
  {
    o.verify && !env.verifies(n)
  }

  /** How the size point ends: Ok(k) after k timed repetitions, or the fatal error that stops it. */
  function Outcome(o: Options, env: Env, n: int): Result<nat>
  {
    if VerifyFails(o, env, n) then Err(VerificationFailed) else Iterations(o, env, n)
  }

  function SetupEvents(o: Options, counter: nat, n: int): seq<Event>
  {
    [ContextCreated(ContextName(o.prefix, counter)), Initialized(n)]
  }

  function VerifyEvents(o: Options, env: Env, n: int): seq<Event>
  {
    if o.verify then [VerifyRun(env.verifies(n))] else []
  }

  /** Sizing runs only once verification has passed. */
  function SizingPart(o: Options, env: Env, n: int): seq<Event>
  {
    if VerifyFails(o, env, n) then [] else SizingEvents(o, env, n)
  }

  /** The timed loop, the report and the barrier, or the abort. */
  function FinishEvents(o: Options, env: Env, n: int): seq<Event>
  {
    match Outcome(o, env, n)
    case Err(f) => [Abort(f)]
    case Ok(k) =>
      Repetitions(Timed, TimedSamples(env, n, k))
      + ReportEvents(o, n, TimedSamples(env, n, k), env.percentile)
      + [BarrierRun]
  }

  /** A size point that completes with k repetitions ends with them, the report and the barrier, after any trace t. */
  lemma FinishAfter(o: Options, env: Env, n: int, k: nat, t: seq<Event>)
    requires Outcome(o, env, n) == Ok(k)
    ensures t + Repetitions(Timed, TimedSamples(env, n, k)) + ReportEvents(o, n, TimedSamples(env, n, k), env.percentile)
              + [BarrierRun]
         == t + FinishEvents(o, env, n)
  {
    var timed := Repetitions(Timed, TimedSamples(env, n, k));
    var report := ReportEvents(o, n, TimedSamples(env, n, k), env.percentile);
    assert t + timed + report + [BarrierRun] == t + (timed + report + [BarrierRun]);
  }

  /**
   * The events of one size point whose context gets counter value `counter`:
   * it starts by connecting that context and initialising the benchmark, and
   * ends with the barrier or with the fatal error.
   */
  function PointEvents(o: Options, env: Env, counter: nat, n: int): (r: seq<Event>)
    ensures 2 <= |r|
    ensures r[0] == ContextCreated(ContextName(o.prefix, counter)) && r[1] == Initialized(n)
    ensures r[|r| - 1] == match Outcome(o, env, n) case Ok(_) => BarrierRun case Err(e) => Abort(e)
  {
    SetupEvents(o, counter, n) + VerifyEvents(o, env, n) + SizingPart(o, env, n) + FinishEvents(o, env, n)
  }

  /** The state after one size point: one more context; fresh samples unless it aborted. */
  function PointStep(o: Options, env: Env, st: State, n: int): (r: State)
    ensures r.counter == st.counter + 1
    ensures |st.trace| < |r.trace| && r.trace[..|st.trace|] == st.trace
    ensures Outcome(o, env, n).Ok? ==> |r.samples| == Outcome(o, env, n).value
    ensures Outcome(o, env, n).Err? ==> r.samples == st.samples
  {
    State(
      st.counter + 1,
      match Outcome(o, env, n) case Ok(k) => TimedSamples(env, n, k) case Err(_) => st.samples,
      st.trace + PointEvents(o, env, st.counter, n))
  }

  /** The state a size point leaves, given the trace built part by part and the samples it keeps. */
  lemma PointStepFrom(o: Options, env: Env, st: State, n: int, trace: seq<Event>, samples: seq<nat>)
    requires trace == st.trace + SetupEvents(o, st.counter, n) + VerifyEvents(o, env, n)
                    + SizingPart(o, env, n) + FinishEvents(o, env, n)
    requires samples == match Outcome(o, env, n) case Ok(k) => TimedSamples(env, n, k) case Err(_) => st.samples
    ensures PointStep(o, env, st, n) == State(st.counter + 1, samples, trace)
  {
    var setup, check := SetupEvents(o, st.counter, n), VerifyEvents(o, env, n);
    var sizing, finish := SizingPart(o, env, n), FinishEvents(o, env, n);
    assert st.trace + (setup + check + sizing + finish) == st.trace + setup + check + sizing + finish;
  }

  /** Project splits over the four parts of a size point. */
  lemma ProjectPointParts<T>(o: Options, env: Env, c: nat, n: int, f: Event -> seq<T>)
    ensures Project(PointEvents(o, env, c, n), f)
         == f(ContextCreated(ContextName(o.prefix, c))) + f(Initialized(n))
          + Project(VerifyEvents(o, env, n), f) + Project(SizingPart(o, env, n), f)
          + Project(FinishEvents(o, env, n), f)
  {
    var s, v, z, e := SetupEvents(o, c, n), VerifyEvents(o, env, n), SizingPart(o, env, n), FinishEvents(o, env, n);
    ProjectAppend(s + v + z, e, f);
    ProjectAppend(s + v, z, f);
    ProjectAppend(s, v, f);
    ProjectAppend([s[0]], [s[1]], f);
    assert s == [s[0]] + [s[1]];
    ProjectOne(s[0], f);
    ProjectOne(s[1], f);
  }

  /** Sizing's events, seen through a projection that ignores warmup repetitions. */
  lemma ProjectSizing<T>(o: Options, env: Env, n: int, f: Event -> seq<T>)
    requires forall x: nat :: f(Repetition(Warmup, x)) == []
    ensures Project(SizingPart(o, env, n), f)
         == if !VerifyFails(o, env, n) && Adaptive(o) then f(BroadcastRun(AgreedMinimum(o, env, n))) else []
  {
    if !VerifyFails(o, env, n) && Adaptive(o) {
      var w := Repetitions(Warmup, WarmupSamples(o, env, n));
      var b := BroadcastRun(AgreedMinimum(o, env, n));
      ProjectAppend(w, [b], f);
      ProjectRepetitionsNone(Warmup, WarmupSamples(o, env, n), f);
      ProjectOne(b, f);
    }
  }

  /** The closing events, seen through a projection that ignores timed repetitions. */
  lemma ProjectFinish<T>(o: Options, env: Env, n: int, f: Event -> seq<T>)
    requires forall x: nat :: f(Repetition(Timed, x)) == []
    ensures Project(FinishEvents(o, env, n), f)
         == match Outcome(o, env, n)
            case Err(e) => f(Abort(e))
            case Ok(k) =>
              (if o.contextRank == 0 then f(Print(Row(ReportRow(n, TimedSamples(env, n, k), env.percentile)))) else [])
              + f(BarrierRun)
  {
    match Outcome(o, env, n)
    case Err(e) =>
      ProjectOne(Abort(e), f);
    case Ok(k) =>
      ProjectCompleted(o, n, TimedSamples(env, n, k), env.percentile, f);
  }

  /** The timed loop, the report and the barrier, seen through a projection that ignores timed repetitions. */
  lemma ProjectCompleted<T>(o: Options, n: int, s: seq<nat>, p: (seq<nat>, real) -> nat, f: Event -> seq<T>)
    requires forall x: nat :: f(Repetition(Timed, x)) == []
    ensures Project(Repetitions(Timed, s) + ReportEvents(o, n, s, p) + [BarrierRun], f)
         == (if o.contextRank == 0 then f(Print(Row(ReportRow(n, s, p)))) else []) + f(BarrierRun)
  {
    var t, r := Repetitions(Timed, s), ReportEvents(o, n, s, p);
    ProjectAppend(t + r, [BarrierRun], f);
    ProjectAppend(t, r, f);
    ProjectRepetitionsNone(Timed, s, f);
    ProjectOne(BarrierRun, f);
    ProjectReport(o, n, s, p, f);
    assert Project(t + r, f) == Project(r, f);
  }

  lemma ProjectVerify<T>(o: Options, env: Env, n: int, f: Event -> seq<T>)
    ensures Project(VerifyEvents(o, env, n), f) == if o.verify then f(VerifyRun(env.verifies(n))) else []
  {
    if o.verify {
      ProjectOne(VerifyRun(env.verifies(n)), f);
    }
  }

  lemma ProjectReport<T>(o: Options, n: int, s: seq<nat>, p: (seq<nat>, real) -> nat, f: Event -> seq<T>)
    ensures Project(ReportEvents(o, n, s, p), f) == if o.contextRank == 0 then f(Print(Row(ReportRow(n, s, p)))) else []
  {
    if o.contextRank == 0 {
      ProjectOne(Print(Row(ReportRow(n, s, p))), f);
    }
  }

  /** A projection that ignores every repetition sees the fixed skeleton of a size point. */
  lemma ProjectPointSkeleton<T>(o: Options, env: Env, c: nat, n: int, f: Event -> seq<T>)
    requires forall x: nat :: f(Repetition(Warmup, x)) == []
    requires forall x: nat :: f(Repetition(Timed, x)) == []
    ensures Project(PointEvents(o, env, c, n), f)
         == f(ContextCreated(ContextName(o.prefix, c))) + f(Initialized(n))
          + (if o.verify then f(VerifyRun(env.verifies(n))) else [])
          + (if !VerifyFails(o, env, n) && Adaptive(o) then f(BroadcastRun(AgreedMinimum(o, env, n))) else [])
          + match Outcome(o, env, n)
            case Err(e) => f(Abort(e))
            case Ok(k) =>
              (if o.contextRank == 0 then f(Print(Row(ReportRow(n, TimedSamples(env, n, k), env.percentile)))) else [])
              + f(BarrierRun)
  {
    ProjectPointParts(o, env, c, n, f);
    ProjectVerify(o, env, n, f);
    ProjectSizing(o, env, n, f);
    ProjectFinish(o, env, n, f);
  }

  /** A size point connects one context, named after the counter. */
  lemma ProjectPointNames(o: Options, env: Env, c: nat, n: int)
    ensures Project(PointEvents(o, env, c, n), NameOf) == [ContextName(o.prefix, c)]
  {
    ProjectPointSkeleton(o, env, c, n, NameOf);
  }

  /** A size point initialises one benchmark instance, for n elements. */
  lemma ProjectPointSizes(o: Options, env: Env, c: nat, n: int)
    ensures Project(PointEvents(o, env, c, n), SizeOf) == [n]
  {
    ProjectPointSkeleton(o, env, c, n, SizeOf);
  }

  /** A size point aborts exactly once when it fails, and not at all otherwise. */
  lemma ProjectPointAborts(o: Options, env: Env, c: nat, n: int)
    ensures Project(PointEvents(o, env, c, n), AbortOf)
         == match Outcome(o, env, n) case Err(e) => [e] case Ok(_) => []
  {
    ProjectPointSkeleton(o, env, c, n, AbortOf);
  }

  /** A size point prints one row, on rank 0 only and only when it completes. */
  lemma ProjectPointPrints(o: Options, env: Env, c: nat, n: int)
    ensures Project(PointEvents(o, env, c, n), PrintOf)
         == match Outcome(o, env, n)
            case Ok(k) => if o.contextRank == 0 then [Row(ReportRow(n, TimedSamples(env, n, k), env.percentile))] else []
            case Err(_) => []
  {
    ProjectPointSkeleton(o, env, c, n, PrintOf);
  }

  /** A size point that completes ends with one barrier. */
  lemma ProjectPointBarriers(o: Options, env: Env, c: nat, n: int)
    ensures Project(PointEvents(o, env, c, n), BarrierOf) == match Outcome(o, env, n) case Ok(_) => [BarrierRun] case Err(_) => []
  {
    ProjectPointSkeleton(o, env, c, n, BarrierOf);
  }

  /** The warmup readings of a size point are all of WarmupSamples, when sizing runs. */
  lemma ProjectPointWarmup(o: Options, env: Env, c: nat, n: int)
    ensures Project(PointEvents(o, env, c, n), WarmupOf)
         == if !VerifyFails(o, env, n) && Adaptive(o) then WarmupSamples(o, env, n) else []
  {
    ProjectPointParts(o, env, c, n, WarmupOf);
    ProjectVerify(o, env, n, WarmupOf);
    ProjectSizingWarmup(o, env, n);
    ProjectFinishWarmup(o, env, n);
  }

  /** The closing events hold no warmup reading. */
  lemma ProjectFinishWarmup(o: Options, env: Env, n: int)
    ensures Project(FinishEvents(o, env, n), WarmupOf) == []
  {
    match Outcome(o, env, n)
    case Err(e) =>
      ProjectOne(Abort(e), WarmupOf);
    case Ok(k) =>
      ProjectCompleted(o, n, TimedSamples(env, n, k), env.percentile, WarmupOf);
  }

  /** Sizing's warmup readings are all of WarmupSamples, when sizing runs. */
  lemma ProjectSizingWarmup(o: Options, env: Env, n: int)
    ensures Project(SizingPart(o, env, n), WarmupOf)
         == if !VerifyFails(o, env, n) && Adaptive(o) then WarmupSamples(o, env, n) else []
  {
    if !VerifyFails(o, env, n) && Adaptive(o) {
      var w := Repetitions(Warmup, WarmupSamples(o, env, n));
      var b := BroadcastRun(AgreedMinimum(o, env, n));
      assert SizingPart(o, env, n) == w + [b];
      ProjectAppend(w, [b], WarmupOf);
      ProjectRepetitionsAll(Warmup, WarmupSamples(o, env, n), WarmupOf);
      ProjectOne(b, WarmupOf);
    }
  }

  /** A size point broadcasts once, the agreed minimum, when sizing runs. */
  lemma ProjectPointBroadcasts(o: Options, env: Env, c: nat, n: int)
    ensures Project(PointEvents(o, env, c, n), BroadcastOf)
         == if !VerifyFails(o, env, n) && Adaptive(o) then [AgreedMinimum(o, env, n)] else []
  {
    ProjectPointParts(o, env, c, n, BroadcastOf);
    ProjectVerify(o, env, n, BroadcastOf);
    ProjectSizing(o, env, n, BroadcastOf);
    ProjectFinishBroadcast(o, env, n);
  }

  /** The closing events hold no broadcast. */
  lemma ProjectFinishBroadcast(o: Options, env: Env, n: int)
    ensures Project(FinishEvents(o, env, n), BroadcastOf) == []
  {
    match Outcome(o, env, n)
    case Err(e) =>
      ProjectOne(Abort(e), BroadcastOf);
    case Ok(k) =>
      ProjectCompleted(o, n, TimedSamples(env, n, k), env.percentile, BroadcastOf);
  }

  /** The timed readings of a completed size point are exactly its k samples. */
  lemma ProjectPointTimed(o: Options, env: Env, c: nat, n: int)
    ensures Project(PointEvents(o, env, c, n), TimedOf)
         == match Outcome(o, env, n) case Ok(k) => TimedSamples(env, n, k) case Err(_) => []
  {
    ProjectPointParts(o, env, c, n, TimedOf);
    ProjectVerify(o, env, n, TimedOf);
    ProjectSizing(o, env, n, TimedOf);
    ProjectFinishTimed(o, env, n);
  }

  /** The timed readings among the closing events: the k samples, or none after an abort. */
  lemma ProjectFinishTimed(o: Options, env: Env, n: int)
    ensures Project(FinishEvents(o, env, n), TimedOf)
         == match Outcome(o, env, n) case Ok(k) => TimedSamples(env, n, k) case Err(_) => []
  {
    match Outcome(o, env, n)
    case Err(e) =>
      ProjectOne(Abort(e), TimedOf);
    case Ok(k) =>
      ProjectCompletedTimed(o, n, TimedSamples(env, n, k), env.percentile);
  }

  /** The timed loop, the report and the barrier hold exactly the loop's readings. */
  lemma ProjectCompletedTimed(o: Options, n: int, s: seq<nat>, p: (seq<nat>, real) -> nat)
    ensures Project(Repetitions(Timed, s) + ReportEvents(o, n, s, p) + [BarrierRun], TimedOf) == s
  {
    var t, r := Repetitions(Timed, s), ReportEvents(o, n, s, p);
    ProjectAppend(t + r, [BarrierRun], TimedOf);
    ProjectAppend(t, r, TimedOf);
    ProjectRepetitionsAll(Timed, s, TimedOf);
    ProjectReport(o, n, s, p, TimedOf);
    ProjectOne(BarrierRun, TimedOf);
  }

  /** The repetitions of a size point: its warmup readings, its broadcast, and its timed readings. */
  lemma ProjectPointRuns(o: Options, env: Env, c: nat, n: int)
    ensures Project(PointEvents(o, env, c, n), WarmupOf)
         == if !VerifyFails(o, env, n) && Adaptive(o) then WarmupSamples(o, env, n) else []
    ensures Project(PointEvents(o, env, c, n), BroadcastOf)
         == if !VerifyFails(o, env, n) && Adaptive(o) then [AgreedMinimum(o, env, n)] else []
    ensures Project(PointEvents(o, env, c, n), TimedOf)
         == match Outcome(o, env, n) case Ok(k) => TimedSamples(env, n, k) case Err(_) => []
  {
    ProjectPointWarmup(o, env, c, n);
    ProjectPointBroadcasts(o, env, c, n);
    ProjectPointTimed(o, env, c, n);
  }

  /** A size point keeps the runner's invariant: its one context gets the next counter value. */
  lemma PointKeepsInv(o: Options, env: Env, st: State, n: int)
    requires Inv(o, st)
    ensures Inv(o, PointStep(o, env, st, n))
  {
    var e := PointEvents(o, env, st.counter, n);
    ProjectAppend(st.trace, e, NameOf);
    ProjectAppend(st.trace, e, PrintOf);
    ProjectPointNames(o, env, st.counter, n);
    ProjectPointPrints(o, env, st.counter, n);
    NextNameIsFresh(o.prefix, st.counter);
  }

  /** A size point leaves the process running exactly when it completes. */
  lemma PointLive(o: Options, env: Env, st: State, n: int)
    requires Live(st)
    ensures Live(PointStep(o, env, st, n)) <==> Outcome(o, env, n).Ok?
  {
    var e := PointEvents(o, env, st.counter, n);
    ProjectAppend(st.trace, e, AbortOf);
    ProjectPointAborts(o, env, st.counter, n);
    NoAbortProject(st.trace);
    NoAbortProject(st.trace + e);
  }

  /** The first events of a size point: its context, the benchmark's initialisation, then verification. */
  lemma PointStartsWithVerification(o: Options, env: Env, c: nat, n: int)
    requires o.verify
    ensures PointEvents(o, env, c, n)[..3]
         == [ContextCreated(ContextName(o.prefix, c)), Initialized(n), VerifyRun(env.verifies(n))]
  {
  }

  /**
   * A failed verification aborts right after the untimed run: no warmup, no
   * broadcast, no timed repetition, no report, and the samples are untouched.
   */
  lemma VerificationFailureStops(o: Options, env: Env, st: State, n: int)
    requires VerifyFails(o, env, n)
    ensures PointEvents(o, env, st.counter, n)
         == [ContextCreated(ContextName(o.prefix, st.counter)), Initialized(n), VerifyRun(false), Abort(VerificationFailed)]
    ensures PointStep(o, env, st, n).samples == st.samples
  {
  }

  /** With a fixed count k > 0, nothing is warmed up or broadcast and exactly k repetitions are timed. */
  lemma FixedIterationCount(o: Options, env: Env, c: nat, n: int)
    requires 0 < o.iterationCount
    requires !VerifyFails(o, env, n)
    ensures Project(PointEvents(o, env, c, n), WarmupOf) == []
    ensures Project(PointEvents(o, env, c, n), BroadcastOf) == []
    ensures |Project(PointEvents(o, env, c, n), TimedOf)| == o.iterationCount
    ensures Project(PointEvents(o, env, c, n), AbortOf) == []
  {
    ProjectPointRuns(o, env, c, n);
    ProjectPointAborts(o, env, c, n);
  }

  /**
   * Without a fixed count and with a positive target time: all the warmup
   * repetitions run, then one broadcast, and the number of timed repetitions
   * is the target time divided by the broadcast value.
   */
  lemma AdaptiveIterationCount(o: Options, env: Env, c: nat, n: int)
    requires Adaptive(o)
    requires !VerifyFails(o, env, n)
    requires 0 < AgreedMinimum(o, env, n)
    ensures |Project(PointEvents(o, env, c, n), WarmupOf)| == WarmupCount(o)
    ensures Project(PointEvents(o, env, c, n), BroadcastOf) == [AgreedMinimum(o, env, n)]
    ensures |Project(PointEvents(o, env, c, n), TimedOf)| == o.iterationTimeNanos / AgreedMinimum(o, env, n)
    ensures Project(PointEvents(o, env, c, n), AbortOf) == []
  {
    ProjectPointRuns(o, env, c, n);
    ProjectPointAborts(o, env, c, n);
  }

  /** Without a fixed count, a non-positive target time aborts before any warmup. */
  lemma NonPositiveTimeAborts(o: Options, env: Env, c: nat, n: int)
    requires o.iterationCount <= 0 && o.iterationTimeNanos <= 0
    requires !VerifyFails(o, env, n)
    ensures Project(PointEvents(o, env, c, n), WarmupOf) == []
    ensures Project(PointEvents(o, env, c, n), TimedOf) == []
    ensures Project(PointEvents(o, env, c, n), AbortOf) == [NonPositiveIterationTime]
  {
    ProjectPointRuns(o, env, c, n);
    ProjectPointAborts(o, env, c, n);
  }

  /**
   * A completed size point ends with its report (rank 0 only) and then the
   * barrier; the report's sample count is the number of timed repetitions,
   * which is also the number of samples the runner now holds.
   */
  lemma CompletedPointEnds(o: Options, env: Env, st: State, n: int)
    requires Outcome(o, env, n).Ok?
    ensures PointEvents(o, env, st.counter, n)[|PointEvents(o, env, st.counter, n)| - 1] == BarrierRun
    ensures o.contextRank == 0 ==>
      var e := PointEvents(o, env, st.counter, n);
      && 2 <= |e|
      && e[|e| - 2] == Print(Row(ReportRow(n, PointStep(o, env, st, n).samples, env.percentile)))
      && e[|e| - 2].line.values[5] == |PointStep(o, env, st, n).samples| == Outcome(o, env, n).value
    ensures |Project(PointEvents(o, env, st.counter, n), TimedOf)| == |PointStep(o, env, st, n).samples|
  {
    ProjectPointRuns(o, env, st.counter, n);
  }

  /** At most the last event of the trace is an abort: nothing happens after a fatal error. */
  predicate AbortLast(t: seq<Event>)
  {
    forall i :: 0 <= i < |t| - 1 ==> !t[i].Abort?
  }

  /** A size point run by a live process adds no event after its own abort. */
  lemma PointAbortLast(o: Options, env: Env, st: State, n: int)
    requires Live(st)
    ensures AbortLast(PointStep(o, env, st, n).trace)
  {
    var front := SetupEvents(o, st.counter, n) + VerifyEvents(o, env, n) + SizingPart(o, env, n);
    var finish := FinishEvents(o, env, n);
    FrontNoAbort(o, env, st.counter, n);
    FinishAbortLast(o, env, n);
    AbortLastAppend(front, finish);
    AbortLastAppend(st.trace, front + finish);
    assert PointStep(o, env, st, n).trace == st.trace + (front + finish);
  }

  /** Connecting, initialising, verifying and sizing never abort by themselves. */
  lemma FrontNoAbort(o: Options, env: Env, c: nat, n: int)
    ensures var front := SetupEvents(o, c, n) + VerifyEvents(o, env, n) + SizingPart(o, env, n);
      forall i :: 0 <= i < |front| ==> !front[i].Abort?
  {
  }

  /** The closing events hold an abort only as their last event. */
  lemma FinishAbortLast(o: Options, env: Env, n: int)
    ensures AbortLast(FinishEvents(o, env, n))
  {
  }

  lemma AbortLastAppend(a: seq<Event>, b: seq<Event>)
    requires forall i :: 0 <= i < |a| ==> !a[i].Abort?
    requires AbortLast(b)
    ensures AbortLast(a + b)
  {
    forall i | 0 <= i < |a + b| - 1
      ensures !(a + b)[i].Abort?
    {
      if i < |a| {
        assert (a + b)[i] == a[i];
      } else {
        assert (a + b)[i] == b[i - |a|];
      }
    }
  }

  /** A warmup repetition or the sizing broadcast. */
  predicate IsSizing(e: Event)
  {
    (e.Repetition? && e.phase == Warmup) || e.BroadcastRun?
  }

  predicate IsTimed(e: Event)
  {
    e.Repetition? && e.phase == Timed
  }

  /** Within a size point every warmup repetition and the broadcast come before every timed repetition. */
  lemma SizingBeforeTimed(o: Options, env: Env, c: nat, n: int)
    ensures var e := PointEvents(o, env, c, n);
      forall i, j :: 0 <= i < |e| && 0 <= j < |e| && IsSizing(e[i]) && IsTimed(e[j]) ==> i < j
  {
    var e := PointEvents(o, env, c, n);
    var front := SetupEvents(o, c, n) + VerifyEvents(o, env, n);
    var sizing, finish := SizingPart(o, env, n), FinishEvents(o, env, n);
    assert e == front + sizing + finish;
    assert forall k :: 0 <= k < |front| ==> !IsSizing(front[k]) && !IsTimed(front[k]);
    assert forall k :: 0 <= k < |sizing| ==> !IsTimed(sizing[k]);
    assert forall k :: 0 <= k < |finish| ==> !IsSizing(finish[k]);
  }
}
