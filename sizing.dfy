/**
 * Choosing how many timed repetitions a size point runs: the configured count,
 * or the target time divided by the warmup minimum that rank 0 broadcasts.
 */
module Sizing {
  import opened Config
  import opened Events

  /** What broadcast(x) hands back: rank 0 keeps its own value, every other rank receives rank 0's. */
  function Broadcast(rank: int, local: nat, root: nat): (r: nat)
    ensures rank == 0 ==> r == local
    ensures rank != 0 ==> r == root
  {
    if rank == 0 then local else root
  }

  /**
   * The iteration count from the options, this rank's warmup minimum and the
   * value rank 0 broadcasts. An adaptive count is the floor of the target time
   * over the agreed minimum, and may be 0.
   */
  function IterationCount(o: Options, localMin: nat, rootMin: nat): (r: Result<nat>)
    ensures 0 < o.iterationCount ==> r == Ok(o.iterationCount)
    ensures o.iterationCount <= 0 && o.iterationTimeNanos <= 0 ==> r == Err(NonPositiveIterationTime)
    ensures o.iterationCount <= 0 && 0 < o.iterationTimeNanos ==>
      var b := Broadcast(o.contextRank, localMin, rootMin);
      if b == 0 then r == Err(DivisionByZero) else r.Ok?
  {
    if 0 < o.iterationCount then Ok(o.iterationCount)
    else if o.iterationTimeNanos <= 0 then Err(NonPositiveIterationTime)
    else
      var nanos := Broadcast(o.contextRank, localMin, rootMin);
      if nanos == 0 then Err(DivisionByZero) else Ok(o.iterationTimeNanos / nanos)
  }

  /**
   * An adaptive count k is the floor of the target time over the agreed minimum b:
   * k repetitions of b fit in the target time and k + 1 do not.
   */
  lemma IterationCountIsFloor(o: Options, localMin: nat, rootMin: nat)
    requires o.iterationCount <= 0 && 0 < o.iterationTimeNanos
    requires Broadcast(o.contextRank, localMin, rootMin) != 0
    ensures var b, r := Broadcast(o.contextRank, localMin, rootMin), IterationCount(o, localMin, rootMin);
      r.Ok? && r.value * b <= o.iterationTimeNanos < (r.value + 1) * b
  {
  }

  /** How often the warmup loop runs: warmupIterationCount times, or not at all when that is not positive. */
  function WarmupCount(o: Options): (r: nat)
    ensures r == 0 <==> o.warmupIterationCount <= 0
    ensures 0 < r ==> r == o.warmupIterationCount
  {
    if 0 < o.warmupIterationCount then o.warmupIterationCount else 0
  }

  /** The Timer readings of the warmup repetitions at size point n. */
  function WarmupSamples(o: Options, env: Env, n: int): (r: seq<nat>)
    ensures |r| == WarmupCount(o)
    ensures forall i :: 0 <= i < |r| ==> r[i] == env.warmupNanos(n, i)
  {
    seq<nat>(WarmupCount(o), i requires 0 <= i < WarmupCount(o) => env.warmupNanos(n, i))
  }

  /** The Timer readings of the first k timed repetitions at size point n. */
  function TimedSamples(env: Env, n: int, k: nat): (r: seq<nat>)
    ensures |r| == k
    ensures forall i :: 0 <= i < k ==> r[i] == env.timedNanos(n, i)
  {
    seq<nat>(k, i requires 0 <= i < k => env.timedNanos(n, i))
  }

  /** Whether sizing runs the warmup loop and the broadcast at all. */
  predicate Adaptive(o: Options)
  {
    o.iterationCount <= 0 && 0 < o.iterationTimeNanos
  }

  /** The value this rank ends the sizing broadcast with. */
  function AgreedMinimum(o: Options, env: Env, n: int): nat
  {
    Broadcast(o.contextRank, env.minimum(WarmupSamples(o, env, n)), env.rootMinimum(n))
  }

  /** The events sizing produces: the warmup repetitions and the broadcast, or nothing. */
  function SizingEvents(o: Options, env: Env, n: int): (r: seq<Event>)
    ensures |r| == if Adaptive(o) then WarmupCount(o) + 1 else 0
    ensures Adaptive(o) ==> r[|r| - 1] == BroadcastRun(AgreedMinimum(o, env, n))
  {
    if Adaptive(o) then
      Repetitions(Warmup, WarmupSamples(o, env, n)) + [BroadcastRun(AgreedMinimum(o, env, n))]
    else []
  }

  /** The iteration count this rank settles on at size point n. */
  function Iterations(o: Options, env: Env, n: int): Result<nat>
  {
    IterationCount(o, env.minimum(WarmupSamples(o, env, n)), env.rootMinimum(n))
  }

  /**
   * All ranks agree: when every rank runs with the same sizing options and
   * receives rank 0's warmup minimum, every rank settles on rank 0's count, and
   * that count depends on rank 0's minimum alone.
   */
  lemma RanksAgree(o0: Options, env0: Env, o: Options, env: Env, n: int)
    requires o0.contextRank == 0 && o.contextRank != 0
    requires o.iterationCount == o0.iterationCount && o.iterationTimeNanos == o0.iterationTimeNanos
    requires env.rootMinimum(n) == env0.minimum(WarmupSamples(o0, env0, n))
    ensures Adaptive(o) ==> AgreedMinimum(o, env, n) == AgreedMinimum(o0, env0, n)
    ensures Iterations(o, env, n) == Iterations(o0, env0, n)
    ensures Adaptive(o) && 0 < env.rootMinimum(n) ==>
      Iterations(o, env, n) == Ok(o.iterationTimeNanos / env0.minimum(WarmupSamples(o0, env0, n)))
  {
  }

  /** A target time shorter than the agreed minimum gives a count of zero, which is not an error. */
  lemma ZeroIterationsAllowed(o: Options, env: Env, n: int)
    requires Adaptive(o)
    requires 0 < AgreedMinimum(o, env, n)
    ensures Iterations(o, env, n) == Ok(0) <==> o.iterationTimeNanos < AgreedMinimum(o, env, n)
  {
  }
}
