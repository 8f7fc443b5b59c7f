/**
 * The runner's configuration, the errors that abort it, and the outside world
 * it talks to (the benchmark instance, the clock, the statistics helper and the
 * broadcast), which are given to the model as inputs.
 */
module Config {

  datatype Option<+T> = None | Some(value: T)

  /** The reasons a GLOO_ENFORCE stops the process. */
  datatype Fatal =
    | UnknownTransport(transport: string)   // no device for the configured transport
    | VerificationFailed                    // benchmark->verify() returned false
    | NonPositiveIterationTime              // no iteration count and no positive target time
    | DivisionByZero                        // the agreed warmup minimum is 0

  datatype Result<+T> = Ok(value: T) | Err(error: Fatal)

  datatype Transport = Tcp | Ibverbs

  /** Which device libraries the driver was built with (BENCHMARK_TCP, BENCHMARK_IBVERBS). */
  datatype Build = Build(tcp: bool, ibverbs: bool)

  /** The fields of the benchmark options the runner reads. */
  datatype Options = Options(
    contextRank: int,
    contextSize: int,
    prefix: string,
    transport: string,
    elements: int,
    iterationCount: int,
    iterationTimeNanos: int,
    warmupIterationCount: int,
    verify: bool)

  /**
   * What the runner observes from outside, per size point `n`:
   * - verifies(n): the result of benchmark->verify() after the untimed run;
   * - warmupNanos(n, i), timedNanos(n, i): the Timer reading of the i-th
   *   warmup and the i-th timed repetition;
   * - minimum(d): Distribution::min of the warmup samples d;
   * - percentile(d, p): Distribution::percentile(p) of the samples d;
   * - rootMinimum(n): the value rank 0 broadcasts at size point n.
   */
  datatype Env = Env(
    verifies: int -> bool,
    warmupNanos: (int, nat) -> nat,
    timedNanos: (int, nat) -> nat,
    minimum: seq<nat> -> nat,
    percentile: (seq<nat>, real) -> nat,
    rootMinimum: int -> nat)

  /** The device the constructor creates for the configured transport, if it was built in. */
  function ResolveDevice(transport: string, build: Build): (d: Option<Transport>)
    ensures d.Some? <==> (transport == "tcp" && build.tcp) || (transport == "ibverbs" && build.ibverbs)
    ensures d == Some(Tcp) ==> transport == "tcp"
    ensures d == Some(Ibverbs) ==> transport == "ibverbs"
  {
    if build.tcp && transport == "tcp" then Some(Tcp)
    else if build.ibverbs && transport == "ibverbs" then Some(Ibverbs)
    else None
  }
}
