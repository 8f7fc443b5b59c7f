/**
 * The observable history of one participant: every context it connects, every
 * run of the benchmark, every collective it joins, every line it prints, and
 * the fatal error that stops it. Orderings are stated over this trace.
 */
module Events {
  import opened Config

  /** A line of standard output. */
  datatype Line =
    | Header(labels: seq<string>)
    | Row(values: seq<int>)

  /** A repetition of benchmark->run() either sizes the loop or is measured. */
  datatype Phase = Warmup | Timed

  datatype Event =
    | ContextCreated(name: string)              // newContext(): connected under this namespace
    | Initialized(elements: int)                // fn(context), then benchmark->initialize(n)
    | VerifyRun(passed: bool)                   // untimed benchmark->run(), then verify()
    | Repetition(phase: Phase, nanos: nat)      // a timed benchmark->run() and its Timer reading
    | BroadcastRun(value: nat)                  // broadcast_->run(); the value this rank ends with
    | Print(line: Line)
    | BarrierRun                                // barrier_->run()
    | Abort(reason: Fatal)                      // a failed GLOO_ENFORCE: the process stops

  /** The repetitions of one phase, one per Timer reading, in order. */
  function Repetitions(phase: Phase, readings: seq<nat>): seq<Event>
  {
    seq(|readings|, i requires 0 <= i < |readings| => Repetition(phase, readings[i]))
  }

  lemma RepetitionsSnoc(phase: Phase, readings: seq<nat>, x: nat)
    ensures Repetitions(phase, readings + [x]) == Repetitions(phase, readings) + [Repetition(phase, x)]
  {
    assert forall i :: 0 <= i < |readings| ==> (readings + [x])[i] == readings[i];
  }

  /** The items `f` picks out of each event of `t`, in trace order. */
  function Project<T>(t: seq<Event>, f: Event -> seq<T>): seq<T>
  {
    if t == [] then [] else f(t[0]) + Project(t[1..], f)
  }

  lemma {:induction false} ProjectAppend<T>(a: seq<Event>, b: seq<Event>, f: Event -> seq<T>)
    ensures Project(a + b, f) == Project(a, f) + Project(b, f)
  {
    if a == [] {
      assert a + b == b;
    } else {
      assert (a + b)[0] == a[0];
      assert (a + b)[1..] == a[1..] + b;
      ProjectAppend(a[1..], b, f);
    }
  }

  lemma ProjectOne<T>(e: Event, f: Event -> seq<T>)
    ensures Project([e], f) == f(e)
  {
    assert [e][1..] == [];
  }

  /** A projection that ignores every repetition of a phase sees nothing in them. */
  lemma {:induction false} ProjectRepetitionsNone<T>(phase: Phase, readings: seq<nat>, f: Event -> seq<T>)
    requires forall x: nat :: f(Repetition(phase, x)) == []
    ensures Project(Repetitions(phase, readings), f) == []
  {
    if readings != [] {
      assert Repetitions(phase, readings)[1..] == Repetitions(phase, readings[1..]);
      ProjectRepetitionsNone(phase, readings[1..], f);
    }
  }

  /** A projection that reads the Timer reading off each repetition of a phase gets them all back. */
  lemma {:induction false} ProjectRepetitionsAll(phase: Phase, readings: seq<nat>, f: Event -> seq<nat>)
    requires forall x: nat :: f(Repetition(phase, x)) == [x]
    ensures Project(Repetitions(phase, readings), f) == readings
  {
    if readings != [] {
      assert Repetitions(phase, readings)[1..] == Repetitions(phase, readings[1..]);
      ProjectRepetitionsAll(phase, readings[1..], f);
      assert readings == [readings[0]] + readings[1..];
    }
  }

  /** A trace holds no abort exactly when its abort projection is empty. */
  lemma {:induction false} NoAbortProject(t: seq<Event>)
    ensures Project(t, AbortOf) == [] <==> forall i :: 0 <= i < |t| ==> !t[i].Abort?
  {
    if t != [] {
      NoAbortProject(t[1..]);
      assert forall i :: 1 <= i < |t| ==> t[i] == t[1..][i - 1];
    }
  }

  // The projections used to state properties of a trace.

  function NameOf(e: Event): seq<string>
  {
    if e.ContextCreated? then [e.name] else []
  }

  function SizeOf(e: Event): seq<int>
  {
    if e.Initialized? then [e.elements] else []
  }

  function VerifyOf(e: Event): seq<bool>
  {
    if e.VerifyRun? then [e.passed] else []
  }

  function WarmupOf(e: Event): seq<nat>
  {
    if e.Repetition? && e.phase == Warmup then [e.nanos] else []
  }

  function TimedOf(e: Event): seq<nat>
  {
    if e.Repetition? && e.phase == Timed then [e.nanos] else []
  }

  function BroadcastOf(e: Event): seq<nat>
  {
    if e.BroadcastRun? then [e.value] else []
  }

  function PrintOf(e: Event): seq<Line>
  {
    if e.Print? then [e.line] else []
  }

  function BarrierOf(e: Event): seq<Event>
  {
    if e.BarrierRun? then [e] else []
  }

  function AbortOf(e: Event): seq<Fatal>
  {
    if e.Abort? then [e.reason] else []
  }
}
