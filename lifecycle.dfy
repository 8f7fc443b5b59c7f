/**
 * The runner from construction to the end of `run(fn)`: the two coordination
 * contexts, the header, then one size point or the logarithmic sweep.
 */
module Lifecycle {
  import opened Config
  import opened Events
  import opened Naming
  import opened Sizing
  import opened Reporting
  import opened SizePoint

  const Int32Max: int := 0x7fff_ffff

  /**
   * The state the constructor leaves: an unknown transport aborts before any
   * context exists; otherwise the broadcast context (counter 0) and then the
   * barrier context (counter 1) are connected.
   */
  function StartState(o: Options, build: Build): (r: State)
    ensures r.samples == []
    ensures ResolveDevice(o.transport, build).None? ==> r.counter == 0 && r.trace == [Abort(UnknownTransport(o.transport))]
    ensures ResolveDevice(o.transport, build).Some? ==>
      && r.counter == |r.trace| == 2
      && forall k :: 0 <= k < 2 ==> r.trace[k] == ContextCreated(ContextName(o.prefix, k))
  {
    if ResolveDevice(o.transport, build).None? then
      State(0, [], [Abort(UnknownTransport(o.transport))])
    else
      State(2, [], [ContextCreated(ContextName(o.prefix, 0)), ContextCreated(ContextName(o.prefix, 1))])
  }

  lemma StartKeepsInv(o: Options, build: Build)
    ensures Inv(o, StartState(o, build))
    ensures Live(StartState(o, build)) <==> ResolveDevice(o.transport, build).Some?
  {
    var st := StartState(o, build);
    if ResolveDevice(o.transport, build).None? {
      ProjectOne(Abort(UnknownTransport(o.transport)), NameOf);
      ProjectOne(Abort(UnknownTransport(o.transport)), AbortOf);
    } else {
      var a, b := ContextCreated(ContextName(o.prefix, 0)), ContextCreated(ContextName(o.prefix, 1));
      assert st.trace == [a] + [b];
      ProjectAppend([a], [b], NameOf);
      ProjectAppend([a], [b], PrintOf);
      ProjectAppend([a], [b], AbortOf);
      ProjectOne(a, NameOf);
      ProjectOne(b, NameOf);
      ProjectOne(a, PrintOf);
      ProjectOne(b, PrintOf);
      ProjectOne(a, AbortOf);
      ProjectOne(b, AbortOf);
      assert NamesFrom(o.prefix, 0, 2) == [ContextName(o.prefix, 0), ContextName(o.prefix, 1)];
    }
  }

  /** The sizes the sweep visits from magnitude i on: i*1, i*2, i*5, then the next power of ten. */
  function SweepFrom(i: int): (r: seq<int>)
    requires 1 <= i
    ensures r == [] <==> 1_000_000 < i
    ensures |r| % 3 == 0
    ensures forall k :: 0 <= k < |r| ==> i <= r[k] <= 5_000_000
    decreases 10_000_000 - i
  {
    if 1_000_000 < i then [] else [i * 1, i * 2, i * 5] + SweepFrom(i * 10)
  }

  /** The 21 sizes of the sweep, in the order they run. */
  lemma SweepSizes()
    ensures SweepFrom(1) == [1, 2, 5, 10, 20, 50, 100, 200, 500, 1000, 2000, 5000,
                             10000, 20000, 50000, 100000, 200000, 500000,
                             1000000, 2000000, 5000000]
  {
    assert SweepFrom(10_000_000) == [];
    assert SweepFrom(1_000_000) == [1000000, 2000000, 5000000];
    assert SweepFrom(100_000) == [100000, 200000, 500000] + SweepFrom(1_000_000);
    assert SweepFrom(10_000) == [10000, 20000, 50000] + SweepFrom(100_000);
    assert SweepFrom(1_000) == [1000, 2000, 5000] + SweepFrom(10_000);
    assert SweepFrom(100) == [100, 200, 500] + SweepFrom(1_000);
    assert SweepFrom(10) == [10, 20, 50] + SweepFrom(100);
  }

  /** The sweep has 21 sizes, strictly ascending, each a positive value of a 32-bit int. */
  lemma SweepSizesAscendInt32()
    ensures |SweepFrom(1)| == 21
    ensures forall k :: 0 <= k < 20 ==> SweepFrom(1)[k] < SweepFrom(1)[k + 1]
    ensures forall k :: 0 <= k < 21 ==> 0 < SweepFrom(1)[k] <= Int32Max
  {
    SweepSizes();
  }

  /** printHeader, at the start of run(fn). */
  function HeaderStep(o: Options, st: State): (r: State)
    ensures r.counter == st.counter && r.samples == st.samples
    ensures |r.trace| == |st.trace| + (if o.contextRank == 0 then 1 else 0)
    ensures r.trace[..|st.trace|] == st.trace
    ensures o.contextRank == 0 ==> r.trace[|st.trace|] == Print(Header(HeaderLabels()))
  {
    State(st.counter, st.samples, st.trace + HeaderEvents(o))
  }

  /** No size of the list stops the sweep. */
  predicate NoneStop(stops: int -> bool, sizes: seq<int>)
  {
    forall k :: 0 <= k < |sizes| ==> !stops(sizes[k])
  }

  /**
   * The steps of a sweep over `sizes`, one after the other, up to and including
   * the first size that stops it.
   */
  function Sweep(step: (State, int) -> State, stops: int -> bool, st: State, sizes: seq<int>): State
    decreases |sizes|
  {
    if sizes == [] then st
    else if stops(sizes[0]) then step(st, sizes[0])
    else Sweep(step, stops, step(st, sizes[0]), sizes[1..])
  }

  /** What a step that takes one counter value and records its size does at one state and size. */
  lemma CountsAt(step: (State, int) -> State, st: State, n: int)
    requires forall s, n :: step(s, n).counter == s.counter + 1 && Project(step(s, n).trace, SizeOf) == Project(s.trace, SizeOf) + [n]
    ensures step(st, n).counter == st.counter + 1
    ensures Project(step(st, n).trace, SizeOf) == Project(st.trace, SizeOf) + [n]
  {
  }

  lemma KeepsAt(o: Options, step: (State, int) -> State, st: State, n: int)
    requires forall s, n :: Inv(o, s) ==> Inv(o, step(s, n))
    requires Inv(o, st)
    ensures Inv(o, step(st, n))
  {
  }

  lemma LiveAt(step: (State, int) -> State, stops: int -> bool, st: State, n: int)
    requires forall s, n :: Live(s) ==> (Live(step(s, n)) <==> !stops(n))
    requires Live(st)
    ensures Live(step(st, n)) <==> !stops(n)
  {
  }

  lemma ExtendsAt(step: (State, int) -> State, st: State, n: int)
    requires forall s: State, n: int :: s.counter < step(s, n).counter && s.trace <= step(s, n).trace
    ensures st.counter < step(st, n).counter && st.trace <= step(st, n).trace
  {
  }

  lemma AbortLastAt(step: (State, int) -> State, stops: int -> bool, st: State, n: int)
    requires forall s, n :: Live(s) ==> AbortLast(step(s, n).trace) && (Live(step(s, n)) <==> !stops(n))
    requires Live(st)
    ensures AbortLast(step(st, n).trace) && (Live(step(st, n)) <==> !stops(n))
  {
  }

  lemma {:induction false} SweepCounts(step: (State, int) -> State, stops: int -> bool, st: State, sizes: seq<int>)
    // each step takes one counter value and records that it ran its size
    requires forall s, n :: step(s, n).counter == s.counter + 1 && Project(step(s, n).trace, SizeOf) == Project(s.trace, SizeOf) + [n]
    requires NoneStop(stops, sizes)
    ensures Sweep(step, stops, st, sizes).counter == st.counter + |sizes|
    ensures Project(Sweep(step, stops, st, sizes).trace, SizeOf) == Project(st.trace, SizeOf) + sizes
    decreases |sizes|
  {
    if sizes != [] {
      var next := step(st, sizes[0]);
      CountsAt(step, st, sizes[0]);
      assert NoneStop(stops, sizes[1..]) by {
        assert forall k :: 0 <= k < |sizes| - 1 ==> sizes[1..][k] == sizes[k + 1];
      }
      SweepCounts(step, stops, next, sizes[1..]);
      var before := Project(st.trace, SizeOf);
      assert (before + [sizes[0]]) + sizes[1..] == before + sizes;
    }
  }

  lemma {:induction false} SweepKeeps(o: Options, step: (State, int) -> State, stops: int -> bool, st: State, sizes: seq<int>)
    requires forall s, n :: Inv(o, s) ==> Inv(o, step(s, n))
    requires Inv(o, st)
    ensures Inv(o, Sweep(step, stops, st, sizes))
    decreases |sizes|
  {
    if sizes != [] {
      var next := step(st, sizes[0]);
      KeepsAt(o, step, st, sizes[0]);
      if stops(sizes[0]) {
        assert Sweep(step, stops, st, sizes) == next;
      } else {
        SweepKeeps(o, step, stops, next, sizes[1..]);
      }
    }
  }

  lemma {:induction false} SweepLiveIff(step: (State, int) -> State, stops: int -> bool, st: State, sizes: seq<int>)
    // a live process stays live after a step exactly when its size does not stop the sweep
    requires forall s, n :: Live(s) ==> (Live(step(s, n)) <==> !stops(n))
    requires Live(st)
    ensures Live(Sweep(step, stops, st, sizes)) <==> NoneStop(stops, sizes)
    decreases |sizes|
  {
    if sizes != [] {
      var next := step(st, sizes[0]);
      LiveAt(step, stops, st, sizes[0]);
      if stops(sizes[0]) {
        assert Sweep(step, stops, st, sizes) == next;
      } else {
        SweepLiveIff(step, stops, next, sizes[1..]);
        assert NoneStop(stops, sizes) <==> NoneStop(stops, sizes[1..]) by {
          assert forall k :: 1 <= k < |sizes| ==> sizes[k] == sizes[1..][k - 1];
        }
      }
    }
  }

  lemma {:induction false} SweepExtends(step: (State, int) -> State, stops: int -> bool, st: State, sizes: seq<int>)
    // each step takes at least one counter value and only appends to the trace
    requires forall s: State, n: int :: s.counter < step(s, n).counter && s.trace <= step(s, n).trace
    ensures st.counter <= Sweep(step, stops, st, sizes).counter
    ensures sizes != [] ==> st.counter < Sweep(step, stops, st, sizes).counter
    ensures st.trace <= Sweep(step, stops, st, sizes).trace
    decreases |sizes|
  {
    if sizes != [] {
      var next := step(st, sizes[0]);
      ExtendsAt(step, st, sizes[0]);
      if stops(sizes[0]) {
        assert Sweep(step, stops, st, sizes) == next;
      } else {
        SweepExtends(step, stops, next, sizes[1..]);
      }
    }
  }

  lemma {:induction false} SweepAbortLast(step: (State, int) -> State, stops: int -> bool, st: State, sizes: seq<int>)
    // from a live state a step adds no event after an abort, and it aborts exactly when its size stops the sweep
    requires forall s, n :: Live(s) ==> AbortLast(step(s, n).trace) && (Live(step(s, n)) <==> !stops(n))
    requires Live(st)
    ensures AbortLast(Sweep(step, stops, st, sizes).trace)
    decreases |sizes|
  {
    if sizes != [] {
      var next := step(st, sizes[0]);
      AbortLastAt(step, stops, st, sizes[0]);
      if stops(sizes[0]) {
        assert Sweep(step, stops, st, sizes) == next;
      } else {
        SweepAbortLast(step, stops, next, sizes[1..]);
      }
    }
  }

  lemma {:induction false} SweepPrefix(step: (State, int) -> State, stops: int -> bool, st: State, sizes: seq<int>)
    requires forall s, n :: step(s, n).counter == s.counter + 1 && Project(step(s, n).trace, SizeOf) == Project(s.trace, SizeOf) + [n]
    ensures var started := Project(Sweep(step, stops, st, sizes).trace, SizeOf);
      && Project(st.trace, SizeOf) <= started
      && started[|Project(st.trace, SizeOf)|..] <= sizes
    decreases |sizes|
  {
    if sizes != [] {
      var next := step(st, sizes[0]);
      var before := Project(st.trace, SizeOf);
      CountsAt(step, st, sizes[0]);
      if !stops(sizes[0]) {
        SweepPrefix(step, stops, next, sizes[1..]);
        var started := Project(Sweep(step, stops, next, sizes[1..]).trace, SizeOf);
        assert started[|before| + 1..] <= sizes[1..];
        assert started[|before|..] == [sizes[0]] + started[|before| + 1..];
      } else {
        assert Sweep(step, stops, st, sizes) == next;
        assert Project(next.trace, SizeOf)[|before|..] == [sizes[0]];
      }
    }
  }

  /** The sweep position k of a list reaches either stops there or goes on after it. */
  lemma SweepAt(step: (State, int) -> State, stops: int -> bool, st: State, js: seq<int>, k: nat, rest: seq<int>)
    requires k < |js|
    ensures Sweep(step, stops, st, js[k..] + rest)
         == if stops(js[k]) then step(st, js[k]) else Sweep(step, stops, step(st, js[k]), js[k + 1..] + rest)
  {
    var sizes := js[k..] + rest;
    assert sizes[0] == js[k];
    assert sizes[1..] == js[k + 1..] + rest;
  }

  /** run(fn, n) as a sweep step, and the size points that abort. */
  function Point(o: Options, env: Env): (State, int) -> State
  {
    (s, n) => PointStep(o, env, s, n)
  }

  function Aborts(o: Options, env: Env): int -> bool
  {
    n => Outcome(o, env, n).Err?
  }

  /** The size points of a sweep, one after the other; a fatal error ends the sweep. */
  function SweepStep(o: Options, env: Env, st: State, sizes: seq<int>): State
  {
    Sweep(Point(o, env), Aborts(o, env), st, sizes)
  }

  /** Every size point of the list completes. */
  predicate AllComplete(o: Options, env: Env, sizes: seq<int>)
  {
    forall k :: 0 <= k < |sizes| ==> Outcome(o, env, sizes[k]).Ok?
  }

  /** run(fn): the header, then the configured size alone, or the sweep. */
  function RunStep(o: Options, env: Env, st: State): (r: State)
    ensures st.counter < r.counter
    ensures st.trace <= r.trace
  {
    SweepStepExtends(o, env, HeaderStep(o, st), SweepFrom(1));
    if 0 < o.elements then PointStep(o, env, HeaderStep(o, st), o.elements)
    else SweepStep(o, env, HeaderStep(o, st), SweepFrom(1))
  }

  lemma HeaderKeepsInv(o: Options, st: State)
    requires Inv(o, st)
    ensures Inv(o, HeaderStep(o, st))
    ensures Live(HeaderStep(o, st)) == Live(st)
    ensures Project(HeaderStep(o, st).trace, SizeOf) == Project(st.trace, SizeOf)
  {
    var h := HeaderEvents(o);
    ProjectAppend(st.trace, h, NameOf);
    ProjectAppend(st.trace, h, PrintOf);
    ProjectAppend(st.trace, h, SizeOf);
    if o.contextRank == 0 {
      ProjectOne(h[0], NameOf);
      ProjectOne(h[0], SizeOf);
    }
    HeaderLive(o, st);
  }

  lemma HeaderLive(o: Options, st: State)
    ensures Live(HeaderStep(o, st)) == Live(st)
  {
    var t, h := st.trace, HeaderEvents(o);
    assert HeaderStep(o, st).trace == t + h;
    assert forall i :: 0 <= i < |h| ==> !h[i].Abort?;
    assert forall i :: 0 <= i < |t| ==> (t + h)[i] == t[i];
    assert forall i :: |t| <= i < |t + h| ==> (t + h)[i] == h[i - |t|];
  }

  /** One size point adds its size and its context name to the trace, and takes one counter value. */
  lemma PointStepAdds(o: Options, env: Env, st: State, n: int)
    ensures PointStep(o, env, st, n).counter == st.counter + 1
    ensures Project(PointStep(o, env, st, n).trace, SizeOf) == Project(st.trace, SizeOf) + [n]
    ensures Project(PointStep(o, env, st, n).trace, NameOf)
         == Project(st.trace, NameOf) + [ContextName(o.prefix, st.counter)]
  {
    var e := PointEvents(o, env, st.counter, n);
    ProjectPointSizes(o, env, st.counter, n);
    ProjectPointNames(o, env, st.counter, n);
    ProjectAppend(st.trace, e, SizeOf);
    ProjectAppend(st.trace, e, NameOf);
  }

  lemma PointCounts(o: Options, env: Env)
    ensures forall s, n :: Point(o, env)(s, n).counter == s.counter + 1
    ensures forall s, n :: Project(Point(o, env)(s, n).trace, SizeOf) == Project(s.trace, SizeOf) + [n]
  {
    forall s: State, n: int
      ensures Point(o, env)(s, n).counter == s.counter + 1
      ensures Project(Point(o, env)(s, n).trace, SizeOf) == Project(s.trace, SizeOf) + [n]
    {
      PointStepAdds(o, env, s, n);
    }
  }

  lemma SweepKeepsInv(o: Options, env: Env, st: State, sizes: seq<int>)
    requires Inv(o, st)
    ensures Inv(o, SweepStep(o, env, st, sizes))
  {
    forall s, n | Inv(o, s)
      ensures Inv(o, Point(o, env)(s, n))
    {
      PointKeepsInv(o, env, s, n);
    }
    SweepKeeps(o, Point(o, env), Aborts(o, env), st, sizes);
  }

  /** The sweep takes at least one counter value and only appends to the trace. */
  lemma SweepStepExtends(o: Options, env: Env, st: State, sizes: seq<int>)
    ensures st.counter <= SweepStep(o, env, st, sizes).counter
    ensures sizes != [] ==> st.counter < SweepStep(o, env, st, sizes).counter
    ensures st.trace <= SweepStep(o, env, st, sizes).trace
  {
    forall s: State, n: int
      ensures s.counter < Point(o, env)(s, n).counter && s.trace <= Point(o, env)(s, n).trace
    {
      var r := PointStep(o, env, s, n);
      assert s.trace == r.trace[..|s.trace|];
    }
    SweepExtends(Point(o, env), Aborts(o, env), st, sizes);
  }

  /** A sweep leaves the process running exactly when every one of its size points completes. */
  lemma SweepLive(o: Options, env: Env, st: State, sizes: seq<int>)
    requires Live(st)
    ensures Live(SweepStep(o, env, st, sizes)) <==> AllComplete(o, env, sizes)
  {
    forall s, n | Live(s)
      ensures Live(Point(o, env)(s, n)) <==> !Aborts(o, env)(n)
    {
      PointLive(o, env, s, n);
    }
    SweepLiveIff(Point(o, env), Aborts(o, env), st, sizes);
  }

  /**
   * A sweep that completes runs every size in order and takes one counter
   * value per size.
   */
  lemma SweepRunsSizes(o: Options, env: Env, st: State, sizes: seq<int>)
    requires AllComplete(o, env, sizes)
    ensures SweepStep(o, env, st, sizes).counter == st.counter + |sizes|
    ensures Project(SweepStep(o, env, st, sizes).trace, SizeOf) == Project(st.trace, SizeOf) + sizes
  {
    PointCounts(o, env);
    SweepCounts(Point(o, env), Aborts(o, env), st, sizes);
  }

  /** A sweep that completes names its k-th context after counter value st.counter + k. */
  lemma SweepNames(o: Options, env: Env, st: State, sizes: seq<int>)
    requires Inv(o, st)
    requires AllComplete(o, env, sizes)
    ensures Project(SweepStep(o, env, st, sizes).trace, NameOf)
         == Project(st.trace, NameOf) + NamesFrom(o.prefix, st.counter, |sizes|)
  {
    SweepKeepsInv(o, env, st, sizes);
    SweepRunsSizes(o, env, st, sizes);
    NamesFromSplit(o.prefix, st.counter, |sizes|);
  }

  /** Every size a sweep starts, whether or not it completes, is the next size of the list. */
  lemma SweepSizesPrefix(o: Options, env: Env, st: State, sizes: seq<int>)
    ensures var started := Project(SweepStep(o, env, st, sizes).trace, SizeOf);
      && Project(st.trace, SizeOf) <= started
      && started[|Project(st.trace, SizeOf)|..] <= sizes
  {
    PointCounts(o, env);
    SweepPrefix(Point(o, env), Aborts(o, env), st, sizes);
  }

  /** The sweep at position k of a list either stops at that size point or goes on after it. */
  lemma SweepAdvance(o: Options, env: Env, st: State, js: seq<int>, k: nat, rest: seq<int>)
    requires k < |js|
    ensures Outcome(o, env, js[k]).Err? ==>
      SweepStep(o, env, st, js[k..] + rest) == PointStep(o, env, st, js[k])
    ensures Outcome(o, env, js[k]).Ok? ==>
      SweepStep(o, env, st, js[k..] + rest) == SweepStep(o, env, PointStep(o, env, st, js[k]), js[k + 1..] + rest)
  {
    SweepAt(Point(o, env), Aborts(o, env), st, js, k, rest);
  }

  lemma RunKeepsInv(o: Options, env: Env, st: State)
    requires Inv(o, st)
    ensures Inv(o, RunStep(o, env, st))
  {
    HeaderKeepsInv(o, st);
    if 0 < o.elements {
      PointKeepsInv(o, env, HeaderStep(o, st), o.elements);
    } else {
      SweepKeepsInv(o, env, HeaderStep(o, st), SweepFrom(1));
    }
  }

  /**
   * A run that completes runs the configured size alone when one is set, and
   * otherwise exactly the 21 sweep sizes in ascending order; its size points
   * take the next counter values, one each.
   */
  lemma RunSizes(o: Options, env: Env, st: State)
    requires Inv(o, st) && Live(st)
    requires Live(RunStep(o, env, st))
    ensures Project(RunStep(o, env, st).trace, SizeOf)
         == Project(st.trace, SizeOf) + if 0 < o.elements then [o.elements] else SweepFrom(1)
    ensures RunStep(o, env, st).counter == st.counter + if 0 < o.elements then 1 else 21
  {
    HeaderKeepsInv(o, st);
    var h := HeaderStep(o, st);
    if 0 < o.elements {
      PointStepAdds(o, env, h, o.elements);
    } else {
      SweepLive(o, env, h, SweepFrom(1));
      SweepRunsSizes(o, env, h, SweepFrom(1));
      SweepSizesAscendInt32();
    }
  }

  /**
   * A failed GLOO_ENFORCE ends the process: from a running process, an abort
   * can only be the last event of run(fn).
   */
  lemma RunAbortLast(o: Options, env: Env, st: State)
    requires Live(st)
    ensures AbortLast(RunStep(o, env, st).trace)
  {
    HeaderLive(o, st);
    var h := HeaderStep(o, st);
    if 0 < o.elements {
      PointAbortLast(o, env, h, o.elements);
    } else {
      forall s, n | Live(s)
        ensures AbortLast(Point(o, env)(s, n).trace) && (Live(Point(o, env)(s, n)) <==> !Aborts(o, env)(n))
      {
        PointAbortLast(o, env, s, n);
        PointLive(o, env, s, n);
      }
      SweepAbortLast(Point(o, env), Aborts(o, env), h, SweepFrom(1));
    }
  }

  /** Every context a runner connects has a name no earlier context had. */
  lemma NamesNeverRepeat(o: Options, st: State)
    requires Inv(o, st)
    ensures forall i, j :: 0 <= i < j < |Project(st.trace, NameOf)| ==>
      Project(st.trace, NameOf)[i] != Project(st.trace, NameOf)[j]
  {
    NamesFromDistinct(o.prefix, 0, st.counter);
  }

  /**
   * From a fresh runner whose device exists and whose 21 size points all
   * complete, the sweep's first size point connects under counter value 2 and
   * its k-th under 2 + k, after the broadcast (0) and barrier (1) contexts.
   */
  lemma SizePointCounters(o: Options, env: Env, build: Build)
    requires ResolveDevice(o.transport, build).Some?
    requires o.elements <= 0
    requires AllComplete(o, env, SweepFrom(1))
    ensures Project(RunStep(o, env, StartState(o, build)).trace, NameOf)
         == NamesFrom(o.prefix, 0, 2) + NamesFrom(o.prefix, 2, 21)
  {
    var st := StartState(o, build);
    StartKeepsInv(o, build);
    HeaderKeepsInv(o, st);
    var h := HeaderStep(o, st);
    SweepNames(o, env, h, SweepFrom(1));
    SweepSizesAscendInt32();
  }

  /** Before the first size point rank 0 has run nothing and printed only the header. */
  lemma StartHeaderRuns(o: Options, build: Build)
    requires ResolveDevice(o.transport, build).Some? && o.contextRank == 0
    ensures var h := HeaderStep(o, StartState(o, build));
      && Project(h.trace, WarmupOf) == []
      && Project(h.trace, BroadcastOf) == []
      && Project(h.trace, TimedOf) == []
      && Project(h.trace, PrintOf) == [Header(HeaderLabels())]
  {
    var a, b := ContextCreated(ContextName(o.prefix, 0)), ContextCreated(ContextName(o.prefix, 1));
    var hd := Print(Header(HeaderLabels()));
    assert HeaderStep(o, StartState(o, build)).trace == [a] + [b] + [hd];
    ProjectAppend([a] + [b], [hd], WarmupOf);
    ProjectAppend([a] + [b], [hd], BroadcastOf);
    ProjectAppend([a] + [b], [hd], TimedOf);
    ProjectAppend([a] + [b], [hd], PrintOf);
    ProjectAppend([a], [b], WarmupOf);
    ProjectAppend([a], [b], BroadcastOf);
    ProjectAppend([a], [b], TimedOf);
    ProjectAppend([a], [b], PrintOf);
  }

  /** With a configured element count, run(fn) is the start, the header and that one size point. */
  lemma SingleSizeTrace(o: Options, env: Env, build: Build)
    requires ResolveDevice(o.transport, build).Some? && 0 < o.elements
    ensures RunStep(o, env, StartState(o, build)).trace
         == HeaderStep(o, StartState(o, build)).trace + PointEvents(o, env, 2, o.elements)
    ensures RunStep(o, env, StartState(o, build)).counter == 3
  {
  }

  /** With a configured element count, run(fn) connects three contexts in all, under counters 0, 1 and 2. */
  lemma SingleSizeNames(o: Options, env: Env, build: Build)
    requires ResolveDevice(o.transport, build).Some? && 0 < o.elements
    ensures Project(RunStep(o, env, StartState(o, build)).trace, NameOf) == NamesFrom(o.prefix, 0, 3)
  {
    var st := StartState(o, build);
    StartKeepsInv(o, build);
    HeaderKeepsInv(o, st);
    PointKeepsInv(o, env, HeaderStep(o, st), o.elements);
    SingleSizeTrace(o, env, build);
  }

  /** The repetitions and broadcasts of the fixed-count scenario below. */
  lemma FixedCountRuns(o: Options, env: Env, build: Build)
    requires ResolveDevice(o.transport, build).Some?
    requires o.contextRank == 0 && o.elements == 1000 && o.iterationCount == 100 && !o.verify
    ensures var done := RunStep(o, env, StartState(o, build));
      && Project(done.trace, WarmupOf) == []
      && Project(done.trace, BroadcastOf) == []
      && Project(done.trace, TimedOf) == TimedSamples(env, 1000, 100)
  {
    var h := HeaderStep(o, StartState(o, build));
    var e := PointEvents(o, env, 2, 1000);
    SingleSizeTrace(o, env, build);
    StartHeaderRuns(o, build);
    ProjectAppend(h.trace, e, WarmupOf);
    ProjectAppend(h.trace, e, BroadcastOf);
    ProjectAppend(h.trace, e, TimedOf);
    ProjectPointRuns(o, env, 2, 1000);
  }

  /** The lines the fixed-count scenario below prints. */
  lemma FixedCountPrints(o: Options, env: Env, build: Build)
    requires ResolveDevice(o.transport, build).Some?
    requires o.contextRank == 0 && o.elements == 1000 && o.iterationCount == 100 && !o.verify
    ensures Project(RunStep(o, env, StartState(o, build)).trace, PrintOf)
         == [Header(HeaderLabels()), Row(ReportRow(1000, TimedSamples(env, 1000, 100), env.percentile))]
  {
    var h := HeaderStep(o, StartState(o, build));
    var e := PointEvents(o, env, 2, 1000);
    SingleSizeTrace(o, env, build);
    StartHeaderRuns(o, build);
    ProjectAppend(h.trace, e, PrintOf);
    FixedCountRow(o, env);
  }

  lemma FixedCountRow(o: Options, env: Env)
    requires o.contextRank == 0 && o.iterationCount == 100 && !o.verify
    ensures Project(PointEvents(o, env, 2, 1000), PrintOf)
         == [Row(ReportRow(1000, TimedSamples(env, 1000, 100), env.percentile))]
  {
    ProjectPointPrints(o, env, 2, 1000);
    assert Outcome(o, env, 1000) == Ok(100);
  }

  /**
   * A single process (rank 0) with 1000 elements, a fixed count of 100 and no
   * verification: one context beyond the two coordination contexts, no warmup
   * and no broadcast, 100 timed repetitions, and a header followed by one row
   * for 1000 elements with 100 samples.
   */
  lemma FixedCountScenario(o: Options, env: Env, build: Build)
    requires ResolveDevice(o.transport, build).Some?
    requires o.contextRank == 0 && o.elements == 1000 && o.iterationCount == 100 && !o.verify
    ensures var done := RunStep(o, env, StartState(o, build));
      && Project(done.trace, NameOf) == NamesFrom(o.prefix, 0, 3)
      && Project(done.trace, WarmupOf) == []
      && Project(done.trace, BroadcastOf) == []
      && |Project(done.trace, TimedOf)| == 100
      && Project(done.trace, PrintOf)
         == [Header(HeaderLabels()), Row(ReportRow(1000, TimedSamples(env, 1000, 100), env.percentile))]
      && ReportRow(1000, TimedSamples(env, 1000, 100), env.percentile)[0] == 1000
      && ReportRow(1000, TimedSamples(env, 1000, 100), env.percentile)[5] == 100
  {
    SingleSizeNames(o, env, build);
    FixedCountRuns(o, env, build);
    FixedCountPrints(o, env, build);
  }
}
