/** Traces of requests as runs of the arbiter, and inclusion when a loader raises. */
module VramTraces {
  import opened VramLru
  import opened VramInclusion
  import opened VramArbiter

  /** The steps that one request takes when the lock is free. */
  function EventsOf(r: Recency, loaders: Loaders, op: Op): seq<Event> {
    match op
    case Ensure(name, at, loads) =>
      [Event.Requested(name, at)]
      + if !CallsLoader(r, loaders, op) then [] else if loads then [LoaderReturned(at)] else [LoaderRaised]
    case Unload(name) => [UnloadRequested(name)]
    case CleanupIdle(now) => [IdleSweep(now)]
  }

  function Events(r: Recency, loaders: Loaders, budget: int, timeout: int, ops: seq<Op>): seq<Event>
    decreases |ops|
  {
    if ops == [] then []
    else
      EventsOf(r, loaders, ops[0])
      + Events(Apply(r, loaders, budget, timeout, ops[0]), loaders, budget, timeout, ops[1..])
  }

  /** The arbiter between requests. */
  function RecencyOf(s: Arbiter): Recency {
    Recency(s.order, s.inserted)
  }

  lemma {:induction false} AfterAppend(s: Arbiter, budget: nat, timeout: int, es: seq<Event>, fs: seq<Event>)
    requires IsRun(s, budget, timeout, es) && IsRun(After(s, budget, timeout, es), budget, timeout, fs)
    ensures IsRun(s, budget, timeout, es + fs)
    ensures After(s, budget, timeout, es + fs) == After(After(s, budget, timeout, es), budget, timeout, fs)
    decreases |es|
  {
    if es == [] {
      assert es + fs == fs;
    } else {
      hide Next, Enabled;
      AfterAppend(Next(s, budget, timeout, es[0]), budget, timeout, es[1..], fs);
      assert (es + fs)[1..] == es[1..] + fs;
    }
  }

  /** `t` is idle and stands for `r`, nothing registered since `s`. */
  predicate StandsFor(t: Arbiter, s: Arbiter, r: Recency) {
    t.lock.Idle? && t.loaders == s.loaders && RecencyOf(t) == r
  }

  lemma RequestIsRun(s: Arbiter, budget: nat, timeout: int, op: Op)
    requires s.lock.Idle?
    ensures var es := EventsOf(RecencyOf(s), s.loaders, op);
      && IsRun(s, budget, timeout, es)
      && StandsFor(After(s, budget, timeout, es), s, Apply(RecencyOf(s), s.loaders, budget, timeout, op))
  {
    var es := EventsOf(RecencyOf(s), s.loaders, op);
    var t := Next(s, budget, timeout, es[0]);
    if |es| == 2 {
      assert es[1..] == [es[1]] && es[1..][1..] == [];
      assert IsRun(t, budget, timeout, es[1..]);
      assert After(t, budget, timeout, es[1..]) == Next(t, budget, timeout, es[1]);
    } else {
      assert es[1..] == [];
    }
  }

  /** Every trace of requests is a run of the arbiter: a cold request is its request step and the
      return, or the failure, of its loader. */
  lemma {:induction false} TraceIsRun(s: Arbiter, budget: nat, timeout: int, ops: seq<Op>)
    requires s.lock.Idle?
    ensures var es := Events(RecencyOf(s), s.loaders, budget, timeout, ops);
      && IsRun(s, budget, timeout, es)
      && StandsFor(After(s, budget, timeout, es), s, Replay(RecencyOf(s), s.loaders, budget, timeout, ops))
    decreases |ops|
  {
    if ops != [] {
      RequestIsRun(s, budget, timeout, ops[0]);
      var first := EventsOf(RecencyOf(s), s.loaders, ops[0]);
      var t := After(s, budget, timeout, first);
      hide Apply, EventsOf;
      TraceIsRun(t, budget, timeout, ops[1..]);
      AfterAppend(s, budget, timeout, first, Events(RecencyOf(t), t.loaders, budget, timeout, ops[1..]));
    }
  }

  /** A load that raises under the smaller budget, as the step of two runs: what it evicts is lost
      to inclusion exactly when the larger manager has the model warm and something survives. */
  lemma FailedLoadKeepsIff(a: Recency, b: Recency, s: Setting, x: Op, y: Op, clockA: int, clockB: int)
    requires Shaped(a, s.loaders, clockA) && Shaped(b, s.loaders, clockB) && s.small <= s.large
    requires Inside(a.order, b.order, false)
    requires x.Ensure? && SameRequest(x, y) && clockA < x.at && clockB < y.at
    requires CallsLoader(a, s.loaders, x) && !x.loads && !y.loads
    ensures Inside(Apply(a, s.loaders, s.small, s.timeout, x).order, Apply(b, s.loaders, s.large, s.timeout, y).order,
      false)
       <==> !Loaded(b.order, y.name) || EvictsAll(a.order, s.loaders[x.name].vramMb, s.small)
  {
    StepIff(a, b, s, x, y, clockA, clockB, false);
  }

  function FourModels(): Loaders {
    map["x" := LoaderInfo(2, 1), "y" := LoaderInfo(2, 1), "a" := LoaderInfo(1, 1), "z" := LoaderInfo(2, 1)]
  }

  /** The loader of x works at first, and raises the next time it is called. */
  const REQUESTS: seq<Op> :=
    [Ensure("x", 1, true), Ensure("y", 2, true), Unload("y"), Ensure("a", 3, true), Ensure("x", 4, false),
      Ensure("z", 5, true)]

  const REGISTRATIONS: seq<Event> :=
    [Registered("x", LoaderInfo(2, 1)), Registered("y", LoaderInfo(2, 1)),
     Registered("a", LoaderInfo(1, 1)), Registered("z", LoaderInfo(2, 1))]

  lemma RegisteredFour(budget: nat)
    ensures IsRun(Init(), budget, 300, REGISTRATIONS)
    ensures StandsFor(After(Init(), budget, 300, REGISTRATIONS), Init().(loaders := FourModels()), Recency([], 0))
  {
    var s := Init();
    var s1 := Next(s, budget, 300, REGISTRATIONS[0]);
    var s2 := Next(s1, budget, 300, REGISTRATIONS[1]);
    var s3 := Next(s2, budget, 300, REGISTRATIONS[2]);
    var s4 := Next(s3, budget, 300, REGISTRATIONS[3]);
    assert s4.loaders == FourModels();
    hide Next;
    var es := REGISTRATIONS;
    assert es[1..][1..] == es[2..] && es[2..][1..] == es[3..] && es[3..][1..] == [];
    assert IsRun(s3, budget, 300, es[3..]) && After(s3, budget, 300, es[3..]) == s4;
    assert IsRun(s2, budget, 300, es[2..]) && After(s2, budget, 300, es[2..]) == s4;
    assert IsRun(s1, budget, 300, es[1..]) && After(s1, budget, 300, es[1..]) == s4;
  }

  lemma {:induction false} EventsThrough(states: seq<Recency>, loaders: Loaders, budget: int, timeout: int,
                                         ops: seq<Op>, e: Event)
    requires |states| == |ops| + 1
    requires forall i :: 0 <= i < |ops| ==> states[i + 1] == Apply(states[i], loaders, budget, timeout, ops[i])
    ensures e in Events(states[0], loaders, budget, timeout, ops) <==>
      exists i :: 0 <= i < |ops| && e in EventsOf(states[i], loaders, ops[i])
    decreases |ops|
  {
    if ops != [] {
      hide Apply, EventsOf;
      assert states[1] == Apply(states[0], loaders, budget, timeout, ops[0]);
      EventsThrough(states[1..], loaders, budget, timeout, ops[1..], e);
      forall i | 0 < i < |ops| ensures states[i] == states[1..][i - 1] && ops[i] == ops[1..][i - 1] {
      }
    }
  }

  lemma SmallerKeepsA()
    ensures LoaderRaised in Events(Recency([], 0), FourModels(), 3, 300, REQUESTS)
    ensures Replay(Recency([], 0), FourModels(), 3, 300, REQUESTS)
      == Recency([Entry("a", 1, 3, 2), Entry("z", 2, 5, 3)], 4)
  {
    var x, y, a, z := Entry("x", 2, 1, 0), Entry("y", 2, 2, 1), Entry("a", 1, 3, 2), Entry("z", 2, 5, 3);
    ColdBesideOne(x, 1, FourModels(), 3, 300, "y", 2);
    ColdBesideOne(a, 3, FourModels(), 3, 300, "z", 5);
    assert Without([y], "y") == [] by { assert [y][1..] == []; }
    assert Used([a]) == 1 && !Loaded([a], "x") by { assert [a][1..] == []; }
    var states := [Recency([], 0), Recency([x], 1), Recency([y], 2), Recency([], 2), Recency([a], 3), Recency([a], 3),
      Recency([a, z], 4)];
    ReplayThrough(states, FourModels(), 3, 300, REQUESTS);
    assert LoaderRaised in EventsOf(states[4], FourModels(), REQUESTS[4]);
    EventsThrough(states, FourModels(), 3, 300, REQUESTS, LoaderRaised);
  }

  const LARGER_STATES: seq<Recency> :=
    var x, y, a, again, z :=
      Entry("x", 2, 1, 0), Entry("y", 2, 2, 1), Entry("a", 1, 3, 2), Entry("x", 2, 4, 0), Entry("z", 2, 5, 3);
    [Recency([], 0), Recency([x], 1), Recency([x, y], 2), Recency([x], 2), Recency([x, a], 3),
     Recency([a, again], 3), Recency([again, z], 4)]

  lemma LargerSteps(i: nat)
    requires i < |REQUESTS|
    ensures LARGER_STATES[i + 1] == Apply(LARGER_STATES[i], FourModels(), 4, 300, REQUESTS[i])
    ensures LoaderRaised !in EventsOf(LARGER_STATES[i], FourModels(), REQUESTS[i])
  {
    assert LARGER_STATES[4].order[0].name == "x";
    var x, y, a, z := Entry("x", 2, 1, 0), Entry("y", 2, 2, 1), Entry("a", 1, 3, 2), Entry("z", 2, 5, 3);
    if i == 1 { ColdBesideOne(x, 1, FourModels(), 4, 300, "y", 2); }
    if i == 2 { UnloadSecond(x, y); }
    if i == 3 { ColdBesideOne(x, 2, FourModels(), 4, 300, "a", 3); }
    if i == 4 { TouchFirst(x, a, 4); }
    if i == 5 {
      EvictFirst(a, x.(lastUsed := 4), 2, 4);
      LaterAtEnd([x.(lastUsed := 4)], z);
    }
  }

  lemma LargerLosesA()
    ensures LoaderRaised !in Events(Recency([], 0), FourModels(), 4, 300, REQUESTS)
    ensures Replay(Recency([], 0), FourModels(), 4, 300, REQUESTS)
      == Recency([Entry("x", 2, 4, 0), Entry("z", 2, 5, 3)], 4)
  {
    hide Apply, EventsOf, FourModels, Events, Replay;
    forall i | 0 <= i < |REQUESTS|
      ensures LARGER_STATES[i + 1] == Apply(LARGER_STATES[i], FourModels(), 4, 300, REQUESTS[i])
      ensures LoaderRaised !in EventsOf(LARGER_STATES[i], FourModels(), REQUESTS[i])
    {
      LargerSteps(i);
    }
    ReplayThrough(LARGER_STATES, FourModels(), 4, 300, REQUESTS);
    EventsThrough(LARGER_STATES, FourModels(), 4, 300, REQUESTS, LoaderRaised);
  }

  lemma UnloadSecond(x: Entry, y: Entry)
    requires x.name != y.name
    ensures Without([x, y], y.name) == [x]
  {
    assert [x, y][1..] == [y] && [y][1..] == [];
    assert Without([y], y.name) == [];
  }

  lemma EvictFirst(e: Entry, f: Entry, needed: nat, budget: int)
    requires e.mb + f.mb + needed > budget && f.mb + needed <= budget
    ensures Evict([e, f], needed, budget) == [f]
  {
    assert [e, f][1..] == [f] && [f][1..] == [];
    assert Used([f]) == f.mb && Used([e, f]) == e.mb + f.mb;
    assert Evict([f], needed, budget) == [f];
  }

  /** Two runs from the start, the same requests, budgets 3 and 4: the one failed load leaves a in the
      smaller manager when the larger one has lost it. */
  lemma FailedLoadBreaksInclusion()
    ensures var es := REGISTRATIONS + Events(Recency([], 0), FourModels(), 3, 300, REQUESTS);
      var fs := REGISTRATIONS + Events(Recency([], 0), FourModels(), 4, 300, REQUESTS);
      && LoaderRaised in es && LoaderRaised !in fs
      && IsRun(Init(), 3, 300, es) && IsRun(Init(), 4, 300, fs)
      && Loaded(After(Init(), 3, 300, es).order, "a") && !Loaded(After(Init(), 4, 300, fs).order, "a")
  {
    var a, z, x := Entry("a", 1, 3, 2), Entry("z", 2, 5, 3), Entry("x", 2, 4, 0);
    assert Loaded([a, z], "a") by { assert [a, z][0].name == "a"; }
    assert !Loaded([x, z], "a");
    hide Loaded, Events, Replay, After, IsRun, FourModels;
    SmallerKeepsA();
    LargerLosesA();
    RunFromStart(3);
    RunFromStart(4);
  }

  lemma NoneRaised(es: seq<Event>)
    ensures LoaderRaised in REGISTRATIONS + es <==> LoaderRaised in es
  {
    assert forall i :: 0 <= i < |REGISTRATIONS| ==> REGISTRATIONS[i].Registered?;
  }

  lemma RunFromStart(budget: nat)
    ensures var es := REGISTRATIONS + Events(Recency([], 0), FourModels(), budget, 300, REQUESTS);
      && IsRun(Init(), budget, 300, es)
      && After(Init(), budget, 300, es).order == Replay(Recency([], 0), FourModels(), budget, 300, REQUESTS).order
      && (LoaderRaised in es <==> LoaderRaised in Events(Recency([], 0), FourModels(), budget, 300, REQUESTS))
  {
    NoneRaised(Events(Recency([], 0), FourModels(), budget, 300, REQUESTS));
    hide Events, Replay;
    RegisteredFour(budget);
    var s := After(Init(), budget, 300, REGISTRATIONS);
    TraceIsRun(s, budget, 300, REQUESTS);
    AfterAppend(Init(), budget, 300, REGISTRATIONS, Events(RecencyOf(s), s.loaders, budget, 300, REQUESTS));
  }
}
