/** Two managers under a smaller and a larger budget, given the same requests.

    Each has a clock of its own: a model that one loads cold and the other has warm is stamped at
    different times.  What they share is compared by names and sizes. */
module VramInclusion {
  import opened VramLru

  predicate SuffixOf(a: seq<Entry>, b: seq<Entry>) {
    |a| <= |b| && a == b[|b| - |a|..]
  }

  /** A model by name and size, and by time stamp if `stamps`. */
  function Seen(e: Entry, stamps: bool): Entry {
    Entry(e.name, e.mb, if stamps then e.lastUsed else 0, 0)
  }

  function View(l: seq<Entry>, stamps: bool): seq<Entry> {
    seq(|l|, i requires 0 <= i < |l| => Seen(l[i], stamps))
  }

  /** `a` holds the most recently used models of `b`: a subset, closed upwards in recency. */
  predicate Inside(a: seq<Entry>, b: seq<Entry>, stamps: bool) {
    SuffixOf(View(a, stamps), View(b, stamps))
  }

  // ------------------------------------------------------- views of operations

  lemma {:induction false} ViewUsed(l: seq<Entry>, stamps: bool)
    ensures Used(View(l, stamps)) == Used(l)
  {
    if l != [] {
      ViewUsed(l[1..], stamps);
      assert View(l, stamps)[1..] == View(l[1..], stamps);
    }
  }

  lemma {:induction false} ViewEvict(l: seq<Entry>, needed: nat, budget: int, stamps: bool)
    ensures View(Evict(l, needed, budget), stamps) == Evict(View(l, stamps), needed, budget)
  {
    ViewUsed(l, stamps);
    if l != [] {
      ViewEvict(l[1..], needed, budget, stamps);
      assert View(l, stamps)[1..] == View(l[1..], stamps);
    }
  }

  lemma {:induction false} ViewWithout(l: seq<Entry>, name: string, stamps: bool)
    ensures View(Without(l, name), stamps) == Without(View(l, stamps), name)
  {
    if l != [] {
      ViewWithout(l[1..], name, stamps);
      assert View(l, stamps)[1..] == View(l[1..], stamps);
      if l[0].name != name {
        assert View([l[0]] + Without(l[1..], name), stamps)
          == [Seen(l[0], stamps)] + View(Without(l[1..], name), stamps);
      }
    }
  }

  lemma ViewLoaded(l: seq<Entry>, name: string, stamps: bool)
    ensures Loaded(View(l, stamps), name) <==> Loaded(l, name)
  {
    if Loaded(l, name) {
      var i :| 0 <= i < |l| && l[i].name == name;
      assert View(l, stamps)[i].name == name;
    }
  }

  lemma ViewSnoc(l: seq<Entry>, x: Entry, stamps: bool)
    ensures View(l + [x], stamps) == View(l, stamps) + [Seen(x, stamps)]
  {
  }

  // ------------------------------------------------------- lists under budgets

  lemma {:induction false} WithoutAppend(p: seq<Entry>, a: seq<Entry>, name: string)
    ensures Without(p + a, name) == Without(p, name) + Without(a, name)
  {
    if p == [] {
      assert p + a == a;
    } else {
      assert (p + a)[1..] == p[1..] + a;
      WithoutAppend(p[1..], a, name);
    }
  }

  lemma SuffixSplit(a: seq<Entry>, b: seq<Entry>) returns (p: seq<Entry>)
    requires SuffixOf(a, b)
    ensures b == p + a
  {
    p := b[..|b| - |a|];
  }

  lemma SuffixTransitive(a: seq<Entry>, b: seq<Entry>, c: seq<Entry>)
    requires SuffixOf(a, b) && SuffixOf(b, c)
    ensures SuffixOf(a, c)
  {
  }

  lemma SuffixSnoc(a: seq<Entry>, b: seq<Entry>, x: Entry)
    ensures SuffixOf(a + [x], b + [x]) <==> SuffixOf(a, b)
  {
    if SuffixOf(a + [x], b + [x]) {
      assert a == (a + [x])[..|a|];
      assert b[|b| - |a|..] == (b + [x])[|b| - |a|..][..|a|];
    }
  }

  lemma WithoutKeepsSuffix(a: seq<Entry>, b: seq<Entry>, name: string)
    requires SuffixOf(a, b)
    ensures SuffixOf(Without(a, name), Without(b, name))
  {
    var p := SuffixSplit(a, b);
    WithoutAppend(p, a, name);
  }

  /** A smaller budget keeps a more recent part, whatever the two lists are. */
  lemma {:induction false} EvictInclusion(a: seq<Entry>, b: seq<Entry>, needed: nat, small: int, large: int)
    requires SuffixOf(a, b) && small <= large
    ensures SuffixOf(Evict(a, needed, small), Evict(b, needed, large))
  {
    if b == [] || Used(b) + needed <= large {
      EvictIsShortestPrefix(a, needed, small);
      SuffixTransitive(Evict(a, needed, small), a, b);
    } else if |a| == |b| {
      assert a == b;
      EvictInclusion(a[1..], b[1..], needed, small, large);
    } else {
      assert SuffixOf(a, b[1..]);
      EvictInclusion(a, b[1..], needed, small, large);
    }
  }

  /** What a request does to the view of a list: `x` is the model it leaves at the recent end. */
  function Requested(l: seq<Entry>, needed: nat, budget: int, x: Entry, loads: bool): seq<Entry> {
    if Loaded(l, x.name) then Without(l, x.name) + [x]
    else if loads then Evict(l, needed, budget) + [x]
    else Evict(l, needed, budget)
  }

  /** The condition, by what each manager has loaded and what its loader does if called. */
  predicate RequestKeeps(a: seq<Entry>, b: seq<Entry>, needed: nat, small: int, name: string, loadsA: bool,
                         loadsB: bool)
  {
    || Loaded(a, name)
    || (if Loaded(b, name) then loadsA || EvictsAll(a, needed, small)
        else loadsA == loadsB || (loadsB && EvictsAll(a, needed, small)))
  }

  lemma EndsOutside(a: seq<Entry>, c: seq<Entry>, x: Entry)
    requires !Loaded(a, x.name)
    ensures SuffixOf(a, c + [x]) <==> a == []
    ensures !SuffixOf(c + [x], a)
  {
    if a != [] {
      assert a[|a| - 1] != x;
      assert (c + [x])[|c|] == x;
    }
  }

  lemma RequestIff(a: seq<Entry>, b: seq<Entry>, needed: nat, small: int, large: int, x: Entry, loadsA: bool,
                   loadsB: bool)
    requires SuffixOf(a, b) && small <= large
    ensures SuffixOf(Requested(a, needed, small, x, loadsA), Requested(b, needed, large, x, loadsB))
       <==> RequestKeeps(a, b, needed, small, x.name, loadsA, loadsB)
  {
    var keptA, keptB := Evict(a, needed, small), Evict(b, needed, large);
    WithoutKeepsSuffix(a, b, x.name);
    EvictInclusion(a, b, needed, small, large);
    EvictsAllIff(a, needed, small);
    EvictedLoaded(a, needed, small, x.name);
    EvictedLoaded(b, needed, large, x.name);
    SuffixSnoc(Without(a, x.name), Without(b, x.name), x);
    SuffixSnoc(keptA, Without(b, x.name), x);
    SuffixSnoc(keptA, keptB, x);
    if Loaded(a, x.name) {
      var i :| 0 <= i < |a| && a[i].name == x.name;
      assert b[|b| - |a| + i].name == x.name;
    } else {
      WithoutAbsent(a, x.name);
      EvictIsShortestPrefix(a, needed, small);
      SuffixTransitive(keptA, a, Without(b, x.name));
      EndsOutside(keptA, Without(b, x.name), x);
      EndsOutside(keptA, keptB, x);
      if !Loaded(b, x.name) { EndsOutside(keptB, keptA, x); }
    }
  }

  // ---------------------------------------------------------- one step of both

  /** What the two managers have in common; `small <= large` throughout. */
  datatype Setting = Setting(loaders: Loaders, small: int, large: int, timeout: int)

  predicate SameRequest(x: Op, y: Op) {
    match x
    case Ensure(name, _, _) => y.Ensure? && y.name == name
    case Unload(name) => y == Unload(name)
    case CleanupIdle(_) => y.CleanupIdle?
  }

  /** Each model that a sweep leaves the smaller manager, it leaves the larger one too. */
  predicate SweepKeeps(a: seq<Entry>, b: seq<Entry>, timeout: int, nowA: int, nowB: int) {
    forall i :: 0 <= i < |a| && |a| <= |b| && nowA - a[i].lastUsed <= timeout ==>
      nowB - b[|b| - |a| + i].lastUsed <= timeout
  }

  /** The condition under which a request keeps the inclusion, by what can be seen before it. */
  predicate StepKeeps(a: Recency, b: Recency, s: Setting, x: Op, y: Op)
    requires SameRequest(x, y)
  {
    match x
    case Ensure(name, _, loads) =>
      name in s.loaders ==> RequestKeeps(a.order, b.order, s.loaders[name].vramMb, s.small, name, loads, y.loads)
    case Unload(_) => true
    case CleanupIdle(now) => SweepKeeps(a.order, b.order, s.timeout, now, y.now)
  }

  lemma RequestedView(r: Recency, loaders: Loaders, budget: int, timeout: int, op: Op, clock: int, stamps: bool)
    requires Shaped(r, loaders, clock) && op.Ensure? && clock < op.at && op.name in loaders
    ensures var x := Seen(Entry(op.name, loaders[op.name].vramMb, op.at, 0), stamps);
      View(Apply(r, loaders, budget, timeout, op).order, stamps)
        == Requested(View(r.order, stamps), x.mb, budget, x, op.loads)
  {
    var needed := loaders[op.name].vramMb;
    ViewLoaded(r.order, op.name, stamps);
    if Loaded(r.order, op.name) {
      var x, rest := Find(r.order, op.name).(lastUsed := op.at), Without(r.order, op.name);
      forall e ensures e in rest ==> e in r.order && e.name != op.name { WithoutMember(r.order, op.name, e); }
      PlacedAtEnd(r.order, rest, r.inserted, x, clock);
      ViewWithout(r.order, op.name, stamps);
      ViewSnoc(rest, x, stamps);
    } else {
      var x, kept := Entry(op.name, needed, op.at, r.inserted), Evict(r.order, needed, budget);
      ViewEvict(r.order, needed, budget, stamps);
      EvictIsShortestPrefix(r.order, needed, budget);
      OrderedDistinct(r.order, r.inserted);
      LaterAtEnd(kept, x);
      ViewSnoc(kept, x, stamps);
    }
  }

  lemma {:induction false} LaterAtEnd(l: seq<Entry>, x: Entry)
    requires forall e :: e in l ==> e.lastUsed < x.lastUsed
    ensures Place(l, x) == l + [x]
  {
    if l != [] {
      LaterAtEnd(l[1..], x);
      assert (l + [x])[1..] == l[1..] + [x];
    }
  }

  lemma PlacedAtEnd(l: seq<Entry>, rest: seq<Entry>, n: nat, x: Entry, clock: int)
    requires UpTo(l, clock) && clock < x.lastUsed && forall e :: e in rest ==> e in l
    ensures Place(rest, x) == rest + [x]
  {
    LaterAtEnd(rest, x);
  }

  lemma RequestKeepsView(a: seq<Entry>, b: seq<Entry>, needed: nat, small: int, name: string, loadsA: bool,
                         loadsB: bool, stamps: bool)
    ensures RequestKeeps(View(a, stamps), View(b, stamps), needed, small, name, loadsA, loadsB)
       <==> RequestKeeps(a, b, needed, small, name, loadsA, loadsB)
  {
    ViewLoaded(a, name, stamps);
    ViewLoaded(b, name, stamps);
  }

  lemma EnsureIff(a: Recency, b: Recency, s: Setting, x: Op, y: Op, clockA: int, clockB: int, stamps: bool)
    requires Shaped(a, s.loaders, clockA) && Shaped(b, s.loaders, clockB) && s.small <= s.large
    requires x.Ensure? && SameRequest(x, y) && clockA < x.at && clockB < y.at && (stamps ==> x.at == y.at)
    requires Inside(a.order, b.order, stamps)
    ensures Inside(Apply(a, s.loaders, s.small, s.timeout, x).order, Apply(b, s.loaders, s.large, s.timeout, y).order,
      stamps)
       <==> StepKeeps(a, b, s, x, y)
  {
    if x.name in s.loaders {
      var needed := s.loaders[x.name].vramMb;
      RequestedView(a, s.loaders, s.small, s.timeout, x, clockA, stamps);
      RequestedView(b, s.loaders, s.large, s.timeout, y, clockB, stamps);
      RequestKeepsView(a.order, b.order, needed, s.small, x.name, x.loads, y.loads, stamps);
      hide Apply, Requested, RequestKeeps, View, SuffixOf;
      RequestIff(View(a.order, stamps), View(b.order, stamps), needed, s.small, s.large,
                 Seen(Entry(x.name, needed, x.at, 0), stamps), x.loads, y.loads);
    } else {
      UnknownIsIgnored(a, s.loaders, s.small, s.timeout, x, clockA);
      UnknownIsIgnored(b, s.loaders, s.large, s.timeout, y, clockB);
    }
  }

  lemma UnknownIsIgnored(r: Recency, loaders: Loaders, budget: int, timeout: int, op: Op, clock: int)
    requires Shaped(r, loaders, clock) && op.Ensure? && op.name !in loaders
    ensures Apply(r, loaders, budget, timeout, op) == r
  {
    forall i | 0 <= i < |r.order| ensures r.order[i].name != op.name { assert r.order[i] in r.order; }
  }

  lemma UnloadKeeps(a: Recency, b: Recency, s: Setting, name: string, stamps: bool)
    requires Inside(a.order, b.order, stamps)
    ensures Inside(Without(a.order, name), Without(b.order, name), stamps)
  {
    ViewWithout(a.order, name, stamps);
    ViewWithout(b.order, name, stamps);
    WithoutKeepsSuffix(View(a.order, stamps), View(b.order, stamps), name);
  }

  /** A sweep drops a prefix. */
  lemma {:induction false} SweepDropsPrefix(l: seq<Entry>, n: nat, now: int, timeout: int) returns (k: nat)
    requires Ordered(l, n)
    ensures k <= |l| && Fresh(l, now, timeout) == l[k..]
    ensures forall i :: 0 <= i < |l| ==> (now - l[i].lastUsed <= timeout <==> k <= i)
  {
    OrderedDistinct(l, n);
    if l == [] {
      k := 0;
    } else if now - l[0].lastUsed > timeout {
      var j := SweepDropsPrefix(l[1..], n, now, timeout);
      k := j + 1;
      forall i | 0 < i < |l| ensures l[i] == l[1..][i-1] {
      }
    } else {
      k := 0;
      NoneStale(l, now, timeout);
    }
  }

  lemma {:induction false} NoneStale(l: seq<Entry>, now: int, timeout: int)
    requires forall i :: 0 <= i < |l| ==> now - l[i].lastUsed <= timeout
    ensures Fresh(l, now, timeout) == l
  {
    if l != [] { NoneStale(l[1..], now, timeout); }
  }

  lemma SweepIff(a: seq<Entry>, b: seq<Entry>, n: nat, m: nat, timeout: int, nowA: int, nowB: int, stamps: bool)
    requires Ordered(a, n) && Ordered(b, m) && Inside(a, b, stamps)
    ensures Inside(Fresh(a, nowA, timeout), Fresh(b, nowB, timeout), stamps) <==> SweepKeeps(a, b, timeout, nowA, nowB)
  {
    var i := SweepDropsPrefix(a, n, nowA, timeout);
    var j := SweepDropsPrefix(b, m, nowB, timeout);
    hide Ordered, Fresh;
    SuffixViews(a, b, i, j, stamps);
    if i < |a| { assert nowA - a[i].lastUsed <= timeout; }
  }

  lemma SuffixViews(a: seq<Entry>, b: seq<Entry>, i: nat, j: nat, stamps: bool)
    requires Inside(a, b, stamps) && i <= |a| && j <= |b|
    ensures Inside(a[i..], b[j..], stamps) <==> |a| - i <= |b| - j
  {
    if |a| - i <= |b| - j {
      assert View(a[i..], stamps) == View(a, stamps)[i..];
      assert View(b[j..], stamps)[|b| - j - (|a| - i)..] == View(b, stamps)[|b| - |a|..][i..];
    }
  }

  /** One request, whatever it is: with independent clocks the inclusion is kept exactly under the
      condition. */
  lemma StepIff(a: Recency, b: Recency, s: Setting, x: Op, y: Op, clockA: int, clockB: int, stamps: bool)
    requires Shaped(a, s.loaders, clockA) && Shaped(b, s.loaders, clockB) && s.small <= s.large
    requires SameRequest(x, y) && (x.Ensure? ==> clockA < x.at && clockB < y.at && (stamps ==> x.at == y.at))
    requires Inside(a.order, b.order, stamps)
    ensures Inside(Apply(a, s.loaders, s.small, s.timeout, x).order, Apply(b, s.loaders, s.large, s.timeout, y).order,
      stamps)
       <==> StepKeeps(a, b, s, x, y)
  {
    match x
    case Ensure(_, _, _) => EnsureIff(a, b, s, x, y, clockA, clockB, stamps);
    case Unload(name) => UnloadKeeps(a, b, s, name, stamps);
    case CleanupIdle(now) => SweepIff(a.order, b.order, a.inserted, b.inserted, s.timeout, now, y.now, stamps);
  }

  // --------------------------------------------------------------- whole traces

  predicate SameRequests(xs: seq<Op>, ys: seq<Op>) {
    |xs| == |ys| && forall i :: 0 <= i < |xs| ==> SameRequest(xs[i], ys[i])
  }

  predicate AlwaysInside(a: Recency, b: Recency, s: Setting, xs: seq<Op>, ys: seq<Op>)
    requires |xs| == |ys|
    decreases |xs|
  {
    Inside(a.order, b.order, false) &&
    (xs == [] ||
     AlwaysInside(Apply(a, s.loaders, s.small, s.timeout, xs[0]), Apply(b, s.loaders, s.large, s.timeout, ys[0]), s,
       xs[1..], ys[1..]))
  }

  predicate StepsKeep(a: Recency, b: Recency, s: Setting, xs: seq<Op>, ys: seq<Op>)
    requires SameRequests(xs, ys)
    decreases |xs|
  {
    xs == [] ||
    (StepKeeps(a, b, s, xs[0], ys[0]) &&
     StepsKeep(Apply(a, s.loaders, s.small, s.timeout, xs[0]), Apply(b, s.loaders, s.large, s.timeout, ys[0]), s,
       xs[1..], ys[1..]))
  }

  lemma LoadedInside(a: seq<Entry>, b: seq<Entry>, name: string)
    requires Inside(a, b, false) && Loaded(a, name)
    ensures Loaded(b, name)
  {
    var i :| 0 <= i < |a| && a[i].name == name;
    assert View(b, false)[|b| - |a|..][i].name == name;
    assert b[|b| - |a| + i].name == name;
  }

  lemma CallInSmaller(a: Recency, b: Recency, s: Setting, x: Op, y: Op)
    requires Inside(a.order, b.order, false) && SameRequest(x, y)
    ensures CallsLoader(b, s.loaders, y) ==> CallsLoader(a, s.loaders, x)
  {
    if CallsLoader(b, s.loaders, y) && Loaded(a.order, x.name) { LoadedInside(a.order, b.order, x.name); }
  }

  /** Two managers with clocks of their own, the same requests, loaders that may raise and idle
      sweeps: the smaller one's models are at every moment the most recently used part of the larger
      one's exactly when every step meets its condition. */
  lemma {:induction false} InsideThroughoutIff(
    a: Recency, b: Recency, s: Setting, xs: seq<Op>, ys: seq<Op>, clockA: int, clockB: int)
    requires Shaped(a, s.loaders, clockA) && Shaped(b, s.loaders, clockB) && s.small <= s.large
    requires Inside(a.order, b.order, false)
    requires SameRequests(xs, ys) && Ticks(xs, clockA) && Ticks(ys, clockB)
    ensures AlwaysInside(a, b, s, xs, ys) <==> StepsKeep(a, b, s, xs, ys)
    decreases |xs|
  {
    if xs != [] {
      var a1, b1 := Apply(a, s.loaders, s.small, s.timeout, xs[0]), Apply(b, s.loaders, s.large, s.timeout, ys[0]);
      StepIff(a, b, s, xs[0], ys[0], clockA, clockB, false);
      ApplyKeepsShape(a, s.loaders, s.small, s.timeout, xs[0], clockA);
      ApplyKeepsShape(b, s.loaders, s.large, s.timeout, ys[0], clockB);
      hide Apply, Inside, Shaped, StepKeeps;
      if Inside(a1.order, b1.order, false) {
        InsideThroughoutIff(a1, b1, s, xs[1..], ys[1..], ClockAfter(xs[0], clockA), ClockAfter(ys[0], clockB));
      }
    }
  }

  /** And then the larger budget never calls a loader more often. */
  lemma {:induction false} InsideMeansFewerLoads(a: Recency, b: Recency, s: Setting, xs: seq<Op>, ys: seq<Op>)
    requires SameRequests(xs, ys) && AlwaysInside(a, b, s, xs, ys)
    ensures Inside(Replay(a, s.loaders, s.small, s.timeout, xs).order,
      Replay(b, s.loaders, s.large, s.timeout, ys).order, false)
    ensures LoaderCalls(b, s.loaders, s.large, s.timeout, ys) <= LoaderCalls(a, s.loaders, s.small, s.timeout, xs)
    decreases |xs|
  {
    if xs != [] {
      CallInSmaller(a, b, s, xs[0], ys[0]);
      hide Apply, Inside, CallsLoader;
      InsideMeansFewerLoads(
        Apply(a, s.loaders, s.small, s.timeout, xs[0]), Apply(b, s.loaders, s.large, s.timeout, ys[0]), s, xs[1..],
          ys[1..]);
    }
  }

  /** Loaders succeed and no idle sweep runs: nothing else is asked. */
  lemma {:induction false} LargerBudgetIncludesSmaller(
    a: Recency, b: Recency, s: Setting, xs: seq<Op>, ys: seq<Op>, clockA: int, clockB: int)
    requires Shaped(a, s.loaders, clockA) && Shaped(b, s.loaders, clockB) && s.small <= s.large
    requires Inside(a.order, b.order, false)
    requires SameRequests(xs, ys) && Ticks(xs, clockA) && Ticks(ys, clockB)
    requires forall i :: 0 <= i < |xs| ==> !xs[i].CleanupIdle? && (xs[i].Ensure? ==> xs[i].loads && ys[i].loads)
    ensures Inside(Replay(a, s.loaders, s.small, s.timeout, xs).order,
      Replay(b, s.loaders, s.large, s.timeout, ys).order, false)
    ensures LoaderCalls(b, s.loaders, s.large, s.timeout, ys) <= LoaderCalls(a, s.loaders, s.small, s.timeout, xs)
  {
    NothingAsked(a, b, s, xs, ys);
    InsideThroughoutIff(a, b, s, xs, ys, clockA, clockB);
    InsideMeansFewerLoads(a, b, s, xs, ys);
  }

  lemma {:induction false} NothingAsked(a: Recency, b: Recency, s: Setting, xs: seq<Op>, ys: seq<Op>)
    requires SameRequests(xs, ys)
    requires forall i :: 0 <= i < |xs| ==> !xs[i].CleanupIdle? && (xs[i].Ensure? ==> xs[i].loads && ys[i].loads)
    ensures StepsKeep(a, b, s, xs, ys)
    decreases |xs|
  {
    if xs != [] {
      NothingAsked(Apply(a, s.loaders, s.small, s.timeout, xs[0]), Apply(b, s.loaders, s.large, s.timeout, ys[0]), s,
        xs[1..], ys[1..]);
    }
  }

  /** With loads that take no time, so that both managers make the same readings, sweeps are
      included, and a larger budget never calls a loader more often. */
  lemma SharedReadingsKeepInside(a: Recency, b: Recency, s: Setting, ops: seq<Op>, clock: int)
    requires Shaped(a, s.loaders, clock) && Shaped(b, s.loaders, clock) && s.small <= s.large
    requires Inside(a.order, b.order, true) && Ticks(ops, clock)
    requires forall i :: 0 <= i < |ops| && ops[i].Ensure? ==> ops[i].loads
    ensures Inside(Replay(a, s.loaders, s.small, s.timeout, ops).order,
      Replay(b, s.loaders, s.large, s.timeout, ops).order, true)
    ensures LoaderCalls(b, s.loaders, s.large, s.timeout, ops) <= LoaderCalls(a, s.loaders, s.small, s.timeout, ops)
  {
    assert SameRequests(ops, ops);
    hide *;
    SharedReadingsKeepSteps(a, b, s, ops, clock);
    ByNameAndSize(a.order, b.order);
    InsideThroughoutIff(a, b, s, ops, ops, clock, clock);
    InsideMeansFewerLoads(a, b, s, ops, ops);
  }

  lemma ByNameAndSize(a: seq<Entry>, b: seq<Entry>)
    requires Inside(a, b, true)
    ensures Inside(a, b, false)
  {
    forall i | 0 <= i < |a| ensures View(a, false)[i] == View(b, false)[|b| - |a|..][i] {
      assert View(a, true)[i] == View(b, true)[|b| - |a|..][i];
    }
  }

  lemma {:induction false} SharedReadingsKeepSteps(a: Recency, b: Recency, s: Setting, ops: seq<Op>, clock: int)
    requires Shaped(a, s.loaders, clock) && Shaped(b, s.loaders, clock) && s.small <= s.large
    requires Inside(a.order, b.order, true) && Ticks(ops, clock)
    requires forall i :: 0 <= i < |ops| && ops[i].Ensure? ==> ops[i].loads
    ensures Inside(Replay(a, s.loaders, s.small, s.timeout, ops).order,
      Replay(b, s.loaders, s.large, s.timeout, ops).order, true)
    ensures StepsKeep(a, b, s, ops, ops)
    decreases |ops|
  {
    if ops != [] {
      SharedReadingKeeps(a, b, s, ops[0]);
      StepIff(a, b, s, ops[0], ops[0], clock, clock, true);
      ApplyKeepsShape(a, s.loaders, s.small, s.timeout, ops[0], clock);
      ApplyKeepsShape(b, s.loaders, s.large, s.timeout, ops[0], clock);
      hide Apply, Inside, Shaped, StepKeeps;
      SharedReadingsKeepSteps(
        Apply(a, s.loaders, s.small, s.timeout, ops[0]), Apply(b, s.loaders, s.large, s.timeout, ops[0]),
        s, ops[1..], ClockAfter(ops[0], clock));
    }
  }

  lemma SharedReadingKeeps(a: Recency, b: Recency, s: Setting, op: Op)
    requires Inside(a.order, b.order, true) && (op.Ensure? ==> op.loads)
    ensures StepKeeps(a, b, s, op, op)
  {
    SameStamps(a.order, b.order);
  }

  lemma SameStamps(a: seq<Entry>, b: seq<Entry>)
    requires Inside(a, b, true)
    ensures |a| <= |b| && forall i :: 0 <= i < |a| ==> a[i].lastUsed == b[|b| - |a| + i].lastUsed
  {
    forall i | 0 <= i < |a| ensures a[i].lastUsed == b[|b| - |a| + i].lastUsed {
      assert View(a, true)[i] == View(b, true)[|b| - |a|..][i];
    }
  }

  // ------------------------------------------------- when a step does not keep it

  /** x and y are requested, then x again, stamped at `at`; then an idle sweep runs. */
  function TwiceX(at: int): seq<Op> {
    [Ensure("x", 1, true), Ensure("y", 2, true), Ensure("x", at, true), CleanupIdle(320)]
  }

  function TwoOfTwo(): Loaders {
    map["x" := LoaderInfo(2, 1), "y" := LoaderInfo(2, 1)]
  }

  /** The sweep's condition can fail: x is reloaded cold under budget 3 while it is warm under
      budget 4, the loader takes a minute, and the sweep keeps x in the smaller manager only. */
  lemma SweepBreaksInclusion()
    ensures var none := Recency([], 0);
      && SameRequests(TwiceX(70), TwiceX(10)) && Ticks(TwiceX(70), 0) && Ticks(TwiceX(10), 0)
      && Loaded(Replay(none, TwoOfTwo(), 3, 300, TwiceX(70)).order, "x")
      && Replay(none, TwoOfTwo(), 4, 300, TwiceX(10)).order == []
  {
    TicksOfFour(TwiceX(70), 0);
    TicksOfFour(TwiceX(10), 0);
    SmallerKeepsX();
    LargerDropsX();
    assert [Entry("x", 2, 70, 2)][0].name == "x";
  }

  lemma SmallerKeepsX()
    ensures Replay(Recency([], 0), TwoOfTwo(), 3, 300, TwiceX(70)) == Recency([Entry("x", 2, 70, 2)], 3)
  {
    var x, y, again := Entry("x", 2, 1, 0), Entry("y", 2, 2, 1), Entry("x", 2, 70, 2);
    assert [x][1..] == [] && [y][1..] == [] && [again][1..] == [];
    ColdBesideOne(x, 1, TwoOfTwo(), 3, 300, "y", 2);
    ColdBesideOne(y, 2, TwoOfTwo(), 3, 300, "x", 70);
    assert Fresh([again], 320, 300) == [again];
    var states := [Recency([], 0), Recency([x], 1), Recency([y], 2), Recency([again], 3), Recency([again], 3)];
    ReplayThrough(states, TwoOfTwo(), 3, 300, TwiceX(70));
  }

  lemma LargerDropsX()
    ensures Replay(Recency([], 0), TwoOfTwo(), 4, 300, TwiceX(10)) == Recency([], 2)
  {
    var x, y, again := Entry("x", 2, 1, 0), Entry("y", 2, 2, 1), Entry("x", 2, 10, 0);
    assert [x, y][1..] == [y] && [x][1..] == [] && [y][1..] == [] && [y, again][1..] == [again] && [again][1..] == [];
    ColdBesideOne(x, 1, TwoOfTwo(), 4, 300, "y", 2);
    TouchFirst(x, y, 10);
    assert Fresh([again], 320, 300) == [] && Fresh([y, again], 320, 300) == [];
    var states := [Recency([], 0), Recency([x], 1), Recency([x, y], 2), Recency([y, again], 2), Recency([], 2)];
    ReplayThrough(states, TwoOfTwo(), 4, 300, TwiceX(10));
  }

  lemma ColdBesideOne(e: Entry, n: nat, loaders: Loaders, budget: int, timeout: int, name: string, at: int)
    requires name in loaders && name != e.name && e.lastUsed < at
    ensures var x := Entry(name, loaders[name].vramMb, at, n);
      Apply(Recency([e], n), loaders, budget, timeout, Ensure(name, at, true))
        == Recency(if e.mb + x.mb <= budget then [e, x] else [x], n + 1)
  {
    var l, x := [e], Entry(name, loaders[name].vramMb, at, n);
    assert l[1..] == [];
    assert Used(l) == e.mb;
    assert forall i :: 0 <= i < |l| ==> l[i].name != name;
    assert Evict(l[1..], x.mb, budget) == [];
    assert Evict(l, x.mb, budget) == if e.mb + x.mb <= budget then l else [];
    LaterAtEnd(Evict(l, x.mb, budget), x);
  }

  lemma TouchFirst(x: Entry, y: Entry, at: int)
    requires x.name != y.name && y.lastUsed < at
    ensures Loaded([x, y], x.name) && Touched([x, y], x.name, at) == [y, x.(lastUsed := at)]
  {
    var l := [x, y];
    assert l[0].name == x.name && l[1..] == [y] && [y][1..] == [];
    assert Without([y], x.name) == [y];
    assert Without(l, x.name) == [y];
    LaterAtEnd([y], x.(lastUsed := at));
  }

  lemma TicksOfFour(ops: seq<Op>, clock: int)
    requires |ops| == 4 && ops[0].Ensure? && ops[1].Ensure? && ops[2].Ensure? && !ops[3].Ensure?
    requires clock < ops[0].at < ops[1].at < ops[2].at
    ensures Ticks(ops, clock)
  {
    assert Ticks(ops[3..], ops[2].at);
    assert Ticks(ops[2..], ops[1].at);
    assert Ticks(ops[1..], ops[0].at);
  }

  lemma {:induction false} ReplayThrough(states: seq<Recency>, loaders: Loaders, budget: int, timeout: int,
                                         ops: seq<Op>)
    requires |states| == |ops| + 1
    requires forall i :: 0 <= i < |ops| ==> states[i + 1] == Apply(states[i], loaders, budget, timeout, ops[i])
    ensures Replay(states[0], loaders, budget, timeout, ops) == states[|ops|]
    decreases |ops|
  {
    if ops != [] {
      assert states[1] == Apply(states[0], loaders, budget, timeout, ops[0]);
      ReplayThrough(states[1..], loaders, budget, timeout, ops[1..]);
    }
  }
}
