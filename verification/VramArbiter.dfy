/** The VRAM arbiter as a state machine over its lock-protected steps.

    A cold `ensure_loaded` holds the lock across an await of the loader, so it is two steps:
    the request evicts and starts the load, and the loader returns or raises later.
    `register_loader` takes no lock and may run between them. */
module VramArbiter {
  import opened VramLru
  import opened Options

  datatype Lock = Idle | Loading(name: string, info: LoaderInfo, since: int)

  datatype Arbiter = Arbiter(
    order: seq<Entry>,                  // loaded models, least recently used first
    loaders: map<string, LoaderInfo>,
    permits: map<string, nat>,          // one semaphore per registered model
    lock: Lock,
    cold: map<string, seq<int>>,        // recorded cold-start latencies
    removed: multiset<string>,          // history: evicted, unloaded or idled out
    inserted: nat)                      // history: how many slots were ever inserted

  datatype Event =
    | Registered(name: string, info: LoaderInfo)
    | Requested(name: string, now: int)
    | LoaderReturned(now: int)
    | LoaderRaised
    | UnloadRequested(name: string)
    | IdleSweep(now: int)

  function Init(): Arbiter {
    Arbiter([], map[], map[], Idle, map[], multiset{}, 0)
  }

  /** The lock admits one request at a time.  The clock may read anything. */
  predicate Enabled(s: Arbiter, e: Event) {
    match e
    case Registered(_, _) => true
    case Requested(_, _) => s.lock.Idle?
    case LoaderReturned(_) => s.lock.Loading?
    case LoaderRaised => s.lock.Loading?
    case UnloadRequested(_) => s.lock.Idle?
    case IdleSweep(_) => s.lock.Idle?
  }

  function ColdOf(cold: map<string, seq<int>>, name: string): seq<int> {
    if name in cold then cold[name] else []
  }

  ghost function Dropped(before: seq<Entry>, after: seq<Entry>): multiset<string> {
    multiset(NameSet(before) - NameSet(after))
  }

  ghost function Next(s: Arbiter, budget: nat, timeout: int, e: Event): Arbiter
    requires Enabled(s, e)
  {
    match e
    case Registered(name, info) =>
      s.(loaders := s.loaders[name := info], permits := s.permits[name := info.maxConcurrency])
    case Requested(name, now) =>
      if Loaded(s.order, name) then
        s.(order := Touched(s.order, name, now))
      else if name !in s.loaders then s
      else
        var kept := Evict(s.order, s.loaders[name].vramMb, budget);
        s.(order := kept,
           lock := Loading(name, s.loaders[name], now),
           removed := s.removed + Dropped(s.order, kept))
    case LoaderReturned(now) =>
      var name := s.lock.name;
      s.(order := Place(s.order, Entry(name, s.lock.info.vramMb, now, s.inserted)),
         lock := Idle,
         cold := s.cold[name := ColdOf(s.cold, name) + [now - s.lock.since]],
         inserted := s.inserted + 1)
    case LoaderRaised => s.(lock := Idle)
    case UnloadRequested(name) =>
      var kept := Without(s.order, name);
      s.(order := kept, removed := s.removed + Dropped(s.order, kept))
    case IdleSweep(now) =>
      var kept := Fresh(s.order, now, timeout);
      s.(order := kept, removed := s.removed + Dropped(s.order, kept))
  }

  ghost predicate IsRun(s: Arbiter, budget: nat, timeout: int, es: seq<Event>)
    decreases |es|
  {
    es == [] || (Enabled(s, es[0]) && IsRun(Next(s, budget, timeout, es[0]), budget, timeout, es[1..]))
  }

  ghost function After(s: Arbiter, budget: nat, timeout: int, es: seq<Event>): Arbiter
    requires IsRun(s, budget, timeout, es)
    decreases |es|
  {
    if es == [] then s else After(Next(s, budget, timeout, es[0]), budget, timeout, es[1..])
  }

  // -------------------------------------------------------------- invariant

  predicate WithinBudget(s: Arbiter, budget: nat) {
    && (Used(s.order) <= budget || |s.order| == 1)
    && (s.lock.Loading? ==> s.order == [] || Used(s.order) + s.lock.info.vramMb <= budget)
  }

  predicate Servable(s: Arbiter) {
    && s.loaders.Keys == s.permits.Keys
    && (forall e :: e in s.order ==> e.name in s.loaders)
    && (s.lock.Loading? ==> s.lock.name in s.loaders && !Loaded(s.order, s.lock.name))
  }

  /** Every successful cold load of a name is either still in VRAM or was removed once. */
  ghost predicate Balanced(s: Arbiter) {
    forall n: string ::
      |ColdOf(s.cold, n)| == s.removed[n] + (if n in NameSet(s.order) then 1 else 0)
  }

  ghost predicate Inv(s: Arbiter, budget: nat) {
    Ordered(s.order, s.inserted) && WithinBudget(s, budget) && Servable(s) && Balanced(s)
  }

  lemma LoadedIffNamed(l: seq<Entry>, name: string)
    ensures Loaded(l, name) <==> name in NameSet(l)
  {
  }

  lemma {:induction false} UsedWithout(l: seq<Entry>, name: string)
    ensures Used(Without(l, name)) <= Used(l) && |Without(l, name)| <= |l|
  {
    if l != [] { UsedWithout(l[1..], name); }
  }

  lemma {:induction false} UsedFresh(l: seq<Entry>, now: int, timeout: int)
    ensures Used(Fresh(l, now, timeout)) <= Used(l) && |Fresh(l, now, timeout)| <= |l|
  {
    if l != [] { UsedFresh(l[1..], now, timeout); }
  }

  lemma {:induction false} UsedPlace(l: seq<Entry>, x: Entry)
    ensures Used(Place(l, x)) == Used(l) + x.mb && |Place(l, x)| == |l| + 1
  {
    if l != [] && !Older(x, l[0]) { UsedPlace(l[1..], x); }
  }

  lemma PlacedNames(l: seq<Entry>, x: Entry)
    ensures NameSet(Place(l, x)) == NameSet(l) + {x.name}
  {
    forall e ensures e in Place(l, x) <==> e in l || e == x { PlaceMember(l, x, e); }
    assert x in Place(l, x);
  }

  /** Removing models keeps the account of cold loads. */
  lemma RemovalKeepsBalance(s: Arbiter, kept: seq<Entry>, t: Arbiter)
    requires Balanced(s) && NameSet(kept) <= NameSet(s.order)
    requires t.order == kept && t.cold == s.cold && t.removed == s.removed + Dropped(s.order, kept)
    ensures Balanced(t)
  {
  }

  /** Removing models keeps every part of the invariant, however they are chosen. */
  lemma RemovalKeepsInv(s: Arbiter, budget: nat, kept: seq<Entry>, lock: Lock)
    requires Inv(s, budget) && s.lock.Idle?
    requires Ordered(kept, s.inserted) && forall e :: e in kept ==> e in s.order
    requires Used(kept) <= Used(s.order) && |kept| <= |s.order|
    requires lock.Loading? ==>
      && (kept == [] || Used(kept) + lock.info.vramMb <= budget)
      && lock.name in s.loaders && !Loaded(s.order, lock.name)
    ensures Inv(s.(order := kept, lock := lock, removed := s.removed + Dropped(s.order, kept)), budget)
  {
    var t := s.(order := kept, lock := lock, removed := s.removed + Dropped(s.order, kept));
    assert NameSet(kept) <= NameSet(s.order);
    RemovalKeepsBalance(s, kept, t);
    if lock.Loading? {
      LoadedIffNamed(kept, lock.name);
      LoadedIffNamed(s.order, lock.name);
    }
    hide Balanced, Ordered, Used, Dropped, NameSet, Loaded;
  }

  lemma TouchKeepsNames(l: seq<Entry>, name: string, now: int)
    requires Loaded(l, name)
    ensures NameSet(Touched(l, name, now)) == NameSet(l)
  {
    var rest, e := Without(l, name), Find(l, name).(lastUsed := now);
    PlacedNames(rest, e);
    forall x ensures x in rest <==> x in l && x.name != name { WithoutMember(l, name, x); }
    assert e.name == name && Find(l, name) in l;
  }

  lemma TouchKeepsInv(s: Arbiter, budget: nat, name: string, now: int)
    requires Inv(s, budget) && s.lock.Idle? && Loaded(s.order, name)
    ensures Inv(s.(order := Touched(s.order, name, now)), budget)
  {
    var l := Touched(s.order, name, now);
    TouchKeepsOrder(s.order, s.inserted, name, now);
    TouchKeepsNames(s.order, name, now);
    OrderedDistinct(s.order, s.inserted);
    UsedTouched(s.order, name);
    UsedPlace(Without(s.order, name), Find(s.order, name).(lastUsed := now));
    forall e | e in l ensures e.name in s.loaders {
      assert e.name in NameSet(l);
    }
  }

  lemma {:induction false} UsedTouched(l: seq<Entry>, name: string)
    requires Loaded(l, name) && Distinct(l)
    ensures Used(Without(l, name)) + Find(l, name).mb == Used(l)
    ensures |Without(l, name)| + 1 == |l|
  {
    if l[0].name == name {
      assert !Loaded(l[1..], name);
      WithoutAbsent(l[1..], name);
    } else {
      var i :| 0 <= i < |l| && l[i].name == name;
      assert l[1..][i-1].name == name;
      UsedTouched(l[1..], name);
    }
  }

  lemma EvictionShrinks(l: seq<Entry>, needed: nat, budget: int)
    ensures var kept := Evict(l, needed, budget);
      && Used(kept) <= Used(l) && |kept| <= |l| && (kept == [] || Used(kept) + needed <= budget)
      && forall e :: e in kept ==> e in l
  {
    var kept := Evict(l, needed, budget);
    EvictIsShortestPrefix(l, needed, budget);
    UsedSuffix(l[..|l| - |kept|], kept);
    assert l == l[..|l| - |kept|] + kept;
  }

  lemma EvictionKeepsInv(s: Arbiter, budget: nat, name: string, now: int)
    requires Inv(s, budget) && s.lock.Idle? && !Loaded(s.order, name) && name in s.loaders
    ensures var kept := Evict(s.order, s.loaders[name].vramMb, budget);
      Inv(s.(order := kept, lock := Loading(name, s.loaders[name], now),
             removed := s.removed + Dropped(s.order, kept)), budget)
  {
    var needed := s.loaders[name].vramMb;
    EvictionShrinks(s.order, needed, budget);
    EvictOrdered(s.order, needed, budget, s.inserted);
    hide Evict, Used, Ordered, Balanced, Servable, WithinBudget, Loaded, Dropped;
    RemovalKeepsInv(s, budget, Evict(s.order, needed, budget), Loading(name, s.loaders[name], now));
  }

  lemma ReturnKeepsBalance(s: Arbiter, t: Arbiter, name: string, latency: int)
    requires Balanced(s) && name !in NameSet(s.order)
    requires NameSet(t.order) == NameSet(s.order) + {name} && t.removed == s.removed
    requires t.cold == s.cold[name := ColdOf(s.cold, name) + [latency]]
    ensures Balanced(t)
  {
  }

  lemma ReturnKeepsInv(s: Arbiter, budget: nat, timeout: int, now: int)
    requires Inv(s, budget) && Enabled(s, LoaderReturned(now))
    ensures Inv(Next(s, budget, timeout, LoaderReturned(now)), budget)
  {
    var x := Entry(s.lock.name, s.lock.info.vramMb, now, s.inserted);
    var t := Next(s, budget, timeout, LoaderReturned(now));
    InsertKeepsOrder(s.order, s.inserted, x);
    UsedPlace(s.order, x);
    LoadedIffNamed(s.order, x.name);
    PlacedNames(s.order, x);
    ReturnKeepsBalance(s, t, x.name, now - s.lock.since);
    hide Ordered, Balanced, Used, Loaded;
    forall e | e in t.order ensures e.name in s.loaders { PlaceMember(s.order, x, e); }
  }

  lemma SweepsKeepInv(s: Arbiter, budget: nat, timeout: int, e: Event)
    requires Inv(s, budget) && Enabled(s, e) && (e.UnloadRequested? || e.IdleSweep?)
    ensures Inv(Next(s, budget, timeout, e), budget)
  {
    match e
    case UnloadRequested(name) =>
      UsedWithout(s.order, name);
      WithoutOrdered(s.order, name, s.inserted);
      forall x ensures x in Without(s.order, name) ==> x in s.order { WithoutMember(s.order, name, x); }
      RemovalKeepsInv(s, budget, Without(s.order, name), Idle);
    case IdleSweep(now) =>
      UsedFresh(s.order, now, timeout);
      FreshOrdered(s.order, now, timeout, s.inserted);
      forall x ensures x in Fresh(s.order, now, timeout) ==> x in s.order { FreshMember(s.order, now, timeout, x); }
      RemovalKeepsInv(s, budget, Fresh(s.order, now, timeout), Idle);
  }

  lemma NextKeepsInv(s: Arbiter, budget: nat, timeout: int, e: Event)
    requires Inv(s, budget) && Enabled(s, e)
    ensures Inv(Next(s, budget, timeout, e), budget)
  {
    match e
    case Registered(name, info) =>
    case Requested(name, now) =>
      if Loaded(s.order, name) {
        TouchKeepsInv(s, budget, name, now);
      } else if name in s.loaders {
        EvictionKeepsInv(s, budget, name, now);
      }
    case LoaderReturned(now) => ReturnKeepsInv(s, budget, timeout, now);
    case LoaderRaised =>
    case UnloadRequested(name) => SweepsKeepInv(s, budget, timeout, e);
    case IdleSweep(now) => SweepsKeepInv(s, budget, timeout, e);
  }

  lemma {:induction false} RunKeepsInv(s: Arbiter, budget: nat, timeout: int, es: seq<Event>)
    requires Inv(s, budget) && IsRun(s, budget, timeout, es)
    ensures Inv(After(s, budget, timeout, es), budget)
    decreases |es|
  {
    if es != [] {
      NextKeepsInv(s, budget, timeout, es[0]);
      RunKeepsInv(Next(s, budget, timeout, es[0]), budget, timeout, es[1..]);
    }
  }

  /** Budget safety over every run, whatever the clock reads, whatever is registered while a load
      is in flight and whichever loaders raise. */
  lemma BudgetSafety(budget: nat, timeout: int, es: seq<Event>)
    requires IsRun(Init(), budget, timeout, es)
    ensures var s := After(Init(), budget, timeout, es);
      && (Used(s.order) <= budget || |s.order| == 1)
      && (forall n :: Loaded(s.order, n) ==> n in s.loaders && n in s.permits)
      && (forall n :: |ColdOf(s.cold, n)| == s.removed[n] + (if Loaded(s.order, n) then 1 else 0))
  {
    RunKeepsInv(Init(), budget, timeout, es);
    var s := After(Init(), budget, timeout, es);
    forall n ensures Loaded(s.order, n) <==> n in NameSet(s.order) { LoadedIffNamed(s.order, n); }
  }

  /** What `name` was last registered with, `soFar` before these events. */
  function LastRegistration(es: seq<Event>, name: string, soFar: Option<LoaderInfo>): Option<LoaderInfo>
    decreases |es|
  {
    if es == [] then soFar
    else LastRegistration(es[1..], name, if es[0].Registered? && es[0].name == name then Some(es[0].info) else soFar)
  }

  /** The loader's size and the semaphore's permits are those given. */
  predicate RegisteredAs(s: Arbiter, name: string, info: Option<LoaderInfo>) {
    match info
    case None => name !in s.loaders && name !in s.permits
    case Some(i) =>
      name in s.loaders && s.loaders[name] == i && name in s.permits && s.permits[name] == i.maxConcurrency
  }

  lemma {:induction false} RegistrationStands(s: Arbiter, budget: nat, timeout: int, es: seq<Event>, name: string,
                                              soFar: Option<LoaderInfo>)
    requires IsRun(s, budget, timeout, es) && RegisteredAs(s, name, soFar)
    ensures RegisteredAs(After(s, budget, timeout, es), name, LastRegistration(es, name, soFar))
    decreases |es|
  {
    if es != [] {
      var next := if es[0].Registered? && es[0].name == name then Some(es[0].info) else soFar;
      assert RegisteredAs(Next(s, budget, timeout, es[0]), name, next);
      hide Next, Enabled, RegisteredAs;
      RegistrationStands(Next(s, budget, timeout, es[0]), budget, timeout, es[1..], name, next);
    }
  }

  /** Over every run a model is loaded with the size, and served with the concurrency, of its last
      registration, and by nobody else's. */
  lemma LastRegistrationCounts(budget: nat, timeout: int, es: seq<Event>, name: string)
    requires IsRun(Init(), budget, timeout, es)
    ensures RegisteredAs(After(Init(), budget, timeout, es), name, LastRegistration(es, name, None))
  {
    RegistrationStands(Init(), budget, timeout, es, name, None);
  }
}
