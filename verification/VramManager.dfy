/** The arbiter as the inference server runs it: a dict of timestamped slots, updated in place.

    The dict stands for the recency list `order`, and every method is proved against
    `VramArbiter.Next` on that list. */
module VramManager {
  import opened VramLru
  import opened VramArbiter

  /** A Dafny map has no order: `inserted` is the key's position in the dict's insertion order. */
  datatype ModelSlot = ModelSlot(model: int, vramMb: nat, lastUsed: int, inserted: nat)

  /** The handle given to callers: the model behind its semaphore. */
  datatype LimitedModel = LimitedModel(model: int, permits: nat, name: string)

  datatype EnsureResult =
    | Served(handle: LimitedModel)
    | NoLoader
    | LoadStarted(vramMb: nat)

  type Slots = map<string, ModelSlot>

  predicate SlotOlder(s: ModelSlot, t: ModelSlot) {
    s.lastUsed < t.lastUsed || (s.lastUsed == t.lastUsed && s.inserted < t.inserted)
  }

  function EntryOf(name: string, s: ModelSlot): Entry {
    Entry(name, s.vramMb, s.lastUsed, s.inserted)
  }

  /** The list is the dict sorted by age: its head is the slot older than all others, and its tail
      is the rest of the dict.  Insertion positions are distinct and below `n`. */
  ghost predicate Represents(slots: Slots, order: seq<Entry>, n: nat)
    decreases |order|
  {
    if order == [] then slots == map[]
    else
      var k := order[0].name;
      && k in slots && order[0] == EntryOf(k, slots[k]) && slots[k].inserted < n
      && (forall m :: m in slots && m != k ==> SlotOlder(slots[k], slots[m]) && slots[m].inserted != slots[k].inserted)
      && Represents(slots - {k}, order[1..], n)
  }

  /** What `min` over the dict by time stamp returns: the first inserted of the least stamped. */
  predicate IsOldest(slots: Slots, name: string) {
    name in slots && forall m :: m in slots && m != name ==> SlotOlder(slots[name], slots[m])
  }

  ghost function SlotSum(slots: Slots): nat
    decreases |slots|
  {
    if slots == map[] then 0
    else
      var n :| n in slots;
      slots[n].vramMb + SlotSum(slots - {n})
  }

  lemma {:induction false} SlotSumRemove(slots: Slots, n: string)
    requires n in slots
    ensures SlotSum(slots) == slots[n].vramMb + SlotSum(slots - {n})
    decreases |slots|
  {
    var k :| k in slots && SlotSum(slots) == slots[k].vramMb + SlotSum(slots - {k});
    if k != n {
      SlotSumRemove(slots - {k}, n);
      SlotSumRemove(slots - {n}, k);
      assert slots - {k} - {n} == slots - {n} - {k};
    }
  }

  /** Summing the dict in any order gives the list's total. */
  lemma {:induction false} SlotSumIsUsed(slots: Slots, order: seq<Entry>, n: nat)
    requires Represents(slots, order, n)
    ensures SlotSum(slots) == Used(order)
    decreases |order|
  {
    if order != [] {
      SlotSumRemove(slots, order[0].name);
      SlotSumIsUsed(slots - {order[0].name}, order[1..], n);
    }
  }

  lemma NamesOfRest(order: seq<Entry>)
    requires order != []
    ensures NameSet(order) == {order[0].name} + NameSet(order[1..])
  {
  }

  lemma {:induction false} KeysAreNames(slots: Slots, order: seq<Entry>, n: nat)
    requires Represents(slots, order, n)
    ensures slots.Keys == NameSet(order)
    decreases |order|
  {
    if order != [] {
      KeysAreNames(slots - {order[0].name}, order[1..], n);
      NamesOfRest(order);
    }
  }

  lemma InDictIffLoaded(slots: Slots, order: seq<Entry>, n: nat, name: string)
    requires Represents(slots, order, n)
    ensures name in slots <==> Loaded(order, name)
  {
  }

  /** Popping the oldest slot is dropping the head of the list. */
  lemma PopRefines(slots: Slots, order: seq<Entry>, n: nat, lru: string)
    requires Represents(slots, order, n) && IsOldest(slots, lru)
    ensures order != [] && lru == order[0].name
    ensures Represents(slots - {lru}, order[1..], n)
    ensures Dropped(order, order[1..]) == multiset{lru}
    ensures NameSet(order[1..]) <= NameSet(order)
  {
    KeysAreNames(slots - {lru}, order[1..], n);
    NamesOfRest(order);
    assert NameSet(order) - NameSet(order[1..]) == {lru};
  }

  lemma {:induction false} RemovalRefines(slots: Slots, order: seq<Entry>, n: nat, name: string)
    requires Represents(slots, order, n)
    ensures Represents(slots - {name}, Without(order, name), n)
    decreases |order|
  {
    if order != [] {
      var h := order[0].name;
      RemovalRefines(slots - {h}, order[1..], n, name);
      if h == name {
        assert slots - {h} - {name} == slots - {name};
      } else {
        assert slots - {h} - {name} == slots - {name} - {h};
        assert Without(order, name)[1..] == Without(order[1..], name);
      }
    }
  }

  lemma {:induction false} RepresentsBelow(slots: Slots, order: seq<Entry>, n: nat, m: nat)
    requires Represents(slots, order, n) && n <= m
    ensures Represents(slots, order, m) && forall k :: k in slots ==> slots[k].inserted < n
    decreases |order|
  {
    if order != [] {
      var h := order[0].name;
      RepresentsBelow(slots - {h}, order[1..], n, m);
      forall k | k in slots ensures slots[k].inserted < n {
        if k != h { assert k in slots - {h}; }
      }
    }
  }

  /** Inserting a key, or putting one back with a new stamp, is placing its model by age. */
  lemma {:induction false} PlaceRefines(slots: Slots, order: seq<Entry>, n: nat, name: string, slot: ModelSlot)
    requires Represents(slots, order, n) && name !in slots && slot.inserted < n
    requires forall k :: k in slots ==> slots[k].inserted != slot.inserted
    ensures Represents(slots[name := slot], Place(order, EntryOf(name, slot)), n)
    decreases |order|
  {
    var x, after := EntryOf(name, slot), slots[name := slot];
    assert after - {name} == slots;
    if order == [] || Older(x, order[0]) {
      assert ([x] + order)[1..] == order;
    } else {
      var h := order[0].name;
      PlaceRefines(slots - {h}, order[1..], n, name, slot);
      assert (slots - {h})[name := slot] == after - {h};
    }
  }

  lemma {:induction false} FindsSlot(slots: Slots, order: seq<Entry>, n: nat, name: string)
    requires Represents(slots, order, n) && name in slots
    ensures Loaded(order, name) && Find(order, name) == EntryOf(name, slots[name])
    ensures forall k :: k in slots && k != name ==> slots[k].inserted != slots[name].inserted
    decreases |order|
  {
    InDictIffLoaded(slots, order, n, name);
    var h := order[0].name;
    if h != name {
      FindsSlot(slots - {h}, order[1..], n, name);
      forall k | k in slots && k != name ensures slots[k].inserted != slots[name].inserted {
        if k != h { assert k in slots - {h}; }
      }
    }
  }

  predicate PositionsDistinct(slots: Slots) {
    forall k, m :: k in slots && m in slots && k != m ==> slots[k].inserted != slots[m].inserted
  }

  lemma PositionsOf(slots: Slots, order: seq<Entry>, n: nat)
    requires Represents(slots, order, n)
    ensures PositionsDistinct(slots)
  {
    forall k | k in slots ensures forall m :: m in slots && m != k ==> slots[m].inserted != slots[k].inserted {
      FindsSlot(slots, order, n, k);
    }
  }

  /** A new slot, at the next position. */
  lemma InsertionRefines(slots: Slots, order: seq<Entry>, n: nat, name: string, slot: ModelSlot)
    requires Represents(slots, order, n) && name !in slots && slot.inserted == n
    ensures Represents(slots[name := slot], Place(order, EntryOf(name, slot)), n + 1)
  {
    RepresentsBelow(slots, order, n, n + 1);
    PlaceRefines(slots, order, n + 1, name, slot);
  }

  /** Restamping a slot in the dict is moving its model in the list. */
  lemma TouchRefines(slots: Slots, order: seq<Entry>, n: nat, name: string, now: int)
    requires Represents(slots, order, n) && name in slots
    ensures Loaded(order, name)
    ensures Represents(slots[name := slots[name].(lastUsed := now)], Touched(order, name, now), n)
  {
    FindsSlot(slots, order, n, name);
    RemovalRefines(slots, order, n, name);
    RepresentsBelow(slots, order, n, n);
    PlaceRefines(slots - {name}, Without(order, name), n, name, slots[name].(lastUsed := now));
    assert (slots - {name})[name := slots[name].(lastUsed := now)] == slots[name := slots[name].(lastUsed := now)];
  }

  function Recent(slots: Slots, now: int, timeout: int): Slots {
    map n | n in slots && now - slots[n].lastUsed <= timeout :: slots[n]
  }

  lemma RecentIsRest(slots: Slots, now: int, timeout: int)
    ensures slots - (set n | n in slots && now - slots[n].lastUsed > timeout) == Recent(slots, now, timeout)
  {
  }

  lemma {:induction false} SweepRefines(slots: Slots, order: seq<Entry>, n: nat, now: int, timeout: int)
    requires Represents(slots, order, n)
    ensures Represents(Recent(slots, now, timeout), Fresh(order, now, timeout), n)
    decreases |order|
  {
    if order == [] {
      assert Recent(slots, now, timeout) == map[];
    } else {
      var h := order[0].name;
      SweepRefines(slots - {h}, order[1..], n, now, timeout);
      if now - order[0].lastUsed > timeout {
        assert Recent(slots - {h}, now, timeout) == Recent(slots, now, timeout);
      } else {
        assert Recent(slots - {h}, now, timeout) == Recent(slots, now, timeout) - {h};
        assert Fresh(order, now, timeout)[1..] == Fresh(order[1..], now, timeout);
      }
    }
  }

  /** The slots still in the dict are untouched. */
  predicate Survive(kept: Slots, before: Slots) {
    forall n :: n in kept ==> n in before && kept[n] == before[n]
  }

  /** Popping one by one accumulates what was dropped in all. */
  lemma DroppedTwice(a: seq<Entry>, b: seq<Entry>, c: seq<Entry>)
    requires NameSet(c) <= NameSet(b) <= NameSet(a)
    ensures Dropped(a, b) + Dropped(b, c) == Dropped(a, c)
  {
  }

  lemma EvictSkips(l: seq<Entry>, needed: nat, budget: int)
    requires l != [] && Used(l) + needed > budget
    ensures Evict(l, needed, budget) == Evict(l[1..], needed, budget)
  {
  }

  lemma EvictStops(slots: Slots, l: seq<Entry>, n: nat, needed: nat, budget: int)
    requires Represents(slots, l, n) && (slots == map[] || Used(l) + needed <= budget)
    ensures Evict(l, needed, budget) == l
  {
  }

  class VRAMManager {
    const budgetMb: nat
    const idleTimeout: int
    var slots: Slots
    var loaders: map<string, LoaderInfo>
    var semaphores: map<string, nat>
    var metrics: map<string, seq<int>>
    var lock: Lock
    ghost var order: seq<Entry>
    ghost var removed: multiset<string>
    var inserted: nat                    // the dict's insertion order: the next position

    ghost function State(): Arbiter
      reads this
    {
      Arbiter(order, loaders, semaphores, lock, metrics, removed, inserted)
    }

    /** The budget invariant `Inv(State(), budgetMb)` is not part of this: each method takes
        `State()` to its `Next`, so `NextKeepsInv` carries that invariant along every run. */
    ghost predicate Valid()
      reads this
    {
      Represents(slots, order, inserted)
    }

    constructor (budgetMb: nat, idleTimeout: int)
      ensures Valid() && State() == Init() && Inv(State(), budgetMb)
      ensures this.budgetMb == budgetMb && this.idleTimeout == idleTimeout
    {
      this.budgetMb, this.idleTimeout := budgetMb, idleTimeout;
      slots, loaders, semaphores, metrics := map[], map[], map[], map[];
      lock := Idle;
      order, removed, inserted := [], multiset{}, 0;
    }

    /** Takes no lock: may run while a load is in flight. */
    method RegisterLoader(name: string, vramMb: nat, maxConcurrency: nat)
      requires Valid()
      modifies this
      ensures Valid() && slots == old(slots)
      ensures State() == Next(old(State()), budgetMb, idleTimeout, Registered(name, LoaderInfo(vramMb, maxConcurrency)))
    {
      loaders := loaders[name := LoaderInfo(vramMb, maxConcurrency)];
      semaphores := semaphores[name := maxConcurrency];
    }

    method UsedMb() returns (total: nat)
      ensures total == SlotSum(slots)
    {
      total := 0;
      var rest := slots;
      while rest != map[]
        invariant total + SlotSum(rest) == SlotSum(slots)
        decreases |rest|
      {
        var n :| n in rest;
        SlotSumRemove(rest, n);
        total := total + rest[n].vramMb;
        rest := rest - {n};
      }
    }

    method LeastRecentlyUsed() returns (lru: string)
      requires slots != map[]
      requires PositionsDistinct(slots)
      ensures IsOldest(slots, lru)
    {
      lru :| lru in slots;
      var rest := slots.Keys - {lru};
      while rest != {}
        invariant rest <= slots.Keys && lru in slots
        invariant forall m :: m in slots && m !in rest && m != lru ==> SlotOlder(slots[lru], slots[m])
        decreases |rest|
      {
        var m :| m in rest;
        if SlotOlder(slots[m], slots[lru]) { lru := m; }
        rest := rest - {m};
      }
    }

    method EvictToFit(needed: nat)
      requires Valid()
      modifies this`slots, this`order, this`removed
      ensures Valid() && Survive(slots, old(slots))
      ensures order == Evict(old(order), needed, budgetMb)
      ensures removed == old(removed) + Dropped(old(order), order)
    {
      hide Represents, Evict, Used, Dropped, NameSet, SlotSum;
      SlotSumIsUsed(slots, order, inserted);
      DroppedNone(order);
      var used := UsedMb();
      while used + needed > budgetMb && slots != map[]
        invariant Valid() && Survive(slots, old(slots))
        invariant used == Used(order)
        invariant Evict(order, needed, budgetMb) == Evict(old(order), needed, budgetMb)
        invariant NameSet(order) <= NameSet(old(order))
        invariant removed == old(removed) + Dropped(old(order), order)
        decreases |order|
      {
        PositionsOf(slots, order, inserted);
        var lru := LeastRecentlyUsed();
        PopRefines(slots, order, inserted, lru);
        DroppedTwice(old(order), order, order[1..]);
        EvictSkips(order, needed, budgetMb);
        slots := slots - {lru};
        removed := removed + multiset{lru};
        order := order[1..];
        used := UsedMb();
        SlotSumIsUsed(slots, order, inserted);
      }
      EvictStops(slots, order, inserted, needed, budgetMb);
    }

    method Touch(name: string, now: int)
      requires Valid() && name in slots
      modifies this`slots, this`order
      ensures Valid() && slots == old(slots)[name := old(slots)[name].(lastUsed := now)]
      ensures Loaded(old(order), name) && order == Touched(old(order), name, now)
    {
      TouchRefines(slots, order, inserted, name, now);
      hide Represents, Without, Find;
      slots := slots[name := slots[name].(lastUsed := now)];
      order := Touched(order, name, now);
    }

    /** `ensure_loaded` up to the point where it returns, raises or awaits the loader. */
    method BeginEnsure(name: string, now: int) returns (r: EnsureResult)
      requires Valid() && Servable(State()) && Enabled(State(), Requested(name, now))
      modifies this
      ensures Valid()
      ensures State() == Next(old(State()), budgetMb, idleTimeout, Requested(name, now))
      ensures forall n :: n in slots ==> n in old(slots) && slots[n].model == old(slots)[n].model
      ensures name in old(slots) ==>
        name in semaphores && r == Served(LimitedModel(old(slots)[name].model, semaphores[name], name))
      ensures name !in old(slots) ==>
        r == if name in old(loaders) then LoadStarted(old(loaders)[name].vramMb) else NoLoader
    {
      LoadedIsServable(slots, State(), name);
      hide Represents, Servable, Evict, Used, Dropped, NameSet, Loaded, Without, Find;
      if name in slots {
        Touch(name, now);
        return Served(LimitedModel(slots[name].model, semaphores[name], name));
      }
      if name !in loaders { return NoLoader; }
      var info := loaders[name];
      EvictToFit(info.vramMb);
      lock := Loading(name, info, now);
      return LoadStarted(info.vramMb);
    }

    method InsertSlot(name: string, model: int, vramMb: nat, now: int)
      requires Valid() && name !in slots
      modifies this`slots, this`order, this`inserted
      ensures Valid() && slots == old(slots)[name := ModelSlot(model, vramMb, now, old(inserted))]
      ensures order == Place(old(order), Entry(name, vramMb, now, old(inserted))) && inserted == old(inserted) + 1
    {
      InsertionRefines(slots, order, inserted, name, ModelSlot(model, vramMb, now, inserted));
      hide Represents, Place;
      slots := slots[name := ModelSlot(model, vramMb, now, inserted)];
      order := Place(order, Entry(name, vramMb, now, inserted));
      inserted := inserted + 1;
    }

    /** The awaited loader returned `model`: record the cold start and insert the slot. */
    method FinishLoad(model: int, now: int) returns (handle: LimitedModel)
      requires Valid() && Servable(State()) && Enabled(State(), LoaderReturned(now))
      modifies this
      ensures Valid()
      ensures State() == Next(old(State()), budgetMb, idleTimeout, LoaderReturned(now))
      ensures slots == old(slots)[old(lock).name := ModelSlot(model, old(lock).info.vramMb, now, old(inserted))]
      ensures old(lock).name in semaphores
      ensures handle == LimitedModel(model, semaphores[old(lock).name], old(lock).name)
    {
      LoadedIsServable(slots, State(), lock.name);
      ReturnedState(State(), budgetMb, idleTimeout, now);
      hide Represents, Servable, Place, Loaded, ColdOf, Next, Enabled;
      var name, info := lock.name, lock.info;
      RecordColdStart(name, now - lock.since);
      InsertSlot(name, model, info.vramMb, now);
      lock := Idle;
      handle := LimitedModel(model, semaphores[name], name);
    }

    method RecordColdStart(name: string, latency: int)
      modifies this`metrics
      ensures metrics == old(metrics)[name := ColdOf(old(metrics), name) + [latency]]
    {
      if name !in metrics { metrics := metrics[name := []]; }
      metrics := metrics[name := metrics[name] + [latency]];
    }

    /** The awaited loader raised: the lock is released and nothing is inserted. */
    method AbortLoad()
      requires Valid() && Enabled(State(), LoaderRaised)
      modifies this
      ensures Valid() && slots == old(slots)
      ensures State() == Next(old(State()), budgetMb, idleTimeout, LoaderRaised)
    {
      lock := Idle;
    }

    method Unload(name: string)
      requires Valid() && Enabled(State(), UnloadRequested(name))
      modifies this
      ensures Valid() && slots == old(slots) - {name}
      ensures State() == Next(old(State()), budgetMb, idleTimeout, UnloadRequested(name))
    {
      hide Represents, Without, Dropped, NameSet;
      RemovalRefines(slots, order, inserted, name);
      removed := removed + Dropped(order, Without(order, name));
      order := Without(order, name);
      if name in slots {
        slots := slots - {name};
      } else {
        assert slots - {name} == slots;
      }
    }

    method PopAll(names: set<string>)
      modifies this`slots
      ensures slots == old(slots) - names
    {
      var rest := names;
      while rest != {}
        invariant rest <= names && slots == old(slots) - (names - rest)
        decreases |rest|
      {
        var n :| n in rest;
        slots := slots - {n};
        rest := rest - {n};
      }
      assert names - rest == names;
    }

    method CleanupIdle(now: int)
      requires Valid() && Enabled(State(), IdleSweep(now))
      modifies this
      ensures Valid() && slots == Recent(old(slots), now, idleTimeout)
      ensures State() == Next(old(State()), budgetMb, idleTimeout, IdleSweep(now))
    {
      hide Represents, Fresh, Dropped, NameSet;
      SweepRefines(slots, order, inserted, now, idleTimeout);
      var toEvict := set n | n in slots && now - slots[n].lastUsed > idleTimeout;
      PopAll(toEvict);
      RecentIsRest(old(slots), now, idleTimeout);
      removed := removed + Dropped(order, Fresh(order, now, idleTimeout));
      order := Fresh(order, now, idleTimeout);
    }
  }

  /** The state after a load, by its parts. */
  lemma ReturnedState(s: Arbiter, budget: nat, timeout: int, now: int)
    requires s.lock.Loading?
    ensures Next(s, budget, timeout, LoaderReturned(now)) ==
      Arbiter(Place(s.order, Entry(s.lock.name, s.lock.info.vramMb, now, s.inserted)), s.loaders, s.permits, Idle,
              s.cold[s.lock.name := ColdOf(s.cold, s.lock.name) + [now - s.lock.since]], s.removed, s.inserted + 1)
  {
  }

  lemma DroppedNone(l: seq<Entry>)
    ensures Dropped(l, l) == multiset{}
  {
  }

  lemma LoadedIsServable(slots: Slots, s: Arbiter, name: string)
    requires Represents(slots, s.order, s.inserted) && Servable(s)
    ensures name in slots <==> Loaded(s.order, name)
    ensures name in slots ==> name in s.loaders && name in s.permits
    ensures s.lock.Loading? ==> s.lock.name !in slots && s.lock.name in s.permits
  {
    InDictIffLoaded(slots, s.order, s.inserted, name);
    if s.lock.Loading? { InDictIffLoaded(slots, s.order, s.inserted, s.lock.name); }
    if name in slots { assert Find(s.order, name) in s.order; }
  }

  // ----------------------------------------------------- what eviction does

  /** `a` is the most recently used of the evicted slots. */
  ghost predicate LastEvicted(slots: Slots, kept: Slots, a: string) {
    && a in slots && a !in kept
    && forall c :: c in slots && c !in kept ==> c == a || SlotOlder(slots[c], slots[a])
  }

  /** Every evicted slot is older than every surviving one. */
  lemma {:induction false} EvictedAreOlder(
    slots: Slots, order: seq<Entry>, kept: Slots, n: nat, needed: nat, budget: nat, a: string, b: string)
    requires Represents(slots, order, n)
    requires Represents(kept, Evict(order, needed, budget), n) && Survive(kept, slots)
    requires a in slots && a !in kept && b in kept
    ensures SlotOlder(slots[a], kept[b])
    decreases |order|
  {
    KeysAreNames(kept, Evict(order, needed, budget), n);
    KeysAreNames(slots, order, n);
    var h, rest := order[0].name, slots - {order[0].name};
    HeadIsEvicted(slots, order, kept, n, needed, budget);
    if a != h { EvictedAreOlder(rest, order[1..], kept, n, needed, budget, a, b); }
  }

  lemma HeadIsEvicted(slots: Slots, order: seq<Entry>, kept: Slots, n: nat, needed: nat, budget: nat)
    requires Represents(slots, order, n) && order != [] && Used(order) + needed > budget
    requires Represents(kept, Evict(order, needed, budget), n) && Survive(kept, slots)
    ensures order[0].name !in kept && Survive(kept, slots - {order[0].name})
  {
    KeysAreNames(kept, Evict(order, needed, budget), n);
    KeysAreNames(slots - {order[0].name}, order[1..], n);
    EvictIsShortestPrefix(order[1..], needed, budget);
  }

  lemma LastEvictedCases(slots: Slots, kept: Slots, h: string, a: string)
    requires IsOldest(slots, h) && h !in kept && Survive(kept, slots) && LastEvicted(slots, kept, a)
    ensures if a == h then kept == slots - {h} else LastEvicted(slots - {h}, kept, a)
  {
  }

  /** Eviction stops as soon as it can: the survivors leave room unless nothing survives, and
      putting back the last slot evicted would not. */
  lemma {:induction false} EvictionIsMinimal(
    slots: Slots, order: seq<Entry>, kept: Slots, n: nat, needed: nat, budget: nat)
    requires Represents(slots, order, n)
    requires Represents(kept, Evict(order, needed, budget), n) && Survive(kept, slots)
    ensures kept == map[] || SlotSum(kept) + needed <= budget
    ensures forall a :: LastEvicted(slots, kept, a) ==> SlotSum(kept) + slots[a].vramMb + needed > budget
    decreases |order|
  {
    KeysAreNames(kept, Evict(order, needed, budget), n);
    KeysAreNames(slots, order, n);
    SlotSumIsUsed(kept, Evict(order, needed, budget), n);
    if order != [] && Used(order) + needed > budget {
      var h, rest := order[0].name, slots - {order[0].name};
      HeadIsEvicted(slots, order, kept, n, needed, budget);
      EvictionIsMinimal(rest, order[1..], kept, n, needed, budget);
      SlotSumIsUsed(slots, order, n);
      SlotSumRemove(slots, h);
      assert IsOldest(slots, h);
      hide Represents, LastEvicted, Evict, SlotSum;
      forall a | LastEvicted(slots, kept, a) ensures SlotSum(kept) + slots[a].vramMb + needed > budget {
        LastEvictedCases(slots, kept, h, a);
      }
    }
  }
}
