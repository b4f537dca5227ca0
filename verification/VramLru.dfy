/** The recency list that the VRAM arbiter's timestamped dict stands for.

    A list holds the loaded models from least to most recently used.  Everything the arbiter does
    to its dict is one of four list operations: placing a model by its time stamp, dropping a
    prefix, filtering by age, and removing one name.  Two equal time stamps are ordered as `min`
    over a dict orders them: the key inserted first counts as the older one. */
module VramLru {

  /** `inserted` is the model's position in the dict's insertion order. */
  datatype Entry = Entry(name: string, mb: nat, lastUsed: int, inserted: nat)

  /** What a registered loader costs and how many concurrent calls it allows. */
  datatype LoaderInfo = LoaderInfo(vramMb: nat, maxConcurrency: nat)

  predicate Older(e: Entry, f: Entry) {
    e.lastUsed < f.lastUsed || (e.lastUsed == f.lastUsed && e.inserted < f.inserted)
  }

  function Used(l: seq<Entry>): nat {
    if l == [] then 0 else l[0].mb + Used(l[1..])
  }

  predicate Loaded(l: seq<Entry>, name: string) {
    exists i :: 0 <= i < |l| && l[i].name == name
  }

  ghost function NameSet(l: seq<Entry>): set<string> {
    set e <- l :: e.name
  }

  function Without(l: seq<Entry>, name: string): seq<Entry> {
    if l == [] then []
    else if l[0].name == name then Without(l[1..], name)
    else [l[0]] + Without(l[1..], name)
  }

  /** The slot of `name`, as the dict lookup finds it. */
  function Find(l: seq<Entry>, name: string): (e: Entry)
    requires Loaded(l, name)
    ensures e in l && e.name == name
  {
    if l[0].name == name then l[0]
    else
      assert forall i :: 0 <= i < |l| && l[i].name == name ==> l[1..][i-1] == l[i];
      Find(l[1..], name)
  }

  /** `x` among the others by age. */
  function Place(l: seq<Entry>, x: Entry): seq<Entry> {
    if l == [] || Older(x, l[0]) then [x] + l else [l[0]] + Place(l[1..], x)
  }

  function Touched(l: seq<Entry>, name: string, now: int): seq<Entry>
    requires Loaded(l, name)
  {
    Place(Without(l, name), Find(l, name).(lastUsed := now))
  }

  function Evict(l: seq<Entry>, needed: nat, budget: int): seq<Entry> {
    if l == [] || Used(l) + needed <= budget then l else Evict(l[1..], needed, budget)
  }

  function Fresh(l: seq<Entry>, now: int, timeout: int): seq<Entry> {
    if l == [] then []
    else if now - l[0].lastUsed > timeout then Fresh(l[1..], now, timeout)
    else [l[0]] + Fresh(l[1..], now, timeout)
  }

  // ---------------------------------------------------------------- eviction

  /** Eviction drops exactly the shortest least-recent prefix that makes room: what is left
      fits (or nothing is left), and putting back even the last evicted model would not fit. */
  lemma {:induction false} EvictIsShortestPrefix(l: seq<Entry>, needed: nat, budget: int)
    ensures |Evict(l, needed, budget)| <= |l|
    ensures Evict(l, needed, budget) == l[|l| - |Evict(l, needed, budget)|..]
    ensures Evict(l, needed, budget) == [] || Used(Evict(l, needed, budget)) + needed <= budget
    ensures forall j :: 0 <= j < |l| - |Evict(l, needed, budget)| ==> Used(l[j..]) + needed > budget
  {
    if l == [] || Used(l) + needed <= budget {
    } else {
      EvictIsShortestPrefix(l[1..], needed, budget);
      forall j | 0 <= j < |l| - |Evict(l, needed, budget)|
        ensures Used(l[j..]) + needed > budget
      {
        if j == 0 {
          assert l[0..] == l;
        } else {
          assert l[1..][j-1..] == l[j..];
        }
      }
    }
  }

  /** Whether making room empties the manager, by its most recent model alone. */
  predicate EvictsAll(l: seq<Entry>, needed: nat, budget: int) {
    l == [] || l[|l| - 1].mb + needed > budget
  }

  lemma {:induction false} EvictsAllIff(l: seq<Entry>, needed: nat, budget: int)
    ensures Evict(l, needed, budget) == [] <==> EvictsAll(l, needed, budget)
  {
    if l != [] {
      assert l == l[..|l| - 1] + [l[|l| - 1]];
      UsedSuffix(l[..|l| - 1], [l[|l| - 1]]);
      EvictsAllIff(l[1..], needed, budget);
    }
  }

  lemma {:induction false} UsedSuffix(p: seq<Entry>, a: seq<Entry>)
    ensures Used(p + a) == Used(p) + Used(a)
  {
    if p == [] {
      assert p + a == a;
    } else {
      assert (p + a)[1..] == p[1..] + a;
      UsedSuffix(p[1..], a);
    }
  }

  // ------------------------------------------------------------------- order

  /** Oldest first, names and insertion positions distinct, the latter below `n`. */
  predicate Ordered(l: seq<Entry>, n: nat) {
    l == [] ||
    (&& l[0].inserted < n
     && (forall e :: e in l[1..] ==> Older(l[0], e) && e.name != l[0].name && e.inserted != l[0].inserted)
     && Ordered(l[1..], n))
  }

  predicate Distinct(l: seq<Entry>) {
    forall i, j :: 0 <= i < j < |l| ==> l[i].name != l[j].name
  }

  lemma {:induction false} OrderedDistinct(l: seq<Entry>, n: nat)
    requires Ordered(l, n)
    ensures Distinct(l) && forall i, j :: 0 <= i < j < |l| ==> l[i].lastUsed <= l[j].lastUsed
    ensures forall e :: e in l ==> e.inserted < n
  {
    if l != [] {
      OrderedDistinct(l[1..], n);
      forall j | 0 < j < |l| ensures l[j] in l[1..] { assert l[j] == l[1..][j-1]; }
    }
  }

  lemma {:induction false} OrderedBelow(l: seq<Entry>, n: nat, m: nat)
    requires Ordered(l, n) && n <= m
    ensures Ordered(l, m)
  {
    if l != [] { OrderedBelow(l[1..], n, m); }
  }

  lemma {:induction false} WithoutMember(l: seq<Entry>, name: string, e: Entry)
    ensures e in Without(l, name) <==> e in l && e.name != name
  {
    if l != [] {
      WithoutMember(l[1..], name, e);
    }
  }

  lemma {:induction false} WithoutAbsent(l: seq<Entry>, name: string)
    requires !Loaded(l, name)
    ensures Without(l, name) == l
  {
    if l != [] {
      assert l[0].name != name;
      forall i | 0 <= i < |l[1..]| ensures l[1..][i].name != name {
        assert l[i+1].name != name;
      }
      WithoutAbsent(l[1..], name);
    }
  }

  lemma {:induction false} FreshMember(l: seq<Entry>, now: int, timeout: int, e: Entry)
    ensures e in Fresh(l, now, timeout) <==> e in l && now - e.lastUsed <= timeout
  {
    if l != [] {
      FreshMember(l[1..], now, timeout, e);
    }
  }

  lemma {:induction false} PlaceMember(l: seq<Entry>, x: Entry, e: Entry)
    ensures e in Place(l, x) <==> e in l || e == x
    ensures |Place(l, x)| == |l| + 1
  {
    if l != [] && !Older(x, l[0]) {
      PlaceMember(l[1..], x, e);
    }
  }

  lemma {:induction false} WithoutOrdered(l: seq<Entry>, name: string, n: nat)
    requires Ordered(l, n)
    ensures Ordered(Without(l, name), n)
  {
    if l != [] {
      WithoutOrdered(l[1..], name, n);
      forall e ensures e in Without(l[1..], name) ==> e in l[1..] { WithoutMember(l[1..], name, e); }
    }
  }

  lemma {:induction false} FreshOrdered(l: seq<Entry>, now: int, timeout: int, n: nat)
    requires Ordered(l, n)
    ensures Ordered(Fresh(l, now, timeout), n)
  {
    if l != [] {
      FreshOrdered(l[1..], now, timeout, n);
      forall e ensures e in Fresh(l[1..], now, timeout) ==> e in l[1..] { FreshMember(l[1..], now, timeout, e); }
    }
  }

  lemma {:induction false} EvictOrdered(l: seq<Entry>, needed: nat, budget: int, n: nat)
    requires Ordered(l, n)
    ensures Ordered(Evict(l, needed, budget), n)
  {
    if l != [] { EvictOrdered(l[1..], needed, budget, n); }
  }

  lemma {:induction false} PlaceOrdered(l: seq<Entry>, x: Entry, n: nat)
    requires Ordered(l, n) && x.inserted < n
    requires forall e :: e in l ==> e.name != x.name && e.inserted != x.inserted
    ensures Ordered(Place(l, x), n)
  {
    if l == [] || Older(x, l[0]) {
      assert ([x] + l)[1..] == l;
    } else {
      PlaceOrdered(l[1..], x, n);
      forall e ensures e in Place(l[1..], x) <==> e in l[1..] || e == x { PlaceMember(l[1..], x, e); }
    }
  }

  /** A time stamp ahead of all others puts the model at the end, and so does a tie that it wins. */
  lemma {:induction false} PlacedLastIff(l: seq<Entry>, x: Entry, n: nat)
    requires Ordered(l, n) && forall e :: e in l ==> e.inserted != x.inserted
    ensures Place(l, x) == l + [x] <==> l == [] || Older(l[|l| - 1], x)
  {
    if l != [] {
      if Older(x, l[0]) {
        assert ([x] + l)[0] == x && (l + [x])[0] == l[0];
        if |l| > 1 { assert l[|l| - 1] in l[1..]; }
      } else {
        PlacedLastIff(l[1..], x, n);
        assert (l + [x])[1..] == l[1..] + [x];
      }
    }
  }

  // --------------------------------------------------- traces of one manager

  /** A manager between requests: its models, and how many insertions it has made. */
  datatype Recency = Recency(order: seq<Entry>, inserted: nat)

  /** Requests that reach a manager.  `at` is the clock reading that the request stamps its model
      with: at the request for a warm model, at the return of the loader for a cold one.  `loads`
      says whether the loader, should it be called, returns or raises. */
  datatype Op =
    | Ensure(name: string, at: int, loads: bool)
    | Unload(name: string)
    | CleanupIdle(now: int)

  type Loaders = map<string, LoaderInfo>

  function Apply(r: Recency, loaders: Loaders, budget: int, timeout: int, op: Op): Recency {
    match op
    case Ensure(name, at, loads) =>
      if Loaded(r.order, name) then r.(order := Touched(r.order, name, at))
      else if name !in loaders then r
      else
        var kept := Evict(r.order, loaders[name].vramMb, budget);
        if loads then Recency(Place(kept, Entry(name, loaders[name].vramMb, at, r.inserted)), r.inserted + 1)
        else r.(order := kept)
    case Unload(name) => r.(order := Without(r.order, name))
    case CleanupIdle(now) => r.(order := Fresh(r.order, now, timeout))
  }

  function Replay(r: Recency, loaders: Loaders, budget: int, timeout: int, ops: seq<Op>): Recency
    decreases |ops|
  {
    if ops == [] then r
    else Replay(Apply(r, loaders, budget, timeout, ops[0]), loaders, budget, timeout, ops[1..])
  }

  predicate CallsLoader(r: Recency, loaders: Loaders, op: Op) {
    op.Ensure? && !Loaded(r.order, op.name) && op.name in loaders
  }

  function LoaderCalls(r: Recency, loaders: Loaders, budget: int, timeout: int, ops: seq<Op>): nat
    decreases |ops|
  {
    if ops == [] then 0
    else
      (if CallsLoader(r, loaders, ops[0]) then 1 else 0)
      + LoaderCalls(Apply(r, loaders, budget, timeout, ops[0]), loaders, budget, timeout, ops[1..])
  }

  /** The stamps that a manager writes increase strictly. */
  predicate Ticks(ops: seq<Op>, clock: int) {
    ops == [] ||
    (if ops[0].Ensure? then clock < ops[0].at && Ticks(ops[1..], ops[0].at) else Ticks(ops[1..], clock))
  }

  function ClockAfter(op: Op, clock: int): int {
    if op.Ensure? then op.at else clock
  }

  predicate Sized(l: seq<Entry>, loaders: Loaders) {
    forall e :: e in l ==> e.name in loaders && e.mb == loaders[e.name].vramMb
  }

  predicate UpTo(l: seq<Entry>, clock: int) {
    forall e :: e in l ==> e.lastUsed <= clock
  }

  predicate Shaped(r: Recency, loaders: Loaders, clock: int) {
    Ordered(r.order, r.inserted) && Sized(r.order, loaders) && UpTo(r.order, clock)
  }

  lemma TouchKeepsOrder(l: seq<Entry>, n: nat, name: string, now: int)
    requires Ordered(l, n) && Loaded(l, name)
    ensures Ordered(Touched(l, name, now), n)
  {
    var x := Find(l, name).(lastUsed := now);
    WithoutOrdered(l, name, n);
    OrderedDistinct(l, n);
    forall e | e in Without(l, name) ensures e.name != name && e.inserted != x.inserted {
      WithoutMember(l, name, e);
      DistinctPositions(l, n, e, Find(l, name));
    }
    PlaceOrdered(Without(l, name), x, n);
  }

  lemma {:induction false} DistinctPositions(l: seq<Entry>, n: nat, e: Entry, f: Entry)
    requires Ordered(l, n) && e in l && f in l && e != f
    ensures e.inserted != f.inserted
  {
    if e != l[0] && f != l[0] { DistinctPositions(l[1..], n, e, f); }
  }

  lemma InsertKeepsOrder(l: seq<Entry>, n: nat, x: Entry)
    requires Ordered(l, n) && x.inserted == n && !Loaded(l, x.name)
    ensures Ordered(Place(l, x), n + 1)
  {
    OrderedDistinct(l, n);
    OrderedBelow(l, n, n + 1);
    PlaceOrdered(l, x, n + 1);
  }

  lemma EvictedLoaded(l: seq<Entry>, needed: nat, budget: int, name: string)
    ensures Loaded(Evict(l, needed, budget), name) ==> Loaded(l, name)
  {
    EvictIsShortestPrefix(l, needed, budget);
  }

  lemma ColdLoadKeepsOrder(l: seq<Entry>, n: nat, needed: nat, budget: int, x: Entry)
    requires Ordered(l, n) && x.inserted == n && !Loaded(l, x.name)
    ensures Ordered(Place(Evict(l, needed, budget), x), n + 1)
  {
    EvictOrdered(l, needed, budget, n);
    EvictedLoaded(l, needed, budget, x.name);
    InsertKeepsOrder(Evict(l, needed, budget), n, x);
  }

  /** Each request keeps the list a recency list, whatever the clock reads. */
  lemma ApplyKeepsOrder(r: Recency, loaders: Loaders, budget: int, timeout: int, op: Op)
    requires Ordered(r.order, r.inserted)
    ensures Ordered(Apply(r, loaders, budget, timeout, op).order, Apply(r, loaders, budget, timeout, op).inserted)
  {
    hide Ordered, Evict, Place, Without, Fresh, Touched, Loaded;
    match op
    case Ensure(name, at, loads) =>
      if Loaded(r.order, name) {
        TouchKeepsOrder(r.order, r.inserted, name, at);
      } else if name in loaders {
        var needed := loaders[name].vramMb;
        EvictOrdered(r.order, needed, budget, r.inserted);
        ColdLoadKeepsOrder(r.order, r.inserted, needed, budget, Entry(name, needed, at, r.inserted));
      }
    case Unload(name) => WithoutOrdered(r.order, name, r.inserted);
    case CleanupIdle(now) => FreshOrdered(r.order, now, timeout, r.inserted);
  }

  lemma ApplyMember(r: Recency, loaders: Loaders, budget: int, timeout: int, op: Op, e: Entry)
    requires e in Apply(r, loaders, budget, timeout, op).order
    ensures e in r.order || (op.Ensure? && e.lastUsed == op.at && e.name == op.name
      && (if Loaded(r.order, op.name) then e == Find(r.order, op.name).(lastUsed := op.at)
          else op.name in loaders && e.mb == loaders[op.name].vramMb))
  {
    match op
    case Ensure(name, at, loads) =>
      if Loaded(r.order, name) {
        PlaceMember(Without(r.order, name), Find(r.order, name).(lastUsed := at), e);
        WithoutMember(r.order, name, e);
      } else if name in loaders {
        var needed := loaders[name].vramMb;
        EvictIsShortestPrefix(r.order, needed, budget);
        PlaceMember(Evict(r.order, needed, budget), Entry(name, needed, at, r.inserted), e);
      }
    case Unload(name) => WithoutMember(r.order, name, e);
    case CleanupIdle(now) => FreshMember(r.order, now, timeout, e);
  }

  lemma ApplyKeepsShape(r: Recency, loaders: Loaders, budget: int, timeout: int, op: Op, clock: int)
    requires Shaped(r, loaders, clock) && (op.Ensure? ==> clock < op.at)
    ensures Shaped(Apply(r, loaders, budget, timeout, op), loaders, ClockAfter(op, clock))
  {
    var s := Apply(r, loaders, budget, timeout, op);
    ApplyKeepsOrder(r, loaders, budget, timeout, op);
    forall e | e in s.order
      ensures e.name in loaders && e.mb == loaders[e.name].vramMb && e.lastUsed <= ClockAfter(op, clock)
    {
      ApplyMember(r, loaders, budget, timeout, op, e);
    }
  }
}
