/** The in-memory agent configuration cache: its key scheme and its event handlers. */
module AgentRuntime {
  import opened Options

  datatype AgentRow = AgentRow(
    endpointSlug: string, name: string, role: string, systemPrompt: string, modelId: string,
    tools: Option<seq<string>>, bindings: Option<seq<string>>,
    temperature: real, maxTokens: int, isActive: bool, updatedAt: Option<int>)

  datatype AgentConfig = AgentConfig(
    id: string, hubId: string, endpointSlug: string, name: string, role: string, systemPrompt: string, modelId: string,
    tools: seq<string>, bindings: seq<string>,
    temperature: real, maxTokens: int, isActive: bool, updatedAt: Option<int>)

  /** A message on the agent-config-updates channel; absent ids are empty strings. */
  datatype SyncEvent = SyncEvent(action: string, hubId: string, agentId: string)

  type Cache = map<string, AgentConfig>

  function OrEmpty(x: Option<seq<string>>): seq<string> {
    if x.Some? then x.value else []
  }

  function ConfigOf(hub: string, agent: string, row: AgentRow): AgentConfig {
    AgentConfig(agent, hub, row.endpointSlug, row.name, row.role, row.systemPrompt, row.modelId,
                OrEmpty(row.tools), OrEmpty(row.bindings),
                row.temperature, row.maxTokens, row.isActive, row.updatedAt)
  }

  // -------------------------------------------------------------- cache keys

  function Key(hub: string, agent: string): string {
    hub + ":" + agent
  }

  predicate ColonFree(s: string) {
    forall i :: 0 <= i < |s| ==> s[i] != ':'
  }

  predicate HasPrefix(s: string, p: string) {
    p <= s
  }

  /** Evicting hub `h` can reach an entry of hub `other` exactly when they are the same hub or one
      id continues the other with a colon. */
  lemma EvictReaches(h: string, other: string)
    ensures (exists agent :: HasPrefix(Key(other, agent), h + ":"))
       <==> h == other || HasPrefix(other, h + ":") || HasPrefix(h, other + ":")
  {
    if agent :| HasPrefix(Key(other, agent), h + ":") {
      var k := Key(other, agent);
      assert k[..|h| + 1] == h + ":";
      assert k[..|other| + 1] == other + ":";
      if |h| < |other| {
        assert other[..|h| + 1] == k[..|h| + 1];
      } else if |h| == |other| {
        assert h == k[..|h|] == other;
      } else {
        assert h[..|other| + 1] == k[..|other| + 1];
      }
    }
    if h == other {
      assert HasPrefix(Key(other, ""), h + ":");
    } else if HasPrefix(other, h + ":") {
      assert HasPrefix(Key(other, ""), h + ":");
    } else if HasPrefix(h, other + ":") {
      var rest := h[|other| + 1..];
      assert h == other + ":" + rest;
      assert Key(other, rest + ":") == h + ":";
      assert HasPrefix(Key(other, rest + ":"), h + ":");
    }
  }

  lemma ContinuedHasColon(s: string, p: string)
    requires HasPrefix(s, p + ":")
    ensures !ColonFree(s)
  {
    assert s[|p|] == (p + ":")[|p|];
  }

  /** With colon-free hub ids, keys determine the hub and the agent, and the eviction prefix
      determines the hub. */
  lemma KeysOfColonFreeHubs(h1: string, a1: string, h2: string, a2: string)
    requires ColonFree(h1) && ColonFree(h2)
    ensures Key(h1, a1) == Key(h2, a2) ==> h1 == h2 && a1 == a2
    ensures HasPrefix(Key(h2, a2), h1 + ":") <==> h1 == h2
  {
    EvictReaches(h1, h2);
    if HasPrefix(h2, h1 + ":") { ContinuedHasColon(h2, h1); }
    if HasPrefix(h1, h2 + ":") { ContinuedHasColon(h1, h2); }
    assert HasPrefix(Key(h1, a1), h1 + ":");
    if Key(h1, a1) == Key(h2, a2) {
      assert a1 == Key(h1, a1)[|h1| + 1..];
      assert a2 == Key(h2, a2)[|h2| + 1..];
    }
    if h1 == h2 { assert HasPrefix(Key(h2, a2), h1 + ":"); }
  }

  lemma SameHubSameAgent(h: string, a: string, b: string)
    ensures Key(h, a) == Key(h, b) ==> a == b
  {
    assert a == Key(h, a)[|h| + 1..] && b == Key(h, b)[|h| + 1..];
  }

  /** Two hubs, or one, have different agents under one cache entry exactly when one hub id continues
      the other with a colon. */
  lemma EntriesCollideIff(h: string, o: string)
    ensures (exists a, b :: (h != o || a != b) && Key(h, a) == Key(o, b))
       <==> HasPrefix(o, h + ":") || HasPrefix(h, o + ":")
  {
    if a, b :| (h != o || a != b) && Key(h, a) == Key(o, b) {
      EvictReaches(h, o);
      assert HasPrefix(Key(h, a), h + ":");
      assert HasPrefix(Key(o, b), h + ":");
      SameHubSameAgent(h, a, b);
    }
    if HasPrefix(o, h + ":") {
      var a := o[|h| + 1..] + ":";
      assert o == h + ":" + o[|h| + 1..];
      assert Key(h, a) == Key(o, "");
    } else if HasPrefix(h, o + ":") {
      var b := h[|o| + 1..] + ":";
      assert h == o + ":" + h[|o| + 1..];
      assert Key(h, "") == Key(o, b);
    }
  }

  // ------------------------------------------------------- handlers as steps

  function EvictHub(cache: Cache, hub: string): Cache {
    map k | k in cache && !HasPrefix(k, hub + ":") :: cache[k]
  }

  /** What `reload_agent` does once the row has been read. */
  function StoreRow(cache: Cache, hub: string, agent: string, row: Option<AgentRow>): Cache {
    if row.None? then cache - {Key(hub, agent)}
    else cache[Key(hub, agent) := ConfigOf(hub, agent, row.value)]
  }

  /** A reloaded entry shows the row field by field; absent lists read as empty ones. */
  lemma ReloadedFields(cache: Cache, hub: string, agent: string, row: AgentRow)
    ensures var v, k := StoreRow(cache, hub, agent, Some(row)), Key(hub, agent);
      && k in v
      && v[k].id == agent && v[k].hubId == hub && v[k].endpointSlug == row.endpointSlug && v[k].name == row.name
      && v[k].role == row.role && v[k].systemPrompt == row.systemPrompt && v[k].modelId == row.modelId
      && v[k].tools == (match row.tools case Some(ts) => ts case None => [])
      && v[k].bindings == (match row.bindings case Some(bs) => bs case None => [])
      && v[k].temperature == row.temperature && v[k].maxTokens == row.maxTokens
      && v[k].isActive == row.isActive && v[k].updatedAt == row.updatedAt
      && forall l :: l in cache && l != k ==> l in v && v[l] == cache[l]
  {
  }

  predicate NeedsReload(e: SyncEvent) {
    e.hubId != "" && e.agentId != "" && e.action in ["created", "updated"]
  }

  /** The part of `handle_sync_event` before any database read. */
  function Handle(cache: Cache, e: SyncEvent): Cache {
    if e.hubId == "" then cache
    else if e.action == "hub_evicted" then EvictHub(cache, e.hubId)
    else if e.agentId == "" then cache
    else if e.action == "deleted" then cache - {Key(e.hubId, e.agentId)}
    else cache
  }

  lemma EvictHubIsRemoval(cache: Cache, hub: string)
    ensures var doomed := set k | k in cache && HasPrefix(k, hub + ":");
      cache - doomed == EvictHub(cache, hub) && |doomed| == |cache| - |EvictHub(cache, hub)|
  {
  }

  class AgentRuntimeManager {
    var cache: Cache

    constructor ()
      ensures cache == map[]
    {
      cache := map[];
    }

    method GetAgent(hub: string, agent: string) returns (config: Option<AgentConfig>)
      ensures config.None? <==> Key(hub, agent) !in cache
      ensures config.Some? ==> config.value == cache[Key(hub, agent)]
    {
      var k := Key(hub, agent);
      return if k in cache then Some(cache[k]) else None;
    }

    method SetAgentInCache(hub: string, agent: string, config: AgentConfig)
      modifies this
      ensures cache == old(cache)[Key(hub, agent) := config]
    {
      cache := cache[Key(hub, agent) := config];
    }

    method PopAll(doomed: set<string>)
      modifies this
      ensures cache == old(cache) - doomed
    {
      var rest := doomed;
      while rest != {}
        invariant rest <= doomed
        invariant cache == old(cache) - (doomed - rest)
        decreases |rest|
      {
        var k :| k in rest;
        cache := cache - {k};
        rest := rest - {k};
      }
      assert doomed - rest == doomed;
    }

    method PurgeHub(hub: string) returns (evicted: nat)
      modifies this
      ensures cache == EvictHub(old(cache), hub)
      ensures evicted == |old(cache)| - |cache|
    {
      var doomed := set k | k in cache && HasPrefix(k, hub + ":");
      evicted := |doomed|;
      EvictHubIsRemoval(cache, hub);
      PopAll(doomed);
    }

    /** `reload_agent` from the moment its query returned `row`. */
    method FinishReload(hub: string, agent: string, row: Option<AgentRow>) returns (config: Option<AgentConfig>)
      modifies this
      ensures cache == StoreRow(old(cache), hub, agent, row)
      ensures config == if row.Some? then Some(ConfigOf(hub, agent, row.value)) else None
    {
      var k := Key(hub, agent);
      if row.None? {
        cache := cache - {k};
        return None;
      }
      var c := ConfigOf(hub, agent, row.value);
      cache := cache[k := c];
      return Some(c);
    }

    /** Returns whether the handler goes on to reload the event's agent. */
    method HandleSyncEvent(e: SyncEvent) returns (reload: bool)
      modifies this
      ensures cache == Handle(old(cache), e)
      ensures reload == NeedsReload(e)
    {
      if e.hubId == "" { return false; }
      if e.action == "hub_evicted" {
        var _ := PurgeHub(e.hubId);
        return false;
      }
      if e.agentId == "" { return false; }
      if e.action in ["created", "updated"] {
        return true;
      } else if e.action == "deleted" {
        cache := cache - {Key(e.hubId, e.agentId)};
      }
      return false;
    }
  }
}

/** Coherence of that cache with the database, over every interleaving.

    A writer commits, then publishes; the channel may reorder and repeat messages; one listener
    takes a message, reads the row, then writes the cache. */
module CacheCoherence {
  import opened AgentRuntime
  import opened Options

  type AgentId = (string, string)

  datatype Listener =
    | Waiting
    | Reading(hub: string, agent: string)
    | Writing(hub: string, agent: string, row: Option<AgentRow>)

  datatype World = World(
    db: map<AgentId, AgentRow>,
    cache: Cache,
    unpublished: multiset<SyncEvent>,   // committed, not yet published
    channel: multiset<SyncEvent>,       // published, not yet taken by the listener
    listener: Listener)

  datatype Step =
    | CommitRow(hub: string, agent: string, row: AgentRow, action: string)
    | CommitDelete(hub: string, agent: string)
    | Publish(e: SyncEvent)
    | Inject(e: SyncEvent)
    | Take(e: SyncEvent)
    | ReadRow
    | WriteCache

  predicate ProperId(hub: string, agent: string) {
    ColonFree(hub) && hub != "" && agent != ""
  }

  predicate Enabled(w: World, s: Step) {
    match s
    case CommitRow(hub, agent, _, action) => ProperId(hub, agent) && action in ["created", "updated"]
    case CommitDelete(hub, agent) => ProperId(hub, agent)
    case Publish(e) => e in w.unpublished
    case Inject(e) => ColonFree(e.hubId)
    case Take(e) => w.listener.Waiting? && e in w.channel
    case ReadRow => w.listener.Reading?
    case WriteCache => w.listener.Writing?
  }

  function RowOf(w: World, hub: string, agent: string): Option<AgentRow> {
    if (hub, agent) in w.db then Some(w.db[(hub, agent)]) else None
  }

  function Next(w: World, s: Step): World
    requires Enabled(w, s)
  {
    match s
    case CommitRow(hub, agent, row, action) =>
      w.(db := w.db[(hub, agent) := row],
         unpublished := w.unpublished + multiset{SyncEvent(action, hub, agent)})
    case CommitDelete(hub, agent) =>
      w.(db := w.db - {(hub, agent)},
         unpublished := w.unpublished + multiset{SyncEvent("deleted", hub, agent)})
    case Publish(e) =>
      w.(unpublished := w.unpublished - multiset{e}, channel := w.channel + multiset{e})
    case Inject(e) => w.(channel := w.channel + multiset{e})
    case Take(e) =>
      w.(channel := w.channel - multiset{e},
         cache := Handle(w.cache, e),
         listener := if NeedsReload(e) then Reading(e.hubId, e.agentId) else Waiting)
    case ReadRow =>
      w.(listener := Writing(w.listener.hub, w.listener.agent, RowOf(w, w.listener.hub, w.listener.agent)))
    case WriteCache =>
      w.(cache := StoreRow(w.cache, w.listener.hub, w.listener.agent, w.listener.row), listener := Waiting)
  }

  predicate IsRun(w: World, steps: seq<Step>)
    decreases |steps|
  {
    steps == [] || (Enabled(w, steps[0]) && IsRun(Next(w, steps[0]), steps[1..]))
  }

  function After(w: World, steps: seq<Step>): World
    requires IsRun(w, steps)
    decreases |steps|
  {
    if steps == [] then w else After(Next(w, steps[0]), steps[1..])
  }

  // --------------------------------------------------------------- invariant

  /** A cached entry that is not its row's configuration, or whose row is gone. */
  predicate Stale(w: World, hub: string, agent: string) {
    Key(hub, agent) in w.cache &&
    (RowOf(w, hub, agent).None? || w.cache[Key(hub, agent)] != ConfigOf(hub, agent, RowOf(w, hub, agent).value))
  }

  predicate About(e: SyncEvent, hub: string, agent: string) {
    e.hubId == hub && e.agentId == agent && e.action in ["created", "updated", "deleted"]
  }

  ghost predicate Unprocessed(w: World, hub: string, agent: string) {
    exists e :: About(e, hub, agent) && (e in w.unpublished || e in w.channel)
  }

  predicate InFlight(w: World, hub: string, agent: string) {
    !w.listener.Waiting? && w.listener.hub == hub && w.listener.agent == agent
  }

  ghost predicate Accounted(w: World, hub: string, agent: string) {
    && (Stale(w, hub, agent) ==> Unprocessed(w, hub, agent) || InFlight(w, hub, agent))
    && (w.listener.Writing? && InFlight(w, hub, agent) && w.listener.row != RowOf(w, hub, agent) ==>
          Unprocessed(w, hub, agent))
  }

  ghost predicate Inv(w: World) {
    && (forall e :: e in w.unpublished || e in w.channel ==> ColonFree(e.hubId))
    && (!w.listener.Waiting? ==> ProperId(w.listener.hub, w.listener.agent))
    && (forall hub, agent :: ProperId(hub, agent) ==> Accounted(w, hub, agent))
  }

  lemma StillUnprocessed(w: World, v: World, hub: string, agent: string, gone: multiset<SyncEvent>)
    requires w.unpublished + w.channel <= v.unpublished + v.channel + gone
    requires forall e :: e in gone ==> !About(e, hub, agent)
    requires Unprocessed(w, hub, agent)
    ensures Unprocessed(v, hub, agent)
  {
    var e :| About(e, hub, agent) && (e in w.unpublished || e in w.channel);
    assert (w.unpublished + w.channel)[e] > 0;
    assert gone[e] == 0;
    assert (v.unpublished + v.channel)[e] > 0;
  }

  lemma CommitKeepsAccount(w: World, s: Step, hub: string, agent: string)
    requires Inv(w) && Enabled(w, s) && (s.CommitRow? || s.CommitDelete?) && ProperId(hub, agent)
    ensures Accounted(Next(w, s), hub, agent)
  {
    var v := Next(w, s);
    if (hub, agent) == (s.hub, s.agent) {
      var e := SyncEvent(if s.CommitRow? then s.action else "deleted", hub, agent);
      assert About(e, hub, agent) && e in v.unpublished;
    } else {
      assert RowOf(v, hub, agent) == RowOf(w, hub, agent);
      assert Accounted(w, hub, agent);
      if Unprocessed(w, hub, agent) { StillUnprocessed(w, v, hub, agent, multiset{}); }
    }
  }

  lemma TransferKeepsAccount(w: World, s: Step, hub: string, agent: string)
    requires Inv(w) && Enabled(w, s) && (s.Publish? || s.Inject?) && ProperId(hub, agent)
    ensures Accounted(Next(w, s), hub, agent)
  {
  }

  lemma TakeKeepsAccount(w: World, e: SyncEvent, hub: string, agent: string)
    requires Inv(w) && Enabled(w, Take(e)) && ProperId(hub, agent)
    ensures Accounted(Next(w, Take(e)), hub, agent)
  {
  }

  lemma ListenerKeepsAccount(w: World, s: Step, hub: string, agent: string)
    requires Inv(w) && Enabled(w, s) && (s.ReadRow? || s.WriteCache?) && ProperId(hub, agent)
    ensures Accounted(Next(w, s), hub, agent)
  {
    var v := Next(w, s);
    assert Accounted(w, hub, agent);
    KeysOfColonFreeHubs(hub, agent, w.listener.hub, w.listener.agent);
    if Unprocessed(w, hub, agent) { StillUnprocessed(w, v, hub, agent, multiset{}); }
  }

  lemma NextKeepsInv(w: World, s: Step)
    requires Inv(w) && Enabled(w, s)
    ensures Inv(Next(w, s))
  {
    forall hub, agent | ProperId(hub, agent) ensures Accounted(Next(w, s), hub, agent) {
      match s
      case CommitRow(_, _, _, _) => CommitKeepsAccount(w, s, hub, agent);
      case CommitDelete(_, _) => CommitKeepsAccount(w, s, hub, agent);
      case Publish(_) => TransferKeepsAccount(w, s, hub, agent);
      case Inject(_) => TransferKeepsAccount(w, s, hub, agent);
      case Take(e) => TakeKeepsAccount(w, e, hub, agent);
      case ReadRow => ListenerKeepsAccount(w, s, hub, agent);
      case WriteCache => ListenerKeepsAccount(w, s, hub, agent);
    }
  }

  lemma {:induction false} RunKeepsInv(w: World, steps: seq<Step>)
    requires Inv(w) && IsRun(w, steps)
    ensures Inv(After(w, steps))
    decreases |steps|
  {
    if steps != [] {
      NextKeepsInv(w, steps[0]);
      RunKeepsInv(Next(w, steps[0]), steps[1..]);
    }
  }

  function Boot(db: map<AgentId, AgentRow>): World {
    World(db, map[], multiset{}, multiset{}, Waiting)
  }

  predicate Quiet(w: World) {
    w.unpublished == multiset{} && w.channel == multiset{} && w.listener.Waiting?
  }

  /** In every reachable state a stale entry has an event or a reload still to come; so once all
      events are handled every cached entry is its row, and no deleted agent is cached. */
  lemma CoherentOnceQuiet(db: map<AgentId, AgentRow>, steps: seq<Step>, hub: string, agent: string)
    requires IsRun(Boot(db), steps) && ProperId(hub, agent)
    ensures var w := After(Boot(db), steps);
      && (Stale(w, hub, agent) ==> Unprocessed(w, hub, agent) || InFlight(w, hub, agent))
      && (Quiet(w) && Key(hub, agent) in w.cache ==>
            (hub, agent) in w.db && w.cache[Key(hub, agent)] == ConfigOf(hub, agent, w.db[(hub, agent)]))
  {
    RunKeepsInv(Boot(db), steps);
    assert Accounted(After(Boot(db), steps), hub, agent);
  }

  /** How much the listener still has to do. */
  function Work(w: World): nat {
    3 * |w.channel| + match w.listener case Waiting => 0 case Reading(_, _) => 2 case Writing(_, _, _) => 1
  }

  function ListenerSteps(w: World): set<Step> {
    match w.listener
    case Waiting => set e | e in w.channel :: Take(e)
    case Reading(_, _) => {ReadRow}
    case Writing(_, _, _) => {WriteCache}
  }

  lemma TakeLessensWork(w: World, e: SyncEvent)
    requires Enabled(w, Take(e))
    ensures Work(Next(w, Take(e))) < Work(w) && Next(w, Take(e)).unpublished == w.unpublished
  {
  }

  /** With everything published and nobody committing, the listener has a step until the world is
      quiet, and each of its steps, in whatever order it takes the messages, leaves less work. */
  lemma ListenerProgresses(w: World)
    requires w.unpublished == multiset{}
    ensures !Quiet(w) ==> ListenerSteps(w) != {}
    ensures forall s :: s in ListenerSteps(w) ==>
      Enabled(w, s) && Work(Next(w, s)) < Work(w) && Next(w, s).unpublished == multiset{}
  {
    if w.listener.Waiting? {
      if w.channel != multiset{} {
        var e :| e in w.channel;
        assert Take(e) in ListenerSteps(w);
      }
      hide Next, Work;
      forall s | s in ListenerSteps(w)
        ensures Enabled(w, s) && Work(Next(w, s)) < Work(w) && Next(w, s).unpublished == w.unpublished
      {
        TakeLessensWork(w, s.e);
      }
    }
  }

  /** A run in which only the listener moves. */
  predicate IsListenerRun(w: World, steps: seq<Step>)
    decreases |steps|
  {
    steps == [] || (steps[0] in ListenerSteps(w) && Enabled(w, steps[0])
      && IsListenerRun(Next(w, steps[0]), steps[1..]))
  }

  lemma {:induction false} ListenerRunShrinks(w: World, steps: seq<Step>)
    requires w.unpublished == multiset{} && IsListenerRun(w, steps)
    ensures IsRun(w, steps) && After(w, steps).unpublished == multiset{}
    ensures |steps| + Work(After(w, steps)) <= Work(w)
    decreases |steps|
  {
    if steps != [] {
      ListenerProgresses(w);
      hide Next, Work, ListenerSteps, Enabled;
      ListenerRunShrinks(Next(w, steps[0]), steps[1..]);
    }
  }

  ghost predicate Coherent(w: World) {
    forall hub, agent :: ProperId(hub, agent) ==> !Stale(w, hub, agent)
  }

  /** From every reachable world with nothing left to publish, whatever the listener does it does at
      most `Work` steps, and when it can do no more the world is quiet and the cache coherent. */
  lemma ListenerDrains(db: map<AgentId, AgentRow>, steps: seq<Step>, more: seq<Step>)
    requires IsRun(Boot(db), steps)
    requires var w := After(Boot(db), steps); w.unpublished == multiset{} && IsListenerRun(w, more)
    ensures var w := After(Boot(db), steps);
      && IsRun(w, more) && |more| <= Work(w)
      && (ListenerSteps(After(w, more)) == {} ==> Quiet(After(w, more)) && Coherent(After(w, more)))
  {
    var w := After(Boot(db), steps);
    RunKeepsInv(Boot(db), steps);
    hide Inv, ListenerSteps, Next, Enabled, Work, Coherent, IsRun, After, Quiet;
    ListenerRunShrinks(w, more);
    RunKeepsInv(w, more);
    ListenerProgresses(After(w, more));
    if Quiet(After(w, more)) { QuietIsCoherent(After(w, more)); }
  }

  lemma QuietIsCoherent(w: World)
    requires Inv(w) && Quiet(w)
    ensures Coherent(w)
  {
    forall hub, agent | ProperId(hub, agent) ensures !Stale(w, hub, agent) { assert Accounted(w, hub, agent); }
  }

  /** The steps that can mend a stale entry: a commit of its row, an event about it, its hub's eviction. */
  predicate Mends(s: Step, hub: string, agent: string) {
    match s
    case CommitRow(h, a, _, _) => h == hub && a == agent
    case CommitDelete(h, a) => h == hub && a == agent
    case Take(e) => About(e, hub, agent) || (e.hubId == hub && e.action == "hub_evicted")
    case _ => false
  }

  ghost predicate ColonFreeIds(w: World) {
    && (forall e :: e in w.unpublished || e in w.channel ==> ColonFree(e.hubId))
    && (!w.listener.Waiting? ==> ColonFree(w.listener.hub))
  }

  lemma HandleSpares(cache: Cache, e: SyncEvent, hub: string, agent: string)
    requires ColonFree(e.hubId) && ColonFree(hub) && Key(hub, agent) in cache
    requires !About(e, hub, agent) && !(e.hubId == hub && e.action == "hub_evicted")
    ensures Key(hub, agent) in Handle(cache, e) && Handle(cache, e)[Key(hub, agent)] == cache[Key(hub, agent)]
  {
    KeysOfColonFreeHubs(e.hubId, e.agentId, hub, agent);
  }

  lemma StoreRowSpares(cache: Cache, h: string, a: string, row: Option<AgentRow>, hub: string, agent: string)
    requires ColonFree(h) && ColonFree(hub) && Key(hub, agent) in cache && (h, a) != (hub, agent)
    ensures Key(hub, agent) in StoreRow(cache, h, a, row)
    ensures StoreRow(cache, h, a, row)[Key(hub, agent)] == cache[Key(hub, agent)]
  {
    KeysOfColonFreeHubs(h, a, hub, agent);
  }

  lemma StaleSurvivesStep(w: World, s: Step, hub: string, agent: string)
    requires ColonFreeIds(w) && Enabled(w, s) && ColonFree(hub) && !Mends(s, hub, agent)
    requires Stale(w, hub, agent) && !InFlight(w, hub, agent)
    ensures Stale(Next(w, s), hub, agent) && !InFlight(Next(w, s), hub, agent) && ColonFreeIds(Next(w, s))
  {
    if s.Take? {
      HandleSpares(w.cache, s.e, hub, agent);
    } else if s.WriteCache? {
      StoreRowSpares(w.cache, w.listener.hub, w.listener.agent, w.listener.row, hub, agent);
    }
    hide Handle, StoreRow, ColonFree, Key, ConfigOf, NeedsReload;
    TakenElsewhere(s, hub, agent);
  }

  lemma TakenElsewhere(s: Step, hub: string, agent: string)
    requires !Mends(s, hub, agent)
    ensures s.Take? && NeedsReload(s.e) ==> (s.e.hubId, s.e.agentId) != (hub, agent)
  {
  }

  /** An entry that is stale with no reload under way stays so through any run without such a step. */
  lemma {:induction false} StaleStays(w: World, steps: seq<Step>, hub: string, agent: string)
    requires ColonFreeIds(w) && IsRun(w, steps) && ColonFree(hub)
    requires Stale(w, hub, agent) && !InFlight(w, hub, agent)
    requires forall i :: 0 <= i < |steps| ==> !Mends(steps[i], hub, agent)
    ensures Stale(After(w, steps), hub, agent)
    decreases |steps|
  {
    if steps != [] {
      StaleSurvivesStep(w, steps[0], hub, agent);
      StaleStays(Next(w, steps[0]), steps[1..], hub, agent);
    }
  }

  /** How a new agent gets into the cache. */
  function FirstLoad(hub: string, agent: string, row: AgentRow): seq<Step> {
    var e := SyncEvent("created", hub, agent);
    [CommitRow(hub, agent, row, "created"), Publish(e), Take(e), ReadRow, WriteCache]
  }

  function Cached(hub: string, agent: string, row: AgentRow): World {
    World(map[(hub, agent) := row], map[Key(hub, agent) := ConfigOf(hub, agent, row)], multiset{}, multiset{}, Waiting)
  }

  lemma FirstLoadCaches(hub: string, agent: string, row: AgentRow)
    requires ProperId(hub, agent)
    ensures IsRun(Boot(map[]), FirstLoad(hub, agent, row))
    ensures After(Boot(map[]), FirstLoad(hub, agent, row)) == Cached(hub, agent, row)
  {
    var ss, e := FirstLoad(hub, agent, row), SyncEvent("created", hub, agent);
    var db, none := map[(hub, agent) := row], multiset{};
    var w1 := World(db, map[], multiset{e}, none, Waiting);
    var w2 := World(db, map[], none, multiset{e}, Waiting);
    var w3 := World(db, map[], none, none, Reading(hub, agent));
    var w4 := World(db, map[], none, none, Writing(hub, agent, Some(row)));
    assert Next(Boot(map[]), ss[0]) == w1 && Next(w1, ss[1]) == w2 && Next(w2, ss[2]) == w3;
    assert Next(w3, ss[3]) == w4 && Next(w4, ss[4]) == Cached(hub, agent, row);
    assert Enabled(w1, ss[1]) && Enabled(w2, ss[2]) && Enabled(w3, ss[3]) && Enabled(w4, ss[4]);
    hide Next, Enabled;
    assert ss[1..][1..] == ss[2..] && ss[2..][1..] == ss[3..] && ss[3..][1..] == ss[4..] && ss[4..][1..] == [];
    assert IsRun(w4, ss[4..]) && After(w4, ss[4..]) == Cached(hub, agent, row);
    assert IsRun(w3, ss[3..]) && After(w3, ss[3..]) == Cached(hub, agent, row);
    assert IsRun(w2, ss[2..]) && After(w2, ss[2..]) == Cached(hub, agent, row);
    assert IsRun(w1, ss[1..]) && After(w1, ss[1..]) == Cached(hub, agent, row);
  }

  /** A publish that is swallowed (publish_event returns 0 on any error) loses its event, and the old
      entry is served until the row or the hub is touched again: coherence needs lossless delivery.
      The agent was created and loaded from an empty start. */
  lemma LostEventLeavesStale(hub: string, agent: string, row: AgentRow, newer: AgentRow, steps: seq<Step>)
    requires ProperId(hub, agent) && ConfigOf(hub, agent, row) != ConfigOf(hub, agent, newer)
    requires forall i :: 0 <= i < |steps| ==> !Mends(steps[i], hub, agent)
    ensures IsRun(Boot(map[]), FirstLoad(hub, agent, row))
    ensures var w := After(Boot(map[]), FirstLoad(hub, agent, row));
      var lost := Next(w, CommitRow(hub, agent, newer, "updated")).(unpublished := multiset{});
      && !Stale(w, hub, agent) && Quiet(lost)
      && (IsRun(lost, steps) ==> Stale(After(lost, steps), hub, agent))
  {
    FirstLoadCaches(hub, agent, row);
    var w := Cached(hub, agent, row);
    var lost := Next(w, CommitRow(hub, agent, newer, "updated")).(unpublished := multiset{});
    if IsRun(lost, steps) { StaleStays(lost, steps, hub, agent); }
  }
}
