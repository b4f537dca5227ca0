/** Cross-hub resolution: loading a resource of another hub over a direct link. */
module HubResolver {
  import opened HubRepository
  import opened Options

  /** A resource row; `hubId` is empty when the row has none. */
  datatype Row = Row(hubId: string, body: string)

  /** Tables by model name. */
  type Rows = map<(string, string), Row>

  datatype Code = TargetMissing | LinkRequired | LinkRevoked | LinkInsufficient

  datatype Verdict =
    | Linked(access: string)
    | Refused(code: Code)
    | SelfAssertion          // ValueError

  datatype Resolution =
    | Found(row: Row)
    | Failed(code: Code)
    | UnknownType            // ValueError

  datatype Batch =
    | Resolved(rows: map<string, Row>)
    | Aborted(reason: Resolution)

  function LinkOf(w: World, key: (string, string)): Option<string> {
    if key in w.links then Some(w.links[key]) else None
  }

  /** What a link, once looked up, is worth. */
  function Judge(p: Policy, link: Option<string>, required: string): Verdict {
    if link.None? then Refused(LinkRevoked)
    else if !p.accessSatisfies(link.value, required) then Refused(LinkInsufficient)
    else Linked(link.value)
  }

  /** The checks between two different hubs, given the link found between them. */
  function JudgeHubs(w: World, p: Policy, source: string, target: string, link: Option<string>,
                     required: string): Verdict
  {
    if !IsLive(w, source) || !IsLive(w, target) then Refused(LinkRequired)
    else if !p.directionAllowed(w.hubs[source].hubType, w.hubs[target].hubType) then Refused(LinkRequired)
    else Judge(p, link, required)
  }

  function AssertLink(w: World, p: Policy, source: string, target: string, required: string): Verdict {
    if source == target then SelfAssertion
    else JudgeHubs(w, p, source, target, LinkOf(w, (source, target)), required)
  }

  function ModelOf(resourceType: string): Option<string> {
    match resourceType
    case "datastore_binding" => Some("DatastoreBinding")
    case "agent" => Some("AgentDefinition")
    case "workflow" => Some("WorkflowDefinition")
    case "eval_suite" => Some("EvalTestSuite")
    case "credential" => Some("ExternalCredential")
    case _ => None
  }

  datatype Lookup = Unknown | Missing | Row1(row: Row)

  /** A collection may live in either of two tables; `syntraflow` says whether the first is there. */
  function FindRow(rows: Rows, syntraflow: bool, resourceType: string, id: string): Lookup {
    if resourceType == "collection" then
      if syntraflow && ("SyntraFlowCollection", id) in rows then Row1(rows[("SyntraFlowCollection", id)])
      else if ("DatastoreBinding", id) in rows then Row1(rows[("DatastoreBinding", id)])
      else Missing
    else
      match ModelOf(resourceType)
      case None => Unknown
      case Some(m) => if (m, id) in rows then Row1(rows[(m, id)]) else Missing
  }

  /** The reference reading of a resolution: no row, or the same hub, or `AssertLink`. */
  function Resolve(w: World, p: Policy, lookup: Lookup, source: string, required: string): Resolution {
    match lookup
    case Unknown => UnknownType
    case Missing => Failed(TargetMissing)
    case Row1(row) =>
      if row.hubId == "" then Failed(TargetMissing)
      else if row.hubId == source then Found(row)
      else
        match AssertLink(w, p, source, row.hubId, required)
        case Linked(_) => Found(row)
        case Refused(code) => Failed(code)
  }

  /** A per-request cache of link lookups. */
  class LinkCache {
    var entries: map<(string, string), Option<string>>

    constructor ()
      ensures entries == map[]
    {
      entries := map[];
    }
  }

  type Entries = map<(string, string), Option<string>>

  /** The link as a resolution sees it: the cached one if there is one. */
  function SeenLink(w: World, entries: Entries, key: (string, string)): Option<string> {
    if key in entries then entries[key] else LinkOf(w, key)
  }

  /** What a resolution says, by the link it sees. */
  function ResolveSeen(w: World, p: Policy, lookup: Lookup, source: string, required: string,
                       entries: Entries): Resolution
  {
    match lookup
    case Unknown => UnknownType
    case Missing => Failed(TargetMissing)
    case Row1(row) =>
      if row.hubId == "" then Failed(TargetMissing)
      else if row.hubId == source then Found(row)
      else
        match JudgeHubs(w, p, source, row.hubId, SeenLink(w, entries, (source, row.hubId)), required)
        case Linked(_) => Found(row)
        case Refused(code) => Failed(code)
  }

  function EntriesOf(cache: LinkCache?): Entries
    reads cache
  {
    if cache == null then map[] else cache.entries
  }

  /** `after` keeps the entries of `before` and adds some of the store's links. */
  predicate Extends(w: World, before: Entries, after: Entries) {
    && (forall k :: k in before ==> k in after && after[k] == before[k])
    && (forall k :: k in after && k !in before ==> after[k] == LinkOf(w, k))
  }

  predicate Consistent(w: World, entries: Entries) {
    forall k :: k in entries ==> entries[k] == LinkOf(w, k)
  }

  /** `resolve_linked`, with any cache or none: the outcome goes by the cached link if there is one, and
      a link looked up is remembered. */
  method ResolveLinked(w: World, p: Policy, rows: Rows, syntraflow: bool, source: string, resourceType: string,
                       id: string, required: string, cache: LinkCache?) returns (r: Resolution)
    modifies cache
    ensures r == ResolveSeen(w, p, FindRow(rows, syntraflow, resourceType, id), source, required, old(EntriesOf(cache)))
    ensures Extends(w, old(EntriesOf(cache)), EntriesOf(cache))
  {
    var found: Option<Row> := None;
    if resourceType == "collection" {
      if syntraflow && ("SyntraFlowCollection", id) in rows { found := Some(rows[("SyntraFlowCollection", id)]); }
      if found.None? && ("DatastoreBinding", id) in rows { found := Some(rows[("DatastoreBinding", id)]); }
    } else {
      var m := ModelOf(resourceType);
      if m.None? { return UnknownType; }
      if (m.value, id) in rows { found := Some(rows[(m.value, id)]); }
    }
    if found.None? { return Failed(TargetMissing); }
    var row := found.value;
    if row.hubId == "" { return Failed(TargetMissing); }
    if row.hubId == source { return Found(row); }
    if !IsLive(w, source) || !IsLive(w, row.hubId) { return Failed(LinkRequired); }
    if !p.directionAllowed(w.hubs[source].hubType, w.hubs[row.hubId].hubType) { return Failed(LinkRequired); }
    var key := (source, row.hubId);
    var link;
    if cache != null && key in cache.entries {
      link := cache.entries[key];
    } else {
      link := LinkOf(w, key);
      if cache != null { cache.entries := cache.entries[key := link]; }
    }
    if link.None? { return Failed(LinkRevoked); }
    if !p.accessSatisfies(link.value, required) { return Failed(LinkInsufficient); }
    return Found(row);
  }

  /** A cache consistent with the store is invisible: the outcome is the reference reading, and the
      cache stays consistent. */
  lemma ConsistentCacheIsInvisible(w: World, p: Policy, lookup: Lookup, source: string, required: string,
                                   entries: Entries)
    requires Consistent(w, entries)
    ensures ResolveSeen(w, p, lookup, source, required, entries) == Resolve(w, p, lookup, source, required)
    ensures forall after :: Extends(w, entries, after) ==> Consistent(w, after)
  {
  }

  /** With a consistent cache or none, a batch gives what uncached single resolutions give; the first
      that fails aborts it. */
  method ResolveLinkedMany(w: World, p: Policy, rows: Rows, syntraflow: bool, source: string, resourceType: string,
                           ids: seq<string>, required: string, cache: LinkCache?) returns (b: Batch)
    requires Consistent(w, EntriesOf(cache))
    modifies cache
    ensures b.Resolved? ==>
      && b.rows.Keys == (set id | id in ids)
      && forall id :: id in ids ==>
        Resolve(w, p, FindRow(rows, syntraflow, resourceType, id), source, required) == Found(b.rows[id])
    ensures b.Aborted? ==>
      exists i :: 0 <= i < |ids|
        && b.reason == Resolve(w, p, FindRow(rows, syntraflow, resourceType, ids[i]), source, required)
          && !b.reason.Found?
        && forall j :: 0 <= j < i ==>
          Resolve(w, p, FindRow(rows, syntraflow, resourceType, ids[j]), source, required).Found?
    ensures Consistent(w, EntriesOf(cache))
  {
    var results: map<string, Row> := map[];
    for i := 0 to |ids|
      invariant Consistent(w, EntriesOf(cache))
      invariant results.Keys == (set id | id in ids[..i])
      invariant forall j :: 0 <= j < i ==>
        ids[j] in results && Resolve(w, p, FindRow(rows, syntraflow, resourceType, ids[j]), source, required)
          == Found(results[ids[j]])
    {
      ConsistentCacheIsInvisible(w, p, FindRow(rows, syntraflow, resourceType, ids[i]), source, required,
        EntriesOf(cache));
      hide Resolve, ResolveSeen, FindRow, Consistent, Extends;
      var r := ResolveLinked(w, p, rows, syntraflow, source, resourceType, ids[i], required, cache);
      if !r.Found? { return Aborted(r); }
      results := results[ids[i] := r.row];
      assert ids[..i + 1] == ids[..i] + [ids[i]];
    }
    assert ids[..|ids|] == ids;
    return Resolved(results);
  }

  /** `assert_link` itself. */
  method CheckLink(w: World, p: Policy, source: string, target: string, required: string) returns (v: Verdict)
    ensures v == AssertLink(w, p, source, target, required)
    ensures v.Linked? ==>
      && source != target && IsLive(w, source) && IsLive(w, target)
      && (source, target) in w.links && v.access == w.links[(source, target)] && p.accessSatisfies(v.access, required)
      && p.directionAllowed(w.hubs[source].hubType, w.hubs[target].hubType)
  {
    if source == target { return SelfAssertion; }
    if !IsLive(w, source) || !IsLive(w, target) { return Refused(LinkRequired); }
    if !p.directionAllowed(w.hubs[source].hubType, w.hubs[target].hubType) { return Refused(LinkRequired); }
    if (source, target) !in w.links { return Refused(LinkRevoked); }
    var access := w.links[(source, target)];
    if !p.accessSatisfies(access, required) { return Refused(LinkInsufficient); }
    return Linked(access);
  }

  // ---------------------------------------------------------- what is found, and why not

  /** Which table a resource type is looked up in; collections in one of two. */
  predicate IsTableOf(resourceType: string, table: string) {
    || (resourceType == "datastore_binding" && table == "DatastoreBinding")
    || (resourceType == "agent" && table == "AgentDefinition")
    || (resourceType == "workflow" && table == "WorkflowDefinition")
    || (resourceType == "eval_suite" && table == "EvalTestSuite")
    || (resourceType == "credential" && table == "ExternalCredential")
  }

  lemma LookupIff(rows: Rows, syntraflow: bool, resourceType: string, id: string)
    ensures var l, own, binding := FindRow(rows, syntraflow, resourceType, id), ("SyntraFlowCollection", id),
        ("DatastoreBinding", id);
      && (l.Unknown? <==> resourceType != "collection" && forall t :: !IsTableOf(resourceType, t))
      && (forall t :: IsTableOf(resourceType, t) ==> l == if (t, id) in rows then Row1(rows[(t, id)]) else Missing)
      && (resourceType == "collection" && syntraflow && own in rows ==> l == Row1(rows[own]))
      && (resourceType == "collection" && !(syntraflow && own in rows) ==>
            l == if binding in rows then Row1(rows[binding]) else Missing)
  {
    if ModelOf(resourceType).Some? { assert IsTableOf(resourceType, ModelOf(resourceType).value); }
  }

  /** An assertion passes exactly over a stored link of sufficient access between two different live
      hubs in an allowed direction, and each refusal has its one reason. */
  lemma AssertionIff(w: World, p: Policy, source: string, target: string, required: string)
    ensures var v, k := AssertLink(w, p, source, target, required), (source, target);
      var direct := IsLive(w, source) && IsLive(w, target)
        && p.directionAllowed(w.hubs[source].hubType, w.hubs[target].hubType);
      && (v == SelfAssertion <==> source == target)
      && (v == Refused(LinkRequired) <==> source != target && !direct)
      && (v == Refused(LinkRevoked) <==> source != target && direct && k !in w.links)
      && (v == Refused(LinkInsufficient) <==>
            source != target && direct && k in w.links && !p.accessSatisfies(w.links[k], required))
      && (v.Linked? <==> source != target && direct && k in w.links && p.accessSatisfies(w.links[k], required))
      && (v.Linked? ==> v.access == w.links[k])
  {
  }

  /** A resolution finds the row that is looked up, and only if it belongs to the source hub itself or
      to a hub that the source may be asserted to. */
  lemma ResolutionIff(w: World, p: Policy, lookup: Lookup, source: string, required: string, row: Row)
    ensures Resolve(w, p, lookup, source, required) == Found(row) <==>
      && lookup == Row1(row) && row.hubId != ""
      && (row.hubId == source || AssertLink(w, p, source, row.hubId, required).Linked?)
    ensures Resolve(w, p, lookup, source, required) == UnknownType <==> lookup == Unknown
    ensures Resolve(w, p, lookup, source, required) == Failed(TargetMissing) <==>
      lookup == Missing || (lookup.Row1? && lookup.row.hubId == "")
  {
  }

  // ------------------------------------------------------------ single hop only

  /** The outcome depends on no link but the direct one: change, add or remove any others and it is
      the same. */
  lemma OnlyDirectLinkMatters(w: World, v: World, p: Policy, row: Row, source: string, required: string)
    requires w.hubs == v.hubs && LinkOf(w, (source, row.hubId)) == LinkOf(v, (source, row.hubId))
    ensures Resolve(w, p, Row1(row), source, required) == Resolve(v, p, Row1(row), source, required)
  {
  }

  /** Consistency is needed.  A resolution over a link that was cached, then deleted, still finds the
      row; it does so exactly when the link's entry is in the cache. */
  lemma StaleEntryOutlivesRevocation(w: World, p: Policy, row: Row, source: string, required: string, entries: Entries)
    requires row.hubId != "" && row.hubId != source && Consistent(w, entries)
    requires Resolve(w, p, Row1(row), source, required) == Found(row)
    ensures var v := DeleteHubLink(w, source, row.hubId).0;
      && Resolve(v, p, Row1(row), source, required) == Failed(LinkRevoked)
      && (ResolveSeen(v, p, Row1(row), source, required, entries) == Found(row) <==> (source, row.hubId) in entries)
  {
  }

  /** A link a route creates is asserted at exactly the levels it satisfies, until it is deleted. */
  lemma CreatedLinkIsAsserted(w: World, p: Policy, c: Caller, source: string, target: string, access: string,
                              required: string)
    requires CreateHubLink(w, p, c, source, target, access).1 == Done
    ensures var v := CreateHubLink(w, p, c, source, target, access).0;
      && (AssertLink(v, p, source, target, required) ==
            if p.accessSatisfies(access, required) then Linked(access) else Refused(LinkInsufficient))
      && AssertLink(DeleteHubLink(v, source, target).0, p, source, target, required) == Refused(LinkRevoked)
  {
  }

  // ------------------------------------------------------------------ listing

  predicate IsListed(w: World, p: Policy, source: string, targetType: string, required: string, target: string) {
    && (source, target) in w.links && IsLive(w, target)
    && w.hubs[target].hubType == targetType && p.accessSatisfies(w.links[(source, target)], required)
  }

  method ListLinkedHubIds(w: World, p: Policy, source: string, targetType: string, required: string)
    returns (ids: seq<string>)
    ensures forall t :: t in ids <==> IsListed(w, p, source, targetType, required, t)
    ensures forall i, j :: 0 <= i < j < |ids| ==> ids[i] != ids[j]
  {
    ids := [];
    var links := set k | k in w.links && k.0 == source;
    var todo := links;
    while todo != {}
      invariant todo <= links
      invariant forall t :: t in ids <==> IsListed(w, p, source, targetType, required, t) && (source, t) !in todo
      invariant forall i, j :: 0 <= i < j < |ids| ==> ids[i] != ids[j]
      decreases |todo|
    {
      var k :| k in todo;
      assert k == (source, k.1);
      todo := todo - {k};
      if IsLive(w, k.1) && w.hubs[k.1].hubType == targetType && p.accessSatisfies(w.links[k], required) {
        ids := ids + [k.1];
      }
    }
  }

  /** Listed and assertable are the same targets exactly when the source hub is live or nothing is
      listed: the listing does not look at the source hub, the assertion does. */
  lemma ListingAgreesIff(w: World, p: Policy, source: string, targetType: string, required: string)
    requires LinksChecked(w, p)
    ensures (forall t :: IsListed(w, p, source, targetType, required, t) <==>
                         t in w.hubs && w.hubs[t].hubType == targetType
                           && AssertLink(w, p, source, t, required).Linked?)
       <==> IsLive(w, source) || forall t :: !IsListed(w, p, source, targetType, required, t)
  {
  }

  /** So in every reachable state, for a live source hub. */
  lemma ListingAgreesWithAsserting(w: World, p: Policy, ss: seq<Step>, source: string, targetType: string,
                                   required: string, t: string)
    requires SlugsUnique(w.hubs) && LinksChecked(w, p) && IsRun(w, p, ss) && IsLive(After(w, p, ss), source)
    ensures var v := After(w, p, ss);
      IsListed(v, p, source, targetType, required, t) <==>
      t in v.hubs && v.hubs[t].hubType == targetType && AssertLink(v, p, source, t, required).Linked?
  {
    RunKeepsSlugsAndLinks(w, p, ss);
    ListingAgreesIff(After(w, p, ss), p, source, targetType, required);
  }

  /** A deleted hub is still listed as linked to its targets, each of which it can no longer reach. */
  lemma DeletedSourceStillLists(w: World, p: Policy, source: string, resources: nat, suffix: string,
                                targetType: string, required: string, t: string)
    requires IsLive(w, source) && source != t && IsListed(w, p, source, targetType, required, t)
    ensures var v := DeleteHub(w, source, true, resources, suffix).0;
      IsListed(v, p, source, targetType, required, t) && AssertLink(v, p, source, t, required) == Refused(LinkRequired)
  {
  }
}
