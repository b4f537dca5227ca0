/** The external model API: resolving `{hub_slug}/{agent_slug}` for a key, and listing the names a
    key may use.  Two independent query paths. */
module ExternalModels {
  import opened HubRepository
  import opened Options

  datatype Agent = Agent(hubId: string, endpointSlug: string, isActive: bool)

  datatype Catalog = Catalog(w: World, agents: map<string, Agent>)

  /** `hubId` scopes the key to one hub, `userId` binds a platform key; each may be empty. */
  datatype ApiKey = ApiKey(hubId: string, userId: string)

  datatype Resolution =
    | NotQualified          // not of the form; the caller goes on to the model registry
    | ModelNotFound         // 404
    | KeyNotBound           // 403
    | Resolved(agent: string)

  // ------------------------------------------------------------- the grammar

  predicate IsSlugChar(c: char) {
    'a' <= c <= 'z' || '0' <= c <= '9' || c == '-'
  }

  predicate IsSlug(s: string, max: nat) {
    1 <= |s| <= max && s[0] != '-' && forall i :: 0 <= i < |s| ==> IsSlugChar(s[i])
  }

  function FirstSlash(s: string): (n: nat)
    ensures n <= |s|
    ensures forall i :: 0 <= i < n ==> s[i] != '/'
    ensures n < |s| ==> s[n] == '/'
  {
    if s == [] || s[0] == '/' then 0 else 1 + FirstSlash(s[1..])
  }

  function Name(hubSlug: string, agentSlug: string): string {
    hubSlug + "/" + agentSlug
  }

  /** The qualified form, on a model string that is already stripped. */
  function Parse(model: string): (r: Option<(string, string)>)
    ensures r.Some? ==> model == Name(r.value.0, r.value.1)
  {
    var n := FirstSlash(model);
    if n < |model| && IsSlug(model[..n], 64) && IsSlug(model[n + 1..], 100)
    then Some((model[..n], model[n + 1..])) else None
  }

  lemma SlashInHubSlug(hubSlug: string, agentSlug: string)
    ensures FirstSlash(Name(hubSlug, agentSlug)) <= |hubSlug|
    ensures FirstSlash(Name(hubSlug, agentSlug)) < |hubSlug| ==> Parse(Name(hubSlug, agentSlug)).None?
  {
    var m := Name(hubSlug, agentSlug);
    var n := FirstSlash(m);
    assert m[|hubSlug|] == '/';
    if n < |hubSlug| { assert m[n + 1..][|hubSlug| - n - 1] == '/'; }
  }

  /** A name in the qualified form determines its two slugs, whatever the slugs are. */
  lemma NameParses(hubSlug: string, agentSlug: string)
    requires Parse(Name(hubSlug, agentSlug)).Some?
    ensures Parse(Name(hubSlug, agentSlug)) == Some((hubSlug, agentSlug))
  {
    SlashInHubSlug(hubSlug, agentSlug);
    var m := Name(hubSlug, agentSlug);
    assert m[..|hubSlug|] == hubSlug && m[|hubSlug| + 1..] == agentSlug;
  }

  // ----------------------------------------------------------------- queries

  predicate IsAgentHub(c: Catalog, h: string) {
    h in c.w.hubs && c.w.hubs[h].hubType == "agent" && !c.w.hubs[h].isArchived
  }

  predicate HubNamed(c: Catalog, h: string, slug: string) {
    IsAgentHub(c, h) && c.w.hubs[h].slug == slug
  }

  predicate AgentOf(c: Catalog, a: string, h: string) {
    a in c.agents && c.agents[a].hubId == h && c.agents[a].isActive
  }

  predicate AgentNamed(c: Catalog, a: string, h: string, slug: string) {
    AgentOf(c, a, h) && c.agents[a].endpointSlug == slug
  }

  /** Slugs are unique per hub type, and per hub for agents. */
  predicate SlugsOk(c: Catalog) {
    SlugsUnique(c.w.hubs) &&
    forall a, b :: a in c.agents && b in c.agents && a != b ==>
      !(c.agents[a].hubId == c.agents[b].hubId && c.agents[a].endpointSlug == c.agents[b].endpointSlug)
  }

  predicate IsAdmin(w: World, user: string) {
    user in w.users && w.users[user].platformRole == "admin"
  }

  /** What a user-bound key may resolve: its user is active, and an admin or a contributor there. */
  predicate MayUse(w: World, p: Policy, user: string, h: string) {
    && IsActiveUser(w, user)
    && (IsAdmin(w, user) || ((h, user) in w.members && p.roleSatisfies(w.members[(h, user)], "contributor")))
  }

  /** `resolve_qualified_agent`. */
  method Resolve(c: Catalog, p: Policy, model: string, key: ApiKey) returns (r: Resolution)
    requires SlugsOk(c)
    ensures r.NotQualified? <==> Parse(model).None?
    ensures r.KeyNotBound? <==>
      Parse(model).Some? && key == ApiKey("", "") && exists h :: HubNamed(c, h, Parse(model).value.0)
    ensures r.Resolved? <==> Resolvable(c, p, model, key)
    ensures r.Resolved? ==> Grants(c, p, model, key, r.agent)
  {
    var parsed := Parse(model);
    if parsed.None? { return NotQualified; }
    var (hubSlug, agentSlug) := parsed.value;
    if h :| h in c.w.hubs && HubNamed(c, h, hubSlug) {
      if key.hubId != "" {
        if h != key.hubId { return ModelNotFound; }
      } else {
        if key.userId == "" { return KeyNotBound; }
        if key.userId !in c.w.users || c.w.users[key.userId].status != "active" { return ModelNotFound; }
        if c.w.users[key.userId].platformRole != "admin" {
          if (h, key.userId) !in c.w.members || !p.roleSatisfies(c.w.members[(h, key.userId)], "contributor") {
            return ModelNotFound;
          }
        }
      }
      if a :| a in c.agents && AgentNamed(c, a, h, agentSlug) {
        assert GrantsIn(c, p, model, key, h, a);
        assert Grants(c, p, model, key, a);
        return Resolved(a);
      }
      return ModelNotFound;
    }
    return ModelNotFound;
  }

  predicate KeyAdmits(c: Catalog, p: Policy, key: ApiKey, h: string) {
    if key.hubId != "" then h == key.hubId else key.userId != "" && MayUse(c.w, p, key.userId, h)
  }

  predicate GrantsIn(c: Catalog, p: Policy, model: string, key: ApiKey, h: string, a: string) {
    && Parse(model).Some? && HubNamed(c, h, Parse(model).value.0) && KeyAdmits(c, p, key, h)
    && AgentNamed(c, a, h, Parse(model).value.1)
  }

  ghost predicate Grants(c: Catalog, p: Policy, model: string, key: ApiKey, a: string) {
    exists h :: GrantsIn(c, p, model, key, h, a)
  }

  ghost predicate Resolvable(c: Catalog, p: Policy, model: string, key: ApiKey) {
    exists a :: Grants(c, p, model, key, a)
  }

  /** Which hubs the listing goes through. */
  predicate IsListedHub(c: Catalog, key: ApiKey, h: string) {
    && IsAgentHub(c, h)
    && (if key.hubId != "" then h == key.hubId
        else key.userId != "" && (IsAdmin(c.w, key.userId) || (h, key.userId) in c.w.members))
  }

  predicate IsListedIn(c: Catalog, key: ApiKey, name: string, h: string, a: string) {
    IsListedHub(c, key, h) && AgentOf(c, a, h) && c.agents[a].endpointSlug != ""
      && name == Name(c.w.hubs[h].slug, c.agents[a].endpointSlug)
  }

  ghost predicate IsListed(c: Catalog, key: ApiKey, name: string) {
    exists h, a :: IsListedIn(c, key, name, h, a)
  }

  /** The agent half of `list_models`; the registry's models come first. */
  method ListModels(c: Catalog, key: ApiKey, registry: seq<string>) returns (data: seq<string>)
    ensures registry <= data
    ensures forall n :: n in data[|registry|..] <==> IsListed(c, key, n)
  {
    var names := [];
    var hubs := set h | h in c.w.hubs && IsListedHub(c, key, h);
    var todo := hubs;
    while todo != {}
      invariant todo <= hubs
      invariant forall n :: n in names <==> exists h, a :: h !in todo && IsListedIn(c, key, n, h, a)
      decreases |todo|
    {
      var h :| h in todo;
      names := AppendAgents(c, key, h, names);
      todo := todo - {h};
    }
    data := registry + names;
    assert data[|registry|..] == names;
  }

  method AppendAgents(c: Catalog, key: ApiKey, h: string, names: seq<string>) returns (more: seq<string>)
    requires IsListedHub(c, key, h)
    ensures forall n :: n in more <==> n in names || exists a :: IsListedIn(c, key, n, h, a)
  {
    more := names;
    var agents := set a | a in c.agents && AgentOf(c, a, h);
    var rest := agents;
    while rest != {}
      invariant rest <= agents
      invariant forall n :: n in more <==> n in names || exists a :: a !in rest && IsListedIn(c, key, n, h, a)
      decreases |rest|
    {
      var a :| a in rest;
      rest := rest - {a};
      if c.agents[a].endpointSlug != "" {
        ghost var n := Name(c.w.hubs[h].slug, c.agents[a].endpointSlug);
        assert IsListedIn(c, key, n, h, a);
        more := more + [Name(c.w.hubs[h].slug, c.agents[a].endpointSlug)];
      }
    }
  }

  // ------------------------------------------------------------- who may use what

  /** A slug: letters, digits and hyphens, not led by a hyphen. */
  predicate IsSlugOf(s: string, max: nat) {
    && 0 < |s| <= max && s[0] != '-'
    && forall i :: 0 <= i < |s| ==> 'a' <= s[i] <= 'z' || '0' <= s[i] <= '9' || s[i] == '-'
  }

  /** The qualified form: two slugs around a slash, the first of at most 64 characters and the second
      of at most 100. */
  lemma ParseIff(model: string, hubSlug: string, agentSlug: string)
    ensures Parse(model) == Some((hubSlug, agentSlug)) <==>
      model == hubSlug + "/" + agentSlug && IsSlugOf(hubSlug, 64) && IsSlugOf(agentSlug, 100)
  {
    if model == hubSlug + "/" + agentSlug && IsSlugOf(hubSlug, 64) && IsSlugOf(agentSlug, 100) {
      assert model[|hubSlug|] == '/';
      var n := FirstSlash(model);
      assert forall i :: 0 <= i < |hubSlug| ==> model[i] == hubSlug[i];
      assert n == |hubSlug|;
      assert model[..n] == hubSlug && model[n + 1..] == agentSlug;
    }
  }

  /** A platform key acts for its user; a hub key for its hub, whoever made it. */
  predicate MayCall(w: World, p: Policy, key: ApiKey, h: string) {
    if key.hubId != "" then h == key.hubId
    else
      && key.userId != "" && key.userId in w.users && w.users[key.userId].status == "active"
      && (|| w.users[key.userId].platformRole == "admin"
          || ((h, key.userId) in w.members && p.roleSatisfies(w.members[(h, key.userId)], "contributor")))
  }

  /** A name resolves to an agent exactly when it is the hub's slug and the agent's, the hub is an agent
      hub that is not archived, the agent is active and belongs to it, and the key may call it. */
  lemma GrantsIff(c: Catalog, p: Policy, model: string, key: ApiKey, a: string)
    ensures Grants(c, p, model, key, a) <==>
      && a in c.agents && c.agents[a].isActive && c.agents[a].hubId in c.w.hubs
      && c.w.hubs[c.agents[a].hubId].hubType == "agent" && !c.w.hubs[c.agents[a].hubId].isArchived
      && Parse(model) == Some((c.w.hubs[c.agents[a].hubId].slug, c.agents[a].endpointSlug))
      && MayCall(c.w, p, key, c.agents[a].hubId)
  {
    if a in c.agents {
      var h := c.agents[a].hubId;
      if Grants(c, p, model, key, a) {
        var g :| GrantsIn(c, p, model, key, g, a);
        assert g == h;
      } else if h in c.w.hubs && Parse(model).Some? {
        assert !GrantsIn(c, p, model, key, h, a);
      }
    }
  }

  /** The listing asks less of a platform key's user: a membership in any role, and no active account. */
  lemma ListedIff(c: Catalog, key: ApiKey, name: string)
    ensures IsListed(c, key, name) <==> exists a ::
      && a in c.agents && c.agents[a].isActive && c.agents[a].endpointSlug != "" && c.agents[a].hubId in c.w.hubs
      && c.w.hubs[c.agents[a].hubId].hubType == "agent" && !c.w.hubs[c.agents[a].hubId].isArchived
      && name == c.w.hubs[c.agents[a].hubId].slug + "/" + c.agents[a].endpointSlug
      && (if key.hubId != "" then c.agents[a].hubId == key.hubId
          else
            && key.userId != ""
            && (|| (key.userId in c.w.users && c.w.users[key.userId].platformRole == "admin")
                || (c.agents[a].hubId, key.userId) in c.w.members))
  {
    if IsListed(c, key, name) {
      var h, a :| IsListedIn(c, key, name, h, a);
      assert a in c.agents && c.agents[a].hubId == h;
    } else {
      forall a | a in c.agents ensures !IsListedIn(c, key, name, c.agents[a].hubId, a) {
      }
    }
  }

  // --------------------------------------------------------------- agreement

  /** Every name the key can resolve is on its list. */
  lemma ResolvableImpliesListed(c: Catalog, p: Policy, model: string, key: ApiKey)
    requires Resolvable(c, p, model, key)
    ensures IsListed(c, key, model)
  {
    var a :| Grants(c, p, model, key, a);
    var h :| GrantsIn(c, p, model, key, h, a);
    assert IsListedIn(c, key, model, h, a);
  }

  /** For a key scoped to a hub the two paths agree on every name of the qualified form. */
  lemma HubKeyListsExactlyResolvable(c: Catalog, p: Policy, model: string, key: ApiKey)
    requires key.hubId != "" && Parse(model).Some?
    ensures IsListed(c, key, model) <==> Resolvable(c, p, model, key)
  {
    if IsListed(c, key, model) {
      var h, a :| IsListedIn(c, key, model, h, a);
      NameParses(c.w.hubs[h].slug, c.agents[a].endpointSlug);
      assert GrantsIn(c, p, model, key, h, a);
      assert Grants(c, p, model, key, a);
    } else if Resolvable(c, p, model, key) {
      ResolvableImpliesListed(c, p, model, key);
    }
  }

  /** For a key bound to a user they differ by what only resolution checks: a listed name of the form
      resolves exactly when the user is active and an admin or a contributor in the named hub. */
  lemma UserKeyResolvesIff(c: Catalog, p: Policy, user: string, h: string, a: string, model: string)
    requires SlugsOk(c) && user != "" && Parse(model).Some?
    requires IsListedIn(c, ApiKey("", user), model, h, a)
    ensures Resolvable(c, p, model, ApiKey("", user)) <==> MayUse(c.w, p, user, h)
  {
    NameParses(c.w.hubs[h].slug, c.agents[a].endpointSlug);
    var key := ApiKey("", user);
    if MayUse(c.w, p, user, h) {
      assert GrantsIn(c, p, model, key, h, a);
      assert Grants(c, p, model, key, a);
    }
    if Resolvable(c, p, model, key) {
      var b :| Grants(c, p, model, key, b);
      var g :| GrantsIn(c, p, model, key, g, b);
      assert g == h;
    }
  }

  /** A model string resolves to one agent at most. */
  lemma GrantedAgentIsUnique(c: Catalog, p: Policy, model: string, key: ApiKey, a: string, b: string)
    requires SlugsOk(c) && Grants(c, p, model, key, a) && Grants(c, p, model, key, b)
    ensures a == b
  {
  }

  /** Resolution does not look at the deletion flag: an agent of a soft-deleted hub still resolves for
      the hub's key, under the hub's suffixed slug, exactly when that name is still of the form. */
  lemma DeletedHubStillServesIff(c: Catalog, p: Policy, h: string, a: string, resources: nat, suffix: string)
    requires h != "" && IsAgentHub(c, h) && IsLive(c.w, h) && AgentOf(c, a, h)
    ensures var d := c.(w := DeleteHub(c.w, h, true, resources, suffix).0);
      var model := Name(DeletedSlug(c.w.hubs[h].slug, suffix), c.agents[a].endpointSlug);
      && !IsLive(d.w, h)
      && (Grants(d, p, model, ApiKey(h, ""), a) <==> Parse(model).Some?)
  {
    var d := c.(w := DeleteHub(c.w, h, true, resources, suffix).0);
    var model := Name(DeletedSlug(c.w.hubs[h].slug, suffix), c.agents[a].endpointSlug);
    if Parse(model).Some? {
      NameParses(DeletedSlug(c.w.hubs[h].slug, suffix), c.agents[a].endpointSlug);
      assert GrantsIn(d, p, model, ApiKey(h, ""), h, a);
    }
  }

  /** For a key bound to a user, exactly when moreover the user may use the hub as before. */
  lemma DeletedHubStillServesUserIff(
    c: Catalog, p: Policy, user: string, h: string, a: string, resources: nat, suffix: string)
    requires user != "" && IsAgentHub(c, h) && IsLive(c.w, h) && AgentOf(c, a, h) && SlugsOk(c)
    requires FreshSuffix(c.w, "agent", c.w.hubs[h].slug, suffix)
    ensures var d := c.(w := DeleteHub(c.w, h, true, resources, suffix).0);
      var model := Name(DeletedSlug(c.w.hubs[h].slug, suffix), c.agents[a].endpointSlug);
      Grants(d, p, model, ApiKey("", user), a) <==> Parse(model).Some? && MayUse(c.w, p, user, h)
  {
    var d := c.(w := DeleteHub(c.w, h, true, resources, suffix).0);
    var model := Name(DeletedSlug(c.w.hubs[h].slug, suffix), c.agents[a].endpointSlug);
    if Parse(model).Some? {
      NameParses(DeletedSlug(c.w.hubs[h].slug, suffix), c.agents[a].endpointSlug);
      if MayUse(c.w, p, user, h) { assert GrantsIn(d, p, model, ApiKey("", user), h, a); }
      if Grants(d, p, model, ApiKey("", user), a) {
        var g :| GrantsIn(d, p, model, ApiKey("", user), g, a);
        assert g == h;
      }
    }
  }
}
