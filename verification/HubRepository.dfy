/** Hubs, their members and their links: the repository functions and the routes that call them.

    Slugs arrive lower-cased (the request schema lower-cases them).  The hub id given to a route has
    passed `require_hub`, so it names a hub that is not deleted. */
module HubRepository {
  import opened Options

  datatype Details = Details(
    name: string,
    description: Option<string>,
    accent: Option<string>,
    icon: Option<string>,
    settings: string)

  datatype Hub = Hub(
    hubType: string,
    slug: string,
    details: Details,
    ownerId: string,
    isArchived: bool,
    isDeleted: bool)

  /** The payload of a creation; `links` are the initial links: target hub and access level. */
  datatype HubCreate = HubCreate(hubType: string, slug: string, details: Details, links: seq<(string, string)>)

  /** The payload of an update: what is absent stays as it is. */
  datatype HubUpdate = HubUpdate(
    slug: Option<string>,
    name: Option<string>,
    description: Option<string>,
    accent: Option<string>,
    icon: Option<string>,
    settings: Option<string>)

  datatype User = User(platformRole: string, status: string, isDeleted: bool)

  datatype World = World(
    hubs: map<string, Hub>,
    members: map<(string, string), string>,   // (hub, user) to hub role
    links: map<(string, string), string>,     // (source hub, target hub) to access level
    users: map<string, User>)

  datatype Reply =
    | Done
    | NotFound
    | DuplicateSlug
    | SlugLocked
    | InitialLinkFailed
    | NotEmpty
    | LastOwner
    | AlreadyMember
    | CannotGrantOwner
    | SelfTransfer
    | SelfLink
    | DirectionForbidden
    | AlreadyLinked
    | Unauthorized
    | OwnsHubs
    | StillReferenced

  /** The role, access and direction tables, which are not part of this model. */
  datatype Policy = Policy(
    roleSatisfies: (string, string) -> bool,
    accessSatisfies: (string, string) -> bool,
    directionAllowed: (string, string) -> bool)

  predicate IsLive(w: World, hub: string) {
    hub in w.hubs && !w.hubs[hub].isDeleted
  }

  // -------------------------------------------------------------------- hubs

  predicate HasSlug(h: Hub, hubType: string, slug: string) {
    h.hubType == hubType && h.slug == slug
  }

  predicate SlugTaken(w: World, hubType: string, slug: string) {
    exists h :: h in w.hubs && HasSlug(w.hubs[h], hubType, slug) && !w.hubs[h].isDeleted
  }

  function DeletedSlug(slug: string, suffix: string): string {
    slug + "-del-" + suffix
  }

  /** A soft-deleted hub that still has the slug gives it up. */
  function ReleaseSlug(w: World, hubType: string, slug: string, suffix: string): World {
    w.(hubs := map h | h in w.hubs ::
      if HasSlug(w.hubs[h], hubType, slug) && w.hubs[h].isDeleted
      then w.hubs[h].(slug := DeletedSlug(slug, suffix)) else w.hubs[h])
  }

  /** `firstAdmin` is the row that the query for an undeleted platform admin returns first. */
  predicate IsFirstAdmin(users: map<string, User>, firstAdmin: Option<string>) {
    match firstAdmin
    case Some(a) => a in users && users[a].platformRole == "admin" && !users[a].isDeleted
    case None => forall a :: a in users ==> users[a].platformRole != "admin" || users[a].isDeleted
  }

  function OwnerFor(w: World, owner: string, firstAdmin: Option<string>): string {
    if owner in w.users || firstAdmin.None? then owner else firstAdmin.value
  }

  /** One link, as `create_link` stores it: a stored link takes the new access level. */
  function StoreLink(w: World, p: Policy, source: string, target: string, access: string): (World, Reply) {
    if !IsLive(w, source) || !IsLive(w, target) then (w, NotFound)
    else if !p.directionAllowed(w.hubs[source].hubType, w.hubs[target].hubType) then (w, DirectionForbidden)
    else (w.(links := w.links[(source, target) := access]), Done)
  }

  /** The links in turn, up to the first that fails. */
  function StoreLinks(w: World, p: Policy, source: string, links: seq<(string, string)>): (World, Reply) {
    if links == [] then (w, Done)
    else
      var (v, r) := StoreLinks(w, p, source, links[..|links| - 1]);
      if r != Done then (v, r) else StoreLink(v, p, source, links[|links| - 1].0, links[|links| - 1].1)
  }

  /** The hub with its owner's row, and the owner's account if there is nobody else. */
  function AddHub(w: World, id: string, data: HubCreate, owner: string, firstAdmin: Option<string>, suffix: string)
    : World
  {
    var o := OwnerFor(w, owner, firstAdmin);
    var v := ReleaseSlug(w, data.hubType, data.slug, suffix);
    World(v.hubs[id := Hub(data.hubType, data.slug, data.details, o, false, false)],
          v.members[(id, o) := "owner"], v.links,
          if o in v.users then v.users else v.users[o := User("admin", "active", false)])
  }

  /** An initial link that fails raises a NameError in its own handler, so the request is rolled back. */
  function CreateHub(w: World, p: Policy, id: string, data: HubCreate, owner: string, firstAdmin: Option<string>,
                     suffix: string): (World, Reply)
  {
    if SlugTaken(w, data.hubType, data.slug) then (w, DuplicateSlug)
    else
      var (v, r) := StoreLinks(AddHub(w, id, data, owner, firstAdmin, suffix), p, id, data.links);
      if r == Done then (v, Done) else (w, InitialLinkFailed)
  }

  function OrElse<T>(change: Option<T>, was: T): T {
    if change.Some? then change.value else was
  }

  function Merge(d: Details, data: HubUpdate): Details {
    Details(
      OrElse(data.name, d.name),
      if data.description.Some? then data.description else d.description,
      if data.accent.Some? then data.accent else d.accent,
      if data.icon.Some? then data.icon else d.icon,
      OrElse(data.settings, d.settings))
  }

  /** `bound`: the hub has datastore bindings. */
  function UpdateHub(w: World, hub: string, data: HubUpdate, bound: bool, suffix: string): (World, Reply) {
    if !IsLive(w, hub) then (w, NotFound)
    else
      var h := w.hubs[hub];
      var merged := h.(details := Merge(h.details, data));
      if data.slug.Some? && data.slug.value != h.slug && h.hubType == "ingestion" && bound then (w, SlugLocked)
      else if data.slug.None? || data.slug.value == "" || data.slug.value == h.slug then
        (w.(hubs := w.hubs[hub := merged]), Done)
      else if SlugTaken(w, h.hubType, data.slug.value) then (w, DuplicateSlug)
      else
        var v := ReleaseSlug(w, h.hubType, data.slug.value, suffix);
        (v.(hubs := v.hubs[hub := merged.(slug := data.slug.value)]), Done)
  }

  function ArchiveHub(w: World, hub: string, archived: bool): (World, Reply) {
    if !IsLive(w, hub) then (w, NotFound)
    else (w.(hubs := w.hubs[hub := w.hubs[hub].(isArchived := archived)]), Done)
  }

  /** `resources`: rows of other tables that the hub still owns. */
  function DeleteHub(w: World, hub: string, force: bool, resources: nat, suffix: string): (World, Reply) {
    if !IsLive(w, hub) then (w, NotFound)
    else if !force && resources > 0 then (w, NotEmpty)
    else
      var h := w.hubs[hub];
      (w.(hubs := w.hubs[hub := h.(isDeleted := true, slug := DeletedSlug(h.slug, suffix))]), Done)
  }

  // ----------------------------------------------------------------- members

  function Owners(w: World, hub: string): set<string> {
    set k | k in w.members && k.0 == hub && w.members[k] == "owner" :: k.1
  }

  predicate IsLastOwner(w: World, hub: string, user: string) {
    (hub, user) in w.members && w.members[(hub, user)] == "owner" && |Owners(w, hub)| <= 1
  }

  function UpsertMember(w: World, hub: string, user: string, role: string): (World, Reply) {
    if role != "owner" && IsLastOwner(w, hub, user) then (w, LastOwner)
    else (w.(members := w.members[(hub, user) := role]), Done)
  }

  function RemoveMember(w: World, hub: string, user: string): (World, Reply) {
    if (hub, user) !in w.members then (w, Done)
    else if IsLastOwner(w, hub, user) then (w, LastOwner)
    else (w.(members := w.members - {(hub, user)}), Done)
  }

  /** Who calls a hub route, with the role `require_hub` found for them. */
  datatype Caller = Caller(userId: string, hubRole: string, isPlatformAdmin: bool)

  predicate MayGrant(c: Caller, role: string) {
    role == "owner" ==> c.hubRole == "owner" || c.isPlatformAdmin
  }

  predicate IsActiveUser(w: World, user: string) {
    user in w.users && w.users[user].status == "active"
  }

  function AddHubMember(w: World, c: Caller, hub: string, user: string, role: string): (World, Reply) {
    if !MayGrant(c, role) then (w, CannotGrantOwner)
    else if !IsActiveUser(w, user) then (w, NotFound)
    else if (hub, user) in w.members then (w, AlreadyMember)
    else UpsertMember(w, hub, user, role)
  }

  function UpdateMemberRole(w: World, c: Caller, hub: string, user: string, role: string): (World, Reply) {
    if (hub, user) !in w.members then (w, NotFound)
    else if !MayGrant(c, role) then (w, CannotGrantOwner)
    else UpsertMember(w, hub, user, role)
  }

  function RemoveHubMember(w: World, p: Policy, c: Caller, hub: string, user: string): (World, Reply) {
    if user != c.userId && !p.roleSatisfies(c.hubRole, "maintainer") then (w, Unauthorized)
    else if (hub, user) !in w.members then (w, NotFound)
    else RemoveMember(w, hub, user)
  }

  /** The hard deletion of an account: the route refuses the `ownerId` of an open hub, the foreign keys
      refuse that of any other hub and delete the account's memberships with it. */
  function PurgeUser(w: World, user: string): (World, Reply) {
    if user !in w.users then (w, NotFound)
    else if exists h :: h in w.hubs && w.hubs[h].ownerId == user && !w.hubs[h].isArchived && !w.hubs[h].isDeleted
      then (w, OwnsHubs)
    else if exists h :: h in w.hubs && w.hubs[h].ownerId == user then (w, StillReferenced)
    else
      (w.(users := w.users - {user}, members := map k | k in w.members && k.1 != user :: w.members[k]), Done)
  }

  function SetOwnerId(w: World, hub: string, owner: string): World
    requires hub in w.hubs
  {
    w.(hubs := w.hubs[hub := w.hubs[hub].(ownerId := owner)])
  }

  /** A failing step rolls the whole request back. */
  function TransferOwnership(w: World, c: Caller, hub: string, target: string, keepPrevious: bool): (World, Reply)
    requires hub in w.hubs
  {
    if target == c.userId then (w, SelfTransfer)
    else if !IsActiveUser(w, target) then (w, NotFound)
    else
      var (v, r) := UpsertMember(w, hub, target, "owner");
      if r != Done then (w, r)
      else
        var x := SetOwnerId(v, hub, target);
        if keepPrevious then (x, Done)
        else
          var (y, q) := UpsertMember(x, hub, c.userId, "maintainer");
          if q == Done then (y, Done) else (w, q)
  }

  // ------------------------------------------------------------------- links

  /** The checks of `validate_link_creation`. */
  function ValidateLink(w: World, p: Policy, c: Caller, source: string, target: string): Reply {
    if source == target then SelfLink
    else if !IsLive(w, source) || !IsLive(w, target) then NotFound
    else if !p.directionAllowed(w.hubs[source].hubType, w.hubs[target].hubType) then DirectionForbidden
    else if c.isPlatformAdmin then Done
    else if (source, c.userId) !in w.members || !p.roleSatisfies(w.members[(source, c.userId)], "maintainer")
      then Unauthorized
    else if (target, c.userId) !in w.members || !p.roleSatisfies(w.members[(target, c.userId)], "contributor")
      then Unauthorized
    else Done
  }

  function CreateHubLink(w: World, p: Policy, c: Caller, source: string, target: string, access: string): (World, Reply)
  {
    var r := ValidateLink(w, p, c, source, target);
    if r != Done then (w, r)
    else if (source, target) in w.links then (w, AlreadyLinked)
    else StoreLink(w, p, source, target, access)
  }

  function UpdateHubLink(w: World, source: string, target: string, access: string): (World, Reply) {
    if (source, target) !in w.links then (w, NotFound)
    else (w.(links := w.links[(source, target) := access]), Done)
  }

  function DeleteHubLink(w: World, source: string, target: string): (World, Reply) {
    if (source, target) !in w.links then (w, NotFound)
    else (w.(links := w.links - {(source, target)}), Done)
  }

  lemma {:induction false} StopsAtFailure(w: World, p: Policy, source: string, links: seq<(string, string)>, n: nat)
    requires n <= |links| && StoreLinks(w, p, source, links[..n]).1 != Done
    ensures StoreLinks(w, p, source, links) == StoreLinks(w, p, source, links[..n])
  {
    if n < |links| {
      assert links[..|links| - 1][..n] == links[..n];
      StopsAtFailure(w, p, source, links[..|links| - 1], n);
    } else {
      assert links[..n] == links;
    }
  }

  class HubStore {
    var hubs: map<string, Hub>
    var members: map<(string, string), string>
    var links: map<(string, string), string>
    var users: map<string, User>

    function State(): World
      reads this
    {
      World(hubs, members, links, users)
    }

    method GetHubBySlug(hubType: string, slug: string) returns (found: bool)
      ensures found == SlugTaken(State(), hubType, slug)
    {
      return exists h :: h in hubs && HasSlug(hubs[h], hubType, slug) && !hubs[h].isDeleted;
    }

    method ReleaseDeletedSlug(hubType: string, slug: string, suffix: string)
      requires forall g, h ::
        g in hubs && h in hubs && HasSlug(hubs[g], hubType, slug) && HasSlug(hubs[h], hubType, slug) ==> g == h
      modifies this`hubs
      ensures State() == ReleaseSlug(old(State()), hubType, slug, suffix)
    {
      if h :| h in hubs && HasSlug(hubs[h], hubType, slug) && hubs[h].isDeleted {
        hubs := hubs[h := hubs[h].(slug := DeletedSlug(hubs[h].slug, suffix))];
      }
    }

    method AddInitialLinks(p: Policy, source: string, links: seq<(string, string)>) returns (reply: Reply)
      modifies this`links
      ensures (State(), reply) == StoreLinks(old(State()), p, source, links)
    {
      reply := Done;
      for n := 0 to |links|
        invariant (State(), reply) == StoreLinks(old(State()), p, source, links[..n])
        invariant reply == Done
      {
        assert links[..n + 1][..n] == links[..n];
        reply := AddLink(p, source, links[n].0, links[n].1);
        if reply != Done {
          StopsAtFailure(old(State()), p, source, links, n + 1);
          return;
        }
      }
      assert links[..|links|] == links;
    }

    /** `create_link`, without the route's checks. */
    method AddLink(p: Policy, source: string, target: string, access: string) returns (reply: Reply)
      modifies this`links
      ensures (State(), reply) == StoreLink(old(State()), p, source, target, access)
    {
      if source !in hubs || hubs[source].isDeleted || target !in hubs || hubs[target].isDeleted { return NotFound; }
      if !p.directionAllowed(hubs[source].hubType, hubs[target].hubType) { return DirectionForbidden; }
      links := links[(source, target) := access];
      return Done;
    }

    /** `id` is a new UUID. */
    method Create(p: Policy, id: string, data: HubCreate, owner: string, firstAdmin: Option<string>, suffix: string)
      returns (reply: Reply)
      requires id !in hubs && IsFirstAdmin(users, firstAdmin) && SlugsUnique(hubs)
      modifies this
      ensures (State(), reply) == CreateHub(old(State()), p, id, data, owner, firstAdmin, suffix)
    {
      var taken := GetHubBySlug(data.hubType, data.slug);
      if taken { return DuplicateSlug; }
      var before := State();
      ReleaseDeletedSlug(data.hubType, data.slug, suffix);
      var ownerId := owner;
      if owner !in users {
        if firstAdmin.Some? {
          ownerId := firstAdmin.value;
        } else {
          users := users[ownerId := User("admin", "active", false)];
        }
      }
      hubs := hubs[id := Hub(data.hubType, data.slug, data.details, ownerId, false, false)];
      members := members[(id, ownerId) := "owner"];
      assert State() == AddHub(before, id, data, owner, firstAdmin, suffix);
      reply := AddInitialLinks(p, id, data.links);
      if reply != Done {
        hubs, members, links, users := before.hubs, before.members, before.links, before.users;
        return InitialLinkFailed;
      }
    }

    method Update(hub: string, data: HubUpdate, bound: bool, suffix: string) returns (reply: Reply)
      requires SlugsUnique(hubs)
      modifies this
      ensures (State(), reply) == UpdateHub(old(State()), hub, data, bound, suffix)
    {
      if hub !in hubs || hubs[hub].isDeleted { return NotFound; }
      if data.slug.Some? && data.slug.value != hubs[hub].slug {
        if hubs[hub].hubType == "ingestion" && bound { return SlugLocked; }
      }
      ghost var released := hubs;
      if data.slug.Some? && data.slug.value != "" && data.slug.value != hubs[hub].slug {
        var taken := GetHubBySlug(hubs[hub].hubType, data.slug.value);
        if taken { return DuplicateSlug; }
        ReleaseDeletedSlug(hubs[hub].hubType, data.slug.value, suffix);
        released := hubs;
        hubs := hubs[hub := hubs[hub].(slug := data.slug.value)];
      }
      Amend(hub, data);
      assert hubs == released[hub := hubs[hub]];
      return Done;
    }

    method Amend(hub: string, data: HubUpdate)
      requires hub in hubs
      modifies this`hubs
      ensures hubs == old(hubs)[hub := old(hubs[hub]).(details := Merge(old(hubs[hub]).details, data))]
    {
      var d := hubs[hub].details;
      if data.name.Some? { d := d.(name := data.name.value); }
      if data.description.Some? { d := d.(description := data.description); }
      if data.accent.Some? { d := d.(accent := data.accent); }
      if data.icon.Some? { d := d.(icon := data.icon); }
      if data.settings.Some? { d := d.(settings := data.settings.value); }
      hubs := hubs[hub := hubs[hub].(details := d)];
    }

    method Archive(hub: string, archived: bool) returns (reply: Reply)
      modifies this`hubs
      ensures (State(), reply) == ArchiveHub(old(State()), hub, archived)
    {
      if hub !in hubs || hubs[hub].isDeleted { return NotFound; }
      hubs := hubs[hub := hubs[hub].(isArchived := archived)];
      return Done;
    }

    method DeleteIfEmpty(hub: string, force: bool, resources: nat, suffix: string) returns (reply: Reply)
      modifies this`hubs
      ensures (State(), reply) == DeleteHub(old(State()), hub, force, resources, suffix)
    {
      if hub !in hubs || hubs[hub].isDeleted { return NotFound; }
      if !force {
        if resources > 0 { return NotEmpty; }
      }
      hubs := hubs[hub := hubs[hub].(isDeleted := true)];
      hubs := hubs[hub := hubs[hub].(slug := DeletedSlug(hubs[hub].slug, suffix))];
      assert hubs == old(hubs)[hub := hubs[hub]];
      return Done;
    }

    method Upsert(hub: string, user: string, role: string) returns (reply: Reply)
      modifies this`members
      ensures (State(), reply) == UpsertMember(old(State()), hub, user, role)
    {
      var key := (hub, user);
      if key in members {
        if members[key] == "owner" && role != "owner" {
          if |Owners(State(), hub)| <= 1 { return LastOwner; }
        }
      }
      members := members[key := role];
      return Done;
    }

    method Remove(hub: string, user: string) returns (reply: Reply)
      modifies this`members
      ensures (State(), reply) == RemoveMember(old(State()), hub, user)
    {
      var key := (hub, user);
      if key !in members { return Done; }
      if members[key] == "owner" {
        if |Owners(State(), hub)| <= 1 { return LastOwner; }
      }
      members := members - {key};
      return Done;
    }

    method AddMember(c: Caller, hub: string, user: string, role: string) returns (reply: Reply)
      modifies this`members
      ensures (State(), reply) == AddHubMember(old(State()), c, hub, user, role)
    {
      if role == "owner" && c.hubRole != "owner" && !c.isPlatformAdmin { return CannotGrantOwner; }
      if user !in users || users[user].status != "active" { return NotFound; }
      if (hub, user) in members { return AlreadyMember; }
      reply := Upsert(hub, user, role);
    }

    method UpdateRole(c: Caller, hub: string, user: string, role: string) returns (reply: Reply)
      modifies this`members
      ensures (State(), reply) == UpdateMemberRole(old(State()), c, hub, user, role)
    {
      if (hub, user) !in members { return NotFound; }
      if role == "owner" && c.hubRole != "owner" && !c.isPlatformAdmin { return CannotGrantOwner; }
      if members[(hub, user)] == "owner" && role != "owner" {
        if |Owners(State(), hub)| <= 1 { return LastOwner; }
      }
      reply := Upsert(hub, user, role);
    }

    method RemoveFromHub(p: Policy, c: Caller, hub: string, user: string) returns (reply: Reply)
      modifies this`members
      ensures (State(), reply) == RemoveHubMember(old(State()), p, c, hub, user)
    {
      if user != c.userId && !p.roleSatisfies(c.hubRole, "maintainer") { return Unauthorized; }
      if (hub, user) !in members { return NotFound; }
      if members[(hub, user)] == "owner" {
        if |Owners(State(), hub)| <= 1 { return LastOwner; }
      }
      reply := Remove(hub, user);
    }

    method Transfer(c: Caller, hub: string, target: string, keepPrevious: bool) returns (reply: Reply)
      requires hub in hubs
      modifies this`members, this`hubs
      ensures (State(), reply) == TransferOwnership(old(State()), c, hub, target, keepPrevious)
    {
      if target == c.userId { return SelfTransfer; }
      if target !in users || users[target].status != "active" { return NotFound; }
      var before := (hubs, members);
      reply := Upsert(hub, target, "owner");
      if reply != Done { return reply; }
      hubs := hubs[hub := hubs[hub].(ownerId := target)];
      if !keepPrevious {
        reply := Upsert(hub, c.userId, "maintainer");
        if reply != Done { hubs, members := before.0, before.1; }
      }
    }

    /** The last steps of the hard deletion of an account. */
    method Purge(user: string) returns (reply: Reply)
      modifies this`users, this`members
      ensures (State(), reply) == PurgeUser(old(State()), user)
    {
      if user !in users { return NotFound; }
      if exists h :: h in hubs && hubs[h].ownerId == user && !hubs[h].isArchived && !hubs[h].isDeleted {
        return OwnsHubs;
      }
      if exists h :: h in hubs && hubs[h].ownerId == user { return StillReferenced; }
      users := users - {user};
      members := map k | k in members && k.1 != user :: members[k];
      return Done;
    }

    method CreateLink(p: Policy, c: Caller, source: string, target: string, access: string) returns (reply: Reply)
      modifies this`links
      ensures (State(), reply) == CreateHubLink(old(State()), p, c, source, target, access)
    {
      reply := ValidateLink(State(), p, c, source, target);
      if reply != Done { return reply; }
      if (source, target) in links { return AlreadyLinked; }
      reply := AddLink(p, source, target, access);
    }

    method UpdateLink(source: string, target: string, access: string) returns (reply: Reply)
      modifies this`links
      ensures (State(), reply) == UpdateHubLink(old(State()), source, target, access)
    {
      if (source, target) !in links { return NotFound; }
      links := links[(source, target) := access];
      return Done;
    }

    method DeleteLink(source: string, target: string) returns (reply: Reply)
      modifies this`links
      ensures (State(), reply) == DeleteHubLink(old(State()), source, target)
    {
      if (source, target) !in links { return NotFound; }
      links := links - {(source, target)};
      return Done;
    }
  }

  // --------------------------------------------------------------- whole runs

  datatype Step =
    | CreateStep(id: string, data: HubCreate, owner: string, firstAdmin: Option<string>, suffix: string)
    | UpdateStep(hub: string, change: HubUpdate, bound: bool, suffix: string)
    | ArchiveStep(hub: string, archived: bool)
    | DeleteStep(hub: string, force: bool, resources: nat, suffix: string)
    | AddStep(c: Caller, hub: string, user: string, role: string)
    | RoleStep(c: Caller, hub: string, user: string, role: string)
    | RemoveStep(c: Caller, hub: string, user: string)
    | TransferStep(c: Caller, hub: string, target: string, keepPrevious: bool)
    | GrantStep(hub: string, user: string, role: string)   // an approval or an invite, to a non-member
    | LinkStep(c: Caller, source: string, target: string, access: string)
    | AccessStep(source: string, target: string, access: string)
    | UnlinkStep(source: string, target: string)
    | PurgeStep(user: string)

  /** The suffixed slug is not in use: what the random suffix is for. */
  predicate FreshSuffix(w: World, hubType: string, slug: string, suffix: string) {
    forall h :: h in w.hubs ==> !HasSlug(w.hubs[h], hubType, DeletedSlug(slug, suffix))
  }

  /** Ids of new hubs are new UUIDs, which no request names. */
  predicate Enabled(w: World, s: Step) {
    match s
    case CreateStep(id, data, _, firstAdmin, suffix) =>
      && id !in w.hubs && (forall n :: 0 <= n < |data.links| ==> data.links[n].0 != id)
      && IsFirstAdmin(w.users, firstAdmin) && FreshSuffix(w, data.hubType, data.slug, suffix)
    case UpdateStep(hub, change, _, suffix) =>
      hub in w.hubs && change.slug.Some? ==> FreshSuffix(w, w.hubs[hub].hubType, change.slug.value, suffix)
    case DeleteStep(hub, _, _, suffix) =>
      hub in w.hubs ==> FreshSuffix(w, w.hubs[hub].hubType, w.hubs[hub].slug, suffix)
    case TransferStep(_, hub, _, _) => IsLive(w, hub)
    case GrantStep(hub, user, _) => (hub, user) !in w.members
    case _ => true
  }

  function Outcome(w: World, p: Policy, s: Step): (World, Reply)
    requires Enabled(w, s)
  {
    match s
    case CreateStep(id, data, owner, firstAdmin, suffix) => CreateHub(w, p, id, data, owner, firstAdmin, suffix)
    case UpdateStep(hub, change, bound, suffix) => UpdateHub(w, hub, change, bound, suffix)
    case ArchiveStep(hub, archived) => ArchiveHub(w, hub, archived)
    case DeleteStep(hub, force, resources, suffix) => DeleteHub(w, hub, force, resources, suffix)
    case AddStep(c, hub, user, role) => AddHubMember(w, c, hub, user, role)
    case RoleStep(c, hub, user, role) => UpdateMemberRole(w, c, hub, user, role)
    case RemoveStep(c, hub, user) => RemoveHubMember(w, p, c, hub, user)
    case TransferStep(c, hub, target, keep) => TransferOwnership(w, c, hub, target, keep)
    case GrantStep(hub, user, role) => (w.(members := w.members[(hub, user) := role]), Done)
    case LinkStep(c, source, target, access) => CreateHubLink(w, p, c, source, target, access)
    case AccessStep(source, target, access) => UpdateHubLink(w, source, target, access)
    case UnlinkStep(source, target) => DeleteHubLink(w, source, target)
    case PurgeStep(user) => PurgeUser(w, user)
  }

  function Next(w: World, p: Policy, s: Step): World
    requires Enabled(w, s)
  {
    Outcome(w, p, s).0
  }

  predicate IsRun(w: World, p: Policy, ss: seq<Step>)
    decreases |ss|
  {
    ss == [] || (Enabled(w, ss[0]) && IsRun(Next(w, p, ss[0]), p, ss[1..]))
  }

  function After(w: World, p: Policy, ss: seq<Step>): World
    requires IsRun(w, p, ss)
    decreases |ss|
  {
    if ss == [] then w else After(Next(w, p, ss[0]), p, ss[1..])
  }

  // --------------------------------------------------------------- invariant

  predicate IsOwner(w: World, hub: string, user: string) {
    (hub, user) in w.members && w.members[(hub, user)] == "owner"
  }

  /** Every hub that is not deleted has an owner. */
  ghost predicate Owned(w: World) {
    forall h :: IsLive(w, h) ==> exists u :: IsOwner(w, h, u)
  }

  /** No two hubs of a type share a slug, deleted ones included. */
  predicate SlugsUnique(hubs: map<string, Hub>) {
    forall g, h :: g in hubs && h in hubs && g != h ==>
      !(hubs[g].hubType == hubs[h].hubType && hubs[g].slug == hubs[h].slug)
  }

  predicate IsLinkChecked(w: World, p: Policy, k: (string, string)) {
    k.0 != k.1 && k.0 in w.hubs && k.1 in w.hubs && p.directionAllowed(w.hubs[k.0].hubType, w.hubs[k.1].hubType)
  }

  predicate LinksChecked(w: World, p: Policy) {
    forall k :: k in w.links ==> IsLinkChecked(w, p, k)
  }

  lemma AnotherOwner(w: World, hub: string, user: string)
    requires IsOwner(w, hub, user) && !IsLastOwner(w, hub, user)
    ensures exists u :: u != user && IsOwner(w, hub, u)
  {
    var owners := Owners(w, hub);
    assert (hub, user) in w.members;
    assert user in owners;
    assert |owners - {user}| == |owners| - 1;
    var u :| u in owners - {user};
    var k :| k in w.members && k.0 == hub && w.members[k] == "owner" && k.1 == u;
    assert k == (hub, u) && IsOwner(w, hub, u);
  }

  // ----------------------------------------------------------- initial links

  predicate MayLink(w: World, p: Policy, source: string, target: string)
    requires source in w.hubs
  {
    IsLive(w, target) && p.directionAllowed(w.hubs[source].hubType, w.hubs[target].hubType)
  }

  predicate IsTarget(links: seq<(string, string)>, target: string) {
    exists n :: 0 <= n < |links| && links[n].0 == target
  }

  /** No later item names the same target. */
  predicate IsLastFor(links: seq<(string, string)>, n: nat)
    requires n < |links|
  {
    forall m :: n < m < |links| ==> links[m].0 != links[n].0
  }

  /** The initial links succeed exactly when each target may be linked; nothing but links changes. */
  lemma {:induction false} LinksStoredIff(w: World, p: Policy, source: string, links: seq<(string, string)>)
    requires IsLive(w, source)
    ensures var (v, r) := StoreLinks(w, p, source, links);
      && v == w.(links := v.links)
      && (r == Done <==> forall n :: 0 <= n < |links| ==> MayLink(w, p, source, links[n].0))
  {
    if links != [] {
      var last := |links| - 1;
      LinksStoredIff(w, p, source, links[..last]);
      LinkStored(StoreLinks(w, p, source, links[..last]).0, p, source, links[last]);
      hide StoreLink;
    }
  }

  /** Only links of the source to targets that may be linked are new. */
  lemma {:induction false} NewTargets(w: World, p: Policy, source: string, links: seq<(string, string)>,
                                      k: (string, string))
    requires IsLive(w, source) && k !in w.links && k in StoreLinks(w, p, source, links).0.links
    ensures k.0 == source && IsTarget(links, k.1) && MayLink(w, p, source, k.1)
    decreases |links|
  {
    var last := |links| - 1;
    var rest := links[..last];
    var u := StoreLinks(w, p, source, rest).0;
    OneMoreTarget(links, k.1);
    LinksStoredIff(w, p, source, rest);
    LinkStored(u, p, source, links[last]);
    hide StoreLink, IsTarget;
    if k in u.links { NewTargets(w, p, source, rest, k); }
  }

  /** Each target gets the access level last given for it. */
  lemma {:induction false} LastLevelStands(w: World, p: Policy, source: string, links: seq<(string, string)>, n: nat)
    requires IsLive(w, source) && StoreLinks(w, p, source, links).1 == Done
    requires n < |links| && IsLastFor(links, n)
    ensures HasLevel(StoreLinks(w, p, source, links).0, source, links[n])
    decreases |links|
  {
    var last := |links| - 1;
    var rest := links[..last];
    LinksStoredIff(w, p, source, rest);
    LinkStored(StoreLinks(w, p, source, rest).0, p, source, links[last]);
    if n < last { LastLevelStands(w, p, source, rest, n); }
    hide StoreLink;
  }

  lemma OneMoreTarget(links: seq<(string, string)>, t: string)
    requires links != []
    ensures IsTarget(links, t) <==> IsTarget(links[..|links| - 1], t) || t == links[|links| - 1].0
  {
    var rest := links[..|links| - 1];
    if IsTarget(rest, t) {
      var n :| 0 <= n < |rest| && rest[n].0 == t;
      assert links[n].0 == t;
    }
  }

  predicate HasLevel(w: World, source: string, link: (string, string)) {
    (source, link.0) in w.links && w.links[(source, link.0)] == link.1
  }

  lemma LinkStored(w: World, p: Policy, source: string, link: (string, string))
    requires IsLive(w, source)
    ensures var (v, r) := StoreLink(w, p, source, link.0, link.1);
      && v == w.(links := v.links)
      && (r == Done <==> MayLink(w, p, source, link.0))
      && (r == Done ==> HasLevel(v, source, link))
      && (r != Done ==> v == w)
      && (forall k :: k in w.links && k != (source, link.0) ==> k in v.links && v.links[k] == w.links[k])
      && (forall k :: k in v.links ==> k in w.links || (r == Done && k == (source, link.0)))
  {
  }

  /** Links of other sources stay as they are. */
  lemma {:induction false} OtherLinksStay(w: World, p: Policy, source: string, links: seq<(string, string)>,
                                          k: (string, string))
    requires k.0 != source
    ensures var v := StoreLinks(w, p, source, links).0;
      (k in v.links <==> k in w.links) && (k in w.links ==> v.links[k] == w.links[k])
    decreases |links|
  {
    if links != [] { OtherLinksStay(w, p, source, links[..|links| - 1], k); }
  }

  /** A hub of the type that is not deleted has the slug. */
  predicate IsSlugInUse(w: World, hubType: string, slug: string) {
    exists h :: h in w.hubs && !w.hubs[h].isDeleted && w.hubs[h].hubType == hubType && w.hubs[h].slug == slug
  }

  /** The other hubs stay as they are, but for a deleted one that gives up the slug. */
  predicate OthersKept(w: World, v: World, hub: string, hubType: string, slug: string, suffix: string) {
    && v.hubs.Keys == w.hubs.Keys + {hub}
    && forall h :: h in w.hubs && h != hub ==>
         v.hubs[h] == if w.hubs[h].isDeleted && w.hubs[h].hubType == hubType && w.hubs[h].slug == slug
                      then w.hubs[h].(slug := slug + "-del-" + suffix) else w.hubs[h]
  }

  predicate IsLiveAdmin(u: User) {
    u.platformRole == "admin" && !u.isDeleted
  }

  /** The hub goes to the requested owner; to an admin if there is no such account; and if there is no
      admin either, to a new admin account of the requested id. */
  predicate IsRightOwner(w: World, owner: string, chosen: string) {
    if owner in w.users then chosen == owner
    else if exists a :: a in w.users && IsLiveAdmin(w.users[a]) then chosen in w.users && IsLiveAdmin(w.users[chosen])
    else chosen == owner
  }

  /** Creating a hub is all or nothing.  It succeeds exactly when the slug is not in use and every
      initial link goes to a hub that is not deleted, in an allowed direction; one bad link undoes
      the hub, the owner and the release of the slug. */
  lemma CreationIff(w: World, p: Policy, id: string, data: HubCreate, owner: string, firstAdmin: Option<string>,
                    suffix: string)
    requires Enabled(w, CreateStep(id, data, owner, firstAdmin, suffix))
    ensures var (v, r) := CreateHub(w, p, id, data, owner, firstAdmin, suffix);
      && (r == DuplicateSlug <==> IsSlugInUse(w, data.hubType, data.slug))
      && (r == Done <==> !IsSlugInUse(w, data.hubType, data.slug) && forall n :: 0 <= n < |data.links| ==>
            IsLive(w, data.links[n].0) && p.directionAllowed(data.hubType, w.hubs[data.links[n].0].hubType))
      && (r in {DuplicateSlug, Done} || r == InitialLinkFailed)
      && (r != Done ==> v == w)
  {
    LinksStoredIff(AddHub(w, id, data, owner, firstAdmin, suffix), p, id, data.links);
    var x := AddHub(w, id, data, owner, firstAdmin, suffix);
    SlugTakenIff(w, data.hubType, data.slug);
    hide StoreLinks, SlugTaken, IsSlugInUse;
    forall n | 0 <= n < |data.links|
      ensures MayLink(x, p, id, data.links[n].0) <==>
        IsLive(w, data.links[n].0) && p.directionAllowed(data.hubType, w.hubs[data.links[n].0].hubType)
    {
    }
  }

  lemma SlugTakenIff(w: World, hubType: string, slug: string)
    ensures SlugTaken(w, hubType, slug) <==> IsSlugInUse(w, hubType, slug)
  {
    if h :| h in w.hubs && !w.hubs[h].isDeleted && w.hubs[h].hubType == hubType && w.hubs[h].slug == slug {
      assert HasSlug(w.hubs[h], hubType, slug);
    }
  }

  lemma AddHubEffect(w: World, id: string, data: HubCreate, owner: string, firstAdmin: Option<string>, suffix: string)
    requires id !in w.hubs && IsFirstAdmin(w.users, firstAdmin)
    ensures var v := AddHub(w, id, data, owner, firstAdmin, suffix);
      && id in v.hubs && IsRightOwner(w, owner, v.hubs[id].ownerId)
      && v.hubs[id] == Hub(data.hubType, data.slug, data.details, v.hubs[id].ownerId, false, false)
      && OthersKept(w, v, id, data.hubType, data.slug, suffix)
      && v.members == w.members[(id, v.hubs[id].ownerId) := "owner"]
      && v.users ==
           (if v.hubs[id].ownerId in w.users then w.users else w.users[owner := User("admin", "active", false)])
      && v.hubs[id].ownerId in v.users && v.links == w.links
  {
  }

  /** What a creation leaves: the hub as requested, under the right owner, whose membership is the only
      one added; each link target at the access level last given for it. */
  lemma CreationEffect(w: World, p: Policy, id: string, data: HubCreate, owner: string, firstAdmin: Option<string>,
                       suffix: string)
    requires Enabled(w, CreateStep(id, data, owner, firstAdmin, suffix))
    requires CreateHub(w, p, id, data, owner, firstAdmin, suffix).1 == Done
    ensures var v := CreateHub(w, p, id, data, owner, firstAdmin, suffix).0;
      && id in v.hubs && IsRightOwner(w, owner, v.hubs[id].ownerId)
      && v.hubs[id] == Hub(data.hubType, data.slug, data.details, v.hubs[id].ownerId, false, false)
      && OthersKept(w, v, id, data.hubType, data.slug, suffix)
      && v.members == w.members[(id, v.hubs[id].ownerId) := "owner"]
      && v.users ==
           (if v.hubs[id].ownerId in w.users then w.users else w.users[owner := User("admin", "active", false)])
      && v.hubs[id].ownerId in v.users
      && (forall n :: 0 <= n < |data.links| && IsLastFor(data.links, n) ==> HasLevel(v, id, data.links[n]))
      && (forall k :: k in v.links && k !in w.links ==> k.0 == id && IsTarget(data.links, k.1))
      && (forall k :: k in w.links && k.0 != id ==> k in v.links && v.links[k] == w.links[k])
  {
    var x := AddHub(w, id, data, owner, firstAdmin, suffix);
    var (v, r) := StoreLinks(x, p, id, data.links);
    LinksStoredIff(x, p, id, data.links);
    forall n | 0 <= n < |data.links| && IsLastFor(data.links, n) ensures HasLevel(v, id, data.links[n]) {
      LastLevelStands(x, p, id, data.links, n);
    }
    forall k | k in v.links && k !in w.links ensures k.0 == id && IsTarget(data.links, k.1) {
      NewTargets(x, p, id, data.links, k);
    }
    forall k | k in w.links && k.0 != id ensures k in v.links && v.links[k] == w.links[k] {
      OtherLinksStay(x, p, id, data.links, k);
    }
    AddHubEffect(w, id, data, owner, firstAdmin, suffix);
    hide AddHub, StoreLinks, SlugTaken, HasLevel, IsLastFor, IsTarget, IsRightOwner;
  }

  /** A creation leaves the world as it was, or the hub added with links of its own. */
  lemma CreateAdds(w: World, p: Policy, s: Step)
    requires s.CreateStep? && Enabled(w, s)
    ensures var x, v := AddHub(w, s.id, s.data, s.owner, s.firstAdmin, s.suffix), Next(w, p, s);
      v == w ||
      (&& !SlugTaken(w, s.data.hubType, s.data.slug) && v == x.(links := v.links)
       && forall k :: k in v.links && k !in w.links ==> k.0 == s.id && k.1 != s.id && MayLink(x, p, s.id, k.1))
  {
    var x := AddHub(w, s.id, s.data, s.owner, s.firstAdmin, s.suffix);
    LinksStoredIff(x, p, s.id, s.data.links);
    var v := StoreLinks(x, p, s.id, s.data.links).0;
    forall k | k in v.links && k !in x.links ensures k.0 == s.id && k.1 != s.id && MayLink(x, p, s.id, k.1) {
      NewTargets(x, p, s.id, s.data.links, k);
    }
    hide StoreLinks, SlugTaken, ReleaseSlug;
  }

  // ------------------------------------------------------- steps and invariant

  /** A hub keeps an owner through an upsert or a removal that succeeds; other hubs keep theirs. */
  lemma MembershipKeepsOwner(w: World, hub: string, user: string, role: string, h: string)
    requires exists u :: IsOwner(w, h, u)
    ensures exists u :: IsOwner(UpsertMember(w, hub, user, role).0, h, u)
    ensures exists u :: IsOwner(RemoveMember(w, hub, user).0, h, u)
  {
    var v, x := UpsertMember(w, hub, user, role).0, RemoveMember(w, hub, user).0;
    var u :| IsOwner(w, h, u);
    if (h, u) != (hub, user) {
      assert IsOwner(v, h, u) && IsOwner(x, h, u);
    } else if IsLastOwner(w, hub, user) {
      assert IsOwner(v, h, u) && IsOwner(x, h, u);
    } else {
      AnotherOwner(w, hub, user);
      var o :| o != user && IsOwner(w, hub, o);
      assert IsOwner(v, h, o) && IsOwner(x, h, o);
    }
  }

  lemma TransferKeepsOwner(w: World, c: Caller, hub: string, target: string, keep: bool, h: string)
    requires hub in w.hubs && exists u :: IsOwner(w, h, u)
    ensures exists u :: IsOwner(TransferOwnership(w, c, hub, target, keep).0, h, u)
  {
    MembershipKeepsOwner(w, hub, target, "owner", h);
    var v := UpsertMember(w, hub, target, "owner").0;
    UpsertHubs(w, hub, target, "owner");
    hide UpsertMember;
    var x := SetOwnerId(v, hub, target);
    var u :| IsOwner(v, h, u);
    assert IsOwner(x, h, u);
    MembershipKeepsOwner(x, hub, c.userId, "maintainer", h);
    var out := TransferOwnership(w, c, hub, target, keep).0;
    assert out == w || out == x || out == UpsertMember(x, hub, c.userId, "maintainer").0;
  }

  lemma UpsertHubs(w: World, hub: string, user: string, role: string)
    ensures UpsertMember(w, hub, user, role).0 == w.(members := UpsertMember(w, hub, user, role).0.members)
  {
  }

  predicate ChangesRoles(s: Step) {
    s.AddStep? || s.RoleStep? || s.RemoveStep? || s.TransferStep?
  }

  lemma OtherStepsKeepOwner(w: World, p: Policy, s: Step, h: string, u: string)
    requires Enabled(w, s) && !ChangesRoles(s) && IsOwner(w, h, u) && (s.PurgeStep? ==> s.user != u)
    ensures IsOwner(Next(w, p, s), h, u)
  {
    if s.CreateStep? {
      CreateAdds(w, p, s);
      hide Next, Enabled;
    }
  }

  lemma OnlyCreationRevives(w: World, p: Policy, s: Step, h: string)
    requires Enabled(w, s) && !IsLive(w, h) && IsLive(Next(w, p, s), h)
    ensures s.CreateStep? && h == s.id && IsOwner(Next(w, p, s), h, OwnerFor(w, s.owner, s.firstAdmin))
  {
    if s.CreateStep? {
      CreateAdds(w, p, s);
      hide Next, Enabled;
    }
  }

  lemma RoleStepKeepsOwner(w: World, p: Policy, s: Step, h: string)
    requires Enabled(w, s) && ChangesRoles(s) && exists u :: IsOwner(w, h, u)
    ensures exists u :: IsOwner(Next(w, p, s), h, u)
  {
    if s.TransferStep? {
      TransferKeepsOwner(w, s.c, s.hub, s.target, s.keepPrevious, h);
      hide TransferOwnership, IsOwner;
      assert Next(w, p, s) == TransferOwnership(w, s.c, s.hub, s.target, s.keepPrevious).0;
    } else if s.RemoveStep? {
      MembershipKeepsOwner(w, s.hub, s.user, "", h);
      hide RemoveMember, IsOwner;
      assert Next(w, p, s) == w || Next(w, p, s) == RemoveMember(w, s.hub, s.user).0;
    } else {
      MembershipKeepsOwner(w, s.hub, s.user, s.role, h);
      hide UpsertMember, IsOwner;
      assert Next(w, p, s) == w || Next(w, p, s) == UpsertMember(w, s.hub, s.user, s.role).0;
    }
  }

  ghost predicate IsOnlyOwner(w: World, hub: string, user: string) {
    IsOwner(w, hub, user) && forall u :: IsOwner(w, hub, u) ==> u == user
  }

  /** The step deletes the account that is the only owner of a hub that is not deleted. */
  ghost predicate Strands(w: World, s: Step) {
    s.PurgeStep? && PurgeUser(w, s.user).1 == Done && exists h :: IsLive(w, h) && IsOnlyOwner(w, h, s.user)
  }

  /** Hubs stay as they are; the other owners stay owners. */
  lemma PurgeEffect(w: World, p: Policy, s: Step, h: string)
    requires s.PurgeStep? && Enabled(w, s)
    ensures Next(w, p, s).hubs == w.hubs
    ensures forall u :: IsOwner(Next(w, p, s), h, u) <==>
      IsOwner(w, h, u) && !(PurgeUser(w, s.user).1 == Done && u == s.user)
  {
    assert Next(w, p, s) == PurgeUser(w, s.user).0;
    forall u
      ensures IsOwner(PurgeUser(w, s.user).0, h, u) <==>
        IsOwner(w, h, u) && !(PurgeUser(w, s.user).1 == Done && u == s.user)
    {
    }
  }

  lemma StepKeepsOwner(w: World, p: Policy, s: Step, h: string)
    requires Owned(w) && Enabled(w, s) && !Strands(w, s) && IsLive(Next(w, p, s), h)
    ensures exists u :: IsOwner(Next(w, p, s), h, u)
  {
    hide Next, Enabled;
    if !IsLive(w, h) {
      OnlyCreationRevives(w, p, s, h);
    } else if s.PurgeStep? {
      PurgeEffect(w, p, s, h);
    } else if ChangesRoles(s) {
      RoleStepKeepsOwner(w, p, s, h);
    } else {
      var u :| IsOwner(w, h, u);
      OtherStepsKeepOwner(w, p, s, h, u);
    }
  }

  /** A step leaves an owner in every hub that is not deleted, unless it is the hard deletion of an
      account that is the only owner of one: the deletion asks who `ownerId` names, not who has the
      owner role. */
  lemma StepKeepsOwnedIff(w: World, p: Policy, s: Step)
    requires Owned(w) && Enabled(w, s)
    ensures Owned(Next(w, p, s)) <==> !Strands(w, s)
  {
    var v := Next(w, p, s);
    if Strands(w, s) {
      var h :| IsLive(w, h) && IsOnlyOwner(w, h, s.user);
      PurgeEffect(w, p, s, h);
      hide Next, PurgeUser;
      assert IsLive(v, h) && !exists u :: IsOwner(v, h, u);
    } else {
      forall h | IsLive(v, h) ensures exists u :: IsOwner(v, h, u) { StepKeepsOwner(w, p, s, h); }
    }
  }

  lemma ReleaseKeepsSlugs(w: World, hubType: string, slug: string, suffix: string)
    requires SlugsUnique(w.hubs) && FreshSuffix(w, hubType, slug, suffix) && !SlugTaken(w, hubType, slug)
    ensures var v := ReleaseSlug(w, hubType, slug, suffix);
      SlugsUnique(v.hubs) && forall h :: h in v.hubs ==> !HasSlug(v.hubs[h], hubType, slug)
  {
  }

  lemma CreateKeepsSlugs(w: World, p: Policy, s: Step)
    requires SlugsUnique(w.hubs) && s.CreateStep? && Enabled(w, s)
    ensures SlugsUnique(Next(w, p, s).hubs)
  {
    CreateAdds(w, p, s);
    if !SlugTaken(w, s.data.hubType, s.data.slug) { ReleaseKeepsSlugs(w, s.data.hubType, s.data.slug, s.suffix); }
    hide ReleaseSlug, SlugTaken, Next;
  }

  lemma RowKeepsSlugs(hubs: map<string, Hub>, hub: string, row: Hub)
    requires SlugsUnique(hubs) && forall h :: h in hubs && h != hub ==> !HasSlug(hubs[h], row.hubType, row.slug)
    ensures SlugsUnique(hubs[hub := row])
  {
  }

  lemma UpdateKeepsSlugs(w: World, s: Step)
    requires SlugsUnique(w.hubs) && s.UpdateStep? && Enabled(w, s)
    ensures SlugsUnique(UpdateHub(w, s.hub, s.change, s.bound, s.suffix).0.hubs)
  {
    var v := UpdateHub(w, s.hub, s.change, s.bound, s.suffix).0;
    if v == w { return; }
    var h, row := w.hubs[s.hub], v.hubs[s.hub];
    if s.change.slug.None? || s.change.slug.value == "" || s.change.slug.value == h.slug {
      assert v.hubs == w.hubs[s.hub := row] && HasSlug(row, h.hubType, h.slug);
      hide UpdateHub, Enabled;
      RowKeepsSlugs(w.hubs, s.hub, row);
    } else {
      var released := ReleaseSlug(w, h.hubType, s.change.slug.value, s.suffix).hubs;
      ReleaseKeepsSlugs(w, h.hubType, s.change.slug.value, s.suffix);
      assert v.hubs == released[s.hub := row] && HasSlug(row, h.hubType, s.change.slug.value);
      hide UpdateHub, Enabled, ReleaseSlug;
      RowKeepsSlugs(released, s.hub, row);
    }
  }

  lemma DeleteKeepsSlugs(w: World, s: Step)
    requires SlugsUnique(w.hubs) && s.DeleteStep? && Enabled(w, s)
    ensures SlugsUnique(DeleteHub(w, s.hub, s.force, s.resources, s.suffix).0.hubs)
  {
  }

  lemma OtherStepsKeepHubRows(w: World, p: Policy, s: Step, h: string)
    requires Enabled(w, s) && !s.CreateStep? && !s.UpdateStep? && !s.DeleteStep?
    ensures h in Next(w, p, s).hubs <==> h in w.hubs
    ensures h in w.hubs ==>
      Next(w, p, s).hubs[h].hubType == w.hubs[h].hubType && Next(w, p, s).hubs[h].slug == w.hubs[h].slug
  {
    hide CreateHub, UpdateHub, DeleteHub;
  }

  lemma StepKeepsSlugs(w: World, p: Policy, s: Step)
    requires SlugsUnique(w.hubs) && Enabled(w, s)
    ensures SlugsUnique(Next(w, p, s).hubs)
  {
    if s.CreateStep? {
      CreateKeepsSlugs(w, p, s);
    } else if s.UpdateStep? {
      UpdateKeepsSlugs(w, s);
      hide SlugsUnique, UpdateHub;
    } else if s.DeleteStep? {
      DeleteKeepsSlugs(w, s);
      hide SlugsUnique, DeleteHub;
    } else {
      hide Next, Enabled;
      forall h
        ensures h in Next(w, p, s).hubs <==> h in w.hubs
        ensures h in w.hubs ==>
          Next(w, p, s).hubs[h].hubType == w.hubs[h].hubType && Next(w, p, s).hubs[h].slug == w.hubs[h].slug
      {
        OtherStepsKeepHubRows(w, p, s, h);
      }
    }
  }

  lemma HubsPersist(w: World, p: Policy, s: Step, h: string)
    requires Enabled(w, s) && h in w.hubs
    ensures h in Next(w, p, s).hubs && Next(w, p, s).hubs[h].hubType == w.hubs[h].hubType
  {
    if s.CreateStep? {
      CreateAdds(w, p, s);
      hide Next;
    } else if s.UpdateStep? {
      assert Next(w, p, s) == UpdateHub(w, s.hub, s.change, s.bound, s.suffix).0;
      hide Next, Enabled;
    } else if s.DeleteStep? {
      assert Next(w, p, s) == DeleteHub(w, s.hub, s.force, s.resources, s.suffix).0;
      hide Next, Enabled;
    } else {
      OtherStepsKeepHubRows(w, p, s, h);
      hide Next, Enabled;
    }
  }

  lemma NewLinksChecked(w: World, p: Policy, s: Step, k: (string, string))
    requires Enabled(w, s) && k in Next(w, p, s).links && k !in w.links
    ensures IsLinkChecked(Next(w, p, s), p, k)
  {
    if s.CreateStep? {
      CreateAdds(w, p, s);
      hide Next;
    }
  }

  /** Hubs stay and keep their type; every link is checked when it is stored. */
  lemma StepKeepsLinks(w: World, p: Policy, s: Step)
    requires LinksChecked(w, p) && Enabled(w, s)
    ensures LinksChecked(Next(w, p, s), p)
  {
    hide Next;
    var v := Next(w, p, s);
    forall k | k in v.links ensures IsLinkChecked(v, p, k) {
      if k !in w.links {
        NewLinksChecked(w, p, s, k);
      } else {
        HubsPersist(w, p, s, k.0);
        HubsPersist(w, p, s, k.1);
      }
    }
  }

  /** Over every run of hub, member and link operations, hard deletions of accounts included: slugs
      are unique over live and deleted hubs, links obey the direction table and are no self-links. */
  lemma {:induction false} RunKeepsSlugsAndLinks(w: World, p: Policy, ss: seq<Step>)
    requires SlugsUnique(w.hubs) && LinksChecked(w, p) && IsRun(w, p, ss)
    ensures SlugsUnique(After(w, p, ss).hubs) && LinksChecked(After(w, p, ss), p)
    decreases |ss|
  {
    if ss != [] {
      StepKeepsSlugs(w, p, ss[0]);
      StepKeepsLinks(w, p, ss[0]);
      RunKeepsSlugsAndLinks(Next(w, p, ss[0]), p, ss[1..]);
    }
  }

  ghost predicate OwnedThroughout(w: World, p: Policy, ss: seq<Step>)
    requires IsRun(w, p, ss)
    decreases |ss|
  {
    Owned(w) && (ss == [] || OwnedThroughout(Next(w, p, ss[0]), p, ss[1..]))
  }

  ghost predicate NoneStranded(w: World, p: Policy, ss: seq<Step>)
    requires IsRun(w, p, ss)
    decreases |ss|
  {
    ss == [] || (!Strands(w, ss[0]) && NoneStranded(Next(w, p, ss[0]), p, ss[1..]))
  }

  /** And at each point every hub that is not deleted has an owner, exactly when no hard deletion on
      the way takes an only owner. */
  lemma {:induction false} RunKeepsOwnedIff(w: World, p: Policy, ss: seq<Step>)
    requires Owned(w) && IsRun(w, p, ss)
    ensures OwnedThroughout(w, p, ss) <==> NoneStranded(w, p, ss)
    ensures NoneStranded(w, p, ss) ==> Owned(After(w, p, ss))
    decreases |ss|
  {
    if ss != [] {
      StepKeepsOwnedIff(w, p, ss[0]);
      if !Strands(w, ss[0]) { RunKeepsOwnedIff(Next(w, p, ss[0]), p, ss[1..]); }
    }
  }

  /** It can happen to any hub: its founder makes somebody an owner and leaves, and still `ownerId`
      names the founder, so the account of the one owner left can be deleted. */
  lemma PurgeStrandsHub(w: World, p: Policy, hub: string, founder: Caller, other: string)
    requires IsLive(w, hub) && w.hubs[hub].ownerId == founder.userId && founder.hubRole == "owner"
    requires IsOnlyOwner(w, hub, founder.userId) && (hub, other) !in w.members
    requires IsActiveUser(w, other) && forall h :: h in w.hubs ==> w.hubs[h].ownerId != other
    ensures var ss := [
      AddStep(founder, hub, other, "owner"), RemoveStep(founder, hub, founder.userId), PurgeStep(other)];
      && IsRun(w, p, ss)
      && IsLive(After(w, p, ss), hub) && !exists u :: IsOwner(After(w, p, ss), hub, u)
  {
    var ss := [AddStep(founder, hub, other, "owner"), RemoveStep(founder, hub, founder.userId), PurgeStep(other)];
    var w1 := AddHubMember(w, founder, hub, other, "owner").0;
    var w2 := RemoveHubMember(w1, p, founder, hub, founder.userId).0;
    OwnerAdded(w, hub, founder, other);
    FounderLeaves(w1, p, hub, founder, other);
    assert PurgeUser(w2, other).1 == Done;
    assert Next(w, p, ss[0]) == w1 && Next(w1, p, ss[1]) == w2;
    PurgeEffect(w2, p, ss[2], hub);
    hide Next, IsOwner, PurgeUser, AddHubMember, RemoveHubMember;
    RunOfThree(w, p, ss[0], ss[1], ss[2]);
  }

  lemma OwnerAdded(w: World, hub: string, founder: Caller, other: string)
    requires founder.hubRole == "owner" && IsActiveUser(w, other) && (hub, other) !in w.members
    requires IsOnlyOwner(w, hub, founder.userId)
    ensures var v := AddHubMember(w, founder, hub, other, "owner").0;
      && v.hubs == w.hubs && v.users == w.users && IsOwner(v, hub, other) && IsOwner(v, hub, founder.userId)
      && forall u :: IsOwner(v, hub, u) ==> u == founder.userId || u == other
  {
    var v := AddHubMember(w, founder, hub, other, "owner").0;
    forall u | IsOwner(v, hub, u) ensures u == founder.userId || u == other {
      assert u == other || IsOwner(w, hub, u);
    }
  }

  lemma RunOfThree(w: World, p: Policy, a: Step, b: Step, c: Step)
    requires Enabled(w, a) && Enabled(Next(w, p, a), b) && Enabled(Next(Next(w, p, a), p, b), c)
    ensures IsRun(w, p, [a, b, c]) && After(w, p, [a, b, c]) == Next(Next(Next(w, p, a), p, b), p, c)
  {
    hide Next, Enabled;
    var v := Next(w, p, a);
    var u := Next(v, p, b);
    var x := Next(u, p, c);
    assert [c][1..] == [] && After(x, p, []) == x;
    assert IsRun(u, p, [c]) && After(u, p, [c]) == Next(u, p, c);
    assert [b, c][1..] == [c];
    assert IsRun(v, p, [b, c]) && After(v, p, [b, c]) == After(u, p, [c]);
    assert [a, b, c][1..] == [b, c];
  }

  lemma FounderLeaves(w: World, p: Policy, hub: string, founder: Caller, other: string)
    requires IsLive(w, hub) && IsOwner(w, hub, founder.userId) && IsOwner(w, hub, other) && founder.userId != other
    requires forall u :: IsOwner(w, hub, u) ==> u == founder.userId || u == other
    ensures var v := RemoveHubMember(w, p, founder, hub, founder.userId).0;
      && v.hubs == w.hubs && v.users == w.users && IsOnlyOwner(v, hub, other)
  {
    OwnerLeavesIff(w, p, founder, hub);
    var v := RemoveHubMember(w, p, founder, hub, founder.userId).0;
    assert v == w.(members := w.members - {(hub, founder.userId)});
    forall u | IsOwner(v, hub, u) ensures u == other {
      assert IsOwner(w, hub, u);
    }
  }

  // --------------------------------------------------- refusals and their order

  /** The count of owners is at most one exactly when the user is the only owner. */
  lemma LastOwnerIff(w: World, hub: string, user: string)
    ensures IsLastOwner(w, hub, user) <==> IsOnlyOwner(w, hub, user)
  {
    if IsOwner(w, hub, user) && !IsLastOwner(w, hub, user) {
      AnotherOwner(w, hub, user);
    } else if IsLastOwner(w, hub, user) {
      forall u | IsOwner(w, hub, u) ensures u == user {
        assert (hub, user) in w.members && (hub, u) in w.members;
        assert {user, u} <= Owners(w, hub);
        SubsetSize({user, u}, Owners(w, hub));
      }
    }
  }

  /** What is absent from an update stays as it is. */
  predicate IsAmended(was: Details, now: Details, data: HubUpdate) {
    && now.name == (match data.name case Some(x) => x case None => was.name)
    && now.description == (match data.description case Some(x) => Some(x) case None => was.description)
    && now.accent == (match data.accent case Some(x) => Some(x) case None => was.accent)
    && now.icon == (match data.icon case Some(x) => Some(x) case None => was.icon)
    && now.settings == (match data.settings case Some(x) => x case None => was.settings)
  }

  predicate Renames(h: Hub, data: HubUpdate) {
    data.slug.Some? && data.slug.value != "" && data.slug.value != h.slug
  }

  lemma UpdateIff(w: World, hub: string, data: HubUpdate, bound: bool, suffix: string)
    ensures var (v, r) := UpdateHub(w, hub, data, bound, suffix);
      && (r == NotFound <==> hub !in w.hubs || w.hubs[hub].isDeleted)
      && (r == SlugLocked <==>
            && IsLive(w, hub) && bound && w.hubs[hub].hubType == "ingestion"
            && data.slug.Some? && data.slug.value != w.hubs[hub].slug)
      && (r == DuplicateSlug <==>
            && r != SlugLocked && IsLive(w, hub) && Renames(w.hubs[hub], data)
            && IsSlugInUse(w, w.hubs[hub].hubType, data.slug.value))
      && (r in {NotFound, SlugLocked, DuplicateSlug} || r == Done)
      && (r != Done ==> v == w)
  {
    if IsLive(w, hub) && data.slug.Some? { SlugTakenIff(w, w.hubs[hub].hubType, data.slug.value); }
    hide SlugTaken, IsSlugInUse, ReleaseSlug, Merge;
  }

  lemma UpdateEffect(w: World, hub: string, data: HubUpdate, bound: bool, suffix: string)
    requires UpdateHub(w, hub, data, bound, suffix).1 == Done
    ensures var h, v := w.hubs[hub], UpdateHub(w, hub, data, bound, suffix).0;
      && hub in v.hubs && IsAmended(h.details, v.hubs[hub].details, data)
      && v.hubs[hub].slug == (if Renames(h, data) then data.slug.value else h.slug)
      && v.hubs[hub] == h.(details := v.hubs[hub].details, slug := v.hubs[hub].slug)
      && if Renames(h, data) then v == w.(hubs := v.hubs) && OthersKept(w, v, hub, h.hubType, data.slug.value, suffix)
         else v == w.(hubs := w.hubs[hub := v.hubs[hub]])
  {
    hide SlugTaken;
    if !Renames(w.hubs[hub], data) { hide ReleaseSlug, OthersKept; }
  }

  /** Archiving sets the flag; deletion sets the other one and suffixes the slug, and minds resources
      unless forced. */
  lemma ArchiveAndDeleteIff(w: World, hub: string, archived: bool, force: bool, resources: nat, suffix: string)
    ensures var (v, r) := ArchiveHub(w, hub, archived);
      && (r == NotFound <==> hub !in w.hubs || w.hubs[hub].isDeleted) && (r != Done ==> r == NotFound && v == w)
      && (r == Done ==> v == w.(hubs := w.hubs[hub := w.hubs[hub].(isArchived := archived)]))
    ensures var (v, r) := DeleteHub(w, hub, force, resources, suffix);
      && (r == NotFound <==> hub !in w.hubs || w.hubs[hub].isDeleted)
      && (r == NotEmpty <==> IsLive(w, hub) && !force && resources > 0)
      && (r == Done <==> IsLive(w, hub) && (force || resources == 0)) && (r != Done ==> v == w)
      && (r == Done ==>
            && hub in v.hubs && v.hubs[hub].isDeleted && v.hubs[hub].slug == w.hubs[hub].slug + "-del-" + suffix
            && v == w.(hubs := w.hubs[hub := w.hubs[hub].(isDeleted := true, slug := v.hubs[hub].slug)]))
  {
  }

  /** A hard deletion of an account succeeds exactly if no hub names it in `ownerId`; then its row and
      its memberships go, and nothing else. */
  lemma PurgeIff(w: World, user: string)
    ensures var (v, r) := PurgeUser(w, user);
      && (r == NotFound <==> user !in w.users)
      && (r == OwnsHubs <==>
            && user in w.users
            && exists h :: h in w.hubs && w.hubs[h].ownerId == user && !w.hubs[h].isArchived && !w.hubs[h].isDeleted)
      && (r == Done <==> user in w.users && forall h :: h in w.hubs ==> w.hubs[h].ownerId != user)
      && (r in {NotFound, OwnsHubs, Done} || r == StillReferenced) && (r != Done ==> v == w)
      && (r == Done ==>
            && v == w.(users := v.users, members := v.members) && v.users == w.users - {user}
            && (forall k :: k in v.members <==> k in w.members && k.1 != user)
            && (forall k :: k in v.members ==> v.members[k] == w.members[k]))
  {
  }

  /** The repository's own guards: only taking the owner role from the only owner fails, and removing
      somebody who is no member succeeds and does nothing. */
  lemma MembershipGuards(w: World, hub: string, user: string, role: string)
    ensures var (v, r) := UpsertMember(w, hub, user, role);
      && (r == LastOwner <==> role != "owner" && IsOnlyOwner(w, hub, user)) && (r != LastOwner ==> r == Done)
      && v == if r == Done then w.(members := w.members[(hub, user) := role]) else w
    ensures var (v, r) := RemoveMember(w, hub, user);
      && (r == LastOwner <==> IsOnlyOwner(w, hub, user)) && (r != LastOwner ==> r == Done)
      && v == if r == Done then w.(members := w.members - {(hub, user)}) else w
  {
    LastOwnerIff(w, hub, user);
    if (hub, user) !in w.members { assert w.members - {(hub, user)} == w.members; }
  }

  predicate GrantsTooMuch(c: Caller, role: string) {
    role == "owner" && c.hubRole != "owner" && !c.isPlatformAdmin
  }

  lemma AddingIff(w: World, c: Caller, hub: string, user: string, role: string)
    ensures var (v, r) := AddHubMember(w, c, hub, user, role);
      var active := user in w.users && w.users[user].status == "active";
      && (r == CannotGrantOwner <==> GrantsTooMuch(c, role))
      && (r == NotFound <==> !GrantsTooMuch(c, role) && !active)
      && (r == AlreadyMember <==> !GrantsTooMuch(c, role) && active && (hub, user) in w.members)
      && (r == Done <==> !GrantsTooMuch(c, role) && active && (hub, user) !in w.members)
      && v == if r == Done then w.(members := w.members[(hub, user) := role]) else w
  {
  }

  lemma RoleUpdateIff(w: World, c: Caller, hub: string, user: string, role: string)
    ensures var (v, r) := UpdateMemberRole(w, c, hub, user, role);
      && (r == NotFound <==> (hub, user) !in w.members)
      && (r == CannotGrantOwner <==> (hub, user) in w.members && GrantsTooMuch(c, role))
      && (r == LastOwner <==> role != "owner" && IsOnlyOwner(w, hub, user))
      && (r in {NotFound, CannotGrantOwner, LastOwner} || r == Done)
      && v == if r == Done then w.(members := w.members[(hub, user) := role]) else w
  {
    LastOwnerIff(w, hub, user);
  }

  lemma RemovalIff(w: World, p: Policy, c: Caller, hub: string, user: string)
    ensures var (v, r) := RemoveHubMember(w, p, c, hub, user);
      var allowed := user == c.userId || p.roleSatisfies(c.hubRole, "maintainer");
      && (r == Unauthorized <==> !allowed)
      && (r == NotFound <==> allowed && (hub, user) !in w.members)
      && (r == LastOwner <==> allowed && IsOnlyOwner(w, hub, user))
      && (r in {Unauthorized, NotFound, LastOwner} || r == Done)
      && v == if r == Done then w.(members := w.members - {(hub, user)}) else w
  {
    LastOwnerIff(w, hub, user);
  }

  predicate HasRole(w: World, p: Policy, hub: string, user: string, role: string) {
    (hub, user) in w.members && p.roleSatisfies(w.members[(hub, user)], role)
  }

  /** A link is created exactly between two different hubs that are not deleted, in an allowed direction
      and not yet linked, by a platform admin or a maintainer of the source who contributes to the
      target. */
  lemma LinkCreationIff(w: World, p: Policy, c: Caller, source: string, target: string, access: string)
    ensures var (v, r) := CreateHubLink(w, p, c, source, target, access);
      var live := IsLive(w, source) && IsLive(w, target);
      var direct := live && p.directionAllowed(w.hubs[source].hubType, w.hubs[target].hubType);
      var allowed := c.isPlatformAdmin ||
        (HasRole(w, p, source, c.userId, "maintainer") && HasRole(w, p, target, c.userId, "contributor"));
      && (r == SelfLink <==> source == target)
      && (r == NotFound <==> source != target && !live)
      && (r == DirectionForbidden <==> source != target && live && !direct)
      && (r == Unauthorized <==> source != target && direct && !allowed)
      && (r == AlreadyLinked <==> source != target && direct && allowed && (source, target) in w.links)
      && (r == Done <==> source != target && direct && allowed && (source, target) !in w.links)
      && v == if r == Done then w.(links := w.links[(source, target) := access]) else w
  {
  }

  lemma LinkChangeIff(w: World, source: string, target: string, access: string)
    ensures var (v, r) := UpdateHubLink(w, source, target, access);
      && (r == Done <==> (source, target) in w.links) && (r != Done ==> r == NotFound && v == w)
      && (r == Done ==> v == w.(links := v.links) && v.links == w.links[(source, target) := access])
    ensures var (v, r) := DeleteHubLink(w, source, target);
      && (r == Done <==> (source, target) in w.links) && (r != Done ==> r == NotFound && v == w)
      && (r == Done ==>
            && v == w.(links := v.links) && v.links.Keys == w.links.Keys - {(source, target)}
            && forall k :: k in v.links ==> v.links[k] == w.links[k])
  {
  }

  // -------------------------------------------------- what the routes promise

  /** A transfer never fails on the last-owner rule, whoever calls it: it succeeds exactly for
      another, active user, who is then an owner and the hub's `ownerId`. */
  lemma TransferNeverHitsLastOwner(w: World, c: Caller, hub: string, target: string, keep: bool)
    requires hub in w.hubs
    ensures var (v, r) := TransferOwnership(w, c, hub, target, keep);
      && r != LastOwner
      && (r == Done <==> target != c.userId && IsActiveUser(w, target))
      && (r == Done ==> v.hubs[hub].ownerId == target && IsOwner(v, hub, target))
      && (r == Done && !keep ==> (hub, c.userId) in v.members && v.members[(hub, c.userId)] == "maintainer")
      && (r != Done ==> v == w)
  {
    if target != c.userId && IsActiveUser(w, target) {
      var v := UpsertMember(w, hub, target, "owner").0;
      var x := SetOwnerId(v, hub, target);
      if IsOwner(x, hub, c.userId) {
        assert (hub, c.userId) in x.members && (hub, target) in x.members;
        assert {c.userId, target} <= Owners(x, hub);
        assert |Owners(x, hub)| >= |{c.userId, target}| by { SubsetSize({c.userId, target}, Owners(x, hub)); }
      }
    }
  }

  lemma SubsetSize(a: set<string>, b: set<string>)
    requires a <= b
    ensures |a| <= |b|
  {
    assert b == a + (b - a);
  }

  /** An owner can leave exactly when the hub has another one, whoever `ownerId` names: afterwards
      `ownerId` may name somebody who is no member. */
  lemma OwnerLeavesIff(w: World, p: Policy, c: Caller, hub: string)
    requires IsLive(w, hub) && IsOwner(w, hub, c.userId)
    ensures var (v, r) := RemoveHubMember(w, p, c, hub, c.userId);
      && (r == Done <==> exists u :: u != c.userId && IsOwner(w, hub, u))
      && (r == Done ==> (hub, c.userId) !in v.members && v.hubs[hub].ownerId == w.hubs[hub].ownerId)
      && (r != Done ==> r == LastOwner && v == w)
  {
    if u :| u != c.userId && IsOwner(w, hub, u) {
      assert (hub, c.userId) in w.members && (hub, u) in w.members;
      assert {c.userId, u} <= Owners(w, hub);
      SubsetSize({c.userId, u}, Owners(w, hub));
    } else if !IsLastOwner(w, hub, c.userId) {
      AnotherOwner(w, hub, c.userId);
    }
  }

  /** The slug of a deleted hub is free at once: a creation with it is never refused as a duplicate,
      and succeeds exactly when its initial links do; the deleted hub keeps a different slug. */
  lemma DeletedSlugReusable(w: World, p: Policy, hub: string, force: bool, resources: nat, suffix: string,
                            s: Step)
    requires SlugsUnique(w.hubs) && DeleteHub(w, hub, force, resources, suffix).1 == Done
    requires s.CreateStep? && HasSlug(w.hubs[hub], s.data.hubType, s.data.slug)
    requires Enabled(DeleteHub(w, hub, force, resources, suffix).0, s)
    ensures var h, v := w.hubs[hub], DeleteHub(w, hub, force, resources, suffix).0;
      var (x, r) := Outcome(v, p, s);
      && r != DuplicateSlug
      && (r == Done <==> forall n :: 0 <= n < |s.data.links| ==>
            IsLive(v, s.data.links[n].0) && p.directionAllowed(h.hubType, v.hubs[s.data.links[n].0].hubType))
      && (r == Done ==> IsLive(x, s.id) && HasSlug(x.hubs[s.id], h.hubType, h.slug))
      && hub in x.hubs && x.hubs[hub].isDeleted && x.hubs[hub].slug == DeletedSlug(h.slug, suffix)
  {
    var v := DeleteHub(w, hub, force, resources, suffix).0;
    CreationIff(v, p, s.id, s.data, s.owner, s.firstAdmin, s.suffix);
    if Outcome(v, p, s).1 == Done { CreationEffect(v, p, s.id, s.data, s.owner, s.firstAdmin, s.suffix); }
    CreateAdds(v, p, s);
  }
}
