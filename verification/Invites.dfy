/** Invitations: issue, preview, redemption, resend, revocation, expiry sweep, and the two sign-up
    paths that consume a pending invite.

    Emails are already trimmed and lower-cased, and a raw token stands for its hash.  An invite's id
    is its position in the table: rows are only ever added.  Times are seconds. */
module Invites {
  import opened Options

  datatype Status = Pending | Accepted | Revoked | Expired

  datatype Grant = Grant(hubId: string, hubRole: string)

  datatype Invite = Invite(
    email: string, token: string, platformRole: string, grants: seq<Grant>, status: Status,
    expiresAt: int, resendCount: nat, acceptedUser: Option<string>)

  datatype User = User(email: string, platformRole: string, status: string)

  datatype Membership = Membership(hubId: string, userId: string, hubRole: string)

  datatype World = World(
    users: map<string, User>,
    identities: map<(string, string), string>,   // (provider, provider id) to user
    invites: seq<Invite>,
    openHubs: set<string>,                       // hubs that exist and are not archived
    members: seq<Membership>,
    generated: set<string>)                      // every invite token ever generated

  datatype Issue =
    | Created(email: string, invite: nat, token: string)
    | HasAccount(email: string)
    | HasInvite(email: string)

  datatype Reply =
    | Done
    | Issued(results: seq<Issue>)
    | Shown(email: string, platformRole: string, hubs: seq<Grant>, expiresAt: int)
    | Redeemed(user: string)
    | Resent(token: string)
    | Swept(count: nat)
    | Resolved(user: string, isNew: bool)
    | NotFound                // 404
    | EmailMismatch           // 409
    | AlreadyAccepted         // 409
    | Unprocessable           // 422
    | PolicyViolation
    | Disabled                // 403
    | DuplicateEmail          // the unique index on users.email

  const SYSTEM_EMAIL: string := "system@contained.local"

  // ----------------------------------------------------------------- lookups

  predicate IsPendingFor(i: Invite, email: string) {
    i.email == email && i.status == Pending
  }

  function PendingFor(invites: seq<Invite>, email: string): (r: Option<nat>)
    ensures r.Some? ==> r.value < |invites| && IsPendingFor(invites[r.value], email)
    ensures r.None? ==> forall i :: 0 <= i < |invites| ==> !IsPendingFor(invites[i], email)
  {
    if invites == [] then None
    else if IsPendingFor(invites[|invites| - 1], email) then Some(|invites| - 1)
    else PendingFor(invites[..|invites| - 1], email)
  }

  function ByToken(invites: seq<Invite>, token: string): (r: Option<nat>)
    ensures r.Some? ==> r.value < |invites| && invites[r.value].token == token
    ensures r.None? ==> forall i :: 0 <= i < |invites| ==> invites[i].token != token
  {
    if invites == [] then None
    else if invites[|invites| - 1].token == token then Some(|invites| - 1)
    else ByToken(invites[..|invites| - 1], token)
  }

  predicate EmailTaken(users: map<string, User>, email: string) {
    exists u :: u in users && users[u].email == email
  }

  ghost function UserOf(users: map<string, User>, email: string): string
    requires EmailTaken(users, email)
  {
    var u :| u in users && users[u].email == email; u
  }

  predicate EmailsUnique(users: map<string, User>) {
    forall u, v :: u in users && v in users && users[u].email == users[v].email ==> u == v
  }

  /** The accounts that count for the bootstrap check. */
  predicate AnyAccount(users: map<string, User>) {
    exists u :: u in users && users[u].email != SYSTEM_EMAIL
  }

  function OpenGrants(grants: seq<Grant>, openHubs: set<string>): seq<Grant> {
    if grants == [] then []
    else
      OpenGrants(grants[..|grants| - 1], openHubs)
      + if grants[|grants| - 1].hubId in openHubs then [grants[|grants| - 1]] else []
  }

  function Memberships(user: string, grants: seq<Grant>): seq<Membership> {
    seq(|grants|, i requires 0 <= i < |grants| => Membership(grants[i].hubId, user, grants[i].hubRole))
  }

  predicate ValidRole(role: string) { role in ["admin", "member"] }

  predicate ValidGrant(g: Grant, openHubs: set<string>) {
    g.hubId != "" && g.hubRole in ["owner", "maintainer", "contributor", "viewer"] && g.hubId in openHubs
  }

  function FirstOccurrences(emails: seq<string>): (r: seq<string>)
    ensures forall e :: e in r <==> e in emails && e != ""
    ensures forall i, j :: 0 <= i < j < |r| ==> r[i] != r[j]
  {
    if emails == [] then []
    else
      var rest, last := FirstOccurrences(emails[..|emails| - 1]), emails[|emails| - 1];
      assert emails == emails[..|emails| - 1] + [last];
      if last == "" || last in rest then rest else rest + [last]
  }

  // ---------------------------------------------------------- the operations

  function SetInvite(w: World, i: nat, inv: Invite): World
    requires i < |w.invites|
  {
    w.(invites := w.invites[i := inv])
  }

  function CreateOne(w: World, email: string, token: string, role: string, grants: seq<Grant>,
                     expiresAt: int): (World, Issue)
  {
    if EmailTaken(w.users, email) then (w, HasAccount(email))
    else if PendingFor(w.invites, email).Some? then (w, HasInvite(email))
    else
      (w.(invites := w.invites + [Invite(email, token, role, grants, Pending, expiresAt, 0, None)],
          generated := w.generated + {token}),
       Created(email, |w.invites|, token))
  }

  /** One invite per email, in order; `tokens[k]` is what the generator returns for `emails[k]`. */
  function CreateEach(w: World, emails: seq<string>, tokens: seq<string>, role: string, grants: seq<Grant>,
                      expiresAt: int): (World, seq<Issue>)
    requires |tokens| == |emails|
    decreases |emails|
  {
    if emails == [] then (w, [])
    else
      var k := |emails| - 1;
      var (v, before) := CreateEach(w, emails[..k], tokens[..k], role, grants, expiresAt);
      var (x, last) := CreateOne(v, emails[k], tokens[k], role, grants, expiresAt);
      (x, before + [last])
  }

  function Create(w: World, emails: seq<string>, tokens: seq<string>, role: string, grants: seq<Grant>,
                  expiresAt: int): (World, Reply)
    requires |tokens| == |FirstOccurrences(emails)|
  {
    if !ValidRole(role) then (w, Unprocessable)
    else if exists g :: g in grants && !ValidGrant(g, w.openHubs) then (w, Unprocessable)
    else
      var (v, results) := CreateEach(w, FirstOccurrences(emails), tokens, role, grants, expiresAt);
      (v, Issued(results))
  }

  predicate IsSpent(i: Invite, now: int) {
    i.status == Revoked || i.status == Expired || i.expiresAt <= now
  }

  function Preview(w: World, token: string, now: int): Reply {
    var r := ByToken(w.invites, token);
    if r.None? then NotFound
    else
      var inv := w.invites[r.value];
      if inv.status == Accepted then AlreadyAccepted
      else if IsSpent(inv, now) then NotFound
      else Shown(inv.email, inv.platformRole, OpenGrants(inv.grants, w.openHubs), inv.expiresAt)
  }

  function NewAccount(w: World, id: string, user: User, provider: string, providerId: string): World {
    w.(users := w.users[id := user], identities := w.identities[(provider, providerId) := id])
  }

  function Consumed(inv: Invite, user: string): Invite {
    inv.(status := Accepted, acceptedUser := Some(user))
  }

  function Redeem(w: World, token: string, email: string, provider: string, providerId: string, policyOk: bool,
                  id: string, now: int): (World, Reply)
  {
    var r := ByToken(w.invites, token);
    if r.None? then (w, NotFound)
    else
      var inv := w.invites[r.value];
      if inv.email != email then (w, EmailMismatch)
      else if inv.status == Accepted then (w, AlreadyAccepted)
      else if IsSpent(inv, now) then (w, NotFound)
      else if !policyOk then (w, PolicyViolation)
      else if EmailTaken(w.users, email) then (w, DuplicateEmail)
      else
        var v := NewAccount(w, id, User(email, inv.platformRole, "active"), provider,
                            if providerId == "" then id else providerId);
        (SetInvite(v, r.value, Consumed(inv, id))
           .(members := w.members + Memberships(id, OpenGrants(inv.grants, w.openHubs))),
         Redeemed(id))
  }

  predicate IsOpen(w: World, i: nat) {
    i < |w.invites| && w.invites[i].status == Pending
  }

  function Resend(w: World, i: nat, token: string, expiresAt: int): (World, Reply) {
    if !IsOpen(w, i) then (w, NotFound)
    else
      var inv := w.invites[i];
      (SetInvite(w, i, inv.(token := token, expiresAt := expiresAt, resendCount := inv.resendCount + 1))
         .(generated := w.generated + {token}),
       Resent(token))
  }

  function Revoke(w: World, i: nat): (World, Reply) {
    if !IsOpen(w, i) then (w, NotFound)
    else (SetInvite(w, i, w.invites[i].(status := Revoked)), Done)
  }

  predicate IsOverdue(i: Invite, now: int) {
    i.status == Pending && i.expiresAt < now
  }

  function SweptInvite(i: Invite, now: int): Invite {
    if IsOverdue(i, now) then i.(status := Expired) else i
  }

  function SweptTable(invites: seq<Invite>, now: int): seq<Invite> {
    seq(|invites|, i requires 0 <= i < |invites| => SweptInvite(invites[i], now))
  }

  function CountOverdue(invites: seq<Invite>, now: int): nat {
    if invites == [] then 0
    else CountOverdue(invites[..|invites| - 1], now) + if IsOverdue(invites[|invites| - 1], now) then 1 else 0
  }

  function Sweep(w: World, now: int): (World, Reply) {
    (w.(invites := SweptTable(w.invites, now)), Swept(CountOverdue(w.invites, now)))
  }

  function RoleOrMember(role: string): string {
    if role == "" then "member" else role
  }

  function ConsumeFor(w: World, r: Option<nat>, user: string): World
    requires r.Some? ==> r.value < |w.invites|
  {
    if r.None? then w else SetInvite(w, r.value, Consumed(w.invites[r.value], user))
  }

  /** `autoApproved`: the email's domain is on the auto-approve list. */
  function Register(w: World, email: string, allowed: bool, policyOk: bool, autoApproved: bool,
                    id: string): (World, Reply)
  {
    if !allowed then (w, Disabled)
    else if !policyOk then (w, PolicyViolation)
    else if EmailTaken(w.users, email) then (w, Done)
    else
      var r := PendingFor(w.invites, email);
      var role := if r.Some? then RoleOrMember(w.invites[r.value].platformRole) else "member";
      var status := if r.Some? || autoApproved then "active" else "pending";
      (ConsumeFor(NewAccount(w, id, User(email, role, status), "password", id), r, id), Done)
  }

  predicate KnownIdentity(w: World, provider: string, providerId: string) {
    (provider, providerId) in w.identities && w.identities[(provider, providerId)] in w.users
  }

  /** OAuth sign-in.  The very first account becomes an active admin; an invite for it is then
      marked with the user but stays pending. */
  ghost function Resolve(w: World, provider: string, providerId: string, email: string, autoApproved: bool,
                         id: string): (World, Reply)
  {
    if KnownIdentity(w, provider, providerId) then
      (w, Resolved(w.identities[(provider, providerId)], false))
    else if EmailTaken(w.users, email) then
      var u := UserOf(w.users, email);
      (w.(identities := w.identities[(provider, providerId) := u]), Resolved(u, false))
    else
      ResolveNew(w, provider, providerId, email, autoApproved, id)
  }

  function ResolveNew(w: World, provider: string, providerId: string, email: string, autoApproved: bool,
                      id: string): (World, Reply)
  {
    var r := PendingFor(w.invites, email);
    if !AnyAccount(w.users) then
      var v := NewAccount(w, id, User(email, "admin", "active"), provider, providerId);
      (if r.None? then v else SetInvite(v, r.value, w.invites[r.value].(acceptedUser := Some(id))), Resolved(id, true))
    else
      var role := if r.Some? then RoleOrMember(w.invites[r.value].platformRole) else "member";
      var status := if r.Some? || autoApproved then "active" else "pending";
      (ConsumeFor(NewAccount(w, id, User(email, role, status), provider, providerId), r, id), Resolved(id, true))
  }

  /** A user row and its identities are deleted. */
  function Purge(w: World, id: string): World {
    w.(users := w.users - {id},
       identities := map k | k in w.identities && w.identities[k] != id :: w.identities[k])
  }

  /** Row lookups as the queries make them. */
  method FindByToken(invites: seq<Invite>, token: string) returns (r: Option<nat>)
    ensures r == ByToken(invites, token)
  {
    var n := |invites|;
    assert invites[..n] == invites;
    while n > 0
      invariant 0 <= n <= |invites|
      invariant ByToken(invites, token) == ByToken(invites[..n], token)
    {
      assert invites[..n][..n - 1] == invites[..n - 1];
      if invites[n - 1].token == token { return Some(n - 1); }
      n := n - 1;
    }
    return None;
  }

  method FindPending(invites: seq<Invite>, email: string) returns (r: Option<nat>)
    ensures r == PendingFor(invites, email)
  {
    var n := |invites|;
    assert invites[..n] == invites;
    while n > 0
      invariant 0 <= n <= |invites|
      invariant PendingFor(invites, email) == PendingFor(invites[..n], email)
    {
      assert invites[..n][..n - 1] == invites[..n - 1];
      if invites[n - 1].email == email && invites[n - 1].status == Pending { return Some(n - 1); }
      n := n - 1;
    }
    return None;
  }

  method Deduplicate(emails: seq<string>) returns (r: seq<string>)
    ensures r == FirstOccurrences(emails)
  {
    r := [];
    for n := 0 to |emails|
      invariant r == FirstOccurrences(emails[..n])
    {
      assert emails[..n + 1][..n] == emails[..n];
      if emails[n] != "" && emails[n] !in r { r := r + [emails[n]]; }
    }
    assert emails[..|emails|] == emails;
  }

  class InviteService {
    var users: map<string, User>
    var identities: map<(string, string), string>
    var invites: seq<Invite>
    var openHubs: set<string>
    var members: seq<Membership>
    ghost var generated: set<string>

    ghost function State(): World
      reads this
    {
      World(users, identities, invites, openHubs, members, generated)
    }

    method AddInvite(email: string, token: string, role: string, grants: seq<Grant>, expiresAt: int)
      returns (result: Issue)
      modifies this`invites, this`generated
      ensures (State(), result) == CreateOne(old(State()), email, token, role, grants, expiresAt)
    {
      if exists u :: u in users && users[u].email == email { return HasAccount(email); }
      var open := FindPending(invites, email);
      if open.Some? { return HasInvite(email); }
      result := Created(email, |invites|, token);
      invites := invites + [Invite(email, token, role, grants, Pending, expiresAt, 0, None)];
      generated := generated + {token};
    }

    method ValidateGrants(grants: seq<Grant>) returns (ok: bool)
      ensures ok <==> forall g :: g in grants ==> ValidGrant(g, openHubs)
    {
      for n := 0 to |grants|
        invariant forall k :: 0 <= k < n ==> ValidGrant(grants[k], openHubs)
      {
        if !ValidGrant(grants[n], openHubs) { return false; }
      }
      return true;
    }

    method AddInvites(emails: seq<string>, tokens: seq<string>, role: string, grants: seq<Grant>, expiresAt: int)
      returns (results: seq<Issue>)
      requires |tokens| == |emails|
      modifies this`invites, this`generated
      ensures (State(), results) == CreateEach(old(State()), emails, tokens, role, grants, expiresAt)
    {
      results := [];
      hide CreateOne;
      for n := 0 to |emails|
        invariant (State(), results) == CreateEach(old(State()), emails[..n], tokens[..n], role, grants, expiresAt)
      {
        assert emails[..n + 1][..n] == emails[..n] && tokens[..n + 1][..n] == tokens[..n];
        var result := AddInvite(emails[n], tokens[n], role, grants, expiresAt);
        results := results + [result];
      }
      assert emails[..|emails|] == emails && tokens[..|emails|] == tokens;
    }

    method CreateInvites(emails: seq<string>, tokens: seq<string>, role: string, grants: seq<Grant>, expiresAt: int)
      returns (reply: Reply)
      requires |tokens| == |FirstOccurrences(emails)|
      modifies this
      ensures (State(), reply) == Create(old(State()), emails, tokens, role, grants, expiresAt)
    {
      hide ValidGrant, FirstOccurrences, CreateEach;
      if !ValidRole(role) { return Unprocessable; }
      var ok := ValidateGrants(grants);
      if !ok { return Unprocessable; }
      var unique := Deduplicate(emails);
      var results := AddInvites(unique, tokens, role, grants, expiresAt);
      return Issued(results);
    }

    /** The hubs of a preview, and those a redemption joins. */
    method ListOpenGrants(grants: seq<Grant>) returns (hubs: seq<Grant>)
      ensures hubs == OpenGrants(grants, openHubs)
    {
      hubs := [];
      for n := 0 to |grants|
        invariant hubs == OpenGrants(grants[..n], openHubs)
      {
        assert grants[..n + 1][..n] == grants[..n];
        if grants[n].hubId in openHubs { hubs := hubs + [grants[n]]; }
      }
      assert grants[..|grants|] == grants;
    }

    method GetInvitePreview(token: string, now: int) returns (reply: Reply)
      ensures reply == Preview(State(), token, now)
    {
      var r := FindByToken(invites, token);
      if r.None? { return NotFound; }
      var inv := invites[r.value];
      if inv.status == Accepted { return AlreadyAccepted; }
      if inv.status == Revoked || inv.status == Expired || inv.expiresAt <= now { return NotFound; }
      var hubs := ListOpenGrants(inv.grants);
      return Shown(inv.email, inv.platformRole, hubs, inv.expiresAt);
    }

    method AddMembers(user: string, grants: seq<Grant>)
      modifies this`members
      ensures members == old(members) + Memberships(user, OpenGrants(grants, openHubs))
    {
      var hubs := ListOpenGrants(grants);
      for n := 0 to |hubs|
        invariant members == old(members) + Memberships(user, hubs[..n])
      {
        members := members + [Membership(hubs[n].hubId, user, hubs[n].hubRole)];
        assert Memberships(user, hubs[..n + 1])
          == Memberships(user, hubs[..n]) + [Membership(hubs[n].hubId, user, hubs[n].hubRole)];
      }
      assert hubs[..|hubs|] == hubs;
    }

    /** `id` is a new UUID; `policyOk` is the verdict of the password policy. */
    method RedeemInvite(token: string, email: string, provider: string, providerId: string, policyOk: bool,
                        id: string, now: int)
      returns (reply: Reply)
      requires id !in users
      modifies this
      ensures (State(), reply) == Redeem(old(State()), token, email, provider, providerId, policyOk, id, now)
    {
      var r := FindByToken(invites, token);
      if r.None? { return NotFound; }
      var inv := invites[r.value];
      if inv.email != email { return EmailMismatch; }
      if inv.status == Accepted { return AlreadyAccepted; }
      if inv.status == Revoked || inv.status == Expired || inv.expiresAt <= now { return NotFound; }
      if !policyOk { return PolicyViolation; }
      if exists u :: u in users && users[u].email == email { return DuplicateEmail; }
      users := users[id := User(email, inv.platformRole, "active")];
      identities := identities[(provider, if providerId == "" then id else providerId) := id];
      AddMembers(id, inv.grants);
      invites := invites[r.value := inv.(status := Accepted, acceptedUser := Some(id))];
      return Redeemed(id);
    }

    method ResendInvite(i: nat, token: string, expiresAt: int) returns (reply: Reply)
      modifies this`invites, this`generated
      ensures (State(), reply) == Resend(old(State()), i, token, expiresAt)
    {
      if i >= |invites| || invites[i].status != Pending { return NotFound; }
      var inv := invites[i];
      invites := invites[i := inv.(token := token, expiresAt := expiresAt, resendCount := inv.resendCount + 1)];
      generated := generated + {token};
      return Resent(token);
    }

    method RevokeInvite(i: nat) returns (reply: Reply)
      modifies this`invites
      ensures (State(), reply) == Revoke(old(State()), i)
    {
      if i >= |invites| || invites[i].status != Pending { return NotFound; }
      invites := invites[i := invites[i].(status := Revoked)];
      return Done;
    }

    method SweepExpiredInvites(now: int) returns (count: nat)
      modifies this`invites
      ensures (State(), Swept(count)) == Sweep(old(State()), now)
    {
      count := 0;
      var n := 0;
      while n < |invites|
        invariant n <= |invites| == |old(invites)|
        invariant count == CountOverdue(old(invites)[..n], now)
        invariant forall k :: 0 <= k < |invites| ==>
          invites[k] == if k < n then SweptInvite(old(invites)[k], now) else old(invites)[k]
      {
        assert old(invites)[..n + 1][..n] == old(invites)[..n];
        if invites[n].status == Pending && invites[n].expiresAt < now {
          invites := invites[n := invites[n].(status := Expired)];
          count := count + 1;
        }
        n := n + 1;
      }
      assert old(invites)[..n] == old(invites);
      assert invites == SweptTable(old(invites), now);
    }

    method RegisterUser(email: string, allowed: bool, policyOk: bool, autoApproved: bool, id: string)
      returns (reply: Reply)
      requires id !in users
      modifies this
      ensures (State(), reply) == Register(old(State()), email, allowed, policyOk, autoApproved, id)
    {
      if !allowed { return Disabled; }
      if !policyOk { return PolicyViolation; }
      if exists u :: u in users && users[u].email == email { return Done; }
      var status, role, invite := ResolveSignup(email, autoApproved);
      users := users[id := User(email, role, status)];
      identities := identities[("password", id) := id];
      if invite.Some? {
        invites := invites[invite.value := invites[invite.value].(status := Accepted, acceptedUser := Some(id))];
      }
      return Done;
    }

    /** Status and role for an email that signs up, and the pending invite it consumes. */
    method ResolveSignup(email: string, autoApproved: bool) returns (status: string, role: string, invite: Option<nat>)
      ensures invite == PendingFor(invites, email)
      ensures invite.Some? ==> status == "active" && role == RoleOrMember(invites[invite.value].platformRole)
      ensures invite.None? ==> role == "member" && status == if autoApproved then "active" else "pending"
    {
      invite := FindPending(invites, email);
      if invite.Some? {
        var given := invites[invite.value].platformRole;
        return "active", if given == "" then "member" else given, invite;
      }
      if autoApproved { return "active", "member", None; }
      return "pending", "member", None;
    }

    method AddResolvedAccount(provider: string, providerId: string, email: string, autoApproved: bool, id: string)
      returns (reply: Reply)
      requires id !in users
      modifies this
      ensures (State(), reply) == ResolveNew(old(State()), provider, providerId, email, autoApproved, id)
    {
      var status, role, invite := ResolveSignup(email, autoApproved);
      hide PendingFor, AnyAccount, RoleOrMember;
      if !AnyAccount(users) {
        status, role := "active", "admin";
      } else if invite.Some? {
        invites := invites[invite.value := invites[invite.value].(status := Accepted)];
      }
      users := users[id := User(email, role, status)];
      if invite.Some? {
        invites := invites[invite.value := invites[invite.value].(acceptedUser := Some(id))];
      }
      identities := identities[(provider, providerId) := id];
      if invite.Some? {
        var i := invite.value;
        assert old(invites)[i := old(invites)[i].(status := Accepted)][i := Consumed(old(invites)[i], id)]
            == old(invites)[i := Consumed(old(invites)[i], id)];
      }
      return Resolved(id, true);
    }

    method ResolveIdentity(provider: string, providerId: string, email: string, autoApproved: bool, id: string)
      returns (reply: Reply)
      requires id !in users && EmailsUnique(users)
      modifies this
      ensures (State(), reply) == Resolve(old(State()), provider, providerId, email, autoApproved, id)
    {
      hide ResolveNew;
      var key := (provider, providerId);
      if key in identities && identities[key] in users { return Resolved(identities[key], false); }
      if exists u :: u in users && users[u].email == email {
        var u :| u in users && users[u].email == email;
        assert u == UserOf(users, email);
        identities := identities[key := u];
        return Resolved(u, false);
      }
      reply := AddResolvedAccount(provider, providerId, email, autoApproved, id);
    }
  }

  // --------------------------------------------------------------- whole runs

  datatype Step =
    | CreateStep(emails: seq<string>, tokens: seq<string>, role: string, grants: seq<Grant>, expiresAt: int)
    | PreviewStep(token: string, now: int)
    | RedeemStep(token: string, email: string, provider: string, providerId: string, policyOk: bool,
                 id: string, now: int)
    | ResendStep(invite: nat, token: string, expiresAt: int)
    | RevokeStep(invite: nat)
    | SweepStep(now: int)
    | RegisterStep(email: string, allowed: bool, policyOk: bool, autoApproved: bool, id: string)
    | ResolveStep(provider: string, providerId: string, email: string, autoApproved: bool, id: string)
    | PurgeStep(id: string)
    | HubsStep(openHubs: set<string>)

  predicate FreshTokens(w: World, tokens: seq<string>) {
    && (forall i :: 0 <= i < |tokens| ==> tokens[i] !in w.generated)
    && (forall i, j :: 0 <= i < j < |tokens| ==> tokens[i] != tokens[j])
  }

  /** Generated tokens and user ids are new. */
  predicate Enabled(w: World, s: Step) {
    match s
    case CreateStep(emails, tokens, _, _, _) => |tokens| == |FirstOccurrences(emails)| && FreshTokens(w, tokens)
    case RedeemStep(_, _, _, _, _, id, _) => id !in w.users
    case ResendStep(_, token, _) => token !in w.generated
    case RegisterStep(_, _, _, _, id) => id !in w.users
    case ResolveStep(_, _, _, _, id) => id !in w.users
    case _ => true
  }

  ghost function Outcome(w: World, s: Step): (World, Reply)
    requires Enabled(w, s)
  {
    match s
    case CreateStep(emails, tokens, role, grants, expiresAt) => Create(w, emails, tokens, role, grants, expiresAt)
    case PreviewStep(token, now) => (w, Preview(w, token, now))
    case RedeemStep(token, email, provider, providerId, ok, id, now) =>
      Redeem(w, token, email, provider, providerId, ok, id, now)
    case ResendStep(invite, token, expiresAt) => Resend(w, invite, token, expiresAt)
    case RevokeStep(invite) => Revoke(w, invite)
    case SweepStep(now) => Sweep(w, now)
    case RegisterStep(email, allowed, ok, auto, id) => Register(w, email, allowed, ok, auto, id)
    case ResolveStep(provider, providerId, email, auto, id) => Resolve(w, provider, providerId, email, auto, id)
    case PurgeStep(id) => (Purge(w, id), Done)
    case HubsStep(openHubs) => (w.(openHubs := openHubs), Done)
  }

  ghost function Next(w: World, s: Step): World
    requires Enabled(w, s)
  {
    Outcome(w, s).0
  }

  ghost predicate IsRun(w: World, ss: seq<Step>)
    decreases |ss|
  {
    ss == [] || (Enabled(w, ss[0]) && IsRun(Next(w, ss[0]), ss[1..]))
  }

  ghost function After(w: World, ss: seq<Step>): World
    requires IsRun(w, ss)
    decreases |ss|
  {
    if ss == [] then w else After(Next(w, ss[0]), ss[1..])
  }

  // --------------------------------------------------------------- invariant

  predicate TokensApart(w: World) {
    && (forall i :: 0 <= i < |w.invites| ==> w.invites[i].token in w.generated)
    && (forall i, j :: 0 <= i < j < |w.invites| ==> w.invites[i].token != w.invites[j].token)
  }

  /** Each email has at most one pending invite. */
  predicate OnePending(invites: seq<Invite>) {
    forall i, j :: 0 <= i < j < |invites| && invites[i].status == Pending && invites[j].status == Pending ==>
      invites[i].email != invites[j].email
  }

  /** And none if an account with that email exists. */
  predicate NoneForUsers(w: World) {
    forall i, u :: 0 <= i < |w.invites| && w.invites[i].status == Pending && u in w.users ==>
      w.users[u].email != w.invites[i].email
  }

  predicate Inv(w: World) {
    TokensApart(w) && OnePending(w.invites) && NoneForUsers(w) && EmailsUnique(w.users)
  }

  /** The one step that breaks it: the first account ever signs in by OAuth while an invite for it
      is pending. */
  predicate BootstrapsOverInvite(w: World, s: Step) {
    && s.ResolveStep?
    && !AnyAccount(w.users) && !EmailTaken(w.users, s.email)
    && !KnownIdentity(w, s.provider, s.providerId)
    && PendingFor(w.invites, s.email).Some?
  }

  lemma CreateOneKeeps(w: World, email: string, token: string, role: string, grants: seq<Grant>, expiresAt: int)
    requires Inv(w) && token !in w.generated
    ensures var v := CreateOne(w, email, token, role, grants, expiresAt).0;
      Inv(v) && w.generated <= v.generated <= w.generated + {token} && v.users == w.users
  {
  }

  lemma {:induction false} CreateEachKeeps(w: World, emails: seq<string>, tokens: seq<string>, role: string,
                                           grants: seq<Grant>, expiresAt: int)
    requires Inv(w) && |tokens| == |emails| && FreshTokens(w, tokens)
    ensures var v := CreateEach(w, emails, tokens, role, grants, expiresAt).0;
      && Inv(v) && v.users == w.users
      && forall t :: t in v.generated ==> t in w.generated || t in tokens
    decreases |emails|
  {
    if emails != [] {
      var k := |emails| - 1;
      CreateEachKeeps(w, emails[..k], tokens[..k], role, grants, expiresAt);
      var v := CreateEach(w, emails[..k], tokens[..k], role, grants, expiresAt).0;
      assert tokens[k] !in tokens[..k];
      CreateOneKeeps(v, emails[k], tokens[k], role, grants, expiresAt);
    }
  }

  /** Closing an invite, or replacing its token by a new one, keeps the table in order. */
  lemma SetInviteKeeps(w: World, i: nat, inv: Invite)
    requires Inv(w) && i < |w.invites| && inv.email == w.invites[i].email
    requires inv.status == Pending ==> w.invites[i].status == Pending
    requires inv.token == w.invites[i].token || inv.token !in w.generated
    ensures Inv(SetInvite(w, i, inv).(generated := w.generated + {inv.token}))
  {
  }

  /** A new account takes its email's pending invite with it. */
  lemma ConsumeForKeeps(w: World, id: string, user: User, provider: string, providerId: string)
    requires Inv(w) && id !in w.users && !EmailTaken(w.users, user.email)
    ensures Inv(ConsumeFor(NewAccount(w, id, user, provider, providerId), PendingFor(w.invites, user.email), id))
  {
  }

  lemma RedeemKeeps(w: World, s: Step)
    requires Inv(w) && s.RedeemStep? && Enabled(w, s)
    ensures Inv(Next(w, s)) && Outcome(w, s).1 != DuplicateEmail
  {
    var r := ByToken(w.invites, s.token);
    if r.Some? && IsPendingFor(w.invites[r.value], s.email) {
      var inv := w.invites[r.value];
      PendingIsFree(w, r.value);
      assert PendingFor(w.invites, s.email) == r;
      var providerId := if s.providerId == "" then s.id else s.providerId;
      ConsumeForKeeps(w, s.id, User(s.email, inv.platformRole, "active"), s.provider, providerId);
      var v := NewAccount(w, s.id, User(s.email, inv.platformRole, "active"), s.provider, providerId);
      MembersDoNotMatter(ConsumeFor(v, r, s.id),
                         w.members + Memberships(s.id, OpenGrants(inv.grants, w.openHubs)));
    }
    hide Inv, PendingFor, ByToken, OpenGrants, Memberships, EmailTaken;
  }

  lemma PendingIsFree(w: World, i: nat)
    requires Inv(w) && IsOpen(w, i)
    ensures !EmailTaken(w.users, w.invites[i].email)
  {
  }

  lemma MembersDoNotMatter(w: World, members: seq<Membership>)
    requires Inv(w)
    ensures Inv(w.(members := members))
  {
  }

  lemma ResolveKeepsIff(w: World, s: Step)
    requires Inv(w) && s.ResolveStep? && Enabled(w, s)
    ensures Inv(Next(w, s)) <==> !BootstrapsOverInvite(w, s)
  {
    var v := Next(w, s);
    if BootstrapsOverInvite(w, s) {
      var i := PendingFor(w.invites, s.email).value;
      assert v.invites[i].status == Pending && v.users[s.id].email == v.invites[i].email;
    } else if !KnownIdentity(w, s.provider, s.providerId) && !EmailTaken(w.users, s.email) {
      var r := PendingFor(w.invites, s.email);
      var role := if r.Some? then RoleOrMember(w.invites[r.value].platformRole) else "member";
      var status := if r.Some? || s.autoApproved then "active" else "pending";
      ConsumeForKeeps(w, s.id, User(s.email, role, status), s.provider, s.providerId);
      ConsumeForKeeps(w, s.id, User(s.email, "admin", "active"), s.provider, s.providerId);
    }
  }

  lemma SweepKeeps(w: World, now: int)
    requires Inv(w)
    ensures Inv(Sweep(w, now).0)
  {
  }

  lemma ResendKeeps(w: World, s: Step)
    requires Inv(w) && s.ResendStep? && Enabled(w, s)
    ensures Inv(Next(w, s))
  {
    if IsOpen(w, s.invite) {
      var inv := w.invites[s.invite];
      SetInviteKeeps(w, s.invite, inv.(token := s.token, expiresAt := s.expiresAt, resendCount := inv.resendCount + 1));
    }
    hide Inv;
  }

  lemma RevokeKeeps(w: World, i: nat)
    requires Inv(w)
    ensures Inv(Revoke(w, i).0)
  {
    if IsOpen(w, i) {
      SetInviteKeeps(w, i, w.invites[i].(status := Revoked));
      assert w.generated + {w.invites[i].token} == w.generated;
    }
    hide Inv;
  }

  lemma RegisterKeeps(w: World, s: Step)
    requires Inv(w) && s.RegisterStep? && Enabled(w, s)
    ensures Inv(Next(w, s))
  {
    if !EmailTaken(w.users, s.email) {
      var r := PendingFor(w.invites, s.email);
      var role := if r.Some? then RoleOrMember(w.invites[r.value].platformRole) else "member";
      var status := if r.Some? || s.autoApproved then "active" else "pending";
      ConsumeForKeeps(w, s.id, User(s.email, role, status), "password", s.id);
    }
    hide Inv, PendingFor, EmailTaken;
  }

  lemma CreateKeeps(w: World, s: Step)
    requires Inv(w) && s.CreateStep? && Enabled(w, s)
    ensures Inv(Next(w, s))
  {
    CreateEachKeeps(w, FirstOccurrences(s.emails), s.tokens, s.role, s.grants, s.expiresAt);
    hide Inv, CreateEach, FirstOccurrences;
  }

  lemma PurgeKeeps(w: World, id: string)
    requires Inv(w)
    ensures Inv(Purge(w, id))
  {
  }

  /** Every step keeps the invariant, except exactly the bootstrap over a pending invite. */
  lemma StepKeepsInvIff(w: World, s: Step)
    requires Inv(w) && Enabled(w, s)
    ensures Inv(Next(w, s)) <==> !BootstrapsOverInvite(w, s)
  {
    match s
    case CreateStep(_, _, _, _, _) => hide Inv; CreateKeeps(w, s);
    case PreviewStep(_, _) =>
    case RedeemStep(_, _, _, _, _, _, _) => hide Inv; RedeemKeeps(w, s);
    case ResendStep(_, _, _) => hide Inv; ResendKeeps(w, s);
    case RevokeStep(i) => hide Inv; RevokeKeeps(w, i);
    case SweepStep(now) => hide Inv; SweepKeeps(w, now);
    case RegisterStep(_, _, _, _, _) => hide Inv; RegisterKeeps(w, s);
    case ResolveStep(_, _, _, _, _) => hide Inv; ResolveKeepsIff(w, s);
    case PurgeStep(id) => hide Inv; PurgeKeeps(w, id);
    case HubsStep(_) =>
  }

  /** For instance: the invited founder signs in, the invite stays open, and redeeming it afterwards
      runs into the unique index on emails. */
  lemma BootstrapLeavesInviteOpen()
    ensures var w := World(map[], map[], [Invite("a@x", "t", "admin", [], Pending, 10, 0, None)], {}, [], {"t"});
      var s := ResolveStep("google", "1", "a@x", false, "u");
      && Inv(w) && Enabled(w, s) && BootstrapsOverInvite(w, s)
      && IsOpen(Next(w, s), 0) && EmailTaken(Next(w, s).users, "a@x")
      && Redeem(Next(w, s), "t", "a@x", "password", "", true, "v", 0).1 == DuplicateEmail
  {
  }

  ghost predicate Guarded(w: World, ss: seq<Step>)
    requires IsRun(w, ss)
    decreases |ss|
  {
    ss == [] || (!BootstrapsOverInvite(w, ss[0]) && Guarded(Next(w, ss[0]), ss[1..]))
  }

  lemma {:induction false} RunKeepsInv(w: World, ss: seq<Step>)
    requires Inv(w) && IsRun(w, ss) && Guarded(w, ss)
    ensures Inv(After(w, ss))
    decreases |ss|
  {
    if ss != [] {
      StepKeepsInvIff(w, ss[0]);
      RunKeepsInv(Next(w, ss[0]), ss[1..]);
    }
  }

  lemma StepKeepsAccount(w: World, s: Step)
    requires Enabled(w, s) && !s.PurgeStep? && AnyAccount(w.users)
    ensures AnyAccount(Next(w, s).users)
  {
    var u :| u in w.users && w.users[u].email != SYSTEM_EMAIL;
    var v := Next(w, s);
    if s.CreateStep? {
      CreateEachAppends(w, FirstOccurrences(s.emails), s.tokens, s.role, s.grants, s.expiresAt);
    }
    assert u in v.users && v.users[u] == w.users[u];
  }

  /** Once an account other than the internal one exists and none is purged, the bootstrap is out of
      reach and the invariant holds for good. */
  lemma {:induction false} EstablishedIsSafe(w: World, ss: seq<Step>)
    requires Inv(w) && IsRun(w, ss) && AnyAccount(w.users)
    requires forall k :: 0 <= k < |ss| ==> !ss[k].PurgeStep?
    ensures Guarded(w, ss) && Inv(After(w, ss))
    decreases |ss|
  {
    if ss != [] {
      StepKeepsAccount(w, ss[0]);
      StepKeepsInvIff(w, ss[0]);
      EstablishedIsSafe(Next(w, ss[0]), ss[1..]);
    }
  }

  // ------------------------------------------------------ the life of an invite

  /** Only invites and tokens are added. */
  predicate Adds(w: World, v: World) {
    w == v.(invites := w.invites, generated := w.generated) && w.generated <= v.generated && w.invites <= v.invites
  }

  lemma CreateOneAppends(w: World, email: string, token: string, role: string, grants: seq<Grant>, expiresAt: int)
    ensures var v := CreateOne(w, email, token, role, grants, expiresAt).0;
      && Adds(w, v)
      && forall j :: |w.invites| <= j < |v.invites| ==> v.invites[j].status == Pending && v.invites[j].token == token
  {
  }

  lemma {:induction false} CreateEachAppends(w: World, emails: seq<string>, tokens: seq<string>, role: string,
                                             grants: seq<Grant>, expiresAt: int)
    requires |tokens| == |emails|
    ensures var v := CreateEach(w, emails, tokens, role, grants, expiresAt).0;
      && Adds(w, v)
      && forall j :: |w.invites| <= j < |v.invites| ==> v.invites[j].status == Pending && v.invites[j].token in tokens
    decreases |emails|
  {
    if emails != [] {
      var k := |emails| - 1;
      CreateEachAppends(w, emails[..k], tokens[..k], role, grants, expiresAt);
      var v := CreateEach(w, emails[..k], tokens[..k], role, grants, expiresAt).0;
      CreateOneAppends(v, emails[k], tokens[k], role, grants, expiresAt);
      hide CreateOne;
    }
  }

  /** One step and one invite: closed invites are frozen, only a resend replaces a token, and it
      does so with one that was never generated before. */
  lemma StepOnInvite(w: World, s: Step, i: nat)
    requires Enabled(w, s) && i < |w.invites|
    ensures var v := Next(w, s);
      && |w.invites| <= |v.invites| && w.generated <= v.generated
      && (w.invites[i].status != Pending ==> v.invites[i] == w.invites[i])
      && v.invites[i].email == w.invites[i].email
      && (v.invites[i].token != w.invites[i].token ==> s == ResendStep(i, v.invites[i].token, v.invites[i].expiresAt))
  {
    if s.CreateStep? {
      CreateEachAppends(w, FirstOccurrences(s.emails), s.tokens, s.role, s.grants, s.expiresAt);
    }
  }

  lemma StepOnNewInvite(w: World, s: Step, i: nat)
    requires Enabled(w, s) && |w.invites| <= i < |Next(w, s).invites|
    ensures Next(w, s).invites[i].status == Pending && Next(w, s).invites[i].token !in w.generated
  {
    if s.CreateStep? {
      CreateEachAppends(w, FirstOccurrences(s.emails), s.tokens, s.role, s.grants, s.expiresAt);
    }
  }

  ghost predicate Consumes(w: World, s: Step, i: nat)
    requires Enabled(w, s)
  {
    IsOpen(w, i) && i < |Next(w, s).invites| && Next(w, s).invites[i].status == Accepted
  }

  /** An invite is consumed together with the creation of exactly one account, for its own email;
      by redemption only with its current token, before it expires, and with its role. */
  lemma ConsumptionMakesOneAccount(w: World, s: Step, i: nat)
    requires Enabled(w, s) && Consumes(w, s, i)
    ensures s.RedeemStep? || s.RegisterStep? || s.ResolveStep?
    ensures var v, inv := Next(w, s), w.invites[i];
      && v.invites[i] == Consumed(inv, s.id)
      && s.id !in w.users && v.users.Keys == w.users.Keys + {s.id} && v.users[s.id].email == inv.email
      && (s.RedeemStep? ==>
        s.token == inv.token && s.now < inv.expiresAt && v.users[s.id].platformRole == inv.platformRole)
  {
    if s.CreateStep? {
      CreateEachAppends(w, FirstOccurrences(s.emails), s.tokens, s.role, s.grants, s.expiresAt);
    }
  }

  /** An invite's hub grants take effect only by redemption: an account that consumes it by signing
      up joins none of the hubs its preview showed. */
  lemma OnlyRedemptionJoinsHubs(w: World, s: Step)
    requires Enabled(w, s) && !s.RedeemStep?
    ensures Next(w, s).members == w.members
  {
    if s.CreateStep? {
      CreateEachAppends(w, FirstOccurrences(s.emails), s.tokens, s.role, s.grants, s.expiresAt);
    }
  }

  ghost function Consumptions(w: World, ss: seq<Step>, i: nat): nat
    requires IsRun(w, ss)
    decreases |ss|
  {
    if ss == [] then 0
    else (if Consumes(w, ss[0], i) then 1 else 0) + Consumptions(Next(w, ss[0]), ss[1..], i)
  }

  predicate IsAccepted(w: World, i: nat) {
    i < |w.invites| && w.invites[i].status == Accepted
  }

  /** Over any run an invite is consumed at most once: exactly once if it ends up accepted. */
  lemma {:induction false} ConsumedAtMostOnce(w: World, ss: seq<Step>, i: nat)
    requires IsRun(w, ss)
    ensures Consumptions(w, ss, i) == if IsAccepted(After(w, ss), i) && !IsAccepted(w, i) then 1 else 0
    decreases |ss|
  {
    if ss != [] {
      var v := Next(w, ss[0]);
      ConsumedAtMostOnce(v, ss[1..], i);
      AcceptedStays(v, ss[1..], i);
      if i < |w.invites| {
        StepOnInvite(w, ss[0], i);
      } else if i < |v.invites| {
        StepOnNewInvite(w, ss[0], i);
      }
    }
  }

  lemma {:induction false} AcceptedStays(w: World, ss: seq<Step>, i: nat)
    requires IsRun(w, ss)
    ensures i < |w.invites| ==> |w.invites| <= |After(w, ss).invites|
    ensures i < |w.invites| && w.invites[i].status != Pending ==> After(w, ss).invites[i] == w.invites[i]
    decreases |ss|
  {
    if ss != [] && i < |w.invites| {
      StepOnInvite(w, ss[0], i);
      AcceptedStays(Next(w, ss[0]), ss[1..], i);
    }
  }

  /** A token that was generated and is on no invite any more. */
  predicate Retired(w: World, token: string) {
    token in w.generated && forall i :: 0 <= i < |w.invites| ==> w.invites[i].token != token
  }

  lemma {:induction false} RetiredStays(w: World, ss: seq<Step>, token: string)
    requires IsRun(w, ss) && Retired(w, token)
    ensures Retired(After(w, ss), token)
    decreases |ss|
  {
    if ss != [] {
      var v := Next(w, ss[0]);
      assert token in v.generated by {
        if |w.invites| > 0 { StepOnInvite(w, ss[0], 0); }
        if ss[0].CreateStep? {
          var s := ss[0];
          CreateEachAppends(w, FirstOccurrences(s.emails), s.tokens, s.role, s.grants, s.expiresAt);
        }
      }
      forall i | 0 <= i < |v.invites| ensures v.invites[i].token != token {
        if i < |w.invites| { StepOnInvite(w, ss[0], i); } else { StepOnNewInvite(w, ss[0], i); }
      }
      RetiredStays(v, ss[1..], token);
    }
  }

  /** After a resend the invite's earlier token neither redeems nor previews, ever: only the last
      one issued does. */
  lemma ResendRetiresToken(w: World, i: nat, token: string, expiresAt: int, ss: seq<Step>, s: Step)
    requires TokensApart(w) && IsOpen(w, i) && Enabled(w, ResendStep(i, token, expiresAt))
    requires IsRun(Next(w, ResendStep(i, token, expiresAt)), ss)
    requires Enabled(After(Next(w, ResendStep(i, token, expiresAt)), ss), s)
    requires (s.RedeemStep? || s.PreviewStep?) && s.token == w.invites[i].token
    ensures Outcome(After(Next(w, ResendStep(i, token, expiresAt)), ss), s).1 == NotFound
  {
    var v := Next(w, ResendStep(i, token, expiresAt));
    assert Retired(v, w.invites[i].token);
    RetiredStays(v, ss, w.invites[i].token);
  }

  /** The preview promises what redemption gives: it is shown exactly when the invite's own email
      could redeem now, and it lists the role and the hub memberships the new account would get. */
  lemma PreviewMatchesRedemption(w: World, token: string, email: string, id: string, now: int)
    requires Inv(w) && id !in w.users
    ensures var p, (v, r) := Preview(w, token, now), Redeem(w, token, email, "password", "", true, id, now);
      && (r.Redeemed? <==> p.Shown? && p.email == email)
      && (r.Redeemed? ==>
        v.users[id] == User(email, p.platformRole, "active") && v.members == w.members + Memberships(id, p.hubs))
  {
  }

  // -------------------------------------------------- the sweep is unobservable

  predicate IsQuery(s: Step) {
    s.PreviewStep? || s.RedeemStep?
  }

  /** A run with sweeps inserted, step by step. */
  datatype Item = Kept(s: Step) | Extra(now: int)

  function Original(items: seq<Item>): seq<Step>
    decreases |items|
  {
    if items == [] then []
    else (if items[0].Kept? then [items[0].s] else []) + Original(items[1..])
  }

  function StepOf(item: Item): Step {
    match item
    case Kept(s) => s
    case Extra(now) => SweepStep(now)
  }

  function Merged(items: seq<Item>): seq<Step>
    decreases |items|
  {
    if items == [] then [] else [StepOf(items[0])] + Merged(items[1..])
  }

  function ClockAfter(s: Step, from: int): int {
    if IsQuery(s) || s.SweepStep? then s.now else from
  }

  predicate Timed(items: seq<Item>, from: int)
    decreases |items|
  {
    items == [] || (from <= ClockAfter(StepOf(items[0]), from) && Timed(items[1..], ClockAfter(StepOf(items[0]), from)))
  }

  /** What the callers of everything but revocations and sweeps are told. */
  predicate IsAnswered(s: Step) {
    !s.RevokeStep? && !s.SweepStep?
  }

  ghost function Answers(w: World, ss: seq<Step>): seq<Reply>
    requires IsRun(w, ss)
    decreases |ss|
  {
    if ss == [] then []
    else (if IsAnswered(ss[0]) then [Outcome(w, ss[0]).1] else []) + Answers(Next(w, ss[0]), ss[1..])
  }

  predicate MaybeSwept(a: Invite, b: Invite, now: int) {
    b == a || (b == a.(status := Expired) && (a.status == Pending || a.status == Revoked) && a.expiresAt < now)
  }

  /** `v` is `w` with some overdue invites already marked. */
  predicate Ahead(w: World, v: World, now: int) {
    && v == w.(invites := v.invites) && |v.invites| == |w.invites|
    && forall i :: 0 <= i < |w.invites| ==> MaybeSwept(w.invites[i], v.invites[i], now)
  }

  /** Whether the step looks up pending invites for the email. */
  predicate LooksFor(w: World, s: Step, email: string) {
    && !EmailTaken(w.users, email)
    && match s
       case CreateStep(emails, _, _, _, _) => email in emails
       case RegisterStep(e, _, _, _, _) => e == email
       case ResolveStep(_, _, e, _, _) => e == email
       case _ => false
  }

  predicate IsMarkedOnly(a: Invite, b: Invite) {
    a.status == Pending && b != a
  }

  /** The step touches no pending invite that only `v` has marked expired. */
  predicate Avoids(w: World, v: World, s: Step) {
    forall i :: 0 <= i < |w.invites| && i < |v.invites| && IsMarkedOnly(w.invites[i], v.invites[i]) ==>
      !LooksFor(w, s, w.invites[i].email) && !(s.ResendStep? && s.invite == i)
  }

  ghost predicate Avoided(w: World, v: World, items: seq<Item>)
    decreases |items|
  {
    items == [] ||
    match items[0]
    case Extra(now) => Avoided(w, Next(v, SweepStep(now)), items[1..])
    case Kept(s) => Enabled(w, s) && Enabled(v, s) && Avoids(w, v, s) && Avoided(Next(w, s), Next(v, s), items[1..])
  }

  lemma {:induction false} SameByToken(a: seq<Invite>, b: seq<Invite>, token: string)
    requires |a| == |b| && forall i :: 0 <= i < |a| ==> a[i].token == b[i].token
    ensures ByToken(a, token) == ByToken(b, token)
  {
    if a != [] { SameByToken(a[..|a| - 1], b[..|b| - 1], token); }
  }

  lemma {:induction false} SamePendingFor(a: seq<Invite>, b: seq<Invite>, email: string)
    requires |a| == |b| && forall i :: 0 <= i < |a| ==> (IsPendingFor(a[i], email) <==> IsPendingFor(b[i], email))
    ensures PendingFor(a, email) == PendingFor(b, email)
  {
    if a != [] { SamePendingFor(a[..|a| - 1], b[..|b| - 1], email); }
  }

  /** Where the two worlds agree on the pending invites for an email, lookups agree. */
  predicate Agree(w: World, v: World, email: string)
    requires |w.invites| == |v.invites|
  {
    forall i :: 0 <= i < |w.invites| && IsPendingFor(w.invites[i], email) ==> v.invites[i] == w.invites[i]
  }

  lemma AgreeingLookup(w: World, v: World, email: string, from: int)
    requires Ahead(w, v, from) && Agree(w, v, email)
    ensures PendingFor(v.invites, email) == PendingFor(w.invites, email)
  {
    forall i | 0 <= i < |w.invites| ensures IsPendingFor(w.invites[i], email) <==> IsPendingFor(v.invites[i], email) {
      assert MaybeSwept(w.invites[i], v.invites[i], from);
    }
    SamePendingFor(w.invites, v.invites, email);
  }

  lemma SameAnswer(w: World, v: World, token: string, from: int, now: int)
    requires Ahead(w, v, from) && from <= now
    ensures ByToken(v.invites, token) == ByToken(w.invites, token)
    ensures var r := ByToken(w.invites, token);
      r.Some? ==>
        var a, b := w.invites[r.value], v.invites[r.value];
        (a.status == Accepted <==> b.status == Accepted) && (IsSpent(a, now) <==> IsSpent(b, now))
        && (a == b || IsSpent(a, now)) && a.email == b.email
  {
    SameByToken(w.invites, v.invites, token);
    var r := ByToken(w.invites, token);
    if r.Some? { assert MaybeSwept(w.invites[r.value], v.invites[r.value], from); }
  }

  lemma QuerySimulated(w: World, v: World, s: Step, from: int)
    requires Ahead(w, v, from) && Enabled(w, s) && IsQuery(s) && from <= s.now
    ensures Enabled(v, s) && Ahead(Next(w, s), Next(v, s), s.now) && Outcome(v, s).1 == Outcome(w, s).1
  {
    SameAnswer(w, v, s.token, from, s.now);
    hide ByToken, OpenGrants, Memberships, IsSpent, NewAccount;
    if s.RedeemStep? && Outcome(w, s).1.Redeemed? {
      var i := ByToken(w.invites, s.token).value;
      assert v == w.(invites := v.invites);
      assert Next(v, s) == Next(w, s).(invites := v.invites[i := Consumed(v.invites[i], s.id)]);
      assert Next(w, s).invites == w.invites[i := Consumed(w.invites[i], s.id)];
    }
  }

  /** Revocations, sweeps, archivals, purges. */
  lemma QuietSimulated(w: World, v: World, s: Step, from: int)
    requires Ahead(w, v, from) && (s.RevokeStep? || s.SweepStep? || s.HubsStep? || s.PurgeStep?)
    requires s.SweepStep? ==> from <= s.now
    ensures Ahead(Next(w, s), Next(v, s), ClockAfter(s, from))
    ensures IsAnswered(s) ==> Outcome(v, s).1 == Outcome(w, s).1
  {
  }

  lemma ResendSimulated(w: World, v: World, s: Step, from: int)
    requires Ahead(w, v, from) && s.ResendStep? && Avoids(w, v, s)
    requires Enabled(w, s)
    ensures Enabled(v, s) && Ahead(Next(w, s), Next(v, s), from) && Outcome(v, s).1 == Outcome(w, s).1
  {
    if s.invite < |w.invites| { assert MaybeSwept(w.invites[s.invite], v.invites[s.invite], from); }
  }

  lemma AvoidingAgrees(w: World, v: World, s: Step, email: string)
    requires |w.invites| == |v.invites| && Avoids(w, v, s) && LooksFor(w, s, email)
    ensures Agree(w, v, email)
  {
  }

  lemma RegisterSimulated(w: World, v: World, s: Step, from: int)
    requires Ahead(w, v, from) && s.RegisterStep? && Avoids(w, v, s) && Enabled(w, s)
    ensures Enabled(v, s) && Ahead(Next(w, s), Next(v, s), from) && Outcome(v, s).1 == Outcome(w, s).1
  {
    if !EmailTaken(w.users, s.email) {
      AvoidingAgrees(w, v, s, s.email);
      AgreeingLookup(w, v, s.email, from);
    }
    hide PendingFor, EmailTaken, Avoids, Agree;
  }

  lemma ResolveSimulated(w: World, v: World, s: Step, from: int)
    requires Ahead(w, v, from) && s.ResolveStep? && Avoids(w, v, s) && Enabled(w, s)
    ensures Enabled(v, s) && Ahead(Next(w, s), Next(v, s), from) && Outcome(v, s).1 == Outcome(w, s).1
  {
    if !EmailTaken(w.users, s.email) {
      AvoidingAgrees(w, v, s, s.email);
      AgreeingLookup(w, v, s.email, from);
    }
    hide PendingFor, EmailTaken, KnownIdentity, AnyAccount, UserOf, Avoids, Agree;
  }

  lemma CreateOneSimulated(w: World, v: World, email: string, token: string, role: string, grants: seq<Grant>,
                           expiresAt: int, from: int)
    requires Ahead(w, v, from) && (!EmailTaken(w.users, email) ==> Agree(w, v, email))
    ensures var (w1, r) := CreateOne(w, email, token, role, grants, expiresAt);
      var (v1, q) := CreateOne(v, email, token, role, grants, expiresAt);
      && Ahead(w1, v1, from) && q == r && w1.users == w.users
      && forall e :: Agree(w, v, e) ==> Agree(w1, v1, e)
  {
    if !EmailTaken(w.users, email) { AgreeingLookup(w, v, email, from); }
    hide PendingFor, EmailTaken;
  }

  lemma {:induction false} CreateEachSimulated(w: World, v: World, emails: seq<string>, tokens: seq<string>,
                                               role: string, grants: seq<Grant>, expiresAt: int, from: int)
    requires Ahead(w, v, from) && |tokens| == |emails|
    requires forall e :: e in emails && !EmailTaken(w.users, e) ==> Agree(w, v, e)
    ensures var (w1, r) := CreateEach(w, emails, tokens, role, grants, expiresAt);
      var (v1, q) := CreateEach(v, emails, tokens, role, grants, expiresAt);
      && Ahead(w1, v1, from) && q == r && w1.users == w.users
      && forall e :: Agree(w, v, e) ==> Agree(w1, v1, e)
    decreases |emails|
  {
    if emails != [] {
      var k := |emails| - 1;
      CreateEachSimulated(w, v, emails[..k], tokens[..k], role, grants, expiresAt, from);
      var w1 := CreateEach(w, emails[..k], tokens[..k], role, grants, expiresAt).0;
      var v1 := CreateEach(v, emails[..k], tokens[..k], role, grants, expiresAt).0;
      hide CreateOne, Ahead, Agree, EmailTaken;
      AheadSameSize(w1, v1, from);
      CreateOneSimulated(w1, v1, emails[k], tokens[k], role, grants, expiresAt, from);
      AheadSameSize(CreateOne(w1, emails[k], tokens[k], role, grants, expiresAt).0,
                    CreateOne(v1, emails[k], tokens[k], role, grants, expiresAt).0, from);
    }
  }

  lemma AheadSameSize(w: World, v: World, from: int)
    requires Ahead(w, v, from)
    ensures |w.invites| == |v.invites|
  {
  }

  lemma CreateSimulated(w: World, v: World, s: Step, from: int)
    requires Ahead(w, v, from) && s.CreateStep? && Avoids(w, v, s) && Enabled(w, s)
    ensures Enabled(v, s) && Ahead(Next(w, s), Next(v, s), from) && Outcome(v, s).1 == Outcome(w, s).1
  {
    var emails := FirstOccurrences(s.emails);
    forall e | e in emails && !EmailTaken(w.users, e) ensures Agree(w, v, e) { AvoidingAgrees(w, v, s, e); }
    CreateEachSimulated(w, v, emails, s.tokens, s.role, s.grants, s.expiresAt, from);
  }

  lemma StepSimulated(w: World, v: World, s: Step, from: int)
    requires Ahead(w, v, from) && Enabled(w, s) && Avoids(w, v, s) && from <= ClockAfter(s, from)
    ensures Enabled(v, s) && Ahead(Next(w, s), Next(v, s), ClockAfter(s, from))
    ensures IsAnswered(s) ==> Outcome(v, s).1 == Outcome(w, s).1
  {
    hide Next, Outcome, Ahead, Avoids, Enabled;
    if IsQuery(s) {
      QuerySimulated(w, v, s, from);
    } else if s.ResendStep? {
      ResendSimulated(w, v, s, from);
    } else if s.CreateStep? {
      CreateSimulated(w, v, s, from);
    } else if s.RegisterStep? {
      RegisterSimulated(w, v, s, from);
    } else if s.ResolveStep? {
      ResolveSimulated(w, v, s, from);
    } else {
      QuietSimulated(w, v, s, from);
      QuietEnabled(v, s);
    }
  }

  lemma QuietEnabled(v: World, s: Step)
    requires s.RevokeStep? || s.SweepStep? || s.HubsStep? || s.PurgeStep?
    ensures Enabled(v, s)
  {
  }

  lemma ExtraSweepSimulated(w: World, v: World, now: int, from: int)
    requires Ahead(w, v, from) && from <= now
    ensures Ahead(w, Next(v, SweepStep(now)), now)
  {
  }

  /** Any run of any steps, under a clock that does not go back: inserting sweeps leaves every answer
      the same, revocations apart, as long as no resend, sign-up or issue meets an invite that an
      inserted sweep has marked. */
  lemma {:induction false} SweepIsUnobservable(w: World, v: World, items: seq<Item>, from: int)
    requires Ahead(w, v, from) && Timed(items, from) && IsRun(w, Original(items)) && Avoided(w, v, items)
    ensures IsRun(v, Merged(items)) && Answers(v, Merged(items)) == Answers(w, Original(items))
    decreases |items|
  {
    if items != [] {
      var rest := items[1..];
      assert Merged(items)[1..] == Merged(rest);
      match items[0]
      case Extra(now) =>
        ExtraSweepSimulated(w, v, now, from);
        assert Original(items) == Original(rest);
        hide Next, Ahead;
        SweepIsUnobservable(w, Next(v, SweepStep(now)), rest, now);
      case Kept(s) =>
        assert Original(items)[1..] == Original(rest);
        StepSimulated(w, v, s, from);
        hide Next, Outcome, Ahead, Avoids, Enabled;
        SweepIsUnobservable(Next(w, s), Next(v, s), rest, ClockAfter(s, from));
    }
  }

  /** Previews, redemptions, revocations, sweeps, archivals and purges meet none, so among them a
      sweep is never noticed. */
  predicate OnlyQueries(items: seq<Item>) {
    forall k :: 0 <= k < |items| && items[k].Kept? ==>
      var s := items[k].s;
      IsQuery(s) || s.RevokeStep? || s.SweepStep? || s.HubsStep? || s.PurgeStep?
  }

  lemma {:induction false} QueriesAvoid(w: World, v: World, items: seq<Item>, from: int)
    requires Ahead(w, v, from) && Timed(items, from) && IsRun(w, Original(items)) && OnlyQueries(items)
    ensures Avoided(w, v, items)
    decreases |items|
  {
    if items != [] {
      var rest := items[1..];
      match items[0]
      case Extra(now) =>
        ExtraSweepSimulated(w, v, now, from);
        assert Original(items) == Original(rest);
        hide Next, Ahead;
        QueriesAvoid(w, Next(v, SweepStep(now)), rest, now);
      case Kept(s) =>
        assert Original(items)[1..] == Original(rest);
        assert Avoids(w, v, s);
        StepSimulated(w, v, s, from);
        hide Next, Outcome, Ahead, Avoids, Enabled;
        QueriesAvoid(Next(w, s), Next(v, s), rest, ClockAfter(s, from));
    }
  }

  lemma SweepIsUnobservableToQueries(w: World, items: seq<Item>, from: int)
    requires Timed(items, from) && IsRun(w, Original(items)) && OnlyQueries(items)
    ensures IsRun(w, Merged(items)) && Answers(w, Merged(items)) == Answers(w, Original(items))
  {
    QueriesAvoid(w, w, items, from);
    SweepIsUnobservable(w, w, items, from);
  }

  // ------------------------------------------------- and when it is observable

  lemma SweptRow(w: World, i: nat, now: int)
    requires i < |w.invites|
    ensures |Sweep(w, now).0.invites| == |w.invites| && Sweep(w, now).0.invites[i] == SweptInvite(w.invites[i], now)
  {
  }

  lemma SweptLookup(w: World, email: string, now: int)
    requires Inv(w)
    ensures var r, v := PendingFor(w.invites, email), Sweep(w, now).0;
      PendingFor(v.invites, email) == if r.Some? && IsOverdue(w.invites[r.value], now) then None else r
  {
    var r, v := PendingFor(w.invites, email), Sweep(w, now).0;
    forall i | 0 <= i < |w.invites|
      ensures |v.invites| == |w.invites|
      ensures IsPendingFor(v.invites[i], email) <==> r == Some(i) && !IsOverdue(w.invites[i], now)
    {
      SweptRow(w, i, now);
      if IsPendingFor(w.invites[i], email) { assert r.Some? && r.value == i; }
    }
    SweptSize(w, now);
    hide Sweep, Inv, IsOverdue, IsPendingFor;
  }

  lemma SweptSize(w: World, now: int)
    ensures |Sweep(w, now).0.invites| == |w.invites|
  {
  }

  /** A resend of an open invite notices a sweep exactly when the invite was overdue: the sweep turns
      it away, and the invite it would have revived stays closed. */
  lemma ResendNoticesSweepIff(w: World, i: nat, token: string, expiresAt: int, now: int)
    requires IsOpen(w, i)
    ensures Resend(Sweep(w, now).0, i, token, expiresAt).1 == Resend(w, i, token, expiresAt).1
      <==> !IsOverdue(w.invites[i], now)
  {
  }

  lemma RevivalNoticesSweepIff(w: World, i: nat, token: string, expiresAt: int, now: int)
    requires Inv(w) && IsOpen(w, i) && token !in w.generated && now < expiresAt
    ensures Preview(Resend(w, i, token, expiresAt).0, token, now).Shown?
    ensures Preview(Resend(Sweep(w, now).0, i, token, expiresAt).0, token, now).Shown?
      <==> !IsOverdue(w.invites[i], now)
  {
    var r, q := Resend(w, i, token, expiresAt).0, Resend(Sweep(w, now).0, i, token, expiresAt).0;
    SweptSize(w, now);
    forall j | 0 <= j < |w.invites|
      ensures |r.invites| == |w.invites| == |q.invites|
      ensures r.invites[j].token == token <==> j == i
      ensures q.invites[j].token == token <==> j == i && !IsOverdue(w.invites[i], now)
      ensures j == i && !IsOverdue(w.invites[i], now) ==> q.invites[j] == r.invites[j]
    {
      SweptRow(w, j, now);
      SweptRow(w, i, now);
      hide Sweep;
    }
    assert r.invites[i].status == Pending && r.invites[i].expiresAt == expiresAt;
    hide Resend, Sweep, Inv, IsOverdue, OpenGrants;
  }

  /** Issuing an invite for a free email notices a sweep exactly when its open one was overdue. */
  lemma IssueNoticesSweepIff(w: World, email: string, token: string, role: string, grants: seq<Grant>, expiresAt: int,
                             now: int)
    requires Inv(w) && !EmailTaken(w.users, email) && PendingFor(w.invites, email).Some?
    ensures var r, q := CreateOne(w, email, token, role, grants, expiresAt).1,
                        CreateOne(Sweep(w, now).0, email, token, role, grants, expiresAt).1;
      q == r <==> !IsOverdue(w.invites[PendingFor(w.invites, email).value], now)
  {
    SweptLookup(w, email, now);
  }

  /** Signing up with a free email and an open invite, which ignores expiry, notices a sweep exactly
      when the invite was overdue and would have made a difference. */
  lemma RegistrationNoticesSweepIff(w: World, email: string, autoApproved: bool, id: string, now: int)
    requires Inv(w) && !EmailTaken(w.users, email) && PendingFor(w.invites, email).Some?
    ensures var inv := w.invites[PendingFor(w.invites, email).value];
      Register(Sweep(w, now).0, email, true, true, autoApproved, id).0.users
        == Register(w, email, true, true, autoApproved, id).0.users
      <==> !IsOverdue(inv, now) || (autoApproved && RoleOrMember(inv.platformRole) == "member")
  {
    SweptLookup(w, email, now);
    var r, q := Register(w, email, true, true, autoApproved, id).0.users,
      Register(Sweep(w, now).0, email, true, true, autoApproved, id).0.users;
    assert r == w.users[id := r[id]] && q == w.users[id := q[id]];
  }

  lemma OAuthNoticesSweepIff(w: World, provider: string, providerId: string, email: string, autoApproved: bool,
                             id: string, now: int)
    requires Inv(w) && !EmailTaken(w.users, email) && PendingFor(w.invites, email).Some?
    requires AnyAccount(w.users) && !KnownIdentity(w, provider, providerId)
    ensures var inv := w.invites[PendingFor(w.invites, email).value];
      Resolve(Sweep(w, now).0, provider, providerId, email, autoApproved, id).0.users
        == Resolve(w, provider, providerId, email, autoApproved, id).0.users
      <==> !IsOverdue(inv, now) || (autoApproved && RoleOrMember(inv.platformRole) == "member")
  {
    SweptLookup(w, email, now);
    var r := Resolve(w, provider, providerId, email, autoApproved, id).0.users;
    var q := Resolve(Sweep(w, now).0, provider, providerId, email, autoApproved, id).0.users;
    assert r == w.users[id := r[id]] && q == w.users[id := q[id]];
  }
}
