/** Who is answered what about invites and sign-ups, and exactly what changes: each operation by the
    rows it meets. */
module InviteAnswers {
  import opened Options
  import opened Invites

  // ---------------------------------------------------------------- the lists

  /** Hubs that are closed drop out of a list of grants one by one, the order stays. */
  lemma {:induction false} OpenGrantsOfTwo(a: seq<Grant>, b: seq<Grant>, openHubs: set<string>)
    ensures OpenGrants(a + b, openHubs) == OpenGrants(a, openHubs) + OpenGrants(b, openHubs)
    decreases |b|
  {
    if b == [] {
      assert a + b == a;
    } else {
      var k := |b| - 1;
      var front, last := OpenGrants(b[..k], openHubs), if b[k].hubId in openHubs then [b[k]] else [];
      assert (a + b)[..|a + b| - 1] == a + b[..k] && (a + b)[|a + b| - 1] == b[k];
      OpenGrantsOfTwo(a, b[..k], openHubs);
      assert OpenGrants(a, openHubs) + front + last == OpenGrants(a, openHubs) + (front + last);
    }
  }

  lemma OpenGrantsOfOne(g: Grant, openHubs: set<string>)
    ensures OpenGrants([], openHubs) == []
    ensures OpenGrants([g], openHubs) == if g.hubId in openHubs then [g] else []
  {
    assert [g][..0] == [];
  }

  /** An email takes its place by its first occurrence. */
  lemma {:induction false} EmailsInOrder(emails: seq<string>, i: nat, j: nat) returns (at: nat)
    requires i < j < |FirstOccurrences(emails)|
    ensures at < |emails| && emails[at] == FirstOccurrences(emails)[i]
    ensures forall q :: 0 <= q <= at ==> emails[q] != FirstOccurrences(emails)[j]
    decreases |emails|
  {
    var k := |emails| - 1;
    var rest := FirstOccurrences(emails[..k]);
    if j < |rest| {
      at := EmailsInOrder(emails[..k], i, j);
    } else {
      assert rest[i] in emails[..k];
      at :| 0 <= at < k && emails[at] == rest[i];
      forall q | 0 <= q <= at ensures emails[q] != FirstOccurrences(emails)[j] {
        if emails[q] != "" { assert emails[q] in emails[..k]; }
      }
    }
  }

  // ---------------------------------------------------------------- issuing

  predicate HasUser(w: World, email: string) {
    exists u :: u in w.users && w.users[u].email == email
  }

  predicate HasPending(w: World, email: string) {
    exists i :: 0 <= i < |w.invites| && w.invites[i].email == email && w.invites[i].status == Pending
  }

  lemma LookupsIff(w: World, email: string)
    ensures EmailTaken(w.users, email) <==> HasUser(w, email)
    ensures PendingFor(w.invites, email).Some? <==> HasPending(w, email)
  {
    if HasPending(w, email) {
      var i :| 0 <= i < |w.invites| && w.invites[i].email == email && w.invites[i].status == Pending;
      assert IsPendingFor(w.invites[i], email);
    }
  }

  lemma IssueOneIff(w: World, email: string, token: string, role: string, grants: seq<Grant>, expiresAt: int)
    ensures var (v, r) := CreateOne(w, email, token, role, grants, expiresAt);
      && (r == HasAccount(email) <==> HasUser(w, email))
      && (r == HasInvite(email) <==> !HasUser(w, email) && HasPending(w, email))
      && (r.Created? <==> !HasUser(w, email) && !HasPending(w, email))
      && (r.Created? ==>
            && r == Created(email, |w.invites|, token)
            && v == w.(invites := w.invites + [Invite(email, token, role, grants, Pending, expiresAt, 0, None)],
                       generated := w.generated + {token}))
      && (!r.Created? ==> v == w)
  {
    LookupsIff(w, email);
  }

  /** A row that may have been added for one of these emails does not count against another. */
  ghost predicate Independent(w: World, v: World, emails: seq<string>) {
    && v.users == w.users
    && forall e :: e !in emails ==> (HasPending(v, e) <==> HasPending(w, e))
  }

  lemma OneMoreIndependent(w: World, v: World, emails: seq<string>, email: string, token: string, role: string,
                           grants: seq<Grant>, expiresAt: int)
    requires Independent(w, v, emails)
    ensures Independent(w, CreateOne(v, email, token, role, grants, expiresAt).0, emails + [email])
  {
    var x := CreateOne(v, email, token, role, grants, expiresAt).0;
    IssueOneIff(v, email, token, role, grants, expiresAt);
    hide CreateOne;
    forall e | e !in emails + [email] ensures HasPending(x, e) <==> HasPending(w, e) {
      if HasPending(v, e) {
        var i :| 0 <= i < |v.invites| && v.invites[i].email == e && v.invites[i].status == Pending;
        assert x.invites[i] == v.invites[i];
      }
    }
  }

  /** The answer to one email, as if it were alone: `v` are the rows afterwards. */
  predicate IsAnswer(w: World, v: World, email: string, token: string, role: string, grants: seq<Grant>,
                     expiresAt: int, r: Issue)
  {
    && (r == HasAccount(email) <==> HasUser(w, email))
    && (r == HasInvite(email) <==> !HasUser(w, email) && HasPending(w, email))
    && (r.Created? <==> !HasUser(w, email) && !HasPending(w, email))
    && (r.Created? ==>
          && r.email == email && r.token == token && |w.invites| <= r.invite < |v.invites|
          && v.invites[r.invite] == Invite(email, token, role, grants, Pending, expiresAt, 0, None))
  }

  lemma AnswerStands(w: World, v: World, x: World, email: string, token: string, role: string, grants: seq<Grant>,
                     expiresAt: int, r: Issue)
    requires IsAnswer(w, v, email, token, role, grants, expiresAt, r)
    requires |v.invites| <= |x.invites| && x.invites[..|v.invites|] == v.invites
    ensures IsAnswer(w, x, email, token, role, grants, expiresAt, r)
  {
    hide HasUser, HasPending;
    if r.Created? { assert x.invites[r.invite] == x.invites[..|v.invites|][r.invite]; }
  }

  lemma OneMoreAnswer(w: World, v: World, emails: seq<string>, email: string, token: string, role: string,
                      grants: seq<Grant>, expiresAt: int)
    requires Independent(w, v, emails) && email !in emails && |w.invites| <= |v.invites|
    ensures var (x, r) := CreateOne(v, email, token, role, grants, expiresAt);
      && IsAnswer(w, x, email, token, role, grants, expiresAt, r)
      && |v.invites| <= |x.invites| && x.invites[..|v.invites|] == v.invites
  {
    IssueOneIff(v, email, token, role, grants, expiresAt);
    assert HasPending(v, email) <==> HasPending(w, email);
    assert HasUser(v, email) <==> HasUser(w, email);
    hide CreateOne, HasPending, HasUser;
  }

  /** Of several different emails issued at once, each is answered as if it were alone. */
  lemma {:induction false} EachAsIfAlone(w: World, emails: seq<string>, tokens: seq<string>, role: string,
                                         grants: seq<Grant>, expiresAt: int)
    requires |tokens| == |emails| && forall i, j :: 0 <= i < j < |emails| ==> emails[i] != emails[j]
    ensures var (v, rs) := CreateEach(w, emails, tokens, role, grants, expiresAt);
      && |rs| == |emails| && Independent(w, v, emails) && |w.invites| <= |v.invites|
      && forall k :: 0 <= k < |emails| ==> IsAnswer(w, v, emails[k], tokens[k], role, grants, expiresAt, rs[k])
    decreases |emails|
  {
    if emails != [] {
      var k := |emails| - 1;
      var (v, before) := CreateEach(w, emails[..k], tokens[..k], role, grants, expiresAt);
      var (x, last) := CreateOne(v, emails[k], tokens[k], role, grants, expiresAt);
      assert CreateEach(w, emails, tokens, role, grants, expiresAt) == (x, before + [last]);
      hide CreateEach, CreateOne, IsAnswer, Independent;
      EachAsIfAlone(w, emails[..k], tokens[..k], role, grants, expiresAt);
      assert emails == emails[..k] + [emails[k]] && emails[k] !in emails[..k];
      OneMoreAnswer(w, v, emails[..k], emails[k], tokens[k], role, grants, expiresAt);
      OneMoreIndependent(w, v, emails[..k], emails[k], tokens[k], role, grants, expiresAt);
      forall i | 0 <= i < k ensures IsAnswer(w, x, emails[i], tokens[i], role, grants, expiresAt, before[i]) {
        assert emails[i] == emails[..k][i] && tokens[i] == tokens[..k][i];
        AnswerStands(w, v, x, emails[i], tokens[i], role, grants, expiresAt, before[i]);
      }
    }
  }

  /** Issuing is refused as a whole exactly for a role or a grant that is none; else each different email
      is answered, in order. */
  lemma IssueIff(w: World, emails: seq<string>, tokens: seq<string>, role: string, grants: seq<Grant>, expiresAt: int)
    requires |tokens| == |FirstOccurrences(emails)|
    ensures var (v, r), one := Create(w, emails, tokens, role, grants, expiresAt), FirstOccurrences(emails);
      var valid := role in {"admin", "member"} && forall g :: g in grants ==>
        g.hubId != "" && g.hubRole in ["owner", "maintainer", "contributor", "viewer"] && g.hubId in w.openHubs;
      && (r == Unprocessable <==> !valid)
      && (r == Unprocessable ==> v == w)
      && (r != Unprocessable ==>
            && r == Issued(CreateEach(w, one, tokens, role, grants, expiresAt).1)
            && v == CreateEach(w, one, tokens, role, grants, expiresAt).0)
  {
    hide CreateEach, FirstOccurrences;
  }

  // ------------------------------------------------------ an invite and its link

  predicate IsHeldBy(w: World, i: nat, token: string) {
    i < |w.invites| && w.invites[i].token == token
  }

  lemma HeldIsFound(w: World, i: nat, token: string)
    requires TokensApart(w) && IsHeldBy(w, i, token)
    ensures ByToken(w.invites, token) == Some(i)
  {
  }

  predicate NotHeld(w: World, token: string) {
    forall i :: 0 <= i < |w.invites| ==> w.invites[i].token != token
  }

  /** The preview of the invite that holds the token. */
  lemma PreviewIff(w: World, token: string, i: nat, now: int)
    requires Inv(w) && IsHeldBy(w, i, token)
    ensures var r, inv := Preview(w, token, now), w.invites[i];
      && (r == AlreadyAccepted <==> inv.status == Accepted)
      && (r == NotFound <==> inv.status in {Revoked, Expired} || (inv.status == Pending && inv.expiresAt <= now))
      && (r.Shown? <==> inv.status == Pending && now < inv.expiresAt)
      && (r.Shown? ==>
            r == Shown(inv.email, inv.platformRole, OpenGrants(inv.grants, w.openHubs), inv.expiresAt))
  {
    HeldIsFound(w, i, token);
  }

  /** Its redemption, refusals in their order. */
  lemma RedemptionIff(w: World, token: string, i: nat, email: string, provider: string, providerId: string,
                      policyOk: bool, id: string, now: int)
    requires Inv(w) && IsHeldBy(w, i, token) && id !in w.users
    ensures var (v, r) := Redeem(w, token, email, provider, providerId, policyOk, id, now);
      var inv := w.invites[i];
      var open := inv.email == email && inv.status == Pending && now < inv.expiresAt;
      && (r == EmailMismatch <==> inv.email != email)
      && (r == AlreadyAccepted <==> inv.email == email && inv.status == Accepted)
      && (r == NotFound <==> inv.email == email && inv.status != Accepted && !open)
      && (r == PolicyViolation <==> open && !policyOk)
      && (r == Redeemed(id) <==> open && policyOk)
      && (!r.Redeemed? ==> v == w)
  {
    HeldIsFound(w, i, token);
    if IsPendingFor(w.invites[i], email) { PendingIsFree(w, i); }
    hide ByToken;
  }

  /** What a redemption leaves: one active account of the invite's role, with the identity it came by and
      a membership for each open grant, and the invite closed by it. */
  lemma RedemptionEffect(w: World, token: string, i: nat, email: string, provider: string, providerId: string,
                         policyOk: bool, id: string, now: int)
    requires Inv(w) && IsHeldBy(w, i, token) && id !in w.users
    requires Redeem(w, token, email, provider, providerId, policyOk, id, now).1.Redeemed?
    ensures var v, inv := Redeem(w, token, email, provider, providerId, policyOk, id, now).0, w.invites[i];
      && v.users == w.users[id := User(inv.email, inv.platformRole, "active")]
      && v.identities == w.identities[(provider, if providerId == "" then id else providerId) := id]
      && v.invites == w.invites[i := inv.(status := Accepted, acceptedUser := Some(id))]
      && v.openHubs == w.openHubs && v.generated == w.generated
      && IsJoined(w, v, id, OpenGrants(inv.grants, w.openHubs))
  {
    HeldIsFound(w, i, token);
    MembershipsJoin(w, id, OpenGrants(w.invites[i].grants, w.openHubs));
    hide ByToken, OpenGrants, Memberships, Inv, IsSpent, EmailTaken;
  }

  lemma MembershipsJoin(w: World, user: string, grants: seq<Grant>)
    ensures forall v: World :: v.members == w.members + Memberships(user, grants) ==> IsJoined(w, v, user, grants)
  {
  }

  /** Just these memberships are added, in order. */
  predicate IsJoined(w: World, v: World, user: string, grants: seq<Grant>) {
    && |v.members| == |w.members| + |grants| && v.members[..|w.members|] == w.members
    && forall k :: 0 <= k < |grants| ==>
         v.members[|w.members| + k] == Membership(grants[k].hubId, user, grants[k].hubRole)
  }

  /** A token that no invite holds opens nothing. */
  lemma UnknownTokenIsRefused(w: World, token: string, email: string, provider: string, providerId: string,
                              policyOk: bool, id: string, now: int)
    requires NotHeld(w, token)
    ensures Preview(w, token, now) == NotFound
    ensures Redeem(w, token, email, provider, providerId, policyOk, id, now) == (w, NotFound)
  {
  }

  /** Only a pending invite is resent or revoked, expired by the clock or not; nothing else changes. */
  lemma ResendAndRevokeIff(w: World, i: nat, token: string, expiresAt: int)
    ensures var (v, r) := Resend(w, i, token, expiresAt);
      && (r == Resent(token) <==> i < |w.invites| && w.invites[i].status == Pending)
      && (!r.Resent? ==> r == NotFound && v == w)
      && (r.Resent? ==>
            && v == w.(invites := v.invites, generated := w.generated + {token})
            && v.invites == w.invites[i := w.invites[i].(
                 token := token, expiresAt := expiresAt, resendCount := w.invites[i].resendCount + 1)])
    ensures var (v, r) := Revoke(w, i);
      && (r == Done <==> i < |w.invites| && w.invites[i].status == Pending)
      && (r != Done ==> r == NotFound && v == w)
      && (r == Done ==> v == w.(invites := w.invites[i := w.invites[i].(status := Revoked)]))
  {
  }

  function OverdueRows(invites: seq<Invite>, now: int): set<nat> {
    set i: nat | i < |invites| && invites[i].status == Pending && invites[i].expiresAt < now
  }

  /** The sweep closes exactly the pending invites whose time is over, and says how many. */
  lemma SweepIff(w: World, now: int)
    ensures var (v, r) := Sweep(w, now);
      && v == w.(invites := v.invites) && |v.invites| == |w.invites| && r == Swept(|OverdueRows(w.invites, now)|)
      && forall i :: 0 <= i < |w.invites| ==>
           v.invites[i] == if i in OverdueRows(w.invites, now) then w.invites[i].(status := Expired) else w.invites[i]
  {
    CountIsSize(w.invites, now);
  }

  lemma {:induction false} CountIsSize(invites: seq<Invite>, now: int)
    ensures CountOverdue(invites, now) == |OverdueRows(invites, now)|
    decreases |invites|
  {
    if invites == [] {
      assert OverdueRows(invites, now) == {};
    } else {
      CountIsSize(invites[..|invites| - 1], now);
      OneMoreRow(invites, now);
      hide OverdueRows;
    }
  }

  lemma OneMoreRow(invites: seq<Invite>, now: int)
    requires invites != []
    ensures var k, rest := |invites| - 1, invites[..|invites| - 1];
      |OverdueRows(invites, now)| == |OverdueRows(rest, now)| + if IsOverdue(invites[k], now) then 1 else 0
  {
    var k, rest := |invites| - 1, invites[..|invites| - 1];
    assert OverdueRows(invites, now) == OverdueRows(rest, now) + if IsOverdue(invites[k], now) then {k} else {};
  }

  // ---------------------------------------------------------------- signing up

  /** The account a sign-up makes: an invite decides its role and lets it in at once; without one it is
      a member that waits for approval unless its domain is approved. */
  predicate IsAdmission(w: World, v: World, email: string, autoApproved: bool, id: string) {
    && v.users.Keys == w.users.Keys + {id} && (forall u :: u in w.users && u != id ==> v.users[u] == w.users[u])
    && v.users[id].email == email
    && v.users[id].status == (if HasPending(w, email) || autoApproved then "active" else "pending")
    && (!HasPending(w, email) ==> v.users[id].platformRole == "member" && v.invites == w.invites)
    && |v.invites| == |w.invites|
    && forall i :: 0 <= i < |w.invites| ==>
         if w.invites[i].email == email && w.invites[i].status == Pending then
           && v.users[id].platformRole
                == (if w.invites[i].platformRole == "" then "member" else w.invites[i].platformRole)
           && v.invites[i] == w.invites[i].(status := Accepted, acceptedUser := Some(id))
         else v.invites[i] == w.invites[i]
  }

  /** The pending invite of the email notes the user, and is left pending. */
  predicate IsNotedOnly(w: World, v: World, email: string, id: string) {
    && |v.invites| == |w.invites|
    && forall i :: 0 <= i < |w.invites| ==>
         v.invites[i] == if w.invites[i].email == email && w.invites[i].status == Pending
                         then w.invites[i].(acceptedUser := Some(id)) else w.invites[i]
  }

  predicate RestKept(w: World, v: World) {
    v.openHubs == w.openHubs && v.members == w.members && v.generated == w.generated
  }

  lemma AdmittedByInvite(w: World, email: string, autoApproved: bool, id: string, provider: string, providerId: string)
    requires Inv(w) && id !in w.users
    ensures var r := PendingFor(w.invites, email);
      var role := if r.Some? then RoleOrMember(w.invites[r.value].platformRole) else "member";
      var user := User(email, role, if r.Some? || autoApproved then "active" else "pending");
      var v := ConsumeFor(NewAccount(w, id, user, provider, providerId), r, id);
      && IsAdmission(w, v, email, autoApproved, id) && RestKept(w, v)
      && v.identities == w.identities[(provider, providerId) := id]
  {
    LookupsIff(w, email);
    hide HasPending;
  }

  /** Registration: refused if it is off or the password is too weak; silent for a known email. */
  lemma RegistrationIff(w: World, email: string, allowed: bool, policyOk: bool, autoApproved: bool, id: string)
    requires Inv(w) && id !in w.users
    ensures var (v, r) := Register(w, email, allowed, policyOk, autoApproved, id);
      && (r == Disabled <==> !allowed)
      && (r == PolicyViolation <==> allowed && !policyOk)
      && (r == Done <==> allowed && policyOk)
      && (r != Done || HasUser(w, email) ==> v == w)
      && (r == Done && !HasUser(w, email) ==>
            && IsAdmission(w, v, email, autoApproved, id) && RestKept(w, v)
            && v.identities == w.identities[("password", id) := id])
  {
    LookupsIff(w, email);
    AdmittedByInvite(w, email, autoApproved, id, "password", id);
    hide IsAdmission, PendingFor, ConsumeFor, NewAccount, HasUser, HasPending;
  }

  /** OAuth: a known identity signs its user in; else the email's user, who gets the identity; else a new
      account. */
  lemma OAuthIff(w: World, provider: string, providerId: string, email: string, autoApproved: bool, id: string)
    requires Inv(w) && id !in w.users
    ensures var (v, r), k := Resolve(w, provider, providerId, email, autoApproved, id), (provider, providerId);
      var known := k in w.identities && w.identities[k] in w.users;
      && r.Resolved? && (r.isNew <==> !known && !HasUser(w, email))
      && (known ==> v == w && r.user == w.identities[k])
      && (!known && HasUser(w, email) ==>
            && r.user in w.users && w.users[r.user].email == email
            && v == w.(identities := w.identities[k := r.user]))
      && (r.isNew ==> r.user == id && v.identities == w.identities[k := id] && RestKept(w, v))
  {
    LookupsIff(w, email);
    AdmittedByInvite(w, email, autoApproved, id, provider, providerId);
    hide IsAdmission, PendingFor, ConsumeFor, HasUser, HasPending;
  }

  /** That account is as by registration, but the very first one is an active admin. */
  lemma OAuthAccount(w: World, provider: string, providerId: string, email: string, autoApproved: bool, id: string)
    requires Inv(w) && id !in w.users
    requires Resolve(w, provider, providerId, email, autoApproved, id).1 == Resolved(id, true)
    ensures var v := Resolve(w, provider, providerId, email, autoApproved, id).0;
      if forall u :: u in w.users ==> w.users[u].email == "system@contained.local"
      then v.users == w.users[id := User(email, "admin", "active")] && IsNotedOnly(w, v, email, id)
      else IsAdmission(w, v, email, autoApproved, id)
  {
    AdmittedByInvite(w, email, autoApproved, id, provider, providerId);
    if AnyAccount(w.users) {
      hide IsAdmission, PendingFor, ConsumeFor;
    } else {
      assert forall u :: u in w.users ==> w.users[u].email == "system@contained.local";
      hide IsAdmission, ConsumeFor;
    }
  }

  /** A purge takes the account and its identities; its email can sign up anew. */
  lemma PurgeEffect(w: World, id: string, k: (string, string))
    ensures var v := Purge(w, id);
      && v.users == w.users - {id} && v.invites == w.invites && RestKept(w, v)
      && (k in v.identities <==> k in w.identities && w.identities[k] != id)
      && (k in v.identities ==> v.identities[k] == w.identities[k])
  {
  }
}
