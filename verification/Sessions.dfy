/** Sign-in sessions, the in-memory revocation store, and the account operations that revoke.

    A token is identified with its claims: signing and hashing are injective, and the claims hold
    the time of issue in whole seconds. */
module Sessions {
  import opened Options

  datatype Role = Admin | Member

  datatype Status = Pending | Active | Suspended | Rejected

  datatype User = User(role: Role, status: Status, isDeleted: bool, hasPassword: bool)

  datatype Claims = Claims(sub: string, role: Role, iat: int)

  datatype Session = Session(userId: string, token: Claims)

  /** `members`: (hub, user) to hub role. */
  datatype World = World(
    users: map<string, User>,
    members: map<(string, string), string>,
    sessions: map<string, Session>,
    revoked: set<Claims>)

  /** A hub and the role an approval gives in it. */
  datatype Grant = Grant(hubId: string, hubRole: string)

  /** Which hubs name the account in their `owner_id`: open ones, only archived or deleted ones, none. */
  datatype HubsOwned = OwnsNone | OwnsClosed | OwnsOpen

  datatype Reply =
    | Done
    | BadRequest            // 400
    | PolicyViolation
    | Unprocessable         // 422
    | Forbidden             // 403
    | NotFound              // 404
    | ActionOnSelf          // 409, as are the following
    | LastActiveAdmin
    | InvalidTransition
    | OwnsHubs
    | StillReferenced       // a foreign key, at the commit

  const LOCAL_ADMIN: string := "local-admin-id"

  // ---------------------------------------------------------- the operations

  predicate Matches(s: Session, user: string, keep: Option<Claims>) {
    s.userId == user && Some(s.token) != keep
  }

  function MatchingRows(sessions: map<string, Session>, user: string, keep: Option<Claims>): set<string> {
    set r | r in sessions && Matches(sessions[r], user, keep)
  }

  function TokensOf(sessions: map<string, Session>, rows: set<string>): set<Claims> {
    set r | r in rows && r in sessions :: sessions[r].token
  }

  /** All sessions of `user` end, except those of the token `keep`. */
  function Revoke(w: World, user: string, keep: Option<Claims>): World {
    var rows := MatchingRows(w.sessions, user, keep);
    w.(sessions := w.sessions - rows, revoked := w.revoked + TokensOf(w.sessions, rows))
  }

  /** Some other account is an active admin; the query does not look at `isDeleted`. */
  predicate OtherAdmin(users: map<string, User>, target: string) {
    exists u :: u in users && u != target && users[u].role == Admin && users[u].status == Active
  }

  function WithUser(w: World, id: string, u: User): World {
    w.(users := w.users[id := u])
  }

  function IssueSession(w: World, user: string, row: string, iat: int): World
    requires user in w.users
  {
    w.(sessions := w.sessions[row := Session(user, Claims(user, w.users[user].role, iat))])
  }

  function Logout(w: World, user: string, token: Option<Claims>): World {
    Revoke(if token.Some? then w.(revoked := w.revoked + {token.value}) else w, user, None)
  }

  /** `passwordOk`: the current password matches; `policyOk`: the new one meets the policy. */
  function ChangePassword(w: World, user: string, passwordOk: bool, policyOk: bool,
                          current: Option<Claims>): (World, Reply)
  {
    if user !in w.users || !w.users[user].hasPassword then (w, BadRequest)
    else if !passwordOk then (w, Forbidden)
    else if !policyOk then (w, PolicyViolation)
    else (Revoke(w, user, current), Done)
  }

  function UpdateRole(w: World, actor: string, user: string, role: Role): (World, Reply) {
    if user !in w.users then (w, NotFound)
    else if role == w.users[user].role then (w, Done)
    else if role == Admin then (WithUser(w, user, w.users[user].(role := Admin)), Done)
    else if actor == user then (w, ActionOnSelf)
    else if !OtherAdmin(w.users, user) then (w, LastActiveAdmin)
    else (WithUser(Revoke(w, user, None), user, w.users[user].(role := Member)), Done)
  }

  function RoleOf(name: string): Option<Role> {
    match name
    case "admin" => Some(Admin)
    case "member" => Some(Member)
    case _ => None
  }

  /** `openHubs`: the hubs that exist and are not archived. */
  predicate ValidGrant(g: Grant, openHubs: set<string>) {
    g.hubRole in ["owner", "maintainer", "contributor", "viewer"] && g.hubId in openHubs
  }

  /** One grant: an existing membership stays as it is. */
  function AddGrant(members: map<(string, string), string>, user: string, g: Grant): map<(string, string), string> {
    if (g.hubId, user) in members then members else members[(g.hubId, user) := g.hubRole]
  }

  function AddGrants(members: map<(string, string), string>, user: string, grants: seq<Grant>)
    : map<(string, string), string>
  {
    if grants == [] then members
    else AddGrant(AddGrants(members, user, grants[..|grants| - 1]), user, grants[|grants| - 1])
  }

  predicate ValidApproval(role: Option<string>, grants: seq<Grant>, openHubs: set<string>) {
    && (role.Some? && role.value != "" ==> RoleOf(role.value).Some?)
    && forall n :: 0 <= n < |grants| ==> ValidGrant(grants[n], openHubs)
  }

  /** An invalid role or grant rolls the whole approval back. */
  function Approve(w: World, user: string, role: Option<string>, grants: seq<Grant>, openHubs: set<string>)
    : (World, Reply)
  {
    if user !in w.users then (w, NotFound)
    else if w.users[user].status != Pending then (w, InvalidTransition)
    else if !ValidApproval(role, grants, openHubs) then (w, Unprocessable)
    else
      var u := w.users[user].(status := Active);
      var v := if role.None? || role.value == "" then u else u.(role := RoleOf(role.value).value);
      (WithUser(w, user, v).(members := AddGrants(w.members, user, grants)), Done)
  }

  function Reject(w: World, user: string): (World, Reply) {
    if user !in w.users then (w, NotFound)
    else if w.users[user].status != Pending then (w, InvalidTransition)
    else (WithUser(Revoke(w, user, None), user, w.users[user].(status := Rejected)), Done)
  }

  function Suspend(w: World, actor: string, user: string): (World, Reply) {
    if actor == user then (w, ActionOnSelf)
    else if !OtherAdmin(w.users, user) then (w, LastActiveAdmin)
    else if user !in w.users then (w, NotFound)
    else if w.users[user].status != Active then (w, InvalidTransition)
    else (WithUser(Revoke(w, user, None), user, w.users[user].(status := Suspended)), Done)
  }

  function Reinstate(w: World, user: string): (World, Reply) {
    if user !in w.users then (w, NotFound)
    else if w.users[user].status != Suspended then (w, InvalidTransition)
    else (WithUser(w, user, w.users[user].(status := Active)), Done)
  }

  function WithoutUser(members: map<(string, string), string>, user: string): map<(string, string), string> {
    map k | k in members && k.1 != user :: members[k]
  }

  /** A hard deletion takes the memberships with the row.  A hub that is closed still refers to its owner:
      the commit fails and the rows stay, but not the store, which is no part of the transaction. */
  function Delete(w: World, actor: string, user: string, hard: bool, owned: HubsOwned): (World, Reply) {
    if actor == user then (w, ActionOnSelf)
    else if !OtherAdmin(w.users, user) then (w, LastActiveAdmin)
    else if user !in w.users then (w, NotFound)
    else if owned.OwnsOpen? then (w, OwnsHubs)
    else
      var v := Revoke(w, user, None);
      if !hard && !w.users[user].isDeleted then (WithUser(v, user, w.users[user].(isDeleted := true)), Done)
      else if owned.OwnsClosed? then (w.(revoked := v.revoked), StillReferenced)
      else (v.(users := v.users - {user}, members := WithoutUser(v.members, user)), Done)
  }

  function DeleteSelf(w: World, user: string): (World, Reply) {
    if user == LOCAL_ADMIN then (w, BadRequest)
    else if user !in w.users || w.users[user].isDeleted then (w, NotFound)
    else (WithUser(Revoke(w, user, None), user, w.users[user].(isDeleted := true)), Done)
  }

  /** Whether a token in date, with the database answering, gets past authentication. */
  predicate Accepted(w: World, c: Claims) {
    && c !in w.revoked
    && c.sub in w.users && !w.users[c.sub].isDeleted && w.users[c.sub].status == Active
  }

  /** `lifetime` is the configured one, in seconds.  When the look-up of the user fails, the token passes
      on its own. */
  predicate Authenticates(w: World, c: Claims, now: int, lifetime: int, dbAnswers: bool) {
    now < c.iat + lifetime && if dbAnswers then Accepted(w, c) else c !in w.revoked
  }

  lemma OneMoreToken(sessions: map<string, Session>, rows: set<string>, todo: set<string>, r: string)
    requires r in todo && r in sessions && todo <= rows
    ensures TokensOf(sessions, rows - (todo - {r})) == TokensOf(sessions, rows - todo) + {sessions[r].token}
  {
  }

  lemma RowsRemoved(sessions: map<string, Session>, rows: set<string>)
    requires rows <= sessions.Keys
    ensures |sessions - rows| == |sessions| - |rows|
  {
  }

  class AuthService {
    var users: map<string, User>
    var members: map<(string, string), string>
    var sessions: map<string, Session>
    var revoked: set<Claims>

    function State(): World
      reads this
    {
      World(users, members, sessions, revoked)
    }

    method Authenticate(c: Claims, now: int, lifetime: int, dbAnswers: bool) returns (yes: bool)
      ensures yes == Authenticates(State(), c, now, lifetime, dbAnswers)
    {
      if c.iat + lifetime <= now { return false; }
      if c in revoked { return false; }
      if !dbAnswers { return true; }
      if c.sub !in users { return false; }
      if users[c.sub].isDeleted { return false; }
      return users[c.sub].status == Active;
    }

    method RevokeTokensOf(rows: set<string>)
      requires rows <= sessions.Keys
      modifies this`revoked
      ensures revoked == old(revoked) + TokensOf(sessions, rows)
    {
      var todo := rows;
      while todo != {}
        invariant todo <= rows
        invariant revoked == old(revoked) + TokensOf(sessions, rows - todo)
        decreases |todo|
      {
        var r :| r in todo;
        OneMoreToken(sessions, rows, todo, r);
        revoked := revoked + {sessions[r].token};
        todo := todo - {r};
      }
      assert rows - todo == rows;
    }

    method RevokeSessions(user: string, keep: Option<Claims>) returns (count: nat)
      modifies this`sessions, this`revoked
      ensures State() == Revoke(old(State()), user, keep)
      ensures count == |old(sessions)| - |sessions|
    {
      var rows := MatchingRows(sessions, user, keep);
      RevokeTokensOf(rows);
      RowsRemoved(sessions, rows);
      count := |rows|;
      sessions := sessions - rows;
    }

    /** The last step of a password, OAuth or invite sign-in; `row` is a new UUID. */
    method AddSession(user: string, row: string, iat: int) returns (token: Claims)
      requires user in users && row !in sessions
      modifies this`sessions
      ensures State() == IssueSession(old(State()), user, row, iat)
      ensures token == Claims(user, users[user].role, iat)
    {
      token := Claims(user, users[user].role, iat);
      sessions := sessions[row := Session(user, token)];
    }

    method LogOut(user: string, token: Option<Claims>)
      modifies this`sessions, this`revoked
      ensures State() == Logout(old(State()), user, token)
    {
      if token.Some? { revoked := revoked + {token.value}; }
      var _ := RevokeSessions(user, None);
    }

    method SetPassword(user: string, passwordOk: bool, policyOk: bool, current: Option<Claims>) returns (reply: Reply)
      modifies this
      ensures (State(), reply) == ChangePassword(old(State()), user, passwordOk, policyOk, current)
    {
      if user !in users || !users[user].hasPassword { return BadRequest; }
      if !passwordOk { return Forbidden; }
      if !policyOk { return PolicyViolation; }
      var _ := RevokeSessions(user, current);
      return Done;
    }

    method UpdateUser(actor: string, user: string, role: Role) returns (reply: Reply)
      modifies this
      ensures (State(), reply) == UpdateRole(old(State()), actor, user, role)
    {
      if user !in users { return NotFound; }
      if role != users[user].role {
        if users[user].role == Admin && role == Member {
          if actor == user { return ActionOnSelf; }
          if !OtherAdmin(users, user) { return LastActiveAdmin; }
          var _ := RevokeSessions(user, None);
        }
        users := users[user := users[user].(role := role)];
      }
      return Done;
    }

    method ApproveUser(user: string, role: Option<string>, grants: seq<Grant>, openHubs: set<string>)
      returns (reply: Reply)
      modifies this`users, this`members
      ensures (State(), reply) == Approve(old(State()), user, role, grants, openHubs)
    {
      if user !in users { return NotFound; }
      if users[user].status != Pending { return InvalidTransition; }
      var u := users[user].(status := Active);
      if role.Some? && role.value != "" {
        if RoleOf(role.value).None? { return Unprocessable; }
        u := u.(role := RoleOf(role.value).value);
      }
      var joined := JoinHubs(user, grants, openHubs);
      if !joined { return Unprocessable; }
      users := users[user := u];
      return Done;
    }

    /** Checks and adds one grant after another; `!joined` stands for the rollback. */
    method JoinHubs(user: string, grants: seq<Grant>, openHubs: set<string>) returns (joined: bool)
      modifies this`members
      ensures joined <==> forall n :: 0 <= n < |grants| ==> ValidGrant(grants[n], openHubs)
      ensures members == if joined then AddGrants(old(members), user, grants) else old(members)
    {
      var before := members;
      for n := 0 to |grants|
        invariant forall m :: 0 <= m < n ==> ValidGrant(grants[m], openHubs)
        invariant members == AddGrants(old(members), user, grants[..n])
      {
        if !ValidGrant(grants[n], openHubs) {
          members := before;
          return false;
        }
        assert grants[..n + 1][..n] == grants[..n];
        if (grants[n].hubId, user) !in members { members := members[(grants[n].hubId, user) := grants[n].hubRole]; }
      }
      assert grants[..|grants|] == grants;
      return true;
    }

    method RejectUser(user: string) returns (reply: Reply)
      modifies this
      ensures (State(), reply) == Reject(old(State()), user)
    {
      if user !in users { return NotFound; }
      if users[user].status != Pending { return InvalidTransition; }
      users := users[user := users[user].(status := Rejected)];
      var _ := RevokeSessions(user, None);
      return Done;
    }

    method SuspendUser(actor: string, user: string) returns (reply: Reply)
      modifies this
      ensures (State(), reply) == Suspend(old(State()), actor, user)
    {
      if actor == user { return ActionOnSelf; }
      if !OtherAdmin(users, user) { return LastActiveAdmin; }
      if user !in users { return NotFound; }
      if users[user].status != Active { return InvalidTransition; }
      users := users[user := users[user].(status := Suspended)];
      var _ := RevokeSessions(user, None);
      return Done;
    }

    method ReinstateUser(user: string) returns (reply: Reply)
      modifies this`users
      ensures (State(), reply) == Reinstate(old(State()), user)
    {
      if user !in users { return NotFound; }
      if users[user].status != Suspended { return InvalidTransition; }
      users := users[user := users[user].(status := Active)];
      return Done;
    }

    method DeleteUser(actor: string, user: string, hard: bool, owned: HubsOwned) returns (reply: Reply)
      modifies this
      ensures (State(), reply) == Delete(old(State()), actor, user, hard, owned)
    {
      if actor == user { return ActionOnSelf; }
      if !OtherAdmin(users, user) { return LastActiveAdmin; }
      if user !in users { return NotFound; }
      if owned.OwnsOpen? { return OwnsHubs; }
      var before := sessions;
      if hard || users[user].isDeleted {
        var _ := RevokeSessions(user, None);
        if owned.OwnsClosed? {
          sessions := before;
          return StillReferenced;
        }
        users := users - {user};
        members := WithoutUser(members, user);
        return Done;
      }
      users := users[user := users[user].(isDeleted := true)];
      var _ := RevokeSessions(user, None);
      return Done;
    }

    method DeleteOwnAccount(user: string) returns (reply: Reply)
      modifies this
      ensures (State(), reply) == DeleteSelf(old(State()), user)
    {
      if user == LOCAL_ADMIN { return BadRequest; }
      if user !in users || users[user].isDeleted { return NotFound; }
      users := users[user := users[user].(isDeleted := true)];
      var _ := RevokeSessions(user, None);
      return Done;
    }
  }

  // --------------------------------------------------------------- whole runs

  datatype Step =
    | Register(user: string, account: User)
    | SignIn(user: string, row: string, iat: int)
    | SignOut(user: string, token: Option<Claims>)
    | NewPassword(user: string, passwordOk: bool, policyOk: bool, current: Option<Claims>)
    | SetRole(actor: string, user: string, role: Role)
    | ApproveStep(user: string, grant: Option<string>, grants: seq<Grant>, openHubs: set<string>)
    | RejectStep(user: string)
    | SuspendStep(actor: string, user: string)
    | ReinstateStep(user: string)
    | DeleteStep(actor: string, user: string, hard: bool, owned: HubsOwned)
    | DeleteSelfStep(user: string)
    | MemberStep(user: string, hub: string, hubRole: Option<string>)   // by a hub's own routes

  /** Sign-in gates on an active account that is not deleted; row ids are new; a presented token
      passed authentication and is the caller's. */
  predicate Enabled(w: World, s: Step) {
    match s
    case Register(user, account) => user !in w.users && !account.isDeleted
    case SignIn(user, row, _) =>
      user in w.users && row !in w.sessions && !w.users[user].isDeleted && w.users[user].status == Active
    case SignOut(user, token) => token.Some? ==> token.value.sub == user && Accepted(w, token.value)
    case NewPassword(user, _, _, current) => current.Some? ==> current.value.sub == user && Accepted(w, current.value)
    case _ => true
  }

  function Outcome(w: World, s: Step): (World, Reply)
    requires Enabled(w, s)
  {
    match s
    case Register(user, account) => (WithUser(w, user, account), Done)
    case SignIn(user, row, iat) => (IssueSession(w, user, row, iat), Done)
    case SignOut(user, token) => (Logout(w, user, token), Done)
    case NewPassword(user, ok, policyOk, current) => ChangePassword(w, user, ok, policyOk, current)
    case SetRole(actor, user, role) => UpdateRole(w, actor, user, role)
    case ApproveStep(user, grant, grants, openHubs) => Approve(w, user, grant, grants, openHubs)
    case RejectStep(user) => Reject(w, user)
    case SuspendStep(actor, user) => Suspend(w, actor, user)
    case ReinstateStep(user) => Reinstate(w, user)
    case DeleteStep(actor, user, hard, owned) => Delete(w, actor, user, hard, owned)
    case DeleteSelfStep(user) => DeleteSelf(w, user)
    case MemberStep(user, hub, hubRole) =>
      var key := (hub, user);
      (w.(members := if hubRole.Some? then w.members[key := hubRole.value] else w.members - {key}), Done)
  }

  function Next(w: World, s: Step): World
    requires Enabled(w, s)
  {
    Outcome(w, s).0
  }

  predicate IsRun(w: World, ss: seq<Step>)
    decreases |ss|
  {
    ss == [] || (Enabled(w, ss[0]) && IsRun(Next(w, ss[0]), ss[1..]))
  }

  function After(w: World, ss: seq<Step>): World
    requires IsRun(w, ss)
    decreases |ss|
  {
    if ss == [] then w else After(Next(w, ss[0]), ss[1..])
  }

  predicate OwnTokens(sessions: map<string, Session>) {
    forall r :: r in sessions ==> sessions[r].token.sub == sessions[r].userId
  }

  /** Tokens held in session rows. */
  function Live(w: World): set<Claims> {
    TokensOf(w.sessions, w.sessions.Keys)
  }

  function Issued(w: World, ss: seq<Step>): set<Claims>
    requires IsRun(w, ss)
    decreases |ss|
  {
    if ss == [] then {}
    else
      IssuedBy(w, ss[0]) + Issued(Next(w, ss[0]), ss[1..])
  }

  // ------------------------------------------------ what becomes of a token

  /** No token is lost between the table and the revocation store, only matching ones move, and the
      user's own are the only ones that do. */
  lemma RevokeMoves(w: World, user: string, keep: Option<Claims>)
    requires OwnTokens(w.sessions)
    ensures var v := Revoke(w, user, keep);
      && v.users == w.users && OwnTokens(v.sessions)
      && forall c :: (c in v.revoked <==> c in w.revoked || (c in Live(w) && c.sub == user && Some(c) != keep))
                  && (c in Live(v) <==> c in Live(w) && (c.sub != user || Some(c) == keep))
  {
    var v := Revoke(w, user, keep);
    forall c
      ensures c in v.revoked <==> c in w.revoked || (c in Live(w) && c.sub == user && Some(c) != keep)
      ensures c in Live(v) <==> c in Live(w) && (c.sub != user || Some(c) == keep)
    {
      if c in Live(w) {
        var r :| r in w.sessions && w.sessions[r].token == c;
        if c.sub == user && Some(c) != keep {
          assert r in MatchingRows(w.sessions, user, keep);
        } else {
          assert r in v.sessions && v.sessions[r].token == c;
        }
      }
    }
  }

  /** The steps that put the tokens of their user but the kept one in the store: those that succeed in
      ending the sessions, and the hard deletion that a foreign key refuses. */
  predicate Revokes(w: World, s: Step)
    requires Enabled(w, s)
  {
    Outcome(w, s).1 == StillReferenced ||
    (&& Outcome(w, s).1 == Done
     && match s
        case SetRole(_, user, role) => role == Member && w.users[user].role == Admin
        case Register(_, _) => false
        case SignIn(_, _, _) => false
        case ApproveStep(_, _, _, _) => false
        case ReinstateStep(_) => false
        case MemberStep(_, _, _) => false
        case _ => true)
  }

  function Kept(s: Step): Option<Claims> {
    if s.NewPassword? then s.current else None
  }

  lemma StepEffect(w: World, s: Step)
    requires Enabled(w, s)
    ensures var v := Next(w, s);
      && (!Revokes(w, s) && !s.SignIn? ==> v.sessions == w.sessions && v.revoked == w.revoked)
      && (Revokes(w, s) ==>
            v.sessions == if Outcome(w, s).1 == Done then Revoke(w, s.user, Kept(s)).sessions else w.sessions)
      && (Revokes(w, s) ==>
            v.revoked == Revoke(w, s.user, Kept(s)).revoked
                         + (if s.SignOut? && s.token.Some? then {s.token.value} else {}))
  {
  }

  function IssuedBy(w: World, s: Step): set<Claims>
    requires Enabled(w, s)
  {
    if s.SignIn? then {Claims(s.user, w.users[s.user].role, s.iat)} else {}
  }

  lemma SignInAdds(w: World, s: Step)
    requires Enabled(w, s) && s.SignIn? && OwnTokens(w.sessions)
    ensures OwnTokens(Next(w, s).sessions) && Live(Next(w, s)) == Live(w) + IssuedBy(w, s)
  {
    var v := Next(w, s);
    forall c ensures c in Live(v) <==> c in Live(w) + IssuedBy(w, s) {
      if c in Live(w) {
        var r :| r in w.sessions && w.sessions[r].token == c;
        assert v.sessions[r].token == c;
      } else if c in IssuedBy(w, s) {
        assert v.sessions[s.row].token == c;
      }
    }
  }

  /** One step and one token: where it is afterwards. */
  lemma StepMoves(w: World, s: Step, c: Claims)
    requires OwnTokens(w.sessions) && Enabled(w, s)
    ensures var v, hit := Next(w, s), Revokes(w, s) && s.user == c.sub && Some(c) != Kept(s);
      && OwnTokens(v.sessions)
      && (c in w.revoked ==> c in v.revoked)
      && (c in Live(w) || c in IssuedBy(w, s) ==> if hit then c in v.revoked else c in Live(v))
      && (c in v.revoked && c !in w.revoked ==> hit)
  {
    StepEffect(w, s);
    if s.SignIn? {
      SignInAdds(w, s);
    } else if Revokes(w, s) {
      RevokeMoves(w, s.user, Kept(s));
      assert Live(Next(w, s)) == if Outcome(w, s).1 == Done then Live(Revoke(w, s.user, Kept(s))) else Live(w);
    } else {
      assert Live(Next(w, s)) == Live(w);
    }
  }

  /** Over any run: the revocation store only grows, and every token that was in the table or was
      issued on the way is in the table or in the store. */
  lemma {:induction false} IssuedIsAccountedFor(w: World, ss: seq<Step>, c: Claims)
    requires OwnTokens(w.sessions) && IsRun(w, ss)
    ensures var v := After(w, ss);
      && OwnTokens(v.sessions) && w.revoked <= v.revoked
      && (c in Live(w) || c in Issued(w, ss) ==> c in Live(v) || c in v.revoked)
    decreases |ss|
  {
    if ss != [] {
      var u := Next(w, ss[0]);
      StepMoves(w, ss[0], c);
      forall d | d in w.revoked ensures d in u.revoked { StepMoves(w, ss[0], d); }
      IssuedIsAccountedFor(u, ss[1..], c);
    }
  }

  /** After a logout, demotion, rejection, suspension or deletion of a user (even one that a foreign key
      refuses), or a change of password, every earlier token of that user but the kept one is refused
      for the rest of the run, whatever happens to the account and whether or not the database answers. */
  lemma EarlierTokensStayRevoked(w: World, earlier: seq<Step>, s: Step, later: seq<Step>, c: Claims)
    requires OwnTokens(w.sessions) && IsRun(w, earlier)
    requires Enabled(After(w, earlier), s) && Revokes(After(w, earlier), s)
    requires IsRun(Next(After(w, earlier), s), later)
    requires c in Live(w) || c in Issued(w, earlier)
    requires c.sub == s.user && Some(c) != Kept(s)
    ensures var v := After(Next(After(w, earlier), s), later);
      c in v.revoked && forall now, lifetime, dbAnswers :: !Authenticates(v, c, now, lifetime, dbAnswers)
  {
    var u := After(w, earlier);
    IssuedIsAccountedFor(w, earlier, c);
    StepMoves(u, s, c);
    IssuedIsAccountedFor(Next(u, s), later, c);
  }

  /** No step of the run revokes tokens of this one's user without keeping this one. */
  predicate Spared(w: World, ss: seq<Step>, c: Claims)
    requires IsRun(w, ss)
    decreases |ss|
  {
    ss == [] ||
    (!(Revokes(w, ss[0]) && ss[0].user == c.sub && Some(c) != Kept(ss[0])) && Spared(Next(w, ss[0]), ss[1..], c))
  }

  /** And only then: a live token is unrevoked at the end, its session row intact, exactly when it
      was spared.  Steps about other users never touch it. */
  lemma {:induction false} SurvivesIffSpared(w: World, ss: seq<Step>, c: Claims)
    requires OwnTokens(w.sessions) && IsRun(w, ss)
    requires c in Live(w) && c !in w.revoked
    ensures Spared(w, ss, c) <==> c !in After(w, ss).revoked
    ensures Spared(w, ss, c) ==> c in Live(After(w, ss))
    decreases |ss|
  {
    if ss != [] {
      StepMoves(w, ss[0], c);
      if c in Next(w, ss[0]).revoked {
        IssuedIsAccountedFor(Next(w, ss[0]), ss[1..], c);
      } else {
        SurvivesIffSpared(Next(w, ss[0]), ss[1..], c);
      }
    }
  }

  /** Two sign-ins of a user in the same second give the same token: one that follows a logout
      within the second is refused from the start. */
  lemma SignInAcceptedIff(w: World, user: string, row: string, iat: int)
    requires Enabled(w, SignIn(user, row, iat))
    ensures var c := Claims(user, w.users[user].role, iat);
      && (Accepted(Next(w, SignIn(user, row, iat)), c) <==> c !in w.revoked)
      && forall now, lifetime, db ::
        Authenticates(Next(w, SignIn(user, row, iat)), c, now, lifetime, db) <==>
        c !in w.revoked && now < iat + lifetime
  {
  }

  /** The store is memory of one process: a logged-out token of an active account is accepted again
      after a restart. */
  lemma RestartForgets(w: World, user: string, c: Claims)
    requires Enabled(w, SignOut(user, Some(c)))
    ensures var out := Next(w, SignOut(user, Some(c)));
      !Accepted(out, c) && Accepted(out.(revoked := {}), c)
  {
  }

  /** A hard deletion that a foreign key refuses leaves the account, its memberships and its sessions,
      and yet signs the user out: none of the tokens still in the table is accepted any more. */
  lemma RefusedDeletionSignsOut(w: World, s: Step, c: Claims)
    requires OwnTokens(w.sessions) && Enabled(w, s) && Outcome(w, s).1 == StillReferenced
    ensures var v := Next(w, s);
      && v.users == w.users && v.members == w.members && v.sessions == w.sessions
      && (Accepted(v, c) <==> Accepted(w, c) && !(c in Live(w) && c.sub == s.user))
  {
    RevokeMoves(w, s.user, None);
  }

  // ------------------------------------------------- who authenticates, and when

  /** Who gets past authentication: a token in date that is not in the store and, when the database
      answers, whose account exists, is not deleted and is active. */
  lemma AuthenticatesIff(w: World, c: Claims, now: int, lifetime: int)
    ensures Authenticates(w, c, now, lifetime, false) <==> now < c.iat + lifetime && c !in w.revoked
    ensures Authenticates(w, c, now, lifetime, true) <==>
      && now < c.iat + lifetime && c !in w.revoked
      && c.sub in w.users && !w.users[c.sub].isDeleted && w.users[c.sub].status == Active
  {
  }

  /** Runs over the life of several processes: a restart empties the store. */
  datatype Move = Do(step: Step) | Restart

  predicate Possible(w: World, m: Move) {
    m.Do? ==> Enabled(w, m.step)
  }

  function Moved(w: World, m: Move): World
    requires Possible(w, m)
  {
    if m.Do? then Next(w, m.step) else w.(revoked := {})
  }

  predicate IsLife(w: World, ms: seq<Move>)
    decreases |ms|
  {
    ms == [] || (Possible(w, ms[0]) && IsLife(Moved(w, ms[0]), ms[1..]))
  }

  function AfterLife(w: World, ms: seq<Move>): World
    requires IsLife(w, ms)
    decreases |ms|
  {
    if ms == [] then w else AfterLife(Moved(w, ms[0]), ms[1..])
  }

  predicate IsActive(w: World, user: string) {
    user in w.users && w.users[user].status == Active
  }

  /** An account that is not active becomes active by its reinstatement, its approval, or its
      registration as an active one, and by nothing else. */
  lemma ActivatesIff(w: World, m: Move, user: string)
    requires Possible(w, m) && !IsActive(w, user)
    ensures IsActive(Moved(w, m), user) <==>
      m.Do? && m.step.user == user && Outcome(w, m.step).1 == Done
        && (m.step.ReinstateStep? || m.step.ApproveStep? || (m.step.Register? && m.step.account.status == Active))
  {
  }

  predicate Activates(m: Move, user: string) {
    m.Do? && m.step.user == user && (m.step.ReinstateStep? || m.step.ApproveStep? || m.step.Register?)
  }

  lemma {:induction false} StaysInactive(w: World, ms: seq<Move>, user: string)
    requires IsLife(w, ms) && !IsActive(w, user)
    requires forall i :: 0 <= i < |ms| ==> !Activates(ms[i], user)
    ensures !IsActive(AfterLife(w, ms), user)
    decreases |ms|
  {
    if ms != [] {
      ActivatesIff(w, ms[0], user);
      hide Moved, IsActive;
      StaysInactive(Moved(w, ms[0]), ms[1..], user);
    }
  }

  /** After a suspension or a rejection, restarts or not, no token of the user whatever gets past
      authentication while the database answers, until the account is made active again. */
  lemma InactiveIsShutOut(w: World, s: Step, ms: seq<Move>, c: Claims, now: int, lifetime: int)
    requires Enabled(w, s) && (s.SuspendStep? || s.RejectStep?) && Outcome(w, s).1 == Done
    requires IsLife(Next(w, s), ms) && forall i :: 0 <= i < |ms| ==> !Activates(ms[i], s.user)
    requires c.sub == s.user
    ensures !Authenticates(AfterLife(Next(w, s), ms), c, now, lifetime, true)
  {
    assert !IsActive(Next(w, s), s.user);
    hide Next;
    StaysInactive(Next(w, s), ms, s.user);
  }

  predicate Stands(w: World, user: string) {
    user in w.users && !w.users[user].isDeleted
  }

  lemma {:induction false} StaysDeleted(w: World, ms: seq<Move>, user: string)
    requires IsLife(w, ms) && !Stands(w, user)
    requires forall i :: 0 <= i < |ms| && ms[i].Do? && ms[i].step.Register? ==> ms[i].step.user != user
    ensures !Stands(AfterLife(w, ms), user)
    decreases |ms|
  {
    if ms != [] {
      var v := Moved(w, ms[0]);
      assert !Stands(v, user);
      hide Moved, Stands;
      StaysDeleted(v, ms[1..], user);
    }
  }

  /** After a deletion, soft or hard, for good, unless the id is registered anew; user ids are UUIDs. */
  lemma DeletedIsShutOut(w: World, s: Step, ms: seq<Move>, c: Claims, now: int, lifetime: int)
    requires Enabled(w, s) && (s.DeleteStep? || s.DeleteSelfStep?) && Outcome(w, s).1 == Done
    requires IsLife(Next(w, s), ms)
    requires forall i :: 0 <= i < |ms| && ms[i].Do? && ms[i].step.Register? ==> ms[i].step.user != s.user
    requires c.sub == s.user
    ensures !Authenticates(AfterLife(Next(w, s), ms), c, now, lifetime, true)
  {
    assert !Stands(Next(w, s), s.user);
    hide Next;
    StaysDeleted(Next(w, s), ms, s.user);
  }

  // ------------------------------------------------------------ approvals

  /** No earlier grant is for the same hub. */
  predicate IsFirstFor(grants: seq<Grant>, n: nat)
    requires n < |grants|
  {
    forall m :: 0 <= m < n ==> grants[m].hubId != grants[n].hubId
  }

  predicate NamesHub(grants: seq<Grant>, hub: string) {
    exists n :: 0 <= n < |grants| && grants[n].hubId == hub
  }

  lemma OneMoreHub(grants: seq<Grant>, hub: string)
    requires grants != []
    ensures NamesHub(grants, hub) <==> NamesHub(grants[..|grants| - 1], hub) || grants[|grants| - 1].hubId == hub
  {
    var rest := grants[..|grants| - 1];
    if NamesHub(rest, hub) {
      var n :| 0 <= n < |rest| && rest[n].hubId == hub;
      assert grants[n].hubId == hub;
    }
  }

  /** Grants add exactly the memberships of the user that they name; one that exists keeps its role. */
  lemma {:induction false} GrantsJoin(members: map<(string, string), string>, user: string, grants: seq<Grant>,
                                      hub: string, u: string)
    ensures var v := AddGrants(members, user, grants);
      && ((hub, u) in v <==> (hub, u) in members || (u == user && NamesHub(grants, hub)))
      && ((hub, u) in members ==> v[(hub, u)] == members[(hub, u)])
  {
    if grants != [] {
      OneMoreHub(grants, hub);
      GrantsJoin(members, user, grants[..|grants| - 1], hub, u);
      hide NamesHub;
    }
  }

  /** Of several grants for one hub the first counts. */
  lemma {:induction false} FirstGrantCounts(members: map<(string, string), string>, user: string, grants: seq<Grant>,
                                            n: nat)
    requires n < |grants| && IsFirstFor(grants, n) && (grants[n].hubId, user) !in members
    ensures var v, key := AddGrants(members, user, grants), (grants[n].hubId, user);
      key in v && v[key] == grants[n].hubRole
    decreases |grants|
  {
    var last := |grants| - 1;
    if n < last {
      FirstGrantCounts(members, user, grants[..last], n);
    } else {
      GrantsJoin(members, user, grants[..last], grants[n].hubId, user);
    }
  }

  /** An approval is all or nothing: it succeeds exactly for a pending account with a valid role, or none,
      and valid grants, and then the account is active, in the hubs granted. */
  lemma ApprovalIff(w: World, user: string, role: Option<string>, grants: seq<Grant>, openHubs: set<string>)
    ensures var (v, r) := Approve(w, user, role, grants, openHubs);
      && (r == Done <==>
            && user in w.users && w.users[user].status == Pending
            && (role in {None, Some(""), Some("admin"), Some("member")})
            && forall g :: g in grants ==>
                 g.hubRole in ["owner", "maintainer", "contributor", "viewer"] && g.hubId in openHubs)
      && (r == NotFound <==> user !in w.users)
      && (r == InvalidTransition <==> user in w.users && w.users[user].status != Pending)
      && (r in {Done, NotFound, InvalidTransition} || r == Unprocessable)
      && (r != Done ==> v == w)
      && (r == Done ==>
            && v.users == w.users[user := w.users[user].(status := Active, role := v.users[user].role)]
            && SameSessions(w, v)
            && (v.users[user].role == Admin <==>
                  role == Some("admin") || (role in {None, Some("")} && w.users[user].role == Admin))
            && forall g :: g in grants ==> (g.hubId, user) in v.members)
  {
    forall g | g in grants ensures (g.hubId, user) in AddGrants(w.members, user, grants) {
      GrantsJoin(w.members, user, grants, g.hubId, user);
    }
  }

  // ------------------------------------------------ refusals and their order

  /** No other row is an active admin. */
  predicate IsLastAdmin(w: World, user: string) {
    forall u :: u in w.users && w.users[u].role == Admin && w.users[u].status == Active ==> u == user
  }

  /** The user's sessions, all but that of `keep`, are in the table no more, and their tokens in the store. */
  ghost predicate SignedOut(w: World, v: World, user: string, keep: Option<Claims>) {
    && (forall r :: r in v.sessions <==>
          r in w.sessions && (w.sessions[r].userId != user || Some(w.sessions[r].token) == keep))
    && (forall r :: r in v.sessions && r in w.sessions ==> v.sessions[r] == w.sessions[r])
    && (forall c :: c in v.revoked <==>
          c in w.revoked || exists r :: r in w.sessions && r !in v.sessions && w.sessions[r].token == c)
  }

  predicate SameSessions(w: World, v: World) {
    v.sessions == w.sessions && v.revoked == w.revoked
  }

  lemma RevokeSignsOut(w: World, user: string, keep: Option<Claims>)
    ensures var v := Revoke(w, user, keep);
      v.users == w.users && v.members == w.members && SignedOut(w, v, user, keep)
  {
    var v := Revoke(w, user, keep);
    forall c
      ensures c in v.revoked <==>
        c in w.revoked || exists r :: r in w.sessions && r !in v.sessions && w.sessions[r].token == c
    {
    }
  }

  /** A logout ends all sessions of the user and refuses the token presented, in the table or not. */
  lemma LogoutEffect(w: World, user: string, token: Option<Claims>)
    ensures var v := Logout(w, user, token);
      && v.users == w.users && v.members == w.members
      && SignedOut(if token.Some? then w.(revoked := w.revoked + {token.value}) else w, v, user, None)
      && (token.Some? ==> token.value in v.revoked)
  {
    RevokeSignsOut(if token.Some? then w.(revoked := w.revoked + {token.value}) else w, user, None);
  }

  lemma PasswordChangeIff(w: World, user: string, passwordOk: bool, policyOk: bool, current: Option<Claims>)
    ensures var (v, r) := ChangePassword(w, user, passwordOk, policyOk, current);
      && (r == BadRequest <==> user !in w.users || !w.users[user].hasPassword)
      && (r == Forbidden <==> user in w.users && w.users[user].hasPassword && !passwordOk)
      && (r == PolicyViolation <==> user in w.users && w.users[user].hasPassword && passwordOk && !policyOk)
      && (r == Done <==> user in w.users && w.users[user].hasPassword && passwordOk && policyOk)
      && (r != Done ==> v == w)
      && (r == Done ==> v.users == w.users && v.members == w.members && SignedOut(w, v, user, current))
  {
    RevokeSignsOut(w, user, current);
    hide Revoke, SignedOut;
  }

  lemma RoleChangeIff(w: World, actor: string, user: string, role: Role)
    ensures var (v, r) := UpdateRole(w, actor, user, role);
      var demotion := user in w.users && w.users[user].role == Admin && role == Member;
      && (r == NotFound <==> user !in w.users)
      && (r == ActionOnSelf <==> demotion && actor == user)
      && (r == LastActiveAdmin <==> demotion && actor != user && IsLastAdmin(w, user))
      && (r == Done <==> user in w.users && (demotion ==> actor != user && !IsLastAdmin(w, user)))
      && (r != Done ==> v == w)
      && (r == Done ==>
            && v.users == w.users[user := w.users[user].(role := role)] && v.members == w.members
            && if demotion then SignedOut(w, v, user, None) else SameSessions(w, v))
  {
    RevokeSignsOut(w, user, None);
    hide Revoke;
    if user in w.users { assert w.users == w.users[user := w.users[user]]; }
  }

  lemma RejectionIff(w: World, user: string)
    ensures var (v, r) := Reject(w, user);
      && (r == NotFound <==> user !in w.users)
      && (r == InvalidTransition <==> user in w.users && w.users[user].status != Pending)
      && (r == Done <==> user in w.users && w.users[user].status == Pending)
      && (r != Done ==> v == w)
      && (r == Done ==>
            && v.users == w.users[user := w.users[user].(status := Rejected)] && v.members == w.members
            && SignedOut(w, v, user, None))
  {
    RevokeSignsOut(w, user, None);
    hide Revoke;
  }

  lemma SuspensionIff(w: World, actor: string, user: string)
    ensures var (v, r) := Suspend(w, actor, user);
      && (r == ActionOnSelf <==> actor == user)
      && (r == LastActiveAdmin <==> actor != user && IsLastAdmin(w, user))
      && (r == NotFound <==> actor != user && !IsLastAdmin(w, user) && user !in w.users)
      && (r == Done <==> actor != user && !IsLastAdmin(w, user) && user in w.users && w.users[user].status == Active)
      && (r !in {Done, ActionOnSelf, LastActiveAdmin, NotFound} ==> r == InvalidTransition)
      && (r != Done ==> v == w)
      && (r == Done ==>
            && v.users == w.users[user := w.users[user].(status := Suspended)] && v.members == w.members
            && SignedOut(w, v, user, None))
  {
    RevokeSignsOut(w, user, None);
    hide Revoke;
  }

  lemma ReinstatementIff(w: World, user: string)
    ensures var (v, r) := Reinstate(w, user);
      && (r == NotFound <==> user !in w.users)
      && (r == InvalidTransition <==> user in w.users && w.users[user].status != Suspended)
      && (r == Done <==> user in w.users && w.users[user].status == Suspended)
      && (r != Done ==> v == w)
      && (r == Done ==>
            && v.users == w.users[user := w.users[user].(status := Active)] && v.members == w.members
            && SameSessions(w, v))
  {
  }

  /** A deletion is hard exactly if asked to be or the row is marked as deleted already; only a hard one
      minds hubs that are closed. */
  lemma DeletionIff(w: World, actor: string, user: string, hard: bool, owned: HubsOwned)
    ensures var (v, r) := Delete(w, actor, user, hard, owned);
      var guarded := actor != user && !IsLastAdmin(w, user);
      var purge := user in w.users && (hard || w.users[user].isDeleted);
      && (r == ActionOnSelf <==> actor == user)
      && (r == LastActiveAdmin <==> actor != user && IsLastAdmin(w, user))
      && (r == NotFound <==> guarded && user !in w.users)
      && (r == OwnsHubs <==> guarded && user in w.users && owned == OwnsOpen)
      && (r == StillReferenced <==> guarded && purge && owned == OwnsClosed)
      && (r == Done <==> guarded && user in w.users && (owned == OwnsNone || (owned == OwnsClosed && !purge)))
      && (r !in {Done, StillReferenced} ==> v == w)
      && (r == Done && purge ==>
            && v.users == w.users - {user}
            && (forall k :: k in v.members <==> k in w.members && k.1 != user)
            && (forall k :: k in v.members && k in w.members ==> v.members[k] == w.members[k]))
      && (r == Done && !purge ==>
            v.users == w.users[user := w.users[user].(isDeleted := true)] && v.members == w.members)
      && (r == Done ==> SignedOut(w, v, user, None))
  {
    RevokeSignsOut(w, user, None);
    hide Revoke;
  }

  lemma SelfDeletionIff(w: World, user: string)
    ensures var (v, r) := DeleteSelf(w, user);
      && (r == BadRequest <==> user == "local-admin-id")
      && (r == NotFound <==> user != "local-admin-id" && (user !in w.users || w.users[user].isDeleted))
      && (r == Done <==> user != "local-admin-id" && user in w.users && !w.users[user].isDeleted)
      && (r != Done ==> v == w)
      && (r == Done ==>
            && v.users == w.users[user := w.users[user].(isDeleted := true)] && v.members == w.members
            && SignedOut(w, v, user, None))
  {
    RevokeSignsOut(w, user, None);
    hide Revoke;
  }

  // ---------------------------------------------------------- the admin floor

  predicate HasAdmin(users: map<string, User>) {
    exists u :: u in users && users[u].role == Admin && users[u].status == Active
  }

  lemma StepKeepsAdmin(w: World, s: Step)
    requires Enabled(w, s) && HasAdmin(w.users)
    ensures HasAdmin(Next(w, s).users)
  {
    var v := Next(w, s);
    if OtherAdmin(w.users, s.user) {
      var u :| u in w.users && u != s.user && w.users[u].role == Admin && w.users[u].status == Active;
      assert v.users[u] == w.users[u];
    } else {
      var u :| u in w.users && w.users[u].role == Admin && w.users[u].status == Active;
      assert v.users[u].role == Admin && v.users[u].status == Active;
    }
  }

  /** In every reachable state some row is an active admin. */
  lemma {:induction false} FloorKept(w: World, ss: seq<Step>)
    requires IsRun(w, ss) && HasAdmin(w.users)
    ensures HasAdmin(After(w, ss).users)
    decreases |ss|
  {
    if ss != [] {
      StepKeepsAdmin(w, ss[0]);
      FloorKept(Next(w, ss[0]), ss[1..]);
    }
  }

  predicate IsLiveAdmin(users: map<string, User>, u: string) {
    u in users && users[u].role == Admin && users[u].status == Active && !users[u].isDeleted
  }

  /** The floor counts soft-deleted admins, so it does not keep one who can sign in. */
  lemma FloorCountsDeletedAdmins()
    ensures var admin := User(Admin, Active, false, true);
      var w := World(map["a" := admin, "b" := admin], map[], map[], {});
      var ss := [DeleteSelfStep("a"), SuspendStep("key", "b")];
      && IsLiveAdmin(w.users, "a") && IsLiveAdmin(w.users, "b") && IsRun(w, ss)
      && !exists u :: IsLiveAdmin(After(w, ss).users, u)
  {
    var admin := User(Admin, Active, false, true);
    var w := World(map["a" := admin, "b" := admin], map[], map[], {});
    var ss := [DeleteSelfStep("a"), SuspendStep("key", "b")];
    var w1 := Next(w, ss[0]);
    assert w1.users == map["a" := admin.(isDeleted := true), "b" := admin];
    assert OtherAdmin(w1.users, "b") by { assert w1.users["a"].role == Admin; }
    assert ss[1..] == [SuspendStep("key", "b")];
    assert ss[1..][1..] == [];
    assert IsRun(w1, ss[1..]);
    assert After(w, ss) == Next(w1, ss[1]);
    assert After(w, ss).users == map["a" := admin.(isDeleted := true), "b" := admin.(status := Suspended)];
  }

  predicate Withdraws(w: World, s: Step)
    requires Enabled(w, s)
  {
    && Revokes(w, s) && Outcome(w, s).1 == Done
    && (s.SetRole? || s.SuspendStep? || s.DeleteStep? || s.DeleteSelfStep?)
  }

  /** A demotion, suspension or deletion that succeeds leaves an admin who can sign in exactly when
      there was another one; no other step takes the last one away. */
  lemma LiveAdminRemainsIff(w: World, s: Step)
    requires Enabled(w, s)
    ensures Withdraws(w, s) ==>
      ((exists u :: IsLiveAdmin(Next(w, s).users, u)) <==> exists u :: u != s.user && IsLiveAdmin(w.users, u))
    ensures !Withdraws(w, s) ==>
      ((exists u :: IsLiveAdmin(w.users, u)) ==> exists u :: IsLiveAdmin(Next(w, s).users, u))
  {
    var v := Next(w, s);
    forall u | u != s.user ensures IsLiveAdmin(v.users, u) <==> IsLiveAdmin(w.users, u) {
    }
    hide Enabled;
    if Withdraws(w, s) {
      assert !IsLiveAdmin(v.users, s.user);
    } else if u :| IsLiveAdmin(w.users, u) {
      assert IsLiveAdmin(v.users, u);
    }
  }
}
