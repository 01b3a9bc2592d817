/** The repositories, the session store and the handlers, proved to take the steps of the specification. */
module Accounts {
  import opened Wrappers
  import opened AccountsSpec

  /** Tables users and user_roles. `up` says whether the database answers a call. */
  class UserRepository {
    var users: map<nat, User>
    var names: map<string, nat>
    var grants: set<Grant>

    constructor (users: map<nat, User>, names: map<string, nat>, grants: set<Grant>)
      ensures this.users == users && this.names == names && this.grants == grants
    {
      this.users, this.names, this.grants := users, names, grants;
    }

    /** Both inserts happen or neither does. */
    method Create(id: nat, user: User, roles: seq<Role>, up: bool) returns (ok: bool)
      modifies this
      ensures ok <==> up && id !in old(users) && user.username !in old(names)
      ensures ok ==>
        users == old(users)[id := user] && names == old(names)[user.username := id]
            && grants == old(grants) + GrantsOf(id, roles)
      ensures !ok ==> users == old(users) && names == old(names) && grants == old(grants)
    {
      ok := up && id !in users && user.username !in names;
      if ok {
        users, names := users[id := user], names[user.username := id];
        var inserted := InsertUserRoles(grants, id, roles);
        grants := inserted;
      }
    }

    static method InsertUserRoles(rows: set<Grant>, id: nat, roles: seq<Role>) returns (after: set<Grant>)
      ensures after == rows + GrantsOf(id, roles)
    {
      after := rows;
      var i := 0;
      while i < |roles|
        invariant i <= |roles| && after == rows + GrantsOf(id, roles[..i])
      {
        after := after + {Grant(id, roles[i])};
        i := i + 1;
      }
      assert roles[..i] == roles;
    }

    method GetByID(id: nat, up: bool) returns (found: Result<Option<User>, ()>)
      ensures found == if !up then Err(()) else if id in users then Ok(Some(users[id])) else Ok(None)
    {
      if !up {
        return Err(());
      }
      return Ok(if id in users then Some(users[id]) else None);
    }

    method GetByUsername(username: string, up: bool) returns (found: Result<Option<nat>, ()>)
      ensures found == if !up then Err(())
        else if username in names && names[username] in users then Ok(Some(names[username])) else Ok(None)
    {
      if !up {
        return Err(());
      }
      return Ok(if username in names && names[username] in users then Some(names[username]) else None);
    }

    method GetUserRoles(id: nat, up: bool) returns (roles: Result<set<Role>, ()>)
      ensures roles == if up then Ok(set g | g in grants && g.user == id :: g.role) else Err(())
    {
      if !up {
        return Err(());
      }
      return Ok(set g | g in grants && g.user == id :: g.role);
    }

    /** The old roles are deleted and the new ones inserted, or nothing happens. */
    method UpdateRoles(id: nat, roles: seq<Role>, up: bool)
      modifies this`grants
      ensures grants == if up then (set g | g in old(grants) && g.user != id) + GrantsOf(id, roles) else old(grants)
    {
      if up {
        var kept := set g | g in grants && g.user != id;
        var inserted := InsertUserRoles(kept, id, roles);
        grants := inserted;
      }
    }

    method Update(id: nat, user: User, up: bool)
      requires id in users
      modifies this`users
      ensures users == if up then old(users)[id := old(users)[id].(email := user.email, active := user.active)]
          else old(users)
    {
      if up {
        users := users[id := users[id].(email := user.email, active := user.active)];
      }
    }

    method UpdatePassword(id: nat, hash: string, up: bool)
      requires id in users
      modifies this`users
      ensures users == if up then old(users)[id := old(users)[id].(hash := hash)] else old(users)
    {
      if up {
        users := users[id := users[id].(hash := hash)];
      }
    }

    /** Counts the users that are active and have a row that says admin, but for one of them. */
    method CountActiveAdmins(exclude: nat) returns (count: nat)
      ensures count == |(set id | id in users && users[id].active && Grant(id, Admin) in grants) - {exclude}|
    {
      ghost var all := set id | id in users && users[id].active && Grant(id, Admin) in grants;
      var counted: set<nat> := {};
      var rest := users.Keys;
      while rest != {}
        invariant rest <= users.Keys
        invariant counted == set id | id in users && id !in rest && id in all && id != exclude
        decreases |rest|
      {
        var id :| id in rest;
        rest := rest - {id};
        if users[id].active && Grant(id, Admin) in grants && id != exclude {
          counted := counted + {id};
        }
      }
      assert counted == all - {exclude};
      count := |counted|;
    }
  }

  /** Table sessions, the database's clock, and the tokens the store has generated. */
  class SessionRepository {
    var sessions: map<nat, Session>
    var issued: set<nat>
    var now: int

    constructor (now: int)
      ensures sessions == map[] && issued == {} && this.now == now
    {
      sessions, issued, this.now := map[], {}, now;
    }

    method Create(token: nat, session: Session, up: bool) returns (ok: bool)
      modifies this
      ensures ok <==> up && token !in old(issued)
      ensures now == old(now)
      ensures if ok then sessions == old(sessions)[token := session] && issued == old(issued) + {token}
        else sessions == old(sessions) && issued == old(issued)
    {
      ok := up && token !in issued;
      if ok {
        sessions, issued := sessions[token := session], issued + {token};
      }
    }

    /** Finds a session that has not expired. */
    method GetByToken(token: nat) returns (found: Option<Session>)
      ensures found == if token in sessions && sessions[token].expires > now then Some(sessions[token]) else None
    {
      if token in sessions && sessions[token].expires > now {
        return Some(sessions[token]);
      }
      return None;
    }

    method Delete(token: nat, up: bool)
      modifies this`sessions
      ensures sessions == if up then old(sessions) - {token} else old(sessions)
    {
      if up {
        sessions := sessions - {token};
      }
    }

    method DeleteByUserID(id: nat, up: bool)
      modifies this`sessions
      ensures sessions == if up then WithoutSessionsOf(old(sessions), id) else old(sessions)
    {
      if up {
        sessions := map token | token in sessions && sessions[token].user != id :: sessions[token];
      }
    }

    method DeleteExpired(up: bool)
      modifies this`sessions
      ensures sessions == if up then Unexpired(old(sessions), now) else old(sessions)
    {
      if up {
        sessions := map token | token in sessions && sessions[token].expires > now :: sessions[token];
      }
    }
  }

  function View(users: UserRepository, sessions: SessionRepository): State
    reads users, sessions
  {
    State(users.users, users.names, users.grants, sessions.sessions, sessions.issued, sessions.now)
  }

  class AdminHandler {
    const users: UserRepository
    const sessions: SessionRepository

    constructor (users: UserRepository, sessions: SessionRepository)
      ensures this.users == users && this.sessions == sessions
    {
      this.users, this.sessions := users, sessions;
    }

    static method ParseAndValidateRoles(names: seq<string>) returns (r: Result<seq<Role>, string>)
      ensures r == if InvalidName(names).Some? then Err(InvalidName(names).value) else Ok(RolesNamed(names))
    {
      var roles: seq<Role> := [];
      var seen: set<Role> := {};
      var i := 0;
      while i < |names|
        invariant i <= |names| && InvalidName(names[..i]).None?
        invariant roles == RolesNamed(names[..i]) && forall role :: role in seen <==> role in roles
      {
        assert names[..i + 1][..i] == names[..i];
        var role := RoleNamed(names[i]);
        if role.None? {
          InvalidStays(names, i + 1, |names|);
          assert names[..|names|] == names;
          return Err(names[i]);
        }
        if role.value !in seen {
          seen := seen + {role.value};
          roles := roles + [role.value];
        }
        i := i + 1;
      }
      assert names[..i] == names;
      return Ok(roles);
    }

    /** None lets the request go on; otherwise this is its reply. */
    method EnsureNotLastAdmin(id: nat, active: bool, up: Up) returns (refusal: Option<Reply>)
      ensures var check := LastAdminCheck(View(users, sessions), id, active, up);
        refusal == if check == Pass then None else Some(Refusal(check))
    {
      var roles := users.GetUserRoles(id, up.roles);
      if roles.Err? {
        return Some(ServerError);
      }
      if Admin !in roles.value || !active {
        return None;
      }
      if !up.count {
        return Some(ServerError);
      }
      var count := users.CountActiveAdmins(id);
      if count == 0 {
        return Some(LastAdmin);
      }
      return None;
    }

    method CreateUser(r: Request) returns (reply: Reply)
      requires r.CreateUser?
      modifies users
      ensures CreateUserStep(old(View(users, sessions)), r) == Outcome(View(users, sessions), reply)
    {
      var roles := ParseAndValidateRoles(r.roleNames);
      if roles.Err? {
        return BadRequest;
      }
      if !r.up.find {
        return ServerError;
      }
      if r.username in users.names {
        return Conflict;
      }
      if r.hash.None? {
        return ServerError;
      }
      var created := users.Create(r.id, User(r.username, r.hash.value, r.email, true), roles.value, r.up.write);
      return if created then Done else ServerError;
    }

    method UpdateUser(r: Request) returns (reply: Reply)
      requires r.UpdateUser?
      modifies users, sessions
      ensures UpdateUserStep(old(View(users, sessions)), r) == Outcome(View(users, sessions), reply)
    {
      var found := users.GetByID(r.id, r.up.find);
      if found.Err? {
        return ServerError;
      }
      if found.value.None? {
        return NotFound;
      }
      var user := found.value.value;
      var invalidateSessions := false;
      if r.newEmail.Some? {
        user := user.(email := r.newEmail.value);
      }
      if r.newActive.Some? {
        if !r.newActive.value {
          if r.who == Some(r.id) {
            return BadRequest;
          }
          var refusal := EnsureNotLastAdmin(r.id, user.active, r.up);
          if refusal.Some? {
            return refusal.value;
          }
        }
        user := user.(active := r.newActive.value);
        invalidateSessions := true;
      }
      reply := WriteUpdate(r, user, invalidateSessions);
    }

    /** The second half of UpdateUser: what it writes. */
    method WriteUpdate(r: Request, user: User, invalidate: bool) returns (reply: Reply)
      requires r.UpdateUser? && r.id in users.users
      requires user.email == if r.newEmail.Some? then r.newEmail.value else users.users[r.id].email
      requires user.active == if r.newActive.Some? then r.newActive.value else users.users[r.id].active
      requires invalidate == r.newActive.Some?
      modifies users, sessions
      ensures UpdateWrites(old(View(users, sessions)), r) == Outcome(View(users, sessions), reply)
    {
      var invalidateSessions := invalidate;
      if r.setsPassword {
        if r.hash.None? {
          return ServerError;
        }
        users.UpdatePassword(r.id, r.hash.value, r.up.password);
        if !r.up.password {
          return ServerError;
        }
        invalidateSessions := true;
      }
      users.Update(r.id, user, r.up.write);
      if !r.up.write {
        return ServerError;
      }
      if invalidateSessions {
        sessions.DeleteByUserID(r.id, r.up.sessions);
        if !r.up.sessions {
          return ServerError;
        }
      }
      return if r.up.reload then Done else ServerError;
    }

    method DeactivateUser(r: Request) returns (reply: Reply)
      requires r.DeactivateUser?
      modifies users, sessions
      ensures DeactivateUserStep(old(View(users, sessions)), r) == Outcome(View(users, sessions), reply)
    {
      if r.who == Some(r.id) {
        return BadRequest;
      }
      var found := users.GetByID(r.id, r.up.find);
      if found.Err? {
        return ServerError;
      }
      if found.value.None? {
        return NotFound;
      }
      var user := found.value.value;
      var refusal := EnsureNotLastAdmin(r.id, user.active, r.up);
      if refusal.Some? {
        return refusal.value;
      }
      users.Update(r.id, user.(active := false), r.up.write);
      if !r.up.write {
        return ServerError;
      }
      sessions.DeleteByUserID(r.id, r.up.sessions);
      return if r.up.sessions then Done else ServerError;
    }

    method UpdateUserRoles(r: Request) returns (reply: Reply)
      requires r.UpdateUserRoles?
      modifies users, sessions
      ensures UpdateUserRolesStep(old(View(users, sessions)), r) == Outcome(View(users, sessions), reply)
    {
      var parsed := ParseAndValidateRoles(r.roleNames);
      if parsed.Err? {
        return BadRequest;
      }
      var roles := parsed.value;
      var found := users.GetByID(r.id, r.up.find);
      if found.Err? {
        return ServerError;
      }
      if found.value.None? {
        return NotFound;
      }
      var user := found.value.value;
      if Admin !in roles && user.active {
        var refusal := EnsureNotLastAdmin(r.id, user.active, r.up);
        if refusal.Some? {
          return refusal.value;
        }
      }
      users.UpdateRoles(r.id, roles, r.up.write);
      if !r.up.write {
        return ServerError;
      }
      sessions.DeleteByUserID(r.id, r.up.sessions);
      return if r.up.sessions then Done else ServerError;
    }
  }

  lemma {:induction false} InvalidStays(names: seq<string>, m: nat, n: nat)
    requires m <= n <= |names| && InvalidName(names[..m]).Some?
    ensures InvalidName(names[..n]) == InvalidName(names[..m])
  {
    if m < n {
      InvalidStays(names, m, n - 1);
      assert names[..n][..n - 1] == names[..n - 1];
    }
  }

  /** The local provider, the session store and the handlers of login and logout. */
  class AuthHandler {
    const bcrypt: Bcrypt
    const users: UserRepository
    const sessions: SessionRepository

    constructor (bcrypt: Bcrypt, users: UserRepository, sessions: SessionRepository)
      ensures this.bcrypt == bcrypt && this.users == users && this.sessions == sessions
    {
      this.bcrypt, this.users, this.sessions := bcrypt, users, sessions;
    }

    /** The id of the user that the credentials belong to, with that user's roles, or why there is none. */
    method Authenticate(r: Request) returns (result: Result<Session, Reply>)
      requires r.Login?
      ensures var s := View(users, sessions);
        && (result.Ok? ==>
             && r.up.find && r.up.roles && r.username in s.names && s.names[r.username] in s.users
             && s.users[s.names[r.username]].active && bcrypt(s.users[s.names[r.username]].hash, r.password)
             && result.value == Session(s.names[r.username], RolesOf(s, s.names[r.username]), s.now + r.ttl))
        && (result.Err? ==> LoginStep(bcrypt, s, r) == Outcome(s, result.error))
    {
      var found := users.GetByUsername(r.username, r.up.find);
      if found.Err? {
        return Err(ServerError);
      }
      if found.value.None? {
        return Err(InvalidCredentials);
      }
      var id := found.value.value;
      if !users.users[id].active {
        return Err(AccountDisabled);
      }
      if !bcrypt(users.users[id].hash, r.password) {
        return Err(InvalidCredentials);
      }
      var roles := users.GetUserRoles(id, r.up.roles);
      if roles.Err? {
        return Err(ServerError);
      }
      return Ok(Session(id, roles.value, sessions.now + r.ttl));
    }

    method Login(r: Request) returns (reply: Reply)
      requires r.Login?
      modifies sessions
      ensures Step(bcrypt, old(View(users, sessions)), r) == Outcome(View(users, sessions), reply)
    {
      var result := Authenticate(r);
      if result.Err? {
        return result.error;
      }
      var created := sessions.Create(r.token, result.value, r.up.write);
      return if created then Done else ServerError;
    }

    method Logout(r: Request) returns (reply: Reply)
      requires r.Logout?
      modifies sessions
      ensures Step(bcrypt, old(View(users, sessions)), r) == Outcome(View(users, sessions), reply)
    {
      sessions.Delete(r.token, r.up.sessions);
      return Done;
    }

    /** What the middleware attaches to a request. */
    method Get(r: Request) returns (reply: Reply)
      requires r.Authenticate?
      ensures Step(bcrypt, View(users, sessions), r) == Outcome(View(users, sessions), reply)
    {
      if !r.up.find {
        return ServerError;
      }
      var session := sessions.GetByToken(r.token);
      return Caller(session);
    }

    method CleanExpired(r: Request) returns (reply: Reply)
      requires r.CleanExpired?
      modifies sessions
      ensures Step(bcrypt, old(View(users, sessions)), r) == Outcome(View(users, sessions), reply)
    {
      sessions.DeleteExpired(r.up.sessions);
      return if r.up.sessions then Done else ServerError;
    }
  }
}
