/**
 Users, their roles and their sessions, as transitions of three tables. A request is one
 step; which of its database calls succeed, and what bcrypt says, is part of the step.
 */
module AccountsSpec {
  import opened Wrappers

  datatype Role = Admin | QA | Data | Operations

  function RoleNamed(name: string): Option<Role> {
    if name == "admin" then Some(Admin)
    else if name == "qa" then Some(QA)
    else if name == "data" then Some(Data)
    else if name == "operations" then Some(Operations)
    else None
  }

  datatype User = User(username: string, hash: string, email: string, active: bool)

  datatype Grant = Grant(user: nat, role: Role)

  /** A session carries the roles its user had at login. */
  datatype Session = Session(user: nat, roles: set<Role>, expires: int)

  /**
   `names` is the unique index on user names, and `issued` every token ever generated, which are
   random and do not repeat.
   */
  datatype State = State(
    users: map<nat, User>,
    names: map<string, nat>,
    grants: set<Grant>,
    sessions: map<nat, Session>,
    issued: set<nat>,
    now: int)

  /**
   Which calls to the database succeed: look-ups of a user, of roles, the count of admins,
   writes, and the deletion of sessions.
   */
  datatype Up = Up(find: bool, roles: bool, count: bool, password: bool, write: bool, sessions: bool, reload: bool)

  datatype Reply =
    | Done
    | BadRequest
    | LastAdmin
    | NotFound
    | Conflict
    | InvalidCredentials
    | AccountDisabled
    | ServerError
    | Caller(session: Option<Session>)

  /** `hash` is what bcrypt made of a password, if it could; `who` is the caller's own id. */
  datatype Request =
    | CreateUser(id: nat, username: string, hash: Option<string>, email: string, roleNames: seq<string>, up: Up)
    | UpdateUser(who: Option<nat>, id: nat, newEmail: Option<string>, newActive: Option<bool>, setsPassword: bool,
        hash: Option<string>, up: Up)
    | DeactivateUser(who: Option<nat>, id: nat, up: Up)
    | UpdateUserRoles(id: nat, roleNames: seq<string>, up: Up)
    | Login(username: string, password: string, token: nat, ttl: nat, up: Up)
    | Logout(token: nat, up: Up)
    | Authenticate(token: nat, up: Up)
    | CleanExpired(up: Up)
    | Tick(elapsed: nat)

  /** Whether a password fits a hash. */
  type Bcrypt = (string, string) -> bool

  datatype Outcome = Outcome(state: State, reply: Reply)

  // ----- Queries -----

  function RolesOf(s: State, id: nat): set<Role> { set g | g in s.grants && g.user == id :: g.role }

  function ActiveAdmins(s: State): set<nat> {
    set id | id in s.users && s.users[id].active && Grant(id, Admin) in s.grants
  }

  function LiveSession(s: State, token: nat): Option<Session> {
    if token in s.sessions && s.sessions[token].expires > s.now then Some(s.sessions[token]) else None
  }

  function WithoutSessionsOf(sessions: map<nat, Session>, id: nat): map<nat, Session> {
    map token | token in sessions && sessions[token].user != id :: sessions[token]
  }

  function Unexpired(sessions: map<nat, Session>, now: int): map<nat, Session> {
    map token | token in sessions && sessions[token].expires > now :: sessions[token]
  }

  // ----- Roles in a request -----

  /** The first name that is none of the four. */
  function InvalidName(names: seq<string>): Option<string> {
    if |names| == 0 then None
    else
      var earlier := InvalidName(names[..|names| - 1]);
      if earlier.Some? then earlier
      else if RoleNamed(names[|names| - 1]).None? then Some(names[|names| - 1]) else None
  }

  /** The roles named, each once, in the order of their first mention. */
  function RolesNamed(names: seq<string>): seq<Role> {
    if |names| == 0 then []
    else
      var earlier := RolesNamed(names[..|names| - 1]);
      var role := RoleNamed(names[|names| - 1]);
      if role.None? || role.value in earlier then earlier else earlier + [role.value]
  }

  function GrantsOf(id: nat, roles: seq<Role>): set<Grant> { set role | role in roles :: Grant(id, role) }

  // ----- Admin requests -----

  datatype Check = Pass | IsLast | CannotTell

  function LastAdminCheck(s: State, id: nat, active: bool, up: Up): Check {
    if !up.roles then CannotTell
    else if Admin !in RolesOf(s, id) || !active then Pass
    else if !up.count then CannotTell
    else if |ActiveAdmins(s) - {id}| == 0 then IsLast
    else Pass
  }

  function Refusal(check: Check): Reply
    requires check != Pass
  {
    if check == IsLast then LastAdmin else ServerError
  }

  function CreateUserStep(s: State, r: Request): Outcome
    requires r.CreateUser?
  {
    if InvalidName(r.roleNames).Some? then Outcome(s, BadRequest)
    else if !r.up.find then Outcome(s, ServerError)
    else if r.username in s.names then Outcome(s, Conflict)
    else if r.hash.None? || !r.up.write || r.id in s.users then Outcome(s, ServerError)
    else
      Outcome(s.(users := s.users[r.id := User(r.username, r.hash.value, r.email, true)],
                 names := s.names[r.username := r.id],
                 grants := s.grants + GrantsOf(r.id, RolesNamed(r.roleNames))), Done)
  }

  function SetPassword(s: State, r: Request): State
    requires r.UpdateUser? && r.id in s.users
  {
    if r.setsPassword && r.hash.Some? then s.(users := s.users[r.id := s.users[r.id].(hash := r.hash.value)]) else s
  }

  function SetFields(s: State, r: Request): State
    requires r.UpdateUser? && r.id in s.users
  {
    var user := s.users[r.id];
    s.(users := s.users[r.id := user.(email := if r.newEmail.Some? then r.newEmail.value else user.email,
                                      active := if r.newActive.Some? then r.newActive.value else user.active)])
  }

  function DropSessions(s: State, id: nat): State { s.(sessions := WithoutSessionsOf(s.sessions, id)) }

  /** The writes of an update, one after the other, up to the first that fails. */
  function UpdateWrites(s: State, r: Request): Outcome
    requires r.UpdateUser? && r.id in s.users
  {
    if r.setsPassword && (r.hash.None? || !r.up.password) then Outcome(s, ServerError)
    else
      var s1 := SetPassword(s, r);
      if !r.up.write then Outcome(s1, ServerError)
      else
        var s2 := SetFields(s1, r);
        if (r.newActive.Some? || r.setsPassword) && !r.up.sessions then Outcome(s2, ServerError)
        else
          var s3 := if r.newActive.Some? || r.setsPassword then DropSessions(s2, r.id) else s2;
          Outcome(s3, if r.up.reload then Done else ServerError)
  }

  function UpdateUserStep(s: State, r: Request): Outcome
    requires r.UpdateUser?
  {
    if !r.up.find then Outcome(s, ServerError)
    else if r.id !in s.users then Outcome(s, NotFound)
    else if r.newActive == Some(false) && r.who == Some(r.id) then Outcome(s, BadRequest)
    else
      var check := LastAdminCheck(s, r.id, s.users[r.id].active, r.up);
      if r.newActive == Some(false) && check != Pass then Outcome(s, Refusal(check)) else UpdateWrites(s, r)
  }

  function Deactivate(s: State, id: nat): State
    requires id in s.users
  {
    s.(users := s.users[id := s.users[id].(active := false)])
  }

  function DeactivateUserStep(s: State, r: Request): Outcome
    requires r.DeactivateUser?
  {
    if r.who == Some(r.id) then Outcome(s, BadRequest)
    else if !r.up.find then Outcome(s, ServerError)
    else if r.id !in s.users then Outcome(s, NotFound)
    else
      var check := LastAdminCheck(s, r.id, s.users[r.id].active, r.up);
      if check != Pass then Outcome(s, Refusal(check))
      else if !r.up.write then Outcome(s, ServerError)
      else if !r.up.sessions then Outcome(Deactivate(s, r.id), ServerError)
      else Outcome(DropSessions(Deactivate(s, r.id), r.id), Done)
  }

  function ReplaceGrants(s: State, id: nat, roles: seq<Role>): State {
    s.(grants := (set g | g in s.grants && g.user != id) + GrantsOf(id, roles))
  }

  function UpdateUserRolesStep(s: State, r: Request): Outcome
    requires r.UpdateUserRoles?
  {
    if InvalidName(r.roleNames).Some? then Outcome(s, BadRequest)
    else if !r.up.find then Outcome(s, ServerError)
    else if r.id !in s.users then Outcome(s, NotFound)
    else
      var roles := RolesNamed(r.roleNames);
      var check := LastAdminCheck(s, r.id, s.users[r.id].active, r.up);
      if Admin !in roles && s.users[r.id].active && check != Pass then Outcome(s, Refusal(check))
      else if !r.up.write then Outcome(s, ServerError)
      else if !r.up.sessions then Outcome(ReplaceGrants(s, r.id, roles), ServerError)
      else Outcome(DropSessions(ReplaceGrants(s, r.id, roles), r.id), Done)
  }

  // ----- Sessions -----

  /** The password is looked at only for a user who exists and is active. */
  function LoginStep(bcrypt: Bcrypt, s: State, r: Request): Outcome
    requires r.Login?
  {
    if !r.up.find then Outcome(s, ServerError)
    else if r.username !in s.names || s.names[r.username] !in s.users then Outcome(s, InvalidCredentials)
    else
      var id := s.names[r.username];
      if !s.users[id].active then Outcome(s, AccountDisabled)
      else if !bcrypt(s.users[id].hash, r.password) then Outcome(s, InvalidCredentials)
      else if !r.up.roles || !r.up.write || r.token in s.issued then Outcome(s, ServerError)
      else
        Outcome(s.(sessions := s.sessions[r.token := Session(id, RolesOf(s, id), s.now + r.ttl)],
                   issued := s.issued + {r.token}), Done)
  }

  function Step(bcrypt: Bcrypt, s: State, r: Request): Outcome {
    match r
    case CreateUser(_, _, _, _, _, _) => CreateUserStep(s, r)
    case UpdateUser(_, _, _, _, _, _, _) => UpdateUserStep(s, r)
    case DeactivateUser(_, _, _) => DeactivateUserStep(s, r)
    case UpdateUserRoles(_, _, _) => UpdateUserRolesStep(s, r)
    case Login(_, _, _, _, _) => LoginStep(bcrypt, s, r)
    case Logout(token, up) => Outcome(if up.sessions then s.(sessions := s.sessions - {token}) else s, Done)
    case Authenticate(token, up) => if up.find then Outcome(s, Caller(LiveSession(s, token)))
        else Outcome(s, ServerError)
    case CleanExpired(up) =>
      if up.sessions then Outcome(s.(sessions := Unexpired(s.sessions, s.now)), Done) else Outcome(s, ServerError)
    case Tick(elapsed) => Outcome(s.(now := s.now + elapsed), Done)
  }

  function Run(bcrypt: Bcrypt, s: State, requests: seq<Request>): State {
    if |requests| == 0 then s
    else Step(bcrypt, Run(bcrypt, s, requests[..|requests| - 1]), requests[|requests| - 1]).state
  }
}
