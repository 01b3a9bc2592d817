/** What each request does to the users, their roles and the sessions, and when it is refused. */
module AccountsEffects {
  import opened Wrappers
  import opened AccountsSpec

  /** How a role is written in a request. */
  function RoleText(role: Role): string {
    match role
    case Admin => "admin"
    case QA => "qa"
    case Data => "data"
    case Operations => "operations"
  }

  predicate IsRoleText(name: string) { name in ["admin", "qa", "data", "operations"] }

  lemma RoleByText(name: string, role: Role)
    ensures RoleNamed(name) == Some(role) <==> name == RoleText(role)
    ensures RoleNamed(name).Some? <==> IsRoleText(name)
  {
    assert "admin"[0] == 'a' && "qa"[0] == 'q' && "data"[0] == 'd' && "operations"[0] == 'o';
  }

  /** The roles taken from a request are just those it names, and any other name is refused. */
  lemma {:induction false} RolesByText(names: seq<string>)
    ensures InvalidName(names).None? <==> forall i :: 0 <= i < |names| ==> IsRoleText(names[i])
    ensures forall role :: role in RolesNamed(names) <==> RoleText(role) in names
  {
    if |names| > 0 {
      var front, last := names[..|names| - 1], names[|names| - 1];
      assert names == front + [last];
      RolesByText(front);
      forall role ensures RoleNamed(last) == Some(role) <==> last == RoleText(role) { RoleByText(last, role); }
      RoleByText(last, Admin);
    }
  }

  predicate AllRoleTexts(names: seq<string>) { forall i :: 0 <= i < |names| ==> IsRoleText(names[i]) }

  /** Someone else is an active admin. */
  ghost predicate OtherAdmin(s: State, id: nat) {
    exists other :: other != id && other in s.users && s.users[other].active && Grant(other, Admin) in s.grants
  }

  /** What it takes for this user to stop being an active admin. */
  ghost predicate MayStop(s: State, id: nat, up: Up)
    requires id in s.users
  {
    up.roles && (s.users[id].active && Grant(id, Admin) in s.grants ==> up.count && OtherAdmin(s, id))
  }

  lemma CheckPasses(s: State, id: nat, up: Up)
    requires id in s.users
    ensures LastAdminCheck(s, id, s.users[id].active, up) == Pass <==> MayStop(s, id, up)
  {
    var others := ActiveAdmins(s) - {id};
    assert Admin in RolesOf(s, id) <==> Grant(id, Admin) in s.grants by {
      if Grant(id, Admin) in s.grants { assert Grant(id, Admin).role in RolesOf(s, id); }
    }
    if others == {} {
      forall other | other != id && other in s.users && s.users[other].active && Grant(other, Admin) in s.grants
        ensures other in others
      {
      }
    } else {
      var other :| other in others;
    }
  }

  /** The roles of one user are those named, and nobody else's change. */
  ghost predicate RolesBecome(s: State, t: State, id: nat, names: seq<string>) {
    forall g :: g in t.grants <==> if g.user == id then RoleText(g.role) in names else g in s.grants
  }

  /** All sessions of one user are gone, and no other. */
  ghost predicate LoggedOut(s: State, t: State, id: nat) {
    && (forall token :: token in t.sessions <==> token in s.sessions && s.sessions[token].user != id)
    && (forall token :: token in t.sessions ==> t.sessions[token] == s.sessions[token])
  }

  /** Exactly when a user is created, and as what; otherwise nothing changes. */
  lemma CreateUserEffect(s: State, r: Request)
    requires r.CreateUser? && forall g :: g in s.grants ==> g.user in s.users
    ensures var o := CreateUserStep(s, r); var t := o.state;
      && (o.reply == Done <==>
            && AllRoleTexts(r.roleNames) && r.up.find && r.username !in s.names
            && r.hash.Some? && r.up.write && r.id !in s.users)
      && if o.reply == Done then
           && t == s.(users := t.users, names := t.names, grants := t.grants)
           && t.users == s.users[r.id := User(r.username, r.hash.value, r.email, true)]
           && t.names == s.names[r.username := r.id]
           && RolesBecome(s, t, r.id, r.roleNames)
         else t == s
  {
    RolesByText(r.roleNames);
  }

  /** Exactly when a user's roles are replaced, and by what. */
  lemma UpdateUserRolesEffect(s: State, r: Request)
    requires r.UpdateUserRoles?
    ensures var o := UpdateUserRolesStep(s, r); var t := o.state;
      && (o.reply == Done <==>
            && AllRoleTexts(r.roleNames) && r.up.find && r.id in s.users
            && ("admin" !in r.roleNames && s.users[r.id].active ==> MayStop(s, r.id, r.up))
            && r.up.write && r.up.sessions)
      && (o.reply == Done ==>
            t == s.(grants := t.grants, sessions := t.sessions)
            && RolesBecome(s, t, r.id, r.roleNames) && LoggedOut(s, t, r.id))
  {
    RolesByText(r.roleNames);
    assert Admin in RolesNamed(r.roleNames) <==> RoleText(Admin) in r.roleNames;
    if r.id in s.users { CheckPasses(s, r.id, r.up); }
  }

  /** Exactly when a user is deactivated: who then differs in nothing else, and is logged out. */
  lemma DeactivateUserEffect(s: State, r: Request)
    requires r.DeactivateUser?
    ensures var o := DeactivateUserStep(s, r); var t := o.state;
      && (o.reply == Done <==>
            && r.who != Some(r.id) && r.up.find && r.id in s.users && MayStop(s, r.id, r.up)
            && r.up.write && r.up.sessions)
      && (o.reply == Done ==>
            && t == s.(users := s.users[r.id := s.users[r.id].(active := false)], sessions := t.sessions)
            && LoggedOut(s, t, r.id))
  {
    if r.id in s.users { CheckPasses(s, r.id, r.up); }
  }

  /** Exactly when a user is updated, and to what: a field that is not given stays as it was. */
  lemma UpdateUserEffect(s: State, r: Request)
    requires r.UpdateUser?
    ensures var o := UpdateUserStep(s, r); var t := o.state;
      && (o.reply == Done <==>
            && r.up.find && r.id in s.users
            && (r.newActive == Some(false) ==> r.who != Some(r.id) && MayStop(s, r.id, r.up))
            && (r.setsPassword ==> r.hash.Some? && r.up.password) && r.up.write
            && (r.newActive.Some? || r.setsPassword ==> r.up.sessions) && r.up.reload)
      && (o.reply == Done ==>
            var user := s.users[r.id];
            var hash := if r.setsPassword then r.hash.value else user.hash;
            var email := if r.newEmail.Some? then r.newEmail.value else user.email;
            var active := if r.newActive.Some? then r.newActive.value else user.active;
            && t == s.(users := s.users[r.id := User(user.username, hash, email, active)], sessions := t.sessions)
            && if r.newActive.Some? || r.setsPassword then LoggedOut(s, t, r.id) else t.sessions == s.sessions)
  {
    if r.id in s.users { CheckPasses(s, r.id, r.up); }
  }

  /** Exactly when someone is logged in, as whom, with which roles and for how long; otherwise nothing changes. */
  lemma LoginEffect(bcrypt: Bcrypt, s: State, r: Request)
    requires r.Login?
    ensures var o := LoginStep(bcrypt, s, r); var t := o.state;
      && (o.reply == Done <==>
            && r.up.find && r.username in s.names && s.names[r.username] in s.users
            && s.users[s.names[r.username]].active && bcrypt(s.users[s.names[r.username]].hash, r.password)
            && r.up.roles && r.up.write && r.token !in s.issued)
      && (o.reply == AccountDisabled <==>
            && r.up.find && r.username in s.names && s.names[r.username] in s.users
            && !s.users[s.names[r.username]].active)
      && (o.reply == InvalidCredentials <==>
            && r.up.find
            && (r.username in s.names && s.names[r.username] in s.users ==>
                  && s.users[s.names[r.username]].active
                  && !bcrypt(s.users[s.names[r.username]].hash, r.password)))
      && if o.reply == Done then
           && t == s.(sessions := s.sessions[r.token := t.sessions[r.token]], issued := s.issued + {r.token})
           && var session := t.sessions[r.token];
              && session.user == s.names[r.username] && session.expires == s.now + r.ttl
              && forall role :: role in session.roles <==> Grant(session.user, role) in s.grants
         else t == s
  {
    if r.username in s.names {
      var id := s.names[r.username];
      forall role | Grant(id, role) in s.grants ensures role in RolesOf(s, id) { assert Grant(id, role).role == role; }
    }
  }

  /**
   From a login to its use: for as long as it was granted, the token stands for the user
   with the roles at login, and not a moment longer, and not after a logout.
   */
  lemma LoginIsRemembered(bcrypt: Bcrypt, s: State, login: Request, elapsed: nat, up: Up)
    requires login.Login? && LoginStep(bcrypt, s, login).reply == Done && up.find && up.sessions
    ensures var t := Step(bcrypt, LoginStep(bcrypt, s, login).state, Tick(elapsed)).state;
      var session := LoginStep(bcrypt, s, login).state.sessions[login.token];
      var out := Step(bcrypt, t, Logout(login.token, up)).state;
      && Step(bcrypt, t, Authenticate(login.token, up)).reply ==
           Caller(if elapsed < login.ttl then Some(session) else None)
      && Step(bcrypt, out, Authenticate(login.token, up)).reply == Caller(None)
  {
    LoginEffect(bcrypt, s, login);
  }

  /** From a new password to a login: it is the one that counts. */
  lemma PasswordIsChanged(bcrypt: Bcrypt, s: State, update: Request, login: Request)
    requires update.UpdateUser? && update.setsPassword && UpdateUserStep(s, update).reply == Done
    requires login.Login? && login.up.find && login.username in s.names && s.names[login.username] == update.id
    requires UpdateUserStep(s, update).state.users[update.id].active
    ensures LoginStep(bcrypt, UpdateUserStep(s, update).state, login).reply == InvalidCredentials
       <==> !bcrypt(update.hash.value, login.password)
  {
    UpdateUserEffect(s, update);
  }

  /** What deleting expired sessions leaves, and what the clock does. */
  lemma CleaningAndTime(bcrypt: Bcrypt, s: State, up: Up, elapsed: nat)
    ensures Step(bcrypt, s, Tick(elapsed)) == Outcome(s.(now := s.now + elapsed), Done)
    ensures var o := Step(bcrypt, s, CleanExpired(up));
      if up.sessions then
        && o.reply == Done && o.state == s.(sessions := o.state.sessions)
        && (forall token :: token in o.state.sessions <==> token in s.sessions && s.now < s.sessions[token].expires)
        && (forall token :: token in o.state.sessions ==> o.state.sessions[token] == s.sessions[token])
      else o == Outcome(s, ServerError)
  {
  }

  // ----- Refusals -----

  /** Why a user is not created. */
  lemma CreateUserRefused(s: State, r: Request)
    requires r.CreateUser?
    ensures var reply := CreateUserStep(s, r).reply;
      && (reply == BadRequest <==> !AllRoleTexts(r.roleNames))
      && (reply == Conflict <==> AllRoleTexts(r.roleNames) && r.up.find && r.username in s.names)
      && (reply in {Done, BadRequest, Conflict, ServerError})
  {
    RolesByText(r.roleNames);
  }

  /** The one active admin there is would stop being one, as far as the queries that succeed tell. */
  ghost predicate IsSoleAdmin(s: State, id: nat, up: Up)
    requires id in s.users
  {
    up.roles && up.count && s.users[id].active && Grant(id, Admin) in s.grants && !OtherAdmin(s, id)
  }

  lemma CheckRefuses(s: State, id: nat, up: Up)
    requires id in s.users
    ensures LastAdminCheck(s, id, s.users[id].active, up) == IsLast <==> IsSoleAdmin(s, id, up)
  {
    CheckPasses(s, id, up);
    var others := ActiveAdmins(s) - {id};
    if others == {} {
      forall other | other != id && other in s.users && s.users[other].active && Grant(other, Admin) in s.grants
        ensures other in others
      {
      }
    } else {
      var other :| other in others;
    }
    if Grant(id, Admin) in s.grants { assert Grant(id, Admin).role in RolesOf(s, id); }
  }

  /** Why a user is not deactivated. */
  lemma DeactivateUserRefused(s: State, r: Request)
    requires r.DeactivateUser?
    ensures var reply := DeactivateUserStep(s, r).reply;
      && (reply == BadRequest <==> r.who == Some(r.id))
      && (reply == NotFound <==> r.who != Some(r.id) && r.up.find && r.id !in s.users)
      && (reply == LastAdmin <==> r.who != Some(r.id) && r.up.find && r.id in s.users && IsSoleAdmin(s, r.id, r.up))
      && (reply in {Done, BadRequest, NotFound, LastAdmin, ServerError})
  {
    if r.id in s.users { CheckRefuses(s, r.id, r.up); }
  }

  /** Why a user is not updated. */
  lemma UpdateUserRefused(s: State, r: Request)
    requires r.UpdateUser?
    ensures var reply, ends := UpdateUserStep(s, r).reply, r.newActive == Some(false);
      && (reply == NotFound <==> r.up.find && r.id !in s.users)
      && (reply == BadRequest <==> r.up.find && r.id in s.users && ends && r.who == Some(r.id))
      && (reply == LastAdmin <==>
            r.up.find && r.id in s.users && ends && r.who != Some(r.id) && IsSoleAdmin(s, r.id, r.up))
      && (reply in {Done, BadRequest, NotFound, LastAdmin, ServerError})
  {
    if r.id in s.users { CheckRefuses(s, r.id, r.up); }
  }

  /** Why a user's roles are not replaced. */
  lemma UpdateUserRolesRefused(s: State, r: Request)
    requires r.UpdateUserRoles?
    ensures var reply := UpdateUserRolesStep(s, r).reply;
      && (reply == BadRequest <==> !AllRoleTexts(r.roleNames))
      && (reply == NotFound <==> AllRoleTexts(r.roleNames) && r.up.find && r.id !in s.users)
      && (reply == LastAdmin <==>
            && AllRoleTexts(r.roleNames) && "admin" !in r.roleNames && r.up.find && r.id in s.users
            && IsSoleAdmin(s, r.id, r.up))
      && (reply in {Done, BadRequest, NotFound, LastAdmin, ServerError})
  {
    RolesByText(r.roleNames);
    assert Admin in RolesNamed(r.roleNames) <==> RoleText(Admin) in r.roleNames;
    if r.id in s.users { CheckRefuses(s, r.id, r.up); }
  }
}
