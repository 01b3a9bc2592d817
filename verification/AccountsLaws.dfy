/** Theorems about every sequence of requests to the user and session tables. */
module AccountsLaws {
  import opened Wrappers
  import opened AccountsSpec

  // ----- Roles in a request -----

  /** How many names come before the first that names this role. */
  function FirstMention(names: seq<string>, role: Role): nat {
    if |names| == 0 || RoleNamed(names[0]) == Some(role) then 0 else 1 + FirstMention(names[1..], role)
  }

  lemma {:induction false} FirstMentionSnoc(names: seq<string>, name: string, role: Role)
    ensures FirstMention(names, role) <= |names|
    ensures FirstMention(names, role) < |names| <==> exists i :: 0 <= i < |names| && RoleNamed(names[i]) == Some(role)
    ensures FirstMention(names + [name], role) ==
      if FirstMention(names, role) < |names| || RoleNamed(name) == Some(role) then FirstMention(names, role)
          else |names| + 1
  {
    if |names| > 0 {
      FirstMentionSnoc(names[1..], name, role);
      assert (names + [name])[1..] == names[1..] + [name];
      assert forall i :: 0 < i < |names| ==> names[i] == names[1..][i - 1];
    } else {
      assert (names + [name])[1..] == [];
    }
  }

  /** A request's roles: refused if a name is unknown, and otherwise each role once, in the order of first mention. */
  lemma {:induction false} RolesNamedMeaning(names: seq<string>)
    ensures InvalidName(names).None? <==> forall i :: 0 <= i < |names| ==> RoleNamed(names[i]).Some?
    ensures forall role :: role in RolesNamed(names) <==> FirstMention(names, role) < |names|
    ensures forall i, j :: 0 <= i < j < |RolesNamed(names)| ==>
      FirstMention(names, RolesNamed(names)[i]) < FirstMention(names, RolesNamed(names)[j])
  {
    if |names| > 0 {
      var front, last := names[..|names| - 1], names[|names| - 1];
      assert names == front + [last];
      RolesNamedMeaning(front);
      forall role ensures FirstMention(names, role) ==
        if FirstMention(front, role) < |front| || RoleNamed(last) == Some(role) then FirstMention(front, role)
            else |front| + 1
      {
        FirstMentionSnoc(front, last, role);
      }
      var earlier := RolesNamed(front);
      forall i | 0 <= i < |earlier| ensures FirstMention(front, earlier[i]) < |front| {
        assert earlier[i] in earlier;
      }
      forall role ensures FirstMention(front, role) <= |front| { FirstMentionSnoc(front, last, role); }
    }
  }

  // ----- At least one active admin -----

  lemma GrantsReplaced(s: State, id: nat, roles: seq<Role>, g: Grant)
    ensures g in ReplaceGrants(s, id, roles).grants <==> if g.user == id then g.role in roles else g in s.grants
  {
  }

  lemma AdminStays(s: State, t: State, a: nat)
    requires a in ActiveAdmins(s) && a in t.users && t.users[a].active && Grant(a, Admin) in t.grants
    ensures ActiveAdmins(t) != {}
  {
    assert a in ActiveAdmins(t);
  }

  lemma AdminHasRole(s: State, a: nat)
    requires a in ActiveAdmins(s)
    ensures Admin in RolesOf(s, a) && s.users[a].active
  {
    assert Grant(a, Admin) in s.grants;
  }

  /** A user who may be deactivated or lose the role leaves another active admin, or is none. */
  lemma CheckLeavesAdmin(s: State, id: nat, up: Up) returns (a: nat)
    requires ActiveAdmins(s) != {} && id in s.users && LastAdminCheck(s, id, s.users[id].active, up) == Pass
    ensures a in ActiveAdmins(s) && a != id
  {
    if Admin in RolesOf(s, id) && s.users[id].active {
      var others := ActiveAdmins(s) - {id};
      assert others != {};
      a :| a in others;
    } else {
      a :| a in ActiveAdmins(s);
      AdminHasRole(s, a);
    }
  }

  lemma CreateKeepsAdmin(s: State, r: Request)
    requires r.CreateUser? && ActiveAdmins(s) != {}
    ensures ActiveAdmins(CreateUserStep(s, r).state) != {}
  {
    var a :| a in ActiveAdmins(s);
    AdminStays(s, CreateUserStep(s, r).state, a);
  }

  lemma UpdateKeepsAdmin(s: State, r: Request)
    requires r.UpdateUser? && ActiveAdmins(s) != {}
    ensures ActiveAdmins(UpdateUserStep(s, r).state) != {}
  {
    var t := UpdateUserStep(s, r).state;
    if t != s {
      var a: nat;
      if r.newActive == Some(false) {
        a := CheckLeavesAdmin(s, r.id, r.up);
      } else {
        a :| a in ActiveAdmins(s);
      }
      AdminStays(s, t, a);
    }
  }

  lemma DeactivateKeepsAdmin(s: State, r: Request)
    requires r.DeactivateUser? && ActiveAdmins(s) != {}
    ensures ActiveAdmins(DeactivateUserStep(s, r).state) != {}
  {
    var t := DeactivateUserStep(s, r).state;
    if t != s {
      var a := CheckLeavesAdmin(s, r.id, r.up);
      AdminStays(s, t, a);
    }
  }

  lemma RolesKeepAdmin(s: State, r: Request)
    requires r.UpdateUserRoles? && ActiveAdmins(s) != {}
    ensures ActiveAdmins(UpdateUserRolesStep(s, r).state) != {}
  {
    var t := UpdateUserRolesStep(s, r).state;
    if t != s {
      var roles := RolesNamed(r.roleNames);
      var a :| a in ActiveAdmins(s);
      if a == r.id && Admin !in roles {
        a := CheckLeavesAdmin(s, r.id, r.up);
      }
      GrantsReplaced(s, r.id, roles, Grant(a, Admin));
      AdminStays(s, t, a);
    }
  }

  lemma StepKeepsAdmin(bcrypt: Bcrypt, s: State, r: Request)
    requires ActiveAdmins(s) != {}
    ensures ActiveAdmins(Step(bcrypt, s, r).state) != {}
  {
    match r
    case CreateUser(_, _, _, _, _, _) => CreateKeepsAdmin(s, r);
    case UpdateUser(_, _, _, _, _, _, _) => UpdateKeepsAdmin(s, r);
    case DeactivateUser(_, _, _) => DeactivateKeepsAdmin(s, r);
    case UpdateUserRoles(_, _, _) => RolesKeepAdmin(s, r);
    case _ =>
      var t := Step(bcrypt, s, r).state;
      assert t.users == s.users && t.grants == s.grants;
      assert ActiveAdmins(t) == ActiveAdmins(s);
  }

  /** Once there is an active admin, there always is one, whatever is requested and whatever fails. */
  lemma {:induction false} SomeAdminSurvives(bcrypt: Bcrypt, s: State, requests: seq<Request>)
    requires |ActiveAdmins(s)| >= 1
    ensures |ActiveAdmins(Run(bcrypt, s, requests))| >= 1
  {
    assert ActiveAdmins(s) != {};
    if |requests| > 0 {
      var front := requests[..|requests| - 1];
      SomeAdminSurvives(bcrypt, s, front);
      assert ActiveAdmins(Run(bcrypt, s, front)) != {};
      StepKeepsAdmin(bcrypt, Run(bcrypt, s, front), requests[|requests| - 1]);
      assert ActiveAdmins(Run(bcrypt, s, requests)) != {};
    }
  }

  /** A refusal to touch the last admin changes nothing, and is given only for the one active admin there is. */
  lemma LastAdminRefusal(bcrypt: Bcrypt, s: State, r: Request)
    requires Step(bcrypt, s, r).reply == LastAdmin
    ensures Step(bcrypt, s, r).state == s
    ensures (r.UpdateUser? || r.DeactivateUser? || r.UpdateUserRoles?) && ActiveAdmins(s) == {r.id}
  {
    assert Admin in RolesOf(s, r.id) && s.users[r.id].active;
    assert Grant(r.id, Admin) in s.grants && r.id in ActiveAdmins(s);
    assert ActiveAdmins(s) == (ActiveAdmins(s) - {r.id}) + {r.id};
  }

  // ----- Sessions agree with the user table -----

  ghost predicate Agrees(s: State, session: Session) {
    && session.user in s.users && s.users[session.user].active
    && session.roles == RolesOf(s, session.user)
  }

  /** Every session that is still good names an active user with the roles that user has. */
  ghost predicate Snapshot(s: State) {
    forall token :: token in s.sessions && s.sessions[token].expires > s.now ==> Agrees(s, s.sessions[token])
  }

  /** Grants and sessions belong to users. */
  ghost predicate Linked(s: State) {
    && (forall g :: g in s.grants ==> g.user in s.users)
    && (forall token :: token in s.sessions ==> s.sessions[token].user in s.users)
  }

  lemma StepKeepsLinks(bcrypt: Bcrypt, s: State, r: Request)
    requires Linked(s)
    ensures Linked(Step(bcrypt, s, r).state)
  {
  }

  /** This user is logged in somewhere. */
  ghost predicate LoggedIn(s: State, id: nat) {
    exists token :: token in s.sessions && s.sessions[token].user == id && s.sessions[token].expires > s.now
  }

  /** The request is let through up to its writes, and these succeed, but the deletion of sessions does not. */
  predicate LosesSessions(s: State, id: nat, guarded: bool, up: Up) {
    && up.find && id in s.users
    && (guarded ==> LastAdminCheck(s, id, s.users[id].active, up) == Pass)
    && up.write && !up.sessions
  }

  /**
   The request deactivates a logged-in user, or gives one other roles, and then cannot
   delete the sessions.
   */
  ghost predicate LeavesStale(s: State, r: Request) {
    match r
    case UpdateUser(who, id, _, active, setsPassword, hash, up) =>
      && LoggedIn(s, id) && active == Some(false) && who != Some(id)
      && (setsPassword ==> hash.Some? && up.password)
      && LosesSessions(s, id, true, up)
    case DeactivateUser(who, id, up) =>
      LoggedIn(s, id) && who != Some(id) && LosesSessions(s, id, true, up)
    case UpdateUserRoles(id, names, up) =>
      && LoggedIn(s, id) && InvalidName(names).None?
      && (set role | role in RolesNamed(names)) != RolesOf(s, id)
      && LosesSessions(s, id, id in s.users && s.users[id].active && Admin !in RolesNamed(names), up)
    case _ => false
  }

  /** The sessions that are left are those of users who stayed as they were. */
  lemma StaysSnapshot(s: State, t: State)
    requires Snapshot(s) && t.now >= s.now
    requires forall token :: token in t.sessions && t.sessions[token].expires > t.now ==>
      token in s.sessions && t.sessions[token] == s.sessions[token] && SameUser(s, t, t.sessions[token].user)
    ensures Snapshot(t)
  {
    forall token | token in t.sessions && t.sessions[token].expires > t.now ensures Agrees(t, t.sessions[token]) {
      assert SameUser(s, t, t.sessions[token].user) && Agrees(s, s.sessions[token]);
    }
  }

  ghost predicate SameUser(s: State, t: State, id: nat) {
    (id in s.users ==> id in t.users && t.users[id].active == s.users[id].active) && RolesOf(t, id) == RolesOf(s, id)
  }

  lemma BecomesStale(s: State, t: State, id: nat)
    requires Snapshot(s) && LoggedIn(s, id) && t.sessions == s.sessions && t.now == s.now && id in t.users
    requires RolesOf(t, id) != RolesOf(s, id) || !t.users[id].active
    ensures !Snapshot(t)
  {
    var token :| token in s.sessions && s.sessions[token].user == id && s.sessions[token].expires > s.now;
    assert Agrees(s, s.sessions[token]);
    assert !Agrees(t, t.sessions[token]);
  }

  lemma SameGrants(s: State, t: State, id: nat)
    requires t.grants == s.grants && (id in s.users ==> id in t.users && t.users[id].active == s.users[id].active)
    ensures SameUser(s, t, id)
  {
    assert RolesOf(t, id) == RolesOf(s, id);
  }

  lemma CreateSnapshot(s: State, r: Request)
    requires r.CreateUser? && Snapshot(s) && Linked(s)
    ensures Snapshot(CreateUserStep(s, r).state)
  {
    var t := CreateUserStep(s, r).state;
    if t != s {
      forall id | id in s.users ensures SameUser(s, t, id) {
        assert forall g :: g in t.grants && g.user == id <==> g in s.grants && g.user == id;
        assert RolesOf(t, id) == RolesOf(s, id);
      }
      StaysSnapshot(s, t);
    }
  }

  lemma LoggedInIsActive(s: State, id: nat)
    requires Snapshot(s) && LoggedIn(s, id)
    ensures id in s.users && s.users[id].active
  {
    var token :| token in s.sessions && s.sessions[token].user == id && s.sessions[token].expires > s.now;
    assert Agrees(s, s.sessions[token]);
  }

  /** Sessions of a user who is nowhere logged in, or whose sessions are dropped, are not left good. */
  lemma OthersSessions(s: State, t: State, id: nat)
    requires Snapshot(s) && t.now == s.now
    requires t.sessions == WithoutSessionsOf(s.sessions, id) || (t.sessions == s.sessions && !LoggedIn(s, id))
    requires forall other :: other in s.users && other != id ==> SameUser(s, t, other)
    ensures Snapshot(t)
  {
    forall token | token in t.sessions && t.sessions[token].expires > t.now
      ensures t.sessions[token].user != id && SameUser(s, t, t.sessions[token].user)
    {
      assert Agrees(s, s.sessions[token]);
      assert t.sessions == s.sessions ==> s.sessions[token].user != id;
    }
    StaysSnapshot(s, t);
  }

  lemma UpdateSnapshot(s: State, r: Request)
    requires r.UpdateUser? && Snapshot(s) && Linked(s)
    ensures Snapshot(UpdateUserStep(s, r).state) <==> !LeavesStale(s, r)
  {
    var t := UpdateUserStep(s, r).state;
    if LoggedIn(s, r.id) { LoggedInIsActive(s, r.id); }
    if LeavesStale(s, r) {
      BecomesStale(s, t, r.id);
    } else if t != s {
      forall other | other in s.users && other != r.id ensures SameUser(s, t, other) { SameGrants(s, t, other); }
      if t.users[r.id].active == s.users[r.id].active {
        SameGrants(s, t, r.id);
        AllStay(s, t);
      } else {
        OthersSessions(s, t, r.id);
      }
    }
  }

  lemma AllStay(s: State, t: State)
    requires Snapshot(s) && Linked(s) && t.now == s.now && forall id :: id in s.users ==> SameUser(s, t, id)
    requires forall token :: token in t.sessions ==> token in s.sessions && t.sessions[token] == s.sessions[token]
    ensures Snapshot(t)
  {
    StaysSnapshot(s, t);
  }

  lemma DeactivateSnapshot(s: State, r: Request)
    requires r.DeactivateUser? && Snapshot(s) && Linked(s)
    ensures Snapshot(DeactivateUserStep(s, r).state) <==> !LeavesStale(s, r)
  {
    var t := DeactivateUserStep(s, r).state;
    if LeavesStale(s, r) {
      BecomesStale(s, t, r.id);
    } else if t != s {
      forall other | other in s.users && other != r.id ensures SameUser(s, t, other) { SameGrants(s, t, other); }
      OthersSessions(s, t, r.id);
    }
  }

  lemma ReplacedRoles(s: State, t: State, id: nat, roles: seq<Role>, other: nat)
    requires t.grants == ReplaceGrants(s, id, roles).grants
    ensures other != id ==> RolesOf(t, other) == RolesOf(s, other)
    ensures RolesOf(t, id) == set role | role in roles
  {
    forall g ensures g in t.grants <==> if g.user == id then g.role in roles else g in s.grants {
      GrantsReplaced(s, id, roles, g);
    }
    forall role ensures role in RolesOf(t, id) <==> role in roles {
      assert Grant(id, role) in t.grants <==> role in roles;
    }
  }

  lemma RolesSnapshot(s: State, r: Request)
    requires r.UpdateUserRoles? && Snapshot(s) && Linked(s)
    ensures Snapshot(UpdateUserRolesStep(s, r).state) <==> !LeavesStale(s, r)
  {
    var t := UpdateUserRolesStep(s, r).state;
    var roles := RolesNamed(r.roleNames);
    if LeavesStale(s, r) {
      ReplacedRoles(s, t, r.id, roles, r.id);
      BecomesStale(s, t, r.id);
    } else if t != s {
      forall other | other in s.users && other != r.id ensures SameUser(s, t, other) {
        ReplacedRoles(s, t, r.id, roles, other);
      }
      ReplacedRoles(s, t, r.id, roles, r.id);
      if RolesOf(t, r.id) == RolesOf(s, r.id) { AllStay(s, t); } else { OthersSessions(s, t, r.id); }
    }
  }

  lemma LoginSnapshot(bcrypt: Bcrypt, s: State, r: Request)
    requires r.Login? && Snapshot(s)
    ensures Snapshot(LoginStep(bcrypt, s, r).state)
  {
    var t := LoginStep(bcrypt, s, r).state;
    if t != s {
      forall token | token in t.sessions && t.sessions[token].expires > t.now ensures Agrees(t, t.sessions[token]) {
        SameGrants(s, t, t.sessions[token].user);
        if token != r.token { assert Agrees(s, s.sessions[token]); }
      }
    }
  }

  /** A request keeps the sessions in agreement with the users exactly if it leaves no stale session behind. */
  lemma StepKeepsSnapshotIff(bcrypt: Bcrypt, s: State, r: Request)
    requires Snapshot(s) && Linked(s)
    ensures Snapshot(Step(bcrypt, s, r).state) <==> !LeavesStale(s, r)
  {
    match r
    case CreateUser(_, _, _, _, _, _) => CreateSnapshot(s, r);
    case UpdateUser(_, _, _, _, _, _, _) => UpdateSnapshot(s, r);
    case DeactivateUser(_, _, _) => DeactivateSnapshot(s, r);
    case UpdateUserRoles(_, _, _) => RolesSnapshot(s, r);
    case Login(_, _, _, _, _) => LoginSnapshot(bcrypt, s, r);
    case _ =>
      var t := Step(bcrypt, s, r).state;
      forall token | token in t.sessions && t.sessions[token].expires > t.now
          ensures SameUser(s, t, t.sessions[token].user) {
        SameGrants(s, t, t.sessions[token].user);
      }
      StaysSnapshot(s, t);
  }

  predicate DeletesSessions(r: Request) {
    (r.UpdateUser? || r.DeactivateUser? || r.UpdateUserRoles?) ==> r.up.sessions
  }

  /**
   As long as sessions can be deleted when they must be, every session that is still good
   names an active user with that user's current roles, in every state of every run.
   */
  lemma {:induction false} SessionsAgree(bcrypt: Bcrypt, s: State, requests: seq<Request>)
    requires Snapshot(s) && Linked(s) && forall i :: 0 <= i < |requests| ==> DeletesSessions(requests[i])
    ensures Snapshot(Run(bcrypt, s, requests)) && Linked(Run(bcrypt, s, requests))
  {
    if |requests| > 0 {
      var front, r := requests[..|requests| - 1], requests[|requests| - 1];
      SessionsAgree(bcrypt, s, front);
      StepKeepsLinks(bcrypt, Run(bcrypt, s, front), r);
      StepKeepsSnapshotIff(bcrypt, Run(bcrypt, s, front), r);
      assert DeletesSessions(r);
    }
  }

  function ExampleState(): State {
    State(map[0 := User("root", "", "", true), 1 := User("eve", "", "", true)], map["root" := 0, "eve" := 1],
          {Grant(0, Admin), Grant(1, Data)}, map[7 := Session(1, {Data}, 10)], {7}, 0)
  }

  lemma ExampleAgrees()
    ensures Snapshot(ExampleState()) && Linked(ExampleState()) && ActiveAdmins(ExampleState()) != {}
  {
    var s := ExampleState();
    assert forall g :: g in s.grants && g.user == 1 <==> g == Grant(1, Data);
    assert RolesOf(s, 1) == {Data};
    assert 0 in ActiveAdmins(s);
  }

  lemma ExampleIsLeftStale(r: Request)
    requires r == UpdateUserRoles(1, [], Up(true, true, true, true, true, false, true))
    ensures UpdateUserRolesStep(ExampleState(), r) == Outcome(ReplaceGrants(ExampleState(), 1, []), ServerError)
    ensures LeavesStale(ExampleState(), r)
  {
    var s := ExampleState();
    assert forall g :: g in s.grants && g.user == 1 ==> g.role == Data;
    assert Admin !in RolesOf(s, 1);
    assert Grant(1, Data) in s.grants && Data in RolesOf(s, 1);
    assert s.sessions[7].user == 1 && s.sessions[7].expires > s.now;
  }

  /** Without that, a session can outlive the roles it carries. */
  lemma StaleSessionExample(bcrypt: Bcrypt) returns (s: State, r: Request)
    ensures Snapshot(s) && Linked(s) && ActiveAdmins(s) != {}
    ensures Step(bcrypt, s, r).reply == ServerError && !Snapshot(Step(bcrypt, s, r).state)
  {
    s, r := ExampleState(), UpdateUserRoles(1, [], Up(true, true, true, true, true, false, true));
    ExampleAgrees();
    ExampleIsLeftStale(r);
    StepKeepsSnapshotIff(bcrypt, s, r);
  }

  // ----- Deleting expired sessions -----

  /** The states differ at most in sessions that have expired. */
  ghost predicate Alike(s: State, t: State) {
    && t.users == s.users && t.names == s.names && t.grants == s.grants && t.issued == s.issued && t.now == s.now
    && forall token :: LiveSession(t, token) == LiveSession(s, token)
  }

  /** The replies are the same, and the states still differ no more than that. */
  ghost predicate SameOutcome(x: Outcome, y: Outcome) { x.reply == y.reply && Alike(x.state, y.state) }

  lemma AlikeChecks(s: State, t: State, id: nat, active: bool, up: Up)
    requires t.users == s.users && t.grants == s.grants
    ensures LastAdminCheck(t, id, active, up) == LastAdminCheck(s, id, active, up)
  {
    assert ActiveAdmins(t) == ActiveAdmins(s) && RolesOf(t, id) == RolesOf(s, id);
  }

  lemma AlikeDrop(s: State, t: State, id: nat)
    requires Alike(s, t)
    ensures Alike(DropSessions(s, id), DropSessions(t, id))
  {
    forall token ensures LiveSession(DropSessions(t, id), token) == LiveSession(DropSessions(s, id), token) {
      assert LiveSession(t, token) == LiveSession(s, token);
    }
  }

  /** Sessions matter to no change of the other tables. */
  lemma AlikeTables(s: State, t: State, u: State, v: State)
    requires Alike(s, t) && v == u.(sessions := t.sessions) && u.sessions == s.sessions && u.now == s.now
    ensures Alike(u, v)
  {
    forall token ensures LiveSession(v, token) == LiveSession(u, token) {
      assert LiveSession(t, token) == LiveSession(s, token);
    }
  }

  lemma AlikeCreate(s: State, t: State, r: Request)
    requires Alike(s, t) && r.CreateUser?
    ensures SameOutcome(CreateUserStep(s, r), CreateUserStep(t, r))
  {
    AlikeTables(s, t, CreateUserStep(s, r).state, CreateUserStep(t, r).state);
  }

  lemma AlikeUpdate(s: State, t: State, r: Request)
    requires Alike(s, t) && r.UpdateUser?
    ensures SameOutcome(UpdateUserStep(s, r), UpdateUserStep(t, r))
  {
    if r.id in s.users {
      AlikeChecks(s, t, r.id, s.users[r.id].active, r.up);
      AlikeUpdateWrites(s, t, r);
    }
  }

  lemma AlikeUpdateWrites(s: State, t: State, r: Request)
    requires Alike(s, t) && r.UpdateUser? && r.id in s.users
    ensures SameOutcome(UpdateWrites(s, r), UpdateWrites(t, r))
  {
    var s1, t1 := SetPassword(s, r), SetPassword(t, r);
    AlikeTables(s, t, s1, t1);
    var s2, t2 := SetFields(s1, r), SetFields(t1, r);
    AlikeTables(s1, t1, s2, t2);
    AlikeDrop(s2, t2, r.id);
  }

  lemma AlikeDeactivate(s: State, t: State, r: Request)
    requires Alike(s, t) && r.DeactivateUser?
    ensures SameOutcome(DeactivateUserStep(s, r), DeactivateUserStep(t, r))
  {
    if r.id in s.users {
      AlikeChecks(s, t, r.id, s.users[r.id].active, r.up);
      AlikeTables(s, t, Deactivate(s, r.id), Deactivate(t, r.id));
      AlikeDrop(Deactivate(s, r.id), Deactivate(t, r.id), r.id);
    }
  }

  lemma AlikeRoles(s: State, t: State, r: Request)
    requires Alike(s, t) && r.UpdateUserRoles?
    ensures SameOutcome(UpdateUserRolesStep(s, r), UpdateUserRolesStep(t, r))
  {
    if r.id in s.users {
      var u, v := ReplaceGrants(s, r.id, RolesNamed(r.roleNames)), ReplaceGrants(t, r.id, RolesNamed(r.roleNames));
      AlikeChecks(s, t, r.id, s.users[r.id].active, r.up);
      AlikeTables(s, t, u, v);
      AlikeDrop(u, v, r.id);
    }
  }

  lemma AlikeSession(bcrypt: Bcrypt, s: State, t: State, r: Request)
    requires Alike(s, t) && !(r.CreateUser? || r.UpdateUser? || r.DeactivateUser? || r.UpdateUserRoles?)
    ensures SameOutcome(Step(bcrypt, s, r), Step(bcrypt, t, r))
  {
    var u, v := Step(bcrypt, s, r).state, Step(bcrypt, t, r).state;
    assert forall id :: RolesOf(t, id) == RolesOf(s, id);
    forall token ensures LiveSession(v, token) == LiveSession(u, token) {
      assert LiveSession(t, token) == LiveSession(s, token);
    }
  }

  lemma AlikeStep(bcrypt: Bcrypt, s: State, t: State, r: Request)
    requires Alike(s, t)
    ensures SameOutcome(Step(bcrypt, s, r), Step(bcrypt, t, r))
  {
    match r
    case CreateUser(_, _, _, _, _, _) => AlikeCreate(s, t, r);
    case UpdateUser(_, _, _, _, _, _, _) => AlikeUpdate(s, t, r);
    case DeactivateUser(_, _, _) => AlikeDeactivate(s, t, r);
    case UpdateUserRoles(_, _, _) => AlikeRoles(s, t, r);
    case _ => AlikeSession(bcrypt, s, t, r);
  }

  lemma {:induction false} AlikeRuns(bcrypt: Bcrypt, s: State, t: State, requests: seq<Request>)
    requires Alike(s, t)
    ensures Alike(Run(bcrypt, s, requests), Run(bcrypt, t, requests))
  {
    if |requests| > 0 {
      var front, r := requests[..|requests| - 1], requests[|requests| - 1];
      AlikeRuns(bcrypt, s, t, front);
      AlikeStep(bcrypt, Run(bcrypt, s, front), Run(bcrypt, t, front), r);
    }
  }

  /**
   Deleting expired sessions is invisible: whatever is requested from then on, and however
   late, every request gets the same answer as if it had not been done.
   */
  lemma CleaningIsInvisible(bcrypt: Bcrypt, s: State, up: Up, requests: seq<Request>, r: Request)
    ensures var cleaned := Step(bcrypt, s, CleanExpired(up)).state;
      Step(bcrypt, Run(bcrypt, cleaned, requests), r).reply == Step(bcrypt, Run(bcrypt, s, requests), r).reply
  {
    var cleaned := Step(bcrypt, s, CleanExpired(up)).state;
    AlikeRuns(bcrypt, s, cleaned, requests);
    AlikeStep(bcrypt, Run(bcrypt, s, requests), Run(bcrypt, cleaned, requests), r);
  }
}
