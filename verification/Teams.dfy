/**
Team administration: which changes to users' team lists are let through, and
whether a team that has an admin can lose its last one.  Each handler is one
atomic step on the stored users.
*/
module Teams {
  import opened Common

  datatype Membership = Membership(team: string, role: string)

  datatype User = User(id: string, teams: seq<Membership>, role: string)

  const ADMIN: string := "admin"

  predicate AdminEntry(m: Membership, team: string) {
    m.team == team && m.role == ADMIN
  }

  predicate IsAdmin(teams: seq<Membership>, team: string) {
    exists i :: 0 <= i < |teams| && AdminEntry(teams[i], team)
  }

  function AdminEntries(teams: seq<Membership>, team: string): nat {
    if teams == [] then 0 else (if AdminEntry(teams[0], team) then 1 else 0) + AdminEntries(teams[1..], team)
  }

  lemma {:induction false} AdminEntriesPositive(teams: seq<Membership>, team: string)
    ensures AdminEntries(teams, team) > 0 <==> IsAdmin(teams, team)
  {
    if teams != [] {
      AdminEntriesPositive(teams[1..], team);
      if IsAdmin(teams, team) && !AdminEntry(teams[0], team) {
        var i :| 0 <= i < |teams| && AdminEntry(teams[i], team);
        assert AdminEntry(teams[1..][i - 1], team);
      }
      if IsAdmin(teams[1..], team) {
        var i :| 0 <= i < |teams[1..]| && AdminEntry(teams[1..][i], team);
        assert AdminEntry(teams[i + 1], team);
      }
    }
  }

  /** Admin entries for `team` held by users other than `id`. */
  function AdminsBesides(users: seq<User>, id: string, team: string): nat {
    if users == [] then 0
    else (if users[0].id == id then 0 else AdminEntries(users[0].teams, team)) + AdminsBesides(users[1..], id, team)
  }

  function AllAdmins(users: seq<User>, team: string): nat {
    if users == [] then 0 else AdminEntries(users[0].teams, team) + AllAdmins(users[1..], team)
  }

  predicate HasAdmin(users: seq<User>, team: string) {
    AllAdmins(users, team) > 0
  }

  predicate DistinctIds(users: seq<User>) {
    forall i, j :: 0 <= i < j < |users| ==> users[i].id != users[j].id
  }

  function Find(users: seq<User>, id: string): Option<User> {
    if users == [] then None
    else if users[0].id == id then Some(users[0])
    else Find(users[1..], id)
  }

  // ---------------------------------------------------------------- changes to the table

  function WithTeams(users: seq<User>, id: string, teams: seq<Membership>): seq<User> {
    if users == [] then []
    else [if users[0].id == id then users[0].(teams := teams) else users[0]] + WithTeams(users[1..], id, teams)
  }

  function WithRole(users: seq<User>, id: string, role: string): seq<User> {
    if users == [] then []
    else [if users[0].id == id then users[0].(role := role) else users[0]] + WithRole(users[1..], id, role)
  }

  function Without(users: seq<User>, id: string): seq<User> {
    if users == [] then []
    else if users[0].id == id then Without(users[1..], id)
    else [users[0]] + Without(users[1..], id)
  }

  /** With distinct ids the admins of a team are those of `id` and those besides. */
  lemma {:induction false} AdminsSplit(users: seq<User>, id: string, team: string)
    requires DistinctIds(users)
    ensures AllAdmins(users, team) == AdminsBesides(users, id, team) +
              (match Find(users, id) case None => 0 case Some(u) => AdminEntries(u.teams, team))
  {
    if users != [] {
      AdminsSplit(users[1..], id, team);
      if users[0].id == id { FindMissing(users[1..], id); }
    }
  }

  lemma {:induction false} FindMissing(users: seq<User>, id: string)
    requires forall i :: 0 <= i < |users| ==> users[i].id != id
    ensures Find(users, id) == None
  {
    if users != [] { FindMissing(users[1..], id); }
  }

  lemma {:induction false} FindSound(users: seq<User>, id: string)
    ensures var o := Find(users, id); o.Some? ==> o.value in users && o.value.id == id
  {
    if users != [] { FindSound(users[1..], id); }
  }

  lemma {:induction false} NewTeamsKeepOthers(users: seq<User>, id: string, teams: seq<Membership>, team: string)
    requires DistinctIds(users)
    ensures var w := WithTeams(users, id, teams);
            && DistinctIds(w) && |w| == |users| && (forall i :: 0 <= i < |w| ==> w[i].id == users[i].id)
            && AdminsBesides(w, id, team) == AdminsBesides(users, id, team)
  {
    if users != [] { NewTeamsKeepOthers(users[1..], id, teams, team); }
  }

  lemma {:induction false} NewTeamsFound(users: seq<User>, id: string, teams: seq<Membership>)
    requires DistinctIds(users)
    ensures var w := WithTeams(users, id, teams);
            && (Find(users, id).Some? ==> Find(w, id) == Some(Find(users, id).value.(teams := teams)))
            && (Find(users, id).None? ==> w == users)
  {
    if users != [] {
      NewTeamsFound(users[1..], id, teams);
      if users[0].id == id { FindMissing(users[1..], id); }
    }
  }

  lemma {:induction false} NewRoleKeepsTeams(users: seq<User>, id: string, role: string, team: string)
    requires DistinctIds(users)
    ensures var w := WithRole(users, id, role);
            && DistinctIds(w) && |w| == |users|
            && (forall i :: 0 <= i < |w| ==> w[i].id == users[i].id && w[i].teams == users[i].teams)
            && AllAdmins(w, team) == AllAdmins(users, team)
  {
    if users != [] { NewRoleKeepsTeams(users[1..], id, role, team); }
  }

  lemma ChangesKeepOthers(users: seq<User>, id: string, teams: seq<Membership>, role: string, team: string)
    requires DistinctIds(users)
    ensures var w := WithTeams(users, id, teams);
            && DistinctIds(w) && |w| == |users| && (forall i :: 0 <= i < |w| ==> w[i].id == users[i].id)
            && AdminsBesides(w, id, team) == AdminsBesides(users, id, team)
            && (Find(users, id).Some? ==> Find(w, id) == Some(Find(users, id).value.(teams := teams)))
            && (Find(users, id).None? ==> w == users)
    ensures var w := WithRole(users, id, role);
            && DistinctIds(w) && |w| == |users|
            && (forall i :: 0 <= i < |w| ==> w[i].id == users[i].id && w[i].teams == users[i].teams)
            && AllAdmins(w, team) == AllAdmins(users, team)
  {
    NewTeamsKeepOthers(users, id, teams, team);
    NewTeamsFound(users, id, teams);
    NewRoleKeepsTeams(users, id, role, team);
  }

  lemma {:induction false} WithoutOthers(users: seq<User>, id: string)
    ensures forall u :: u in Without(users, id) ==> u in users && u.id != id
  {
    if users != [] { WithoutOthers(users[1..], id); }
  }

  lemma {:induction false} WithoutAdmins(users: seq<User>, id: string, team: string)
    ensures AllAdmins(Without(users, id), team) == AdminsBesides(users, id, team)
  {
    if users != [] {
      WithoutAdmins(users[1..], id, team);
      assert users[0].id != id ==> Without(users, id)[1..] == Without(users[1..], id);
    }
  }

  lemma {:induction false} WithoutDistinct(users: seq<User>, id: string)
    requires DistinctIds(users)
    ensures DistinctIds(Without(users, id))
  {
    if users != [] {
      var rest := Without(users[1..], id);
      WithoutDistinct(users[1..], id);
      WithoutOthers(users[1..], id);
      if users[0].id != id {
        forall i | 0 <= i < |rest| ensures rest[i].id != users[0].id {
          assert rest[i] in users[1..];
          var j :| 0 <= j < |users[1..]| && users[1..][j] == rest[i];
          assert users[j + 1] == rest[i];
        }
      }
    }
  }

  lemma WithoutKeepsOthers(users: seq<User>, id: string, team: string)
    requires DistinctIds(users)
    ensures var w := Without(users, id);
            && DistinctIds(w) && (forall u :: u in w ==> u in users && u.id != id)
            && AllAdmins(w, team) == AdminsBesides(users, id, team)
  {
    WithoutOthers(users, id);
    WithoutDistinct(users, id);
    WithoutAdmins(users, id, team);
  }

  // ---------------------------------------------------------------- the check of checkLastTeamAdmin

  /** Teams where the user is admin now but would not be any more. */
  function Affected(current: seq<Membership>, proposed: seq<Membership>): seq<string> {
    if current == [] then []
    else if current[0].role == ADMIN && !IsAdmin(proposed, current[0].team)
      then [current[0].team] + Affected(current[1..], proposed)
    else Affected(current[1..], proposed)
  }

  function FirstOrphan(users: seq<User>, id: string, teams: seq<string>): string {
    if teams == [] then ""
    else if AdminsBesides(users, id, teams[0]) == 0 then teams[0]
    else FirstOrphan(users, id, teams[1..])
  }

  /** The team that would be left without an admin; the empty string means none. */
  function CheckLast(users: seq<User>, id: string, current: seq<Membership>, proposed: seq<Membership>): string {
    FirstOrphan(users, id, Affected(current, proposed))
  }

  lemma {:induction false} AffectedExact(current: seq<Membership>, proposed: seq<Membership>, team: string)
    ensures team in Affected(current, proposed) <==> IsAdmin(current, team) && !IsAdmin(proposed, team)
  {
    if current != [] {
      AffectedExact(current[1..], proposed, team);
      if IsAdmin(current, team) && !AdminEntry(current[0], team) {
        var i :| 0 <= i < |current| && AdminEntry(current[i], team);
        assert AdminEntry(current[1..][i - 1], team);
      }
      if IsAdmin(current[1..], team) {
        var i :| 0 <= i < |current[1..]| && AdminEntry(current[1..][i], team);
        assert AdminEntry(current[i + 1], team);
      }
    }
  }

  lemma {:induction false} FirstOrphanFacts(users: seq<User>, id: string, teams: seq<string>)
    ensures var v := FirstOrphan(users, id, teams);
            && (v != "" ==> v in teams && AdminsBesides(users, id, v) == 0)
            && (v == "" ==> forall t :: t in teams && AdminsBesides(users, id, t) == 0
                              ==> "" in teams && AdminsBesides(users, id, "") == 0)
  {
    if teams != [] { FirstOrphanFacts(users, id, teams[1..]); }
  }

  lemma IsAdminAppend(teams: seq<Membership>, m: Membership, team: string)
    ensures IsAdmin(teams + [m], team) <==> IsAdmin(teams, team) || AdminEntry(m, team)
  {
    if IsAdmin(teams, team) {
      var i :| 0 <= i < |teams| && AdminEntry(teams[i], team);
      assert AdminEntry((teams + [m])[i], team);
    }
    if AdminEntry(m, team) {
      assert AdminEntry((teams + [m])[|teams|], team);
    }
  }

  /** Whether the user would still be an admin of the team. */
  method StillAdmin(proposed: seq<Membership>, team: string) returns (stillAdmin: bool)
    ensures stillAdmin == IsAdmin(proposed, team)
  {
    stillAdmin := false;
    for j := 0 to |proposed|
      invariant stillAdmin == IsAdmin(proposed[..j], team)
    {
      IsAdminAppend(proposed[..j], proposed[j], team);
      assert proposed[..j + 1] == proposed[..j] + [proposed[j]];
      if AdminEntry(proposed[j], team) {
        stillAdmin := true;
      }
    }
    assert proposed[..|proposed|] == proposed;
  }

  /** The teams the user would no longer be an admin of. */
  method AffectedTeams(current: seq<Membership>, proposed: seq<Membership>) returns (affected: seq<string>)
    ensures affected == Affected(current, proposed)
  {
    affected := [];
    for i := 0 to |current|
      invariant Affected(current, proposed) == affected + Affected(current[i..], proposed)
    {
      var old' := current[i];
      assert current[i..][0] == old' && current[i..][1..] == current[i + 1..];
      if old'.role == ADMIN {
        var stillAdmin := StillAdmin(proposed, old'.team);
        if !stillAdmin {
          affected := affected + [old'.team];
        }
      }
    }
    assert Affected(current[|current|..], proposed) == [];
  }

  method CountAdminsBesides(users: seq<User>, id: string, team: string) returns (adminCount: nat)
    ensures adminCount == AdminsBesides(users, id, team)
  {
    adminCount := 0;
    for i := 0 to |users|
      invariant AdminsBesides(users, id, team) == adminCount + AdminsBesides(users[i..], id, team)
    {
      assert users[i..][1..] == users[i + 1..];
      if users[i].id != id {
        adminCount := CountEntries(users[i].teams, team, adminCount);
      }
    }
  }

  method CountAllAdmins(users: seq<User>, team: string) returns (adminCount: nat)
    ensures adminCount == AllAdmins(users, team)
  {
    adminCount := 0;
    for i := 0 to |users|
      invariant AllAdmins(users, team) == adminCount + AllAdmins(users[i..], team)
    {
      assert users[i..][1..] == users[i + 1..];
      adminCount := CountEntries(users[i].teams, team, adminCount);
    }
  }

  /** The inner counting loop, from a running count. */
  method CountEntries(teams: seq<Membership>, team: string, start: nat) returns (count: nat)
    ensures count == start + AdminEntries(teams, team)
  {
    count := start;
    for j := 0 to |teams|
      invariant start + AdminEntries(teams, team) == count + AdminEntries(teams[j..], team)
    {
      assert teams[j..][1..] == teams[j + 1..];
      if AdminEntry(teams[j], team) {
        count := count + 1;
      }
    }
  }

  method CheckLastTeamAdmin(users: seq<User>, id: string, current: seq<Membership>, proposed: seq<Membership>)
    returns (violating: string)
    ensures violating == CheckLast(users, id, current, proposed)
  {
    var affected := AffectedTeams(current, proposed);
    if |affected| == 0 {
      return "";
    }
    for i := 0 to |affected|
      invariant FirstOrphan(users, id, affected) == FirstOrphan(users, id, affected[i..])
    {
      assert affected[i..][0] == affected[i] && affected[i..][1..] == affected[i + 1..];
      var adminCount := CountAdminsBesides(users, id, affected[i]);
      if adminCount == 0 {
        return affected[i];
      }
    }
    return "";
  }

  // ---------------------------------------------------------------- handlers

  /**
  A change request; `caller` is the signed-in user a team request is made by.  For a created user
  `id` is the key the database generates, and `stored` is false when the insert fails, as it does
  when the email is taken.
  */
  datatype Request =
    | CreateUser(id: string, email: string, password: string, teams: seq<Membership>, role: string, stored: bool)
    | UpdateUser(id: string, newTeams: Option<seq<Membership>>, newRole: Option<string>)
    | DeleteUser(id: string)
    | AddMember(caller: User, team: string, id: string, memberRole: string)
    | RemoveMember(caller: User, team: string, id: string)

  predicate CanManage(caller: User, team: string) {
    caller.role == "org_admin" || IsAdmin(caller.teams, team)
  }

  predicate InTeam(teams: seq<Membership>, team: string) {
    exists i :: 0 <= i < |teams| && teams[i].team == team
  }

  function FirstRole(teams: seq<Membership>, team: string): string {
    if teams == [] then "" else if teams[0].team == team then teams[0].role else FirstRole(teams[1..], team)
  }

  function LeaveTeam(teams: seq<Membership>, team: string): seq<Membership> {
    if teams == [] then []
    else if teams[0].team == team then LeaveTeam(teams[1..], team)
    else [teams[0]] + LeaveTeam(teams[1..], team)
  }

  /** The total-count test of a removal, the other of the two last-admin checks. */
  predicate CountTestRefuses(users: seq<User>, target: User, team: string) {
    FirstRole(target.teams, team) == ADMIN && AllAdmins(users, team) <= 1
  }

  predicate ValidRole(role: string) { role == "org_admin" || role == "member" }

  /** The HTTP status of a request and the users stored after it. */
  function Handle(users: seq<User>, req: Request): (int, seq<User>) {
    match req
    case CreateUser(id, email, password, teams, role, stored) =>
      if email == "" || password == "" || (role != "" && !ValidRole(role)) then (422, users)
      else if !stored then (500, users)
      else (201, users + [User(id, teams, if role == "" then "member" else role)])
    case UpdateUser(id, newTeams, newRole) =>
      if id == "" then (400, users)
      else if newRole.Some? && !ValidRole(newRole.value) then (422, users)
      else
        var o := Find(users, id);
        if o.None? then (404, users)
        else if newTeams.Some? && CheckLast(users, id, o.value.teams, newTeams.value) != "" then (409, users)
        else
          var w := if newTeams.Some? then WithTeams(users, id, newTeams.value) else users;
          (200, if newRole.Some? then WithRole(w, id, newRole.value) else w)
    case DeleteUser(id) =>
      if id == "" then (400, users)
      else
        var o := Find(users, id);
        if o.None? then (404, users)
        else if CheckLast(users, id, o.value.teams, []) != "" then (409, users)
        else (204, Without(users, id))
    case AddMember(caller, team, id, memberRole) =>
      var role := if memberRole == "" then "member" else memberRole;
      if !CanManage(caller, team) then (403, users)
      else if role != ADMIN && role != "member" then (422, users)
      else
        var o := Find(users, id);
        if o.None? then (404, users)
        else if o.value.role == "org_admin" then (422, users)
        else if InTeam(o.value.teams, team) then (409, users)
        else (200, WithTeams(users, id, o.value.teams + [Membership(team, role)]))
    case RemoveMember(caller, team, id) =>
      if !CanManage(caller, team) then (403, users)
      else
        var o := Find(users, id);
        if o.None? then (404, users)
        else if !InTeam(o.value.teams, team) then (404, users)
        else if CountTestRefuses(users, o.value, team) then (409, users)
        else (200, WithTeams(users, id, LeaveTeam(o.value.teams, team)))
  }

  class Directory {
    var users: seq<User>

    constructor ()
      ensures users == []
    {
      users := [];
    }

    method CreateUser(id: string, email: string, password: string, teams: seq<Membership>, role: string, stored: bool)
      returns (status: int)
      modifies this
      ensures (status, users) == Handle(old(users), Request.CreateUser(id, email, password, teams, role, stored))
    {
      if email == "" {
        return 422;
      }
      if password == "" {
        return 422;
      }
      if role != "" && role != "org_admin" && role != "member" {
        return 422;
      }
      if !stored {
        return 500;
      }
      users := users + [User(id, teams, if role == "" then "member" else role)];
      return 201;
    }

    method UpdateUser(id: string, newTeams: Option<seq<Membership>>, newRole: Option<string>) returns (status: int)
      modifies this
      ensures (status, users) == Handle(old(users), Request.UpdateUser(id, newTeams, newRole))
    {
      if id == "" {
        return 400;
      }
      if newRole.Some? && newRole.value != "org_admin" && newRole.value != "member" {
        return 422;
      }
      var existing := Find(users, id);
      if newTeams.Some? {
        if existing.None? {
          return 404;
        }
        var violating := CheckLastTeamAdmin(users, id, existing.value.teams, newTeams.value);
        if violating != "" {
          return 409;
        }
      }
      if existing.None? {
        return 404;
      }
      if newTeams.Some? {
        users := WithTeams(users, id, newTeams.value);
      }
      if newRole.Some? {
        users := WithRole(users, id, newRole.value);
      }
      return 200;
    }

    method DeleteUser(id: string) returns (status: int)
      modifies this
      ensures (status, users) == Handle(old(users), Request.DeleteUser(id))
    {
      if id == "" {
        return 400;
      }
      var existing := Find(users, id);
      if existing.None? {
        return 404;
      }
      var violating := CheckLastTeamAdmin(users, id, existing.value.teams, []);
      if violating != "" {
        return 409;
      }
      users := Without(users, id);
      return 204;
    }

    method AddTeamMember(caller: User, team: string, id: string, memberRole: string) returns (status: int)
      modifies this
      ensures (status, users) == Handle(old(users), AddMember(caller, team, id, memberRole))
    {
      if !CanManage(caller, team) {
        return 403;
      }
      var role := memberRole;
      if role == "" {
        role := "member";
      }
      if role != ADMIN && role != "member" {
        return 422;
      }
      var target := Find(users, id);
      if target.None? {
        return 404;
      }
      if target.value.role == "org_admin" {
        return 422;
      }
      var teams := target.value.teams;
      for i := 0 to |teams|
        invariant forall j :: 0 <= j < i ==> teams[j].team != team
      {
        if teams[i].team == team {
          return 409;
        }
      }
      users := WithTeams(users, id, teams + [Membership(team, role)]);
      return 200;
    }

    method RemoveTeamMember(caller: User, team: string, id: string) returns (status: int)
      modifies this
      ensures (status, users) == Handle(old(users), RemoveMember(caller, team, id))
    {
      if !CanManage(caller, team) {
        return 403;
      }
      var target := Find(users, id);
      if target.None? {
        return 404;
      }
      var teams := target.value.teams;
      var removingRole, inTeam := "", false;
      var i := 0;
      while i < |teams|
        invariant 0 <= i <= |teams| && !inTeam && removingRole == ""
        invariant forall j :: 0 <= j < i ==> teams[j].team != team
        invariant FirstRole(teams, team) == FirstRole(teams[i..], team)
      {
        if teams[i].team == team {
          inTeam, removingRole := true, teams[i].role;
          break;
        }
        assert teams[i..][1..] == teams[i + 1..];
        i := i + 1;
      }
      if !inTeam {
        return 404;
      }
      if removingRole == ADMIN {
        var adminCount := CountAllAdmins(users, team);
        if adminCount <= 1 {
          return 409;
        }
      }
      var newTeams: seq<Membership> := [];
      for k := 0 to |teams|
        invariant LeaveTeam(teams, team) == newTeams + LeaveTeam(teams[k..], team)
      {
        assert teams[k..][1..] == teams[k + 1..];
        if teams[k].team != team {
          newTeams := newTeams + [teams[k]];
        }
      }
      assert newTeams == LeaveTeam(teams, team) by {
        assert LeaveTeam(teams[|teams|..], team) == [];
      }
      users := WithTeams(users, id, newTeams);
      return 200;
    }
  }

  // ---------------------------------------------------------------- the answers of the handlers

  lemma {:induction false} TeamsAt(users: seq<User>, id: string, teams: seq<Membership>)
    ensures var w := WithTeams(users, id, teams);
            |w| == |users| &&
            forall i :: 0 <= i < |w| ==> w[i] == if users[i].id == id then User(id, teams, users[i].role) else users[i]
  {
    if users != [] { TeamsAt(users[1..], id, teams); }
  }

  lemma {:induction false} RoleAt(users: seq<User>, id: string, role: string)
    ensures var w := WithRole(users, id, role);
            |w| == |users| &&
            forall i :: 0 <= i < |w| ==> w[i] == if users[i].id == id then User(id, users[i].teams, role) else users[i]
  {
    if users != [] { RoleAt(users[1..], id, role); }
  }

  lemma {:induction false} FoundOrNot(users: seq<User>, id: string)
    ensures Find(users, id).None? <==> forall u :: u in users ==> u.id != id
  {
    if users != [] { FoundOrNot(users[1..], id); }
  }

  lemma {:induction false} WithoutHas(users: seq<User>, id: string)
    ensures forall u :: u in Without(users, id) <==> u in users && u.id != id
  {
    if users != [] { WithoutHas(users[1..], id); }
  }

  /** An email, a password and a known role or none make a user, a member by default, unless the insert fails. */
  lemma CreateUserAnswers(users: seq<User>, id: string, email: string, password: string, teams: seq<Membership>,
                          role: string, stored: bool)
    ensures var (status, after) := Handle(users, CreateUser(id, email, password, teams, role, stored));
            var wellFormed := email != "" && password != "" && role in {"", "org_admin", "member"};
            && (wellFormed && stored ==>
                  status == 201 && after == users + [User(id, teams, if role == "" then "member" else role)])
            && (!(wellFormed && stored) ==> after == users && status == if wellFormed then 500 else 422)
  {
  }

  /**
  An update without an id is 400, with an unknown role 422, of an unknown user 404, and 409 when the
  new teams take the last admin from a team; otherwise that user, and nobody else, has what was given.
  */
  lemma UpdateUserAnswers(users: seq<User>, id: string, newTeams: Option<seq<Membership>>, newRole: Option<string>)
    ensures var (status, after) := Handle(users, UpdateUser(id, newTeams, newRole));
            && status in {200, 400, 404, 409, 422}
            && (status == 400 <==> id == "")
            && (status == 422 <==> id != "" && newRole.Some? && newRole.value !in {"org_admin", "member"})
            && (status == 404 <==> status !in {400, 422} && forall u :: u in users ==> u.id != id)
            && (status == 409 ==> newTeams.Some? && (DistinctIds(users) ==>
                  exists team :: HasAdmin(users, team) && !HasAdmin(WithTeams(users, id, newTeams.value), team)))
            && (status != 200 ==> after == users)
            && (status == 200 ==> |after| == |users| && forall i :: 0 <= i < |users| ==>
                  after[i] == if users[i].id != id then users[i]
                              else User(id, if newTeams.Some? then newTeams.value else users[i].teams,
                                        if newRole.Some? then newRole.value else users[i].role))
  {
    FoundOrNot(users, id);
    if newTeams.Some? { TeamsAt(users, id, newTeams.value); }
    var w := if newTeams.Some? then WithTeams(users, id, newTeams.value) else users;
    if newRole.Some? { RoleAt(w, id, newRole.value); }
    if Handle(users, UpdateUser(id, newTeams, newRole)).0 == 409 && DistinctIds(users) {
      RefusalIsNeeded(users, id, newTeams.value);
    }
  }

  /** What checkLastTeamAdmin refuses would take the last admin from a team. */
  lemma {:induction false} RefusalIsNeeded(users: seq<User>, id: string, proposed: seq<Membership>)
    requires DistinctIds(users) && Find(users, id).Some?
    requires CheckLast(users, id, Find(users, id).value.teams, proposed) != ""
    ensures exists team :: HasAdmin(users, team) && !HasAdmin(WithTeams(users, id, proposed), team)
    ensures proposed == [] ==> exists team :: HasAdmin(users, team) && !HasAdmin(Without(users, id), team)
  {
    var current := Find(users, id).value.teams;
    var team := CheckLast(users, id, current, proposed);
    FirstOrphanFacts(users, id, Affected(current, proposed));
    AffectedExact(current, proposed, team);
    AdminsAfter(users, id, proposed, team);
    assert HasAdmin(users, team) && !HasAdmin(WithTeams(users, id, proposed), team);
    if proposed == [] { assert HasAdmin(users, team) && !HasAdmin(Without(users, id), team); }
  }

  /** A delete is 400, 404 or 409 for the same reasons; otherwise exactly that user is gone. */
  lemma DeleteUserAnswers(users: seq<User>, id: string)
    ensures var (status, after) := Handle(users, DeleteUser(id));
            && status in {204, 400, 404, 409}
            && (status == 400 <==> id == "")
            && (status == 404 <==> id != "" && forall u :: u in users ==> u.id != id)
            && (status == 409 && DistinctIds(users) ==>
                  exists team :: HasAdmin(users, team) && !HasAdmin(Without(users, id), team))
            && (status != 204 ==> after == users)
            && (status == 204 ==> forall u :: u in after <==> u in users && u.id != id)
  {
    FoundOrNot(users, id);
    WithoutHas(users, id);
    if Handle(users, DeleteUser(id)).0 == 409 && DistinctIds(users) { RefusalIsNeeded(users, id, []); }
  }

  /**
  A manager adds a user who is stored, is no org admin and has no entry for the team yet, as a member
  unless the request says admin; that entry comes last, and nothing else changes.
  */
  lemma AddMemberAnswers(users: seq<User>, caller: User, team: string, id: string, memberRole: string)
    requires caller.role == "org_admin" || Membership(team, "admin") in caller.teams
    ensures var (status, after) := Handle(users, AddMember(caller, team, id, memberRole));
            var o := Find(users, id);
            && (status == 422 <==> memberRole !in {"", "admin", "member"} || (o.Some? && o.value.role == "org_admin"))
            && (status == 404 <==> status != 422 && forall u :: u in users ==> u.id != id)
            && (status == 409 <==> status !in {404, 422} && exists m :: m in o.value.teams && m.team == team)
            && (status !in {404, 409, 422} ==> status == 200 && |after| == |users| && forall i :: 0 <= i < |users| ==>
                  after[i] == if users[i].id != id then users[i]
                              else User(id, o.value.teams + [Membership(team, if memberRole == "" then "member"
                                                                              else memberRole)], users[i].role))
            && (status != 200 ==> after == users)
  {
    ManagersOnly(users, caller, team, id, memberRole);
    FoundOrNot(users, id);
    var o := Find(users, id);
    if o.Some? {
      InTeamByMember(o.value.teams, team);
      TeamsAt(users, id, o.value.teams + [Membership(team, if memberRole == "" then "member" else memberRole)]);
    }
  }

  lemma InTeamByMember(teams: seq<Membership>, team: string)
    ensures InTeam(teams, team) <==> exists m :: m in teams && m.team == team
  {
    if InTeam(teams, team) {
      var i :| 0 <= i < |teams| && teams[i].team == team;
      assert teams[i] in teams;
    }
  }

  /** A manager's removal: 404 without the user or an entry for the team; otherwise all entries for the team go. */
  lemma RemoveMemberAnswers(users: seq<User>, caller: User, team: string, id: string)
    requires caller.role == "org_admin" || Membership(team, "admin") in caller.teams
    ensures var (status, after) := Handle(users, RemoveMember(caller, team, id));
            var o := Find(users, id);
            && (status == 404 <==> o.None? || forall m :: m in o.value.teams ==> m.team != team)
            && (status == 409 <==> status != 404 && CountTestRefuses(users, o.value, team))
            && (status !in {404, 409} ==> status == 200 && |after| == |users| && forall i :: 0 <= i < |users| ==>
                  if users[i].id != id then after[i] == users[i]
                  else after[i].id == id && after[i].role == users[i].role &&
                       forall m :: m in after[i].teams <==> m in o.value.teams && m.team != team)
            && (status != 200 ==> after == users)
  {
    ManagersOnly(users, caller, team, id, "");
    var o := Find(users, id);
    if o.Some? {
      InTeamByMember(o.value.teams, team);
      TeamsAt(users, id, LeaveTeam(o.value.teams, team));
      LeaveTeamFacts(o.value.teams, team);
    }
  }

  /**
  A team's members are managed by org admins and by its own admins: anyone else is answered 403 and
  changes nothing, and they never are.
  */
  lemma ManagersOnly(users: seq<User>, caller: User, team: string, id: string, memberRole: string)
    ensures var (added, users1) := Handle(users, AddMember(caller, team, id, memberRole));
            var (removed, users2) := Handle(users, RemoveMember(caller, team, id));
            if caller.role == "org_admin" || Membership(team, "admin") in caller.teams
            then added != 403 && removed != 403
            else added == removed == 403 && users1 == users2 == users
  {
    IsAdminByMember(caller.teams, team);
  }

  // ---------------------------------------------------------------- one step

  /** Some team that has an admin has none after the step. */
  ghost predicate Orphans(users: seq<User>, users': seq<User>) {
    exists team :: HasAdmin(users, team) && !HasAdmin(users', team)
  }

  lemma {:induction false} AdminsAfter(users: seq<User>, id: string, proposed: seq<Membership>, team: string)
    requires DistinctIds(users) && Find(users, id).Some?
    ensures HasAdmin(users, team) <==>
              AdminsBesides(users, id, team) > 0 || IsAdmin(Find(users, id).value.teams, team)
    ensures HasAdmin(WithTeams(users, id, proposed), team) <==>
              AdminsBesides(users, id, team) > 0 || IsAdmin(proposed, team)
    ensures HasAdmin(Without(users, id), team) <==> AdminsBesides(users, id, team) > 0
  {
    AdminsSplit(users, id, team);
    AdminEntriesPositive(Find(users, id).value.teams, team);
    ChangesKeepOthers(users, id, proposed, "", team);
    AdminsSplit(WithTeams(users, id, proposed), id, team);
    AdminEntriesPositive(proposed, team);
    WithoutKeepsOthers(users, id, team);
  }

  /** `id` is the only admin of the team whose name is empty, and `proposed` drops that. */
  predicate LastOfUnnamed(users: seq<User>, id: string, current: seq<Membership>, proposed: seq<Membership>) {
    IsAdmin(current, "") && !IsAdmin(proposed, "") && AdminsBesides(users, id, "") == 0
  }

  /**
  checkLastTeamAdmin answers with the name of a team and takes the empty name
  for "none".  A change it lets through orphans a team exactly when the user is
  the last admin of the team with the empty name, which is then also able to
  hide a violation on a named team.
  */
  lemma {:induction false} PassedCheckOrphansIff(users: seq<User>, id: string, proposed: seq<Membership>)
    requires DistinctIds(users) && Find(users, id).Some?
    requires CheckLast(users, id, Find(users, id).value.teams, proposed) == ""
    ensures Orphans(users, WithTeams(users, id, proposed)) <==>
            LastOfUnnamed(users, id, Find(users, id).value.teams, proposed)
    ensures proposed == [] ==>
            (Orphans(users, Without(users, id)) <==> LastOfUnnamed(users, id, Find(users, id).value.teams, proposed))
  {
    var current := Find(users, id).value.teams;
    FirstOrphanFacts(users, id, Affected(current, proposed));
    AffectedExact(current, proposed, "");
    AdminsAfter(users, id, proposed, "");
    forall team
      ensures HasAdmin(users, team) && !HasAdmin(WithTeams(users, id, proposed), team) ==>
                LastOfUnnamed(users, id, current, proposed)
      ensures HasAdmin(users, team) && !HasAdmin(Without(users, id), team) && proposed == [] ==>
                LastOfUnnamed(users, id, current, proposed)
    {
      AdminsAfter(users, id, proposed, team);
      AffectedExact(current, proposed, team);
    }
    if LastOfUnnamed(users, id, current, proposed) {
      assert HasAdmin(users, "") && !HasAdmin(WithTeams(users, id, proposed), "");
    }
  }

  /** An accepted change that takes the last admin from the named team "x". */
  lemma {:induction false} UnnamedTeamHidesOrphan()
    ensures var u := User("u", [Membership("", ADMIN), Membership("x", ADMIN)], "member");
            var (status, users') := Handle([u], UpdateUser("u", Some([]), None));
            status == 200 && HasAdmin([u], "x") && !HasAdmin(users', "x")
  {
    var ms := [Membership("", ADMIN), Membership("x", ADMIN)];
    var u := User("u", ms, "member");
    assert ms[1..] == [Membership("x", ADMIN)] && ms[1..][1..] == [];
    assert AdminEntries(ms[1..], "x") == 1;
    assert AdminEntries(ms, "x") == 1;
    assert AllAdmins([u], "x") == 1;
    assert Affected(ms, [])[0] == "";
    assert AdminsBesides([u], "u", "") == 0;
    assert CheckLast([u], "u", ms, []) == "";
    assert WithTeams([u], "u", []) == [User("u", [], "member")];
  }

  lemma {:induction false} LeaveTeamFacts(teams: seq<Membership>, team: string)
    ensures var r := LeaveTeam(teams, team);
            && (forall m :: m in r <==> m in teams && m.team != team)
            && !IsAdmin(r, team)
    ensures forall t :: t != team ==> (IsAdmin(LeaveTeam(teams, team), t) <==> IsAdmin(teams, t))
  {
    if teams != [] { LeaveTeamFacts(teams[1..], team); }
    var r := LeaveTeam(teams, team);
    assert forall m :: m in r <==> m in teams && m.team != team;
    forall t | t != team
      ensures IsAdmin(r, t) <==> IsAdmin(teams, t)
    {
      IsAdminByMember(r, t);
      IsAdminByMember(teams, t);
    }
    IsAdminByMember(r, team);
  }

  lemma IsAdminByMember(teams: seq<Membership>, team: string)
    ensures IsAdmin(teams, team) <==> Membership(team, ADMIN) in teams
  {
    if IsAdmin(teams, team) {
      var i :| 0 <= i < |teams| && AdminEntry(teams[i], team);
      assert teams[i] == Membership(team, ADMIN);
    }
    if Membership(team, ADMIN) in teams {
      var i :| 0 <= i < |teams| && teams[i] == Membership(team, ADMIN);
      assert AdminEntry(teams[i], team);
    }
  }

  /** Taking a named team off a user's list orphans a team exactly when checkLastTeamAdmin refuses the shorter list. */
  lemma {:induction false} RemovalMatchesCheck(users: seq<User>, id: string, team: string)
    requires DistinctIds(users) && Find(users, id).Some? && team != ""
    ensures var current := Find(users, id).value.teams;
            var reduced := LeaveTeam(current, team);
            Orphans(users, WithTeams(users, id, reduced)) <==> CheckLast(users, id, current, reduced) != ""
  {
    var current := Find(users, id).value.teams;
    var reduced := LeaveTeam(current, team);
    LeaveTeamFacts(current, team);
    FirstOrphanFacts(users, id, Affected(current, reduced));
    forall t
      ensures HasAdmin(users, t) && !HasAdmin(WithTeams(users, id, reduced), t) <==>
                t in Affected(current, reduced) && AdminsBesides(users, id, t) == 0
      ensures t in Affected(current, reduced) ==> t == team
    {
      AdminsAfter(users, id, reduced, t);
      AffectedExact(current, reduced, t);
    }
  }

  /**
  A removal that the count test lets through leaves the team without an admin exactly when the user
  is its only admin and the test is misled: by a second admin entry of that user, or by an entry
  for the team with another role that comes first in the user's list.
  */
  lemma {:induction false} RemovalOrphansIff(users: seq<User>, id: string, team: string)
    requires DistinctIds(users) && Find(users, id).Some?
    ensures var u := Find(users, id).value;
            !CountTestRefuses(users, u, team) && Orphans(users, WithTeams(users, id, LeaveTeam(u.teams, team))) <==>
            IsAdmin(u.teams, team) && AdminsBesides(users, id, team) == 0 &&
            (AdminEntries(u.teams, team) >= 2 || FirstRole(u.teams, team) != ADMIN)
  {
    var u := Find(users, id).value;
    var reduced := LeaveTeam(u.teams, team);
    LeaveTeamFacts(u.teams, team);
    AdminsSplit(users, id, team);
    AdminEntriesPositive(u.teams, team);
    forall t
      ensures HasAdmin(users, t) && !HasAdmin(WithTeams(users, id, reduced), t) <==>
                t == team && IsAdmin(u.teams, team) && AdminsBesides(users, id, team) == 0
    {
      AdminsAfter(users, id, reduced, t);
    }
    if IsAdmin(u.teams, team) && AdminsBesides(users, id, team) == 0 {
      assert HasAdmin(users, team) && !HasAdmin(WithTeams(users, id, reduced), team);
    }
  }

  /** One team list names no team twice, and none with an empty name. */
  predicate CleanTeams(teams: seq<Membership>) {
    && (forall i, j :: 0 <= i < j < |teams| ==> teams[i].team != teams[j].team)
    && (forall i :: 0 <= i < |teams| ==> teams[i].team != "")
  }

  lemma {:induction false} CleanEntries(teams: seq<Membership>, team: string)
    requires CleanTeams(teams)
    ensures AdminEntries(teams, team) == if FirstRole(teams, team) == ADMIN then 1 else 0
    ensures !InTeam(teams, team) ==> AdminEntries(teams, team) == 0
  {
    if teams != [] {
      CleanEntries(teams[1..], team);
      if teams[0].team == team {
        assert !InTeam(teams[1..], team);
      } else if InTeam(teams[1..], team) {
        var i :| 0 <= i < |teams[1..]| && teams[1..][i].team == team;
        assert teams[i + 1].team == team;
      }
    }
  }

  /**
  With clean team lists the two last-admin checks agree: the total count refuses
  a removal exactly when checkLastTeamAdmin refuses the shortened list.
  */
  lemma {:induction false} ChecksAgree(users: seq<User>, id: string, team: string)
    requires DistinctIds(users) && Find(users, id).Some? && team != ""
    requires CleanTeams(Find(users, id).value.teams)
    ensures var u := Find(users, id).value;
            CountTestRefuses(users, u, team) <==> CheckLast(users, id, u.teams, LeaveTeam(u.teams, team)) != ""
  {
    var u := Find(users, id).value;
    var reduced := LeaveTeam(u.teams, team);
    LeaveTeamFacts(u.teams, team);
    FirstOrphanFacts(users, id, Affected(u.teams, reduced));
    CleanEntries(u.teams, team);
    AdminsSplit(users, id, team);
    AdminEntriesPositive(u.teams, team);
    forall t
      ensures t in Affected(u.teams, reduced) <==> t == team && IsAdmin(u.teams, team)
    {
      AffectedExact(u.teams, reduced, t);
    }
  }

  /** A user listed twice as admin of a team: the count is two, and both entries go at once. */
  lemma {:induction false} DuplicateEntriesOrphan(caller: User)
    requires caller.role == "org_admin"
    ensures var u := User("u", [Membership("t", ADMIN), Membership("t", ADMIN)], "member");
            var (status, users') := Handle([u], RemoveMember(caller, "t", "u"));
            status == 200 && HasAdmin([u], "t") && !HasAdmin(users', "t")
  {
    var ms := [Membership("t", ADMIN), Membership("t", ADMIN)];
    var u := User("u", ms, "member");
    assert ms[0].team == "t";
    assert ms[1..] == [Membership("t", ADMIN)] && ms[1..][1..] == [];
    assert AdminEntries(ms[1..], "t") == 1;
    assert AdminEntries(ms, "t") == 2;
    assert AllAdmins([u], "t") == 2;
    assert LeaveTeam(ms[1..], "t") == [];
    assert LeaveTeam(ms, "t") == [];
    assert WithTeams([u], "u", []) == [User("u", [], "member")];
  }

  // ---------------------------------------------------------------- runs

  function After(users: seq<User>, reqs: seq<Request>): seq<User>
    decreases |reqs|
  {
    if reqs == [] then users else After(Handle(users, reqs[0]).1, reqs[1..])
  }

  predicate CleanUsers(users: seq<User>) {
    DistinctIds(users) && forall i :: 0 <= i < |users| ==> CleanTeams(users[i].teams)
  }

  /** The team lists and names a request brings in are clean, and a created id is new. */
  predicate CleanRequest(users: seq<User>, req: Request) {
    match req
    case CreateUser(id, _, _, teams, _, _) => CleanTeams(teams) && forall i :: 0 <= i < |users| ==> users[i].id != id
    case UpdateUser(_, newTeams, _) => newTeams.Some? ==> CleanTeams(newTeams.value)
    case DeleteUser(_) => true
    case AddMember(_, team, _, _) => team != ""
    case RemoveMember(_, team, _) => team != ""
  }

  predicate CleanRun(users: seq<User>, reqs: seq<Request>)
    decreases |reqs|
  {
    reqs == [] || (CleanRequest(users, reqs[0]) && CleanRun(Handle(users, reqs[0]).1, reqs[1..]))
  }

  lemma CleanLeave(teams: seq<Membership>, team: string)
    requires CleanTeams(teams)
    ensures CleanTeams(LeaveTeam(teams, team))
  {
    if teams != [] {
      CleanLeave(teams[1..], team);
      LeaveTeamFacts(teams[1..], team);
    }
  }

  lemma {:induction false} CleanWithTeams(users: seq<User>, id: string, teams: seq<Membership>, role: string)
    requires CleanUsers(users) && CleanTeams(teams)
    ensures CleanUsers(WithTeams(users, id, teams)) && CleanUsers(WithRole(users, id, role))
  {
    if users != [] {
      CleanWithTeams(users[1..], id, teams, role);
      NewTeamsKeepOthers(users[1..], id, teams, "");
      NewRoleKeepsTeams(users[1..], id, role, "");
    }
  }

  lemma {:induction false} CleanWithout(users: seq<User>, id: string)
    requires CleanUsers(users)
    ensures CleanUsers(Without(users, id))
  {
    WithoutKeepsOthers(users, id, "");
    var w := Without(users, id);
    forall i | 0 <= i < |w|
      ensures CleanTeams(w[i].teams)
    {
      assert w[i] in users;
    }
  }

  lemma {:induction false} AllAdminsAppend(users: seq<User>, u: User, team: string)
    ensures AllAdmins(users + [u], team) == AllAdmins(users, team) + AdminEntries(u.teams, team)
  {
    if users != [] {
      AllAdminsAppend(users[1..], u, team);
      assert (users + [u])[1..] == users[1..] + [u];
    }
  }

  lemma {:induction false} FindClean(users: seq<User>, id: string)
    requires CleanUsers(users) && Find(users, id).Some?
    ensures CleanTeams(Find(users, id).value.teams)
  {
    FindSound(users, id);
  }

  lemma UpdateKeepsClean(users: seq<User>, id: string, newTeams: Option<seq<Membership>>, newRole: Option<string>)
    requires CleanUsers(users) && (newTeams.Some? ==> CleanTeams(newTeams.value))
    ensures CleanUsers(Handle(users, UpdateUser(id, newTeams, newRole)).1)
  {
    var w := if newTeams.Some? then WithTeams(users, id, newTeams.value) else users;
    if newTeams.Some? { CleanWithTeams(users, id, newTeams.value, ""); }
    if newRole.Some? { CleanWithTeams(w, id, [], newRole.value); }
  }

  lemma {:induction false} StepKeepsClean(users: seq<User>, req: Request)
    requires CleanUsers(users) && CleanRequest(users, req)
    ensures CleanUsers(Handle(users, req).1)
  {
    match req
    case CreateUser(id, _, _, teams, role, _) =>
    case UpdateUser(id, newTeams, newRole) =>
      UpdateKeepsClean(users, id, newTeams, newRole);
    case DeleteUser(id) =>
      CleanWithout(users, id);
    case AddMember(_, team, id, memberRole) =>
      if Find(users, id).Some? {
        FindClean(users, id);
        var role := if memberRole == "" then "member" else memberRole;
        var teams := Find(users, id).value.teams;
        if !InTeam(teams, team) {
          CleanWithTeams(users, id, teams + [Membership(team, role)], "");
        }
      }
    case RemoveMember(_, team, id) =>
      if Find(users, id).Some? {
        FindClean(users, id);
        CleanLeave(Find(users, id).value.teams, team);
        CleanWithTeams(users, id, LeaveTeam(Find(users, id).value.teams, team), "");
      }
  }

  lemma {:induction false} StepKeepsAdmin(users: seq<User>, req: Request, team: string)
    requires CleanUsers(users) && CleanRequest(users, req) && HasAdmin(users, team)
    ensures HasAdmin(Handle(users, req).1, team)
  {
    match req
    case CreateUser(id, _, _, teams, role, _) =>
      AllAdminsAppend(users, User(id, teams, if role == "" then "member" else role), team);
    case UpdateUser(id, newTeams, newRole) =>
      var o := Find(users, id);
      if o.Some? {
        var w := if newTeams.Some? then WithTeams(users, id, newTeams.value) else users;
        if newTeams.Some? {
          ChangesKeepOthers(users, id, newTeams.value, "", team);
          if CheckLast(users, id, o.value.teams, newTeams.value) == "" {
            FindClean(users, id);
            PassedCheckOrphansIff(users, id, newTeams.value);
          }
        }
        if newRole.Some? { ChangesKeepOthers(w, id, [], newRole.value, team); }
      }
    case DeleteUser(id) =>
      var o := Find(users, id);
      if o.Some? && CheckLast(users, id, o.value.teams, []) == "" {
        FindClean(users, id);
        PassedCheckOrphansIff(users, id, []);
      }
    case AddMember(_, t, id, memberRole) =>
      var o := Find(users, id);
      if o.Some? {
        var role := if memberRole == "" then "member" else memberRole;
        IsAdminAppend(o.value.teams, Membership(t, role), team);
        AdminsAfter(users, id, o.value.teams + [Membership(t, role)], team);
      }
    case RemoveMember(_, t, id) =>
      if Find(users, id).Some? {
        FindClean(users, id);
        ChecksAgree(users, id, t);
        RemovalMatchesCheck(users, id, t);
      }
  }

  /**
  Over every run of requests with clean team lists, a team that has an admin
  keeps having one.
  */
  lemma {:induction false} AdministeredTeamsStay(users: seq<User>, reqs: seq<Request>, team: string)
    requires CleanUsers(users) && CleanRun(users, reqs) && HasAdmin(users, team)
    ensures HasAdmin(After(users, reqs), team)
    decreases |reqs|
  {
    if reqs != [] {
      StepKeepsClean(users, reqs[0]);
      StepKeepsAdmin(users, reqs[0], team);
      AdministeredTeamsStay(Handle(users, reqs[0]).1, reqs[1..], team);
    }
  }
}
