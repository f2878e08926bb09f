/** An authorized data scope and everything that reads it.
    internal/domain/integration/model/integration_access.go
    internal/infrastructure/persistence/database/integration/access_scope.go
    internal/infrastructure/persistence/database/integration/web_push_subscription_store.go */
module AccessScopes {
  import opened Basics
  import opened Text

  datatype AccessScope = AccessScope(
    workspaceId: string, permissionKey: string, actorId: string, actorOrgId: string,
    unrestricted: bool, allowedUserIds: seq<string>, allowedOrgIds: seq<string>,
    deniedAll: bool, deniedUserIds: seq<string>, deniedOrgIds: seq<string>)
  {
    predicate Valid() {
      Trim(workspaceId) != "" && Trim(permissionKey) != "" && Trim(actorId) != ""
      && (unrestricted || allowedUserIds != [] || allowedOrgIds != [])
    }

    predicate Allows(user: string, org: string) {
      unrestricted || user in allowedUserIds || org in allowedOrgIds
    }

    predicate Denies(user: string, org: string) {
      deniedAll || user in deniedUserIds || org in deniedOrgIds
    }

    /** The full policy, for a row whose owner columns are both known. */
    predicate Admits(user: string, org: string) {
      Allows(user, org) && !Denies(user, org)
    }
  }

  // ----- row predicates -----

  /** The owner columns of a table, "" when it has none. */
  datatype Columns = Columns(user: string, org: string)

  datatype Query =
    | AlwaysTrue
    | AlwaysFalse
    | Equal(column: string, value: string)
    | In(column: string, values: seq<string>)
    | Or(operands: seq<Query>)
    | And(operands: seq<Query>)
    | Not(operand: Query)

  type Row = map<string, string>

  predicate Holds(q: Query, row: Row)
    decreases q
  {
    match q
    case AlwaysTrue => true
    case AlwaysFalse => false
    case Equal(c, v) => c in row && row[c] == v
    case In(c, vs) => c in row && row[c] in vs
    case Or(qs) => exists i :: 0 <= i < |qs| && Holds(qs[i], row)
    case And(qs) => forall i :: 0 <= i < |qs| ==> Holds(qs[i], row)
    case Not(p) => !Holds(p, row)
  }

  /** The row's value of an owner column; a missing column has none. */
  predicate OwnedBy(row: Row, c: Columns, user: string, org: string) {
    (c.user != "" ==> c.user in row && row[c.user] == user) && (c.org != "" ==> c.org in row && row[c.org] == org)
  }

  /** What the compiled filter admits. Denials that need a missing column admit nothing. */
  predicate Filter(s: AccessScope, c: Columns, user: string, org: string) {
    && !s.deniedAll
    && (c.user == "" ==> s.deniedUserIds == []) && (c.org == "" ==> s.deniedOrgIds == [])
    && (s.unrestricted || (c.user != "" && user in s.allowedUserIds) || (c.org != "" && org in s.allowedOrgIds))
    && !(c.user != "" && user in s.deniedUserIds) && !(c.org != "" && org in s.deniedOrgIds)
  }

  method ScopeDataPredicate(s: AccessScope, c: Columns) returns (result: Query)
    ensures forall row, user, org :: OwnedBy(row, c, user, org) ==> (Holds(result, row) <==> Filter(s, c, user, org))
  {
    if s.deniedAll {
      return AlwaysFalse;
    }
    if (c.user == "" && |s.deniedUserIds| != 0) || (c.org == "" && |s.deniedOrgIds| != 0) {
      return AlwaysFalse;
    }
    var allow := ColumnPredicates(c, s.allowedUserIds, s.allowedOrgIds);
    if !s.unrestricted && |allow| == 0 {
      return AlwaysFalse;
    }
    var deny := ColumnPredicates(c, s.deniedUserIds, s.deniedOrgIds);
    if s.unrestricted {
      result := if |deny| != 0 then Not(Or(deny)) else AlwaysTrue;
    } else if |deny| != 0 {
      result := And([Or(allow), Not(Or(deny))]);
      forall row ensures Holds(result, row) <==> Holds(Or(allow), row) && !Holds(Or(deny), row) {
        assert result.operands[0] == Or(allow) && result.operands[1] == Not(Or(deny));
      }
    } else {
      result := Or(allow);
    }
  }

  method ColumnPredicates(c: Columns, users: seq<string>, orgs: seq<string>) returns (qs: seq<Query>)
    ensures |qs| == 0 <==> (c.user == "" || users == []) && (c.org == "" || orgs == [])
    ensures forall row, user, org :: OwnedBy(row, c, user, org) ==>
      (Holds(Or(qs), row) <==> (c.user != "" && user in users) || (c.org != "" && org in orgs))
  {
    qs := [];
    if c.user != "" && |users| != 0 {
      qs := qs + [In(c.user, users)];
    }
    if c.org != "" && |orgs| != 0 {
      qs := qs + [In(c.org, orgs)];
    }
    ghost var all := qs;
    forall row, user, org | OwnedBy(row, c, user, org)
      ensures Holds(Or(all), row) <==> (c.user != "" && user in users) || (c.org != "" && org in orgs)
    {
      if c.user != "" && user in users { assert Holds(all[0], row); }
      if c.org != "" && org in orgs { assert Holds(all[|all| - 1], row); }
    }
  }

  datatype Where = Refused | Where(query: Query)

  /** The WHERE clause of a scoped statement; no scope in the context means no restriction. */
  method ScopedWhere(scope: Option<AccessScope>, workspaceId: string, c: Columns, additional: seq<Query>) returns (r: Where)
    ensures r.Refused? <==> scope.Some? && !(scope.value.Valid() && scope.value.workspaceId == Trim(workspaceId))
    ensures r.Where? ==> forall row, user, org :: OwnedBy(row, c, user, org) ==>
      (Holds(r.query, row) <==>
        && "workspace_id" in row && row["workspace_id"] == Trim(workspaceId)
        && (scope.Some? ==> Filter(scope.value, c, user, org))
        && forall i :: 0 <= i < |additional| ==> Holds(additional[i], row))
  {
    var workspace := Equal("workspace_id", Trim(workspaceId));
    var predicates := [workspace];
    if scope.Some? {
      var s := scope.value;
      if !s.Valid() || s.workspaceId != Trim(workspaceId) {
        return Refused;
      }
      if !s.unrestricted || s.deniedAll || |s.deniedUserIds| != 0 || |s.deniedOrgIds| != 0 {
        var filter := ScopeDataPredicate(s, c);
        predicates := [workspace, filter];
        assert predicates[0] == workspace && predicates[1] == filter;
      }
    }
    ghost var own := predicates;
    assert own[0] == workspace;
    r := Where(And(predicates + additional));
    forall row, user, org | OwnedBy(row, c, user, org)
      ensures Holds(r.query, row) <==>
        && "workspace_id" in row && row["workspace_id"] == Trim(workspaceId)
        && (scope.Some? ==> Filter(scope.value, c, user, org))
        && forall i :: 0 <= i < |additional| ==> Holds(additional[i], row)
    {
      ConjunctionOfTwo(own, additional, row);
      assert Holds(own[0], row) <==> "workspace_id" in row && row["workspace_id"] == Trim(workspaceId);
    }
  }

  lemma ConjunctionOfTwo(a: seq<Query>, b: seq<Query>, row: Row)
    ensures Holds(And(a + b), row) <==> (forall i :: 0 <= i < |a| ==> Holds(a[i], row)) && (forall i :: 0 <= i < |b| ==> Holds(b[i], row))
  {
    forall i | 0 <= i < |a| ensures (a + b)[i] == a[i] {}
    forall i | 0 <= i < |b| ensures (a + b)[|a| + i] == b[i] {}
  }

  // ----- exactness -----

  /** With both owner columns the filter is the policy. */
  lemma FilterIsExact(s: AccessScope, c: Columns, user: string, org: string)
    requires c.user != "" && c.org != ""
    ensures Filter(s, c, user, org) <==> s.Admits(user, org)
  {
  }

  /** No finite list holds every text. */
  lemma {:induction false} Outsider(list: seq<string>) returns (x: string)
    ensures x !in list
    ensures forall y :: y in list ==> |y| < |x|
  {
    if list == [] {
      x := "x";
    } else {
      var rest := Outsider(list[1..]);
      x := rest + list[0] + "x";
      assert forall y :: y in list ==> y == list[0] || y in list[1..];
    }
  }

  /** Without the user column a row is admitted exactly when the policy admits it whoever owns it. */
  lemma MissingUserColumn(s: AccessScope, c: Columns, user: string, org: string)
    requires c.user == "" && c.org != ""
    ensures Filter(s, c, user, org) <==> forall u :: s.Admits(u, org)
  {
    if !Filter(s, c, user, org) {
      var u := Outsider(s.allowedUserIds);
      if |s.deniedUserIds| != 0 {
        assert !s.Admits(s.deniedUserIds[0], org);
      } else {
        assert !s.Admits(u, org);
      }
    }
  }

  lemma MissingOrgColumn(s: AccessScope, c: Columns, user: string, org: string)
    requires c.user != "" && c.org == ""
    ensures Filter(s, c, user, org) <==> forall o :: s.Admits(user, o)
  {
    if !Filter(s, c, user, org) {
      var o := Outsider(s.allowedOrgIds);
      if |s.deniedOrgIds| != 0 {
        assert !s.Admits(user, s.deniedOrgIds[0]);
      } else {
        assert !s.Admits(user, o);
      }
    }
  }

  lemma MissingBothColumns(s: AccessScope, c: Columns, user: string, org: string)
    requires c.user == "" && c.org == ""
    ensures Filter(s, c, user, org) <==> forall u, o :: s.Admits(u, o)
  {
    if !Filter(s, c, user, org) {
      var u := Outsider(s.allowedUserIds);
      var o := Outsider(s.allowedOrgIds);
      if |s.deniedUserIds| != 0 {
        assert !s.Admits(s.deniedUserIds[0], o);
      } else if |s.deniedOrgIds| != 0 {
        assert !s.Admits(u, s.deniedOrgIds[0]);
      } else {
        assert !s.Admits(u, o);
      }
    }
  }

  // ----- the other readers -----

  method RequireAllDataScope(scope: Option<AccessScope>, workspaceId: string) returns (ok: bool)
    ensures ok <==> (scope.Some? ==> AllDataScope(scope.value) && scope.value.workspaceId == Trim(workspaceId))
  {
    if scope.None? {
      return true;
    }
    var s := scope.value;
    if !s.Valid() || s.workspaceId != Trim(workspaceId) {
      return false;
    }
    ok := !(!s.unrestricted || s.deniedAll || |s.deniedUserIds| != 0 || |s.deniedOrgIds| != 0);
  }

  predicate AllDataScope(s: AccessScope) {
    s.Valid() && s.unrestricted && !s.deniedAll && s.deniedUserIds == [] && s.deniedOrgIds == []
  }

  /** Management needs a valid scope under which every row is admitted, no less. */
  lemma AllDataScopeIff(s: AccessScope)
    ensures AllDataScope(s) <==> s.Valid() && forall user, org :: s.Admits(user, org)
  {
    MissingBothColumns(s, Columns("", ""), "", "");
  }

  /** Access to the actor's own accounts, and to the workspace's. */
  method ConnectionAccountAccess(s: AccessScope) returns (personal: bool, workspace: bool)
    ensures personal <==> s.Valid() && Filter(s, Columns("owner_user_id", ""), s.actorId, "")
    ensures workspace <==> s.Valid() && s.unrestricted && !s.deniedAll && s.deniedOrgIds == []
  {
    if !s.Valid() || s.deniedAll || |s.deniedOrgIds| != 0 {
      return false, false;
    }
    personal, workspace := s.unrestricted, s.unrestricted;
    for i := 0 to |s.allowedUserIds|
      invariant personal <==> s.unrestricted || s.actorId in s.allowedUserIds[..i]
    {
      personal := personal || s.allowedUserIds[i] == s.actorId;
    }
    assert s.allowedUserIds[..|s.allowedUserIds|] == s.allowedUserIds;
    for i := 0 to |s.deniedUserIds|
      invariant personal <==> (s.unrestricted || s.actorId in s.allowedUserIds) && s.actorId !in s.deniedUserIds[..i]
    {
      if s.deniedUserIds[i] == s.actorId {
        personal := false;
      }
    }
    assert s.deniedUserIds[..|s.deniedUserIds|] == s.deniedUserIds;
  }

  predicate AllowsUser(s: AccessScope, user: string) {
    !s.deniedAll && user !in s.deniedUserIds && (s.unrestricted || user in s.allowedUserIds)
  }

  method ScopeAllowsUser(s: AccessScope, user: string) returns (ok: bool)
    ensures ok <==> AllowsUser(s, user)
  {
    if s.deniedAll {
      return false;
    }
    for i := 0 to |s.deniedUserIds|
      invariant user !in s.deniedUserIds[..i]
    {
      if s.deniedUserIds[i] == user {
        return false;
      }
    }
    assert s.deniedUserIds[..|s.deniedUserIds|] == s.deniedUserIds;
    if s.unrestricted {
      return true;
    }
    for i := 0 to |s.allowedUserIds|
      invariant user !in s.allowedUserIds[..i]
    {
      if s.allowedUserIds[i] == user {
        return true;
      }
    }
    assert s.allowedUserIds[..|s.allowedUserIds|] == s.allowedUserIds;
    ok := false;
  }

  /** The user reader agrees with the user-column filter, except under organization denials,
      where the filter admits nothing. */
  lemma ReadersAgree(s: AccessScope, column: string, user: string, org: string)
    requires column != ""
    ensures Filter(s, Columns(column, ""), user, org) <==> AllowsUser(s, user) && s.deniedOrgIds == []
    ensures (forall o :: s.Admits(user, o)) <==> AllowsUser(s, user) && s.deniedOrgIds == []
  {
    MissingOrgColumn(s, Columns(column, ""), user, org);
  }

  /** An organization denial that no user reader sees. */
  lemma UserReaderIgnoresOrganizationDenial()
    ensures var s := AccessScope("w", "p.read", "u", "o", true, [], [], false, [], ["o"]);
            AllowsUser(s, "u") && !Filter(s, Columns("owner_user_id", ""), "u", "o") && !s.Admits("u", "o")
  {
  }
}
