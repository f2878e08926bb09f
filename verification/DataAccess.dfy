/** AuthorizeDataAccess: a function grant and its data policies become one scope.
    internal/application/integration/authorization.go:16-89, 147-204 */
module DataAccess {
  import opened Basics
  import opened Text
  import opened Sorting
  import opened AccessScopes
  import opened Authorization

  datatype Reason = InvalidKey | Unavailable | InvalidBundle | SubjectMismatch | FunctionDenied | NotGranted | OutsideContract | NoUsablePolicy | UnsupportedGuardrail

  datatype Decision = Granted(scope: AccessScope) | Rejected(reason: Reason)

  /** Index of the last dot below `n`, or -1. */
  function LastDot(s: string, n: nat): (i: int)
    requires n <= |s|
    ensures -1 <= i < n && (i >= 0 ==> s[i] == '.') && forall j :: i < j < n ==> s[j] != '.'
  {
    if n == 0 then -1 else if s[n - 1] == '.' then n - 1 else LastDot(s, n - 1)
  }

  function SplitKey(key: string): Option<(string, string)> {
    var dot := LastDot(key, |key|);
    if dot <= 0 || dot == |key| - 1 then None else Some((key[..dot], key[dot + 1..]))
  }

  predicate GrantedBy(grants: seq<FunctionGrant>, effect: Effect, resource: string, action: string) {
    exists i :: 0 <= i < |grants| && Concerns(grants[i].resource, grants[i].action, resource, action) && grants[i].effect == effect
  }

  predicate PolicyConcerns(p: DataPolicy, resource: string, action: string) {
    Concerns(p.resource, p.action, resource, action)
  }

  predicate PolicyUsable(p: DataPolicy) {
    p.scopes != [] && InContract(p.condition, p.scopes)
  }

  predicate PoliciesUsable(policies: seq<DataPolicy>, resource: string, action: string) {
    forall i :: 0 <= i < |policies| && PolicyConcerns(policies[i], resource, action) ==> PolicyUsable(policies[i])
  }

  predicate SomePolicy(policies: seq<DataPolicy>, resource: string, action: string) {
    exists i :: 0 <= i < |policies| && PolicyConcerns(policies[i], resource, action)
  }

  /** A field-less denying guardrail for this permission; `*` and "" match everything. */
  predicate GuardrailApplies(g: Guardrail, resource: string, action: string) {
    && Trim(g.resource) in {"", "*", resource} && Trim(g.action) in {"", "*", action}
    && g.effect == Deny && Trim(g.field) == ""
  }

  predicate SomeGuardrail(guardrails: seq<Guardrail>, withPredicate: bool, resource: string, action: string) {
    exists i :: 0 <= i < |guardrails| && GuardrailApplies(guardrails[i], resource, action) && guardrails[i].condition.Some? == withPredicate
  }

  function Blank(principal: Principal, key: string, subject: BundleSubject): AccessScope {
    AccessScope(Trim(principal.workspaceId), key, Trim(principal.userId), Trim(subject.orgId), false, [], [], false, [], [])
  }

  // ----- unique and sorted -----

  function Clean(values: seq<string>): (r: seq<string>)
    ensures forall x :: x in r <==> x != "" && Names(values, x)
  {
    if values == [] then []
    else
      assert forall x :: Names(values, x) <==> Trim(values[0]) == x || Names(values[1..], x) by {
        forall x ensures Names(values, x) <==> Trim(values[0]) == x || Names(values[1..], x) { NamesStep(values, x); }
      }
      (if Trim(values[0]) == "" then [] else [Trim(values[0])]) + Clean(values[1..])
  }

  function UniqueSorted(values: seq<string>): seq<string> {
    Listing(Clean(values), Less)
  }

  lemma UniqueSortedElements(values: seq<string>, x: string)
    ensures x in UniqueSorted(values) <==> x != "" && Names(values, x)
  {
    TextOrder();
    ListingAscends(Clean(values), Less);
  }

  method UniqueSortedList(values: seq<string>) returns (result: seq<string>)
    ensures result == UniqueSorted(values)
  {
    var seen: set<string> := {};
    result := [];
    for i := 0 to |values|
      invariant forall x :: x in seen <==> x in result
      invariant Distinct(result)
      invariant forall x :: x in result <==> x != "" && Names(values[..i], x)
    {
      NamesSnoc(values, i);
      var value := Trim(values[i]);
      if value != "" && value !in seen {
        seen := seen + {value};
        result := result + [value];
      }
    }
    assert values[..|values|] == values;
    TextOrder();
    SortedDistinctIsListing(result, Clean(values), Less);
    result := Sort(result, Less);
  }

  lemma NamesSnoc(values: seq<string>, i: nat)
    requires i < |values|
    ensures forall x :: Names(values[..i + 1], x) <==> Names(values[..i], x) || Trim(values[i]) == x
  {
    forall x ensures Names(values[..i + 1], x) <==> Names(values[..i], x) || Trim(values[i]) == x {
      assert values[..i + 1][i] == values[i];
      assert forall j :: 0 <= j < i ==> values[..i + 1][j] == values[..i][j];
    }
  }

  // ----- the decision -----

  function Finish(raw: AccessScope, guarded: bool): AccessScope {
    raw.(deniedAll := raw.deniedAll || guarded,
         allowedUserIds := UniqueSorted(raw.allowedUserIds), allowedOrgIds := UniqueSorted(raw.allowedOrgIds),
         deniedUserIds := UniqueSorted(raw.deniedUserIds), deniedOrgIds := UniqueSorted(raw.deniedOrgIds))
  }

  predicate Identified(p: Principal) {
    p.known && Trim(p.workspaceId) != "" && Trim(p.userId) != "" && p.bundle.Some?
  }

  function Decide(principal: Principal, key: string, resource: string, action: string, bundle: Bundle): Decision {
    var raw := ApplyPolicies(Blank(principal, key, bundle.subject), bundle.policies, resource, action, bundle.subject);
    if GrantedBy(bundle.grants, Deny, resource, action) then Rejected(FunctionDenied)
    else if !GrantedBy(bundle.grants, Allow, resource, action) then Rejected(NotGranted)
    else if !PoliciesUsable(bundle.policies, resource, action) then Rejected(OutsideContract)
    else if !SomePolicy(bundle.policies, resource, action) || !raw.Valid() then Rejected(NoUsablePolicy)
    else if SomeGuardrail(bundle.guardrails, true, resource, action) then Rejected(UnsupportedGuardrail)
    else Granted(Finish(raw, SomeGuardrail(bundle.guardrails, false, resource, action)))
  }

  function Authorize(principal: Principal, permission: string): Decision {
    var key := Trim(permission);
    if SplitKey(key).None? then Rejected(InvalidKey)
    else if !Identified(principal) then Rejected(Unavailable)
    else if !principal.bundle.value.valid then Rejected(InvalidBundle)
    else if Trim(principal.bundle.value.subject.workspaceId) != Trim(principal.workspaceId)
            || Trim(principal.bundle.value.subject.subjectId) != Trim(principal.userId) then Rejected(SubjectMismatch)
    else Decide(principal, key, SplitKey(key).value.0, SplitKey(key).value.1, principal.bundle.value)
  }

  // ----- exactness -----

  /** Collected values are trimmed and not empty. */
  ghost predicate Tidy(values: seq<string>) {
    forall x :: x in values ==> Trim(x) == x && x != ""
  }

  ghost predicate TidyScope(s: AccessScope) {
    Tidy(s.allowedUserIds) && Tidy(s.allowedOrgIds) && Tidy(s.deniedUserIds) && Tidy(s.deniedOrgIds)
  }

  lemma AppendTidy(s: AccessScope, denied: bool, value: string, organization: bool)
    requires TidyScope(s)
    ensures TidyScope(AppendValue(s, denied, value, organization))
  {
    TrimIsTrimmed(value);
    TrimmedIsFixed(Trim(value));
  }

  lemma {:induction false} AppendOrgsTidy(s: AccessScope, denied: bool, values: seq<string>)
    requires TidyScope(s)
    ensures TidyScope(AppendOrgs(s, denied, values))
    decreases |values|
  {
    if values != [] {
      AppendTidy(s, denied, values[0], true);
      AppendOrgsTidy(AppendValue(s, denied, values[0], true), denied, values[1..]);
    }
  }

  lemma {:induction false} ApplyScopesTidy(s: AccessScope, effect: Effect, scopes: seq<DataScope>, subject: BundleSubject)
    requires TidyScope(s)
    ensures TidyScope(ApplyScopes(s, effect, scopes, subject))
    decreases |scopes|
  {
    if scopes != [] {
      match scopes[0] {
        case Owner => AppendTidy(s, effect == Deny, subject.subjectId, false);
        case Org => AppendTidy(s, effect == Deny, subject.orgId, true);
        case OrgChild => AppendOrgsTidy(s, effect == Deny, subject.orgScopeIds);
        case TargetOrg => AppendOrgsTidy(s, effect == Deny, subject.supportOrgScopeIds);
        case _ =>
      }
      ApplyScopesTidy(ApplyScope(s, effect, scopes[0], subject), effect, scopes[1..], subject);
    }
  }

  lemma {:induction false} ApplyPoliciesTidy(s: AccessScope, policies: seq<DataPolicy>, resource: string, action: string, subject: BundleSubject)
    requires TidyScope(s)
    ensures TidyScope(ApplyPolicies(s, policies, resource, action, subject))
    decreases |policies|
  {
    if policies != [] {
      var p := policies[0];
      ApplyScopesTidy(s, p.effect, p.scopes, subject);
      ApplyPoliciesTidy(if Concerns(p.resource, p.action, resource, action) then ApplyScopes(s, p.effect, p.scopes, subject) else s,
                        policies[1..], resource, action, subject);
    }
  }

  lemma TidyIsKept(values: seq<string>)
    requires Tidy(values)
    ensures forall x :: x in UniqueSorted(values) <==> x in values
    ensures UniqueSorted(values) == [] <==> values == []
  {
    forall x ensures x in UniqueSorted(values) <==> x in values {
      UniqueSortedElements(values, x);
      if i :| 0 <= i < |values| && values[i] == x { assert Trim(values[i]) == x; }
    }
    SameElementsSameEmptiness(values, UniqueSorted(values));
    SameElementsSameEmptiness(UniqueSorted(values), values);
  }

  lemma FinishKeeps(raw: AccessScope, guarded: bool, user: string, org: string)
    requires TidyScope(raw)
    ensures var s := Finish(raw, guarded);
            (s.Admits(user, org) <==> raw.Admits(user, org) && !guarded) && s.Valid() == raw.Valid()
  {
    TidyIsKept(raw.allowedUserIds);
    TidyIsKept(raw.allowedOrgIds);
    TidyIsKept(raw.deniedUserIds);
    TidyIsKept(raw.deniedOrgIds);
  }

  /** The policy of a bundle, without any compilation: some allowing scope covers the row, no
      denying scope and no guardrail does. */
  ghost predicate PolicyAdmits(bundle: Bundle, resource: string, action: string, user: string, org: string) {
    && Covered(bundle.policies, false, resource, action, bundle.subject, user, org)
    && !Covered(bundle.policies, true, resource, action, bundle.subject, user, org)
    && !SomeGuardrail(bundle.guardrails, false, resource, action) && !SomeGuardrail(bundle.guardrails, true, resource, action)
  }

  lemma GrantedIsDecided(principal: Principal, permission: string)
    requires Authorize(principal, permission).Granted?
    ensures SplitKey(Trim(permission)).Some? && principal.bundle.Some? && principal.bundle.value.valid
    ensures Trim(principal.bundle.value.subject.subjectId) == Trim(principal.userId) && Identified(principal)
    ensures Authorize(principal, permission)
         == Decide(principal, Trim(permission), SplitKey(Trim(permission)).value.0, SplitKey(Trim(permission)).value.1, principal.bundle.value)
  {
  }

  lemma DecidedScopeIsExact(principal: Principal, key: string, resource: string, action: string, bundle: Bundle, user: string, org: string)
    requires Decide(principal, key, resource, action, bundle).Granted?
    ensures var s := Decide(principal, key, resource, action, bundle).scope;
            && s.Valid() && s.permissionKey == key && s.workspaceId == Trim(principal.workspaceId) && s.actorId == Trim(principal.userId)
            && (s.Admits(user, org) <==> PolicyAdmits(bundle, resource, action, user, org))
  {
    var blank := Blank(principal, key, bundle.subject);
    ApplyPoliciesHits(blank, bundle.policies, resource, action, bundle.subject, user, org);
    ApplyPoliciesTidy(blank, bundle.policies, resource, action, bundle.subject);
    FinishKeeps(ApplyPolicies(blank, bundle.policies, resource, action, bundle.subject), SomeGuardrail(bundle.guardrails, false, resource, action), user, org);
  }

  /** A granted scope is valid, belongs to the principal, and admits exactly what the policy admits. */
  lemma GrantedScopeIsExact(principal: Principal, permission: string, user: string, org: string)
    requires Authorize(principal, permission).Granted?
    ensures var key := Trim(permission);
            var s := Authorize(principal, permission).scope;
            && SplitKey(key).Some? && principal.bundle.Some?
            && s.Valid() && s.permissionKey == key && s.workspaceId == Trim(principal.workspaceId) && s.actorId == Trim(principal.userId)
            && s.actorId == Trim(principal.bundle.value.subject.subjectId)
            && (s.Admits(user, org) <==> PolicyAdmits(principal.bundle.value, SplitKey(key).value.0, SplitKey(key).value.1, user, org))
  {
    GrantedIsDecided(principal, permission);
    var split := SplitKey(Trim(permission)).value;
    DecidedScopeIsExact(principal, Trim(permission), split.0, split.1, principal.bundle.value, user, org);
  }

  /** From policy to row: the filter over the columns a table has admits a row exactly when the
      policy admits it for every value of the columns it lacks. */
  lemma CompiledFilterIsExact(principal: Principal, permission: string, c: Columns, user: string, org: string)
    requires Authorize(principal, permission).Granted?
    ensures var key := Trim(permission);
            var s := Authorize(principal, permission).scope;
            SplitKey(key).Some? && principal.bundle.Some? &&
            (Filter(s, c, user, org) <==>
              forall u, o :: (c.user != "" ==> u == user) && (c.org != "" ==> o == org)
                ==> PolicyAdmits(principal.bundle.value, SplitKey(key).value.0, SplitKey(key).value.1, u, o))
  {
    var s := Authorize(principal, permission).scope;
    var (resource, action) := SplitKey(Trim(permission)).value;
    forall u, o ensures s.Admits(u, o) <==> PolicyAdmits(principal.bundle.value, resource, action, u, o) {
      GrantedScopeIsExact(principal, permission, u, o);
    }
    FilterForEveryOwner(s, c, user, org);
  }

  lemma FilterForEveryOwner(s: AccessScope, c: Columns, user: string, org: string)
    ensures Filter(s, c, user, org) <==> forall u, o :: (c.user != "" ==> u == user) && (c.org != "" ==> o == org) ==> s.Admits(u, o)
  {
    if c.user == "" && c.org == "" {
      MissingBothColumns(s, c, user, org);
    } else if c.user == "" {
      MissingUserColumn(s, c, user, org);
    } else if c.org == "" {
      MissingOrgColumn(s, c, user, org);
    } else {
      FilterIsExact(s, c, user, org);
    }
  }

  lemma SplitIsExact(key: string)
    requires SplitKey(key).Some?
    ensures var (resource, action) := SplitKey(key).value; key == resource + "." + action && '.' !in action && resource != "" && action != ""
  {
    var dot := LastDot(key, |key|);
    assert key == key[..dot] + [key[dot]] + key[dot + 1..];
  }

  /** Nothing is granted without an exact function grant, or against a denying one. */
  lemma GrantsFailClosed(principal: Principal, permission: string)
    requires Authorize(principal, permission).Granted?
    ensures SplitKey(Trim(permission)).Some? && principal.bundle.Some?
    ensures var (resource, action) := SplitKey(Trim(permission)).value;
            var bundle := principal.bundle.value;
            && bundle.valid && GrantedBy(bundle.grants, Allow, resource, action) && !GrantedBy(bundle.grants, Deny, resource, action)
            && Trim(permission) == resource + "." + action && '.' !in action
            && SomePolicy(bundle.policies, resource, action) && !SomeGuardrail(bundle.guardrails, true, resource, action)
  {
    GrantedIsDecided(principal, permission);
    SplitIsExact(Trim(permission));
  }

  // ----- the code -----

  lemma NextPolicy(policies: seq<DataPolicy>, i: nat, resource: string, action: string)
    requires i < |policies|
    ensures PoliciesUsable(policies[..i + 1], resource, action) <==> PoliciesUsable(policies[..i], resource, action) && (PolicyConcerns(policies[i], resource, action) ==> PolicyUsable(policies[i]))
    ensures SomePolicy(policies[..i + 1], resource, action) <==> SomePolicy(policies[..i], resource, action) || PolicyConcerns(policies[i], resource, action)
    ensures PoliciesUsable(policies, resource, action) ==> PoliciesUsable(policies[..i + 1], resource, action)
  {
    assert policies[..i + 1] == policies[..i] + [policies[i]];
  }

  lemma ApplyNextPolicy(s: AccessScope, policies: seq<DataPolicy>, i: nat, resource: string, action: string, subject: BundleSubject)
    requires i < |policies|
    ensures var p := policies[i];
            var after := if PolicyConcerns(p, resource, action) then ApplyScopes(s, p.effect, p.scopes, subject) else s;
            ApplyPolicies(s, policies[i..], resource, action, subject) == ApplyPolicies(after, policies[i + 1..], resource, action, subject)
  {
    assert policies[i..][0] == policies[i] && policies[i..][1..] == policies[i + 1..];
  }

  class ScopeBuilder {
    var scope: AccessScope

    constructor (blank: AccessScope)
      ensures scope == blank
    {
      scope := blank;
    }

    method AppendScopeValue(denied: bool, value: string, organization: bool)
      modifies this
      ensures scope == AppendValue(old(scope), denied, value, organization)
    {
      var trimmed := Trim(value);
      if trimmed == "" {
        return;
      }
      if organization {
        if denied {
          scope := scope.(deniedOrgIds := scope.deniedOrgIds + [trimmed]);
        } else {
          scope := scope.(allowedOrgIds := scope.allowedOrgIds + [trimmed]);
        }
        return;
      }
      if denied {
        scope := scope.(deniedUserIds := scope.deniedUserIds + [trimmed]);
      } else {
        scope := scope.(allowedUserIds := scope.allowedUserIds + [trimmed]);
      }
    }

    method AppendOrganizations(denied: bool, values: seq<string>)
      modifies this
      ensures scope == AppendOrgs(old(scope), denied, values)
    {
      for i := 0 to |values|
        invariant AppendOrgs(scope, denied, values[i..]) == AppendOrgs(old(scope), denied, values)
      {
        assert values[i..][1..] == values[i + 1..];
        AppendScopeValue(denied, values[i], true);
      }
    }

    method ApplyDataScope(effect: Effect, dataScope: DataScope, subject: BundleSubject)
      modifies this
      ensures scope == ApplyScope(old(scope), effect, dataScope, subject)
    {
      var denied := effect == Deny;
      match dataScope {
        case All =>
          if denied {
            scope := scope.(deniedAll := true);
          } else {
            scope := scope.(unrestricted := true);
          }
        case Owner => AppendScopeValue(denied, subject.subjectId, false);
        case Org => AppendScopeValue(denied, subject.orgId, true);
        case OrgChild => AppendOrganizations(denied, subject.orgScopeIds);
        case TargetOrg => AppendOrganizations(denied, subject.supportOrgScopeIds);
        case Unsupported(_) =>
      }
    }

    method ApplyDataScopes(p: DataPolicy, subject: BundleSubject)
      modifies this
      ensures scope == ApplyScopes(old(scope), p.effect, p.scopes, subject)
    {
      for i := 0 to |p.scopes|
        invariant ApplyScopes(scope, p.effect, p.scopes[i..], subject) == ApplyScopes(old(scope), p.effect, p.scopes, subject)
      {
        assert p.scopes[i..][1..] == p.scopes[i + 1..];
        ApplyDataScope(p.effect, p.scopes[i], subject);
      }
    }

    /** The policies of one permission, until one is outside the contract. */
    method ApplyDataPolicies(policies: seq<DataPolicy>, resource: string, action: string, subject: BundleSubject) returns (usable: bool, matched: bool)
      modifies this
      ensures usable <==> PoliciesUsable(policies, resource, action)
      ensures usable ==> scope == ApplyPolicies(old(scope), policies, resource, action, subject) && (matched <==> SomePolicy(policies, resource, action))
    {
      matched := false;
      for i := 0 to |policies|
        invariant PoliciesUsable(policies[..i], resource, action)
        invariant matched <==> SomePolicy(policies[..i], resource, action)
        invariant ApplyPolicies(scope, policies[i..], resource, action, subject) == ApplyPolicies(old(scope), policies, resource, action, subject)
      {
        NextPolicy(policies, i, resource, action);
        ApplyNextPolicy(scope, policies, i, resource, action, subject);
        if PolicyConcerns(policies[i], resource, action) {
          matched := true;
          if |policies[i].scopes| == 0 {
            return false, matched;
          }
          var inContract := PredicateMatchesDataScopes(policies[i].condition, policies[i].scopes);
          if !inContract {
            return false, matched;
          }
          ApplyDataScopes(policies[i], subject);
        }
      }
      assert policies[..|policies|] == policies;
      usable := true;
    }
  }

  method CheckGrants(grants: seq<FunctionGrant>, resource: string, action: string) returns (denied: bool, allowed: bool)
    ensures denied <==> GrantedBy(grants, Deny, resource, action)
    ensures !denied ==> (allowed <==> GrantedBy(grants, Allow, resource, action))
  {
    denied, allowed := false, false;
    for i := 0 to |grants|
      invariant forall j :: 0 <= j < i && Concerns(grants[j].resource, grants[j].action, resource, action) ==> grants[j].effect != Deny
      invariant allowed <==> exists j :: 0 <= j < i && Concerns(grants[j].resource, grants[j].action, resource, action) && grants[j].effect == Allow
    {
      if Concerns(grants[i].resource, grants[i].action, resource, action) {
        if grants[i].effect == Deny {
          return true, allowed;
        }
        allowed := allowed || grants[i].effect == Allow;
      }
    }
  }

  method CheckGuardrails(guardrails: seq<Guardrail>, resource: string, action: string) returns (unsupported: bool, denies: bool)
    ensures unsupported <==> SomeGuardrail(guardrails, true, resource, action)
    ensures !unsupported ==> (denies <==> SomeGuardrail(guardrails, false, resource, action))
  {
    unsupported, denies := false, false;
    for i := 0 to |guardrails|
      invariant forall j :: 0 <= j < i && GuardrailApplies(guardrails[j], resource, action) ==> guardrails[j].condition.None?
      invariant denies <==> exists j :: 0 <= j < i && GuardrailApplies(guardrails[j], resource, action)
    {
      if GuardrailApplies(guardrails[i], resource, action) {
        if guardrails[i].condition.Some? {
          return true, denies;
        }
        denies := true;
      }
    }
  }

  method AuthorizeDataAccess(principal: Principal, permission: string) returns (decision: Decision)
    ensures decision == Authorize(principal, permission)
  {
    var key := Trim(permission);
    var split := SplitKey(key);
    if split.None? {
      return Rejected(InvalidKey);
    }
    var (resource, action) := split.value;
    if !Identified(principal) {
      return Rejected(Unavailable);
    }
    var bundle := principal.bundle.value;
    if !bundle.valid {
      return Rejected(InvalidBundle);
    }
    if Trim(bundle.subject.workspaceId) != Trim(principal.workspaceId) || Trim(bundle.subject.subjectId) != Trim(principal.userId) {
      return Rejected(SubjectMismatch);
    }
    var denied, allowed := CheckGrants(bundle.grants, resource, action);
    if denied {
      return Rejected(FunctionDenied);
    }
    if !allowed {
      return Rejected(NotGranted);
    }
    var builder := new ScopeBuilder(Blank(principal, key, bundle.subject));
    var usable, matched := builder.ApplyDataPolicies(bundle.policies, resource, action, bundle.subject);
    if !usable {
      return Rejected(OutsideContract);
    }
    if !matched || !builder.scope.Valid() {
      return Rejected(NoUsablePolicy);
    }
    var unsupported, guarded := CheckGuardrails(bundle.guardrails, resource, action);
    if unsupported {
      return Rejected(UnsupportedGuardrail);
    }
    var allowedUsers := UniqueSortedList(builder.scope.allowedUserIds);
    var allowedOrgs := UniqueSortedList(builder.scope.allowedOrgIds);
    var deniedUsers := UniqueSortedList(builder.scope.deniedUserIds);
    var deniedOrgs := UniqueSortedList(builder.scope.deniedOrgIds);
    decision := Granted(builder.scope.(deniedAll := builder.scope.deniedAll || guarded,
      allowedUserIds := allowedUsers, allowedOrgIds := allowedOrgs, deniedUserIds := deniedUsers, deniedOrgIds := deniedOrgs));
  }
}
