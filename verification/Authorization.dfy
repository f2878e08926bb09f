/** From a policy bundle to a data scope.
    internal/application/integration/authorization.go */
module Authorization {
  import opened Basics
  import opened Text
  import opened Sorting
  import opened AccessScopes

  datatype Effect = Allow | Deny | OtherEffect

  datatype DataScope = All | Owner | Org | OrgChild | TargetOrg | Unsupported(name: string)

  datatype Operator = NoOperator | EqualTo | OneOf | OtherOperator(name: string)

  datatype Value = NoValue | TextValue(text: string) | OtherValue(code: int)

  datatype Predicate = Predicate(fact: string, path: seq<string>, operator: Operator, value: Value,
                                 all: seq<Predicate>, any: seq<Predicate>, not: Option<Predicate>)

  const ZERO := Predicate("", [], NoOperator, NoValue, [], [], None)

  datatype FunctionGrant = FunctionGrant(resource: string, action: string, effect: Effect)
  datatype DataPolicy = DataPolicy(resource: string, action: string, effect: Effect, scopes: seq<DataScope>, condition: Predicate)
  datatype Guardrail = Guardrail(resource: string, action: string, effect: Effect, field: string, condition: Option<Predicate>)
  datatype BundleSubject = BundleSubject(workspaceId: string, subjectId: string, orgId: string, orgScopeIds: seq<string>, supportOrgScopeIds: seq<string>)

  /** `valid` is the bundle's own validation at the time of the call. */
  datatype Bundle = Bundle(subject: BundleSubject, grants: seq<FunctionGrant>, policies: seq<DataPolicy>, guardrails: seq<Guardrail>, valid: bool)

  datatype Principal = Principal(known: bool, workspaceId: string, userId: string, bundle: Option<Bundle>)

  // ----- predicates and scopes -----

  predicate LeafOnly(p: Predicate) {
    Trim(p.fact) != "" && p.path == [] && p.all == [] && p.any == [] && p.not.None?
  }

  predicate ContainerOnly(p: Predicate) {
    Trim(p.fact) == "" && p.path == [] && p.operator == NoOperator && p.value == NoValue && p.all == [] && p.not.None?
  }

  predicate Describes(p: Predicate, scope: DataScope) {
    LeafOnly(p) && p.value.TextValue?
    && match scope
       case Owner => p.fact == "owner_user_id" && p.operator == EqualTo && p.value.text == "$subject.id"
       case Org => p.fact == "owner_org_id" && p.operator == EqualTo && p.value.text == "$subject.org_id"
       case OrgChild => p.fact == "owner_org_id" && p.operator == OneOf && p.value.text == "$subject.org_scope_ids"
       case TargetOrg => p.fact == "owner_org_id" && p.operator == OneOf && p.value.text == "$subject.support_org_scope_ids"
       case All => false
       case Unsupported(_) => false
  }

  predicate Leaf(scope: DataScope) {
    scope.Owner? || scope.Org? || scope.OrgChild? || scope.TargetOrg?
  }

  function Canonical(scope: DataScope): Predicate {
    match scope
    case Owner => Predicate("owner_user_id", [], EqualTo, TextValue("$subject.id"), [], [], None)
    case Org => Predicate("owner_org_id", [], EqualTo, TextValue("$subject.org_id"), [], [], None)
    case OrgChild => Predicate("owner_org_id", [], OneOf, TextValue("$subject.org_scope_ids"), [], [], None)
    case TargetOrg => Predicate("owner_org_id", [], OneOf, TextValue("$subject.support_org_scope_ids"), [], [], None)
    case All => ZERO
    case Unsupported(_) => ZERO
  }

  lemma FactsAreNotBlank()
    ensures Trim("owner_user_id") != "" && Trim("owner_org_id") != ""
  {
    TrimmedIsFixed("owner_user_id");
    TrimmedIsFixed("owner_org_id");
  }

  /** A predicate describes a scope exactly when it is the scope's canonical predicate. */
  lemma DescribesIffCanonical(p: Predicate, scope: DataScope)
    ensures Describes(p, scope) <==> Leaf(scope) && p == Canonical(scope)
  {
    FactsAreNotBlank();
  }

  function Canonicals(scopes: seq<DataScope>): (r: seq<Predicate>)
    ensures |r| == |scopes| && forall i :: 0 <= i < |r| ==> r[i] == Canonical(scopes[i])
  {
    seq(|scopes|, i requires 0 <= i < |scopes| => Canonical(scopes[i]))
  }

  /** The closed contract: a single `all` goes with the zero predicate, a single scope with its
      canonical predicate, and several with an `any` list that permutes their predicates. */
  predicate InContract(p: Predicate, scopes: seq<DataScope>) {
    if |scopes| == 1 then
      if scopes[0] == All then p == ZERO else Leaf(scopes[0]) && p == Canonical(scopes[0])
    else
      ContainerOnly(p) && Permutes(p.any, scopes)
  }

  // ----- the greedy matching -----

  /** What the marked positions hold. */
  ghost function Taken(any: seq<Predicate>, marks: seq<bool>): multiset<Predicate>
    requires |any| == |marks|
  {
    if any == [] then multiset{}
    else Taken(any[1..], marks[1..]) + (if marks[0] then multiset{any[0]} else multiset{})
  }

  lemma {:induction false} TakeOne(any: seq<Predicate>, marks: seq<bool>, i: nat)
    requires |any| == |marks| && i < |any| && !marks[i]
    ensures Taken(any, marks[i := true]) == Taken(any, marks) + multiset{any[i]}
  {
    if i == 0 {
      assert marks[0 := true][1..] == marks[1..];
    } else {
      assert marks[i := true][1..] == marks[1..][i - 1 := true];
      TakeOne(any[1..], marks[1..], i - 1);
    }
  }

  lemma {:induction false} TakenNothing(any: seq<Predicate>, marks: seq<bool>)
    requires |any| == |marks| && forall i :: 0 <= i < |marks| ==> !marks[i]
    ensures Taken(any, marks) == multiset{}
  {
    if any != [] {
      TakenNothing(any[1..], marks[1..]);
    }
  }

  /** A value whose every occurrence is marked is taken as often as it occurs. */
  lemma {:induction false} TakenAll(any: seq<Predicate>, marks: seq<bool>, p: Predicate)
    requires |any| == |marks| && forall i :: 0 <= i < |any| && any[i] == p ==> marks[i]
    ensures Taken(any, marks)[p] == multiset(any)[p]
  {
    if any != [] {
      TakenAll(any[1..], marks[1..], p);
      assert any == [any[0]] + any[1..];
    }
  }

  lemma {:induction false} TakenIsPart(any: seq<Predicate>, marks: seq<bool>)
    requires |any| == |marks|
    ensures Taken(any, marks) <= multiset(any)
  {
    if any != [] {
      TakenIsPart(any[1..], marks[1..]);
      assert any == [any[0]] + any[1..];
    }
  }

  lemma PartOfSameSize(a: multiset<Predicate>, b: multiset<Predicate>)
    requires a <= b && |a| == |b|
    ensures a == b
  {
    assert b == a + (b - a);
  }

  lemma CanonicalsSnoc(scopes: seq<DataScope>, k: nat)
    requires k < |scopes|
    ensures multiset(Canonicals(scopes[..k + 1])) == multiset(Canonicals(scopes[..k])) + multiset{Canonical(scopes[k])}
  {
    assert Canonicals(scopes[..k + 1]) == Canonicals(scopes[..k]) + [Canonical(scopes[k])];
  }

  lemma CanonicalsPrefix(scopes: seq<DataScope>, k: nat)
    requires k <= |scopes|
    ensures multiset(Canonicals(scopes[..k])) <= multiset(Canonicals(scopes))
  {
    assert Canonicals(scopes) == Canonicals(scopes[..k]) + Canonicals(scopes[k..]);
  }

  predicate Permutes(any: seq<Predicate>, scopes: seq<DataScope>) {
    (forall i :: 0 <= i < |scopes| ==> Leaf(scopes[i])) && multiset(any) == multiset(Canonicals(scopes))
  }

  method PredicateMatchesDataScopes(p: Predicate, scopes: seq<DataScope>) returns (ok: bool)
    ensures ok <==> InContract(p, scopes)
  {
    if |scopes| == 1 {
      DescribesIffCanonical(p, scopes[0]);
      return if scopes[0] == All then p == ZERO else Describes(p, scopes[0]);
    }
    if !ContainerOnly(p) {
      return false;
    }
    ok := MatchAll(p.any, scopes);
  }

  /** Each scope takes the first free predicate that describes it. Taking greedily loses
      nothing: the answer is the permutation test. */
  method MatchAll(any: seq<Predicate>, scopes: seq<DataScope>) returns (ok: bool)
    ensures ok <==> Permutes(any, scopes)
  {
    if |any| != |scopes| {
      assert multiset(any) == multiset(Canonicals(scopes)) ==> |multiset(any)| == |multiset(Canonicals(scopes))|;
      return false;
    }
    var matched := new bool[|any|](_ => false);
    TakenNothing(any, matched[..]);
    assert scopes[..0] == [];
    for k := 0 to |scopes|
      invariant forall i :: 0 <= i < k ==> Leaf(scopes[i])
      invariant Taken(any, matched[..]) == multiset(Canonicals(scopes[..k]))
    {
      var found := MatchOne(any, scopes[k], matched);
      if !found {
        Unmatched(any, matched[..], scopes, k);
        return false;
      }
      CanonicalsSnoc(scopes, k);
    }
    assert scopes[..|scopes|] == scopes;
    TakenIsPart(any, matched[..]);
    PartOfSameSize(Taken(any, matched[..]), multiset(any));
    ok := true;
  }

  method MatchOne(any: seq<Predicate>, scope: DataScope, matched: array<bool>) returns (found: bool)
    requires matched.Length == |any|
    modifies matched
    ensures found ==> Leaf(scope) && Taken(any, matched[..]) == Taken(any, old(matched[..])) + multiset{Canonical(scope)}
    ensures !found ==> matched[..] == old(matched[..]) && (Leaf(scope) ==> forall i :: 0 <= i < |any| && any[i] == Canonical(scope) ==> matched[i])
  {
    for index := 0 to |any|
      invariant matched[..] == old(matched[..])
      invariant forall i :: 0 <= i < index ==> matched[i] || !Describes(any[i], scope)
    {
      if !matched[index] && Describes(any[index], scope) {
        DescribesIffCanonical(any[index], scope);
        ghost var before := matched[..];
        matched[index] := true;
        assert matched[..] == before[index := true];
        TakeOne(any, before, index);
        return true;
      }
    }
    forall i | 0 <= i < |any| && any[i] == Canonical(scope) && Leaf(scope) ensures matched[i] { DescribesIffCanonical(any[i], scope); }
    found := false;
  }

  /** When a scope finds nothing free, no assignment exists. */
  lemma Unmatched(any: seq<Predicate>, marks: seq<bool>, scopes: seq<DataScope>, k: nat)
    requires |any| == |marks| == |scopes| && k < |scopes|
    requires Taken(any, marks) == multiset(Canonicals(scopes[..k]))
    requires Leaf(scopes[k]) ==> forall i :: 0 <= i < |any| && any[i] == Canonical(scopes[k]) ==> marks[i]
    ensures !(Leaf(scopes[k]) && multiset(any) == multiset(Canonicals(scopes)))
  {
    if Leaf(scopes[k]) {
      var c := Canonical(scopes[k]);
      TakenAll(any, marks, c);
      CanonicalsSnoc(scopes, k);
      CanonicalsPrefix(scopes, k + 1);
      assert multiset(Canonicals(scopes[..k + 1]))[c] == multiset(any)[c] + 1;
    }
  }

  // ----- scopes become lists -----

  predicate Names(ids: seq<string>, id: string) {
    exists i :: 0 <= i < |ids| && Trim(ids[i]) == id
  }

  lemma NamesStep(ids: seq<string>, id: string)
    requires ids != []
    ensures Names(ids, id) <==> Trim(ids[0]) == id || Names(ids[1..], id)
  {
    if i :| 0 < i < |ids| && Trim(ids[i]) == id { assert ids[1..][i - 1] == ids[i]; }
    if i :| 0 <= i < |ids[1..]| && Trim(ids[1..][i]) == id { assert ids[i + 1] == ids[1..][i]; }
  }

  /** The policy meaning of one data scope for a row owned by `user` and `org`. */
  predicate Covers(scope: DataScope, subject: BundleSubject, user: string, org: string) {
    match scope
    case All => true
    case Owner => user != "" && user == Trim(subject.subjectId)
    case Org => org != "" && org == Trim(subject.orgId)
    case OrgChild => org != "" && Names(subject.orgScopeIds, org)
    case TargetOrg => org != "" && Names(subject.supportOrgScopeIds, org)
    case Unsupported(_) => false
  }

  function AppendValue(s: AccessScope, denied: bool, value: string, organization: bool): AccessScope {
    if Trim(value) == "" then s
    else if organization then
      if denied then s.(deniedOrgIds := s.deniedOrgIds + [Trim(value)]) else s.(allowedOrgIds := s.allowedOrgIds + [Trim(value)])
    else
      if denied then s.(deniedUserIds := s.deniedUserIds + [Trim(value)]) else s.(allowedUserIds := s.allowedUserIds + [Trim(value)])
  }

  function AppendOrgs(s: AccessScope, denied: bool, values: seq<string>): AccessScope
    decreases |values|
  {
    if values == [] then s else AppendOrgs(AppendValue(s, denied, values[0], true), denied, values[1..])
  }

  function ApplyScope(s: AccessScope, effect: Effect, scope: DataScope, subject: BundleSubject): AccessScope {
    match scope
    case All => if effect == Deny then s.(deniedAll := true) else s.(unrestricted := true)
    case Owner => AppendValue(s, effect == Deny, subject.subjectId, false)
    case Org => AppendValue(s, effect == Deny, subject.orgId, true)
    case OrgChild => AppendOrgs(s, effect == Deny, subject.orgScopeIds)
    case TargetOrg => AppendOrgs(s, effect == Deny, subject.supportOrgScopeIds)
    case Unsupported(_) => s
  }

  function ApplyScopes(s: AccessScope, effect: Effect, scopes: seq<DataScope>, subject: BundleSubject): AccessScope
    decreases |scopes|
  {
    if scopes == [] then s else ApplyScopes(ApplyScope(s, effect, scopes[0], subject), effect, scopes[1..], subject)
  }

  predicate Concerns(resource: string, action: string, wantedResource: string, wantedAction: string) {
    Trim(resource) == wantedResource && Trim(action) == wantedAction
  }

  function ApplyPolicies(s: AccessScope, policies: seq<DataPolicy>, resource: string, action: string, subject: BundleSubject): AccessScope
    decreases |policies|
  {
    if policies == [] then s
    else
      var p := policies[0];
      ApplyPolicies(if Concerns(p.resource, p.action, resource, action) then ApplyScopes(s, p.effect, p.scopes, subject) else s, policies[1..], resource, action, subject)
  }

  /** Everything but the row lists stays as it was, and a row is hit exactly as given. */
  ghost predicate Hits(s: AccessScope, v: AccessScope, denied: bool, user: string, org: string, covered: bool) {
    && (v.Allows(user, org) <==> s.Allows(user, org) || (!denied && covered))
    && (v.Denies(user, org) <==> s.Denies(user, org) || (denied && covered))
    && v.workspaceId == s.workspaceId && v.permissionKey == s.permissionKey && v.actorId == s.actorId && v.actorOrgId == s.actorOrgId
  }

  lemma {:induction false} AppendOrgsHits(s: AccessScope, denied: bool, values: seq<string>, user: string, org: string)
    ensures Hits(s, AppendOrgs(s, denied, values), denied, user, org, org != "" && Names(values, org))
    decreases |values|
  {
    if values != [] {
      AppendOrgsHits(AppendValue(s, denied, values[0], true), denied, values[1..], user, org);
      NamesStep(values, org);
    }
  }

  lemma ApplyScopeHits(s: AccessScope, effect: Effect, scope: DataScope, subject: BundleSubject, user: string, org: string)
    ensures Hits(s, ApplyScope(s, effect, scope, subject), effect == Deny, user, org, Covers(scope, subject, user, org))
  {
    match scope
    case OrgChild => AppendOrgsHits(s, effect == Deny, subject.orgScopeIds, user, org);
    case TargetOrg => AppendOrgsHits(s, effect == Deny, subject.supportOrgScopeIds, user, org);
    case _ =>
  }

  predicate SomeCovers(scopes: seq<DataScope>, subject: BundleSubject, user: string, org: string) {
    exists i :: 0 <= i < |scopes| && Covers(scopes[i], subject, user, org)
  }

  lemma SomeCoversStep(scopes: seq<DataScope>, subject: BundleSubject, user: string, org: string)
    requires scopes != []
    ensures SomeCovers(scopes, subject, user, org) <==> Covers(scopes[0], subject, user, org) || SomeCovers(scopes[1..], subject, user, org)
  {
    if i :| 0 < i < |scopes| && Covers(scopes[i], subject, user, org) { assert scopes[1..][i - 1] == scopes[i]; }
    if i :| 0 <= i < |scopes[1..]| && Covers(scopes[1..][i], subject, user, org) { assert scopes[i + 1] == scopes[1..][i]; }
  }

  lemma {:induction false} ApplyScopesHits(s: AccessScope, effect: Effect, scopes: seq<DataScope>, subject: BundleSubject, user: string, org: string)
    ensures Hits(s, ApplyScopes(s, effect, scopes, subject), effect == Deny, user, org, SomeCovers(scopes, subject, user, org))
    decreases |scopes|
  {
    if scopes != [] {
      ApplyScopeHits(s, effect, scopes[0], subject, user, org);
      ApplyScopesHits(ApplyScope(s, effect, scopes[0], subject), effect, scopes[1..], subject, user, org);
      SomeCoversStep(scopes, subject, user, org);
    }
  }

  /** Some policy for this permission, of the wanted kind, covers the row. */
  predicate PolicyCovers(p: DataPolicy, denying: bool, resource: string, action: string, subject: BundleSubject, user: string, org: string) {
    Concerns(p.resource, p.action, resource, action) && (p.effect == Deny <==> denying) && SomeCovers(p.scopes, subject, user, org)
  }

  predicate Covered(policies: seq<DataPolicy>, denying: bool, resource: string, action: string, subject: BundleSubject, user: string, org: string) {
    exists i :: 0 <= i < |policies| && PolicyCovers(policies[i], denying, resource, action, subject, user, org)
  }

  lemma CoveredStep(policies: seq<DataPolicy>, denying: bool, resource: string, action: string, subject: BundleSubject, user: string, org: string)
    requires policies != []
    ensures Covered(policies, denying, resource, action, subject, user, org) <==>
      PolicyCovers(policies[0], denying, resource, action, subject, user, org) || Covered(policies[1..], denying, resource, action, subject, user, org)
  {
    if i :| 0 < i < |policies| && PolicyCovers(policies[i], denying, resource, action, subject, user, org) { assert policies[1..][i - 1] == policies[i]; }
    if i :| 0 <= i < |policies[1..]| && PolicyCovers(policies[1..][i], denying, resource, action, subject, user, org) { assert policies[i + 1] == policies[1..][i]; }
  }

  lemma {:induction false} ApplyPoliciesHits(s: AccessScope, policies: seq<DataPolicy>, resource: string, action: string, subject: BundleSubject, user: string, org: string)
    ensures var v := ApplyPolicies(s, policies, resource, action, subject);
            && (v.Allows(user, org) <==> s.Allows(user, org) || Covered(policies, false, resource, action, subject, user, org))
            && (v.Denies(user, org) <==> s.Denies(user, org) || Covered(policies, true, resource, action, subject, user, org))
            && v.workspaceId == s.workspaceId && v.permissionKey == s.permissionKey && v.actorId == s.actorId && v.actorOrgId == s.actorOrgId
    decreases |policies|
  {
    if policies != [] {
      var p := policies[0];
      ApplyScopesHits(s, p.effect, p.scopes, subject, user, org);
      CoveredStep(policies, false, resource, action, subject, user, org);
      CoveredStep(policies, true, resource, action, subject, user, org);
      ApplyPoliciesHits(if Concerns(p.resource, p.action, resource, action) then ApplyScopes(s, p.effect, p.scopes, subject) else s,
                        policies[1..], resource, action, subject, user, org);
    }
  }
}
