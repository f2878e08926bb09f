/** Runs of the credential transactions, and what revocation and erasure leave alone. */
module CredentialTheorems {
  import opened Basics
  import opened Text
  import opened Credentials

  datatype Action =
    | UpsertConnection(workspaceId: string, raw: string, actor: string, value: Connection)
    | RegisterAccount(key: string, account: Account)
    | DeleteConnection(key: string)
    | SetStatus(key: string, status: ConnectionStatus, now: nat)
    | Manifest(key: string, status: ConnectionStatus, now: nat)
    | RevokeAccount(key: string, expected: nat, now: nat)
    | PutSecret(key: string, secret: Secret)
    | UpsertSecret(workspaceId: string, raw: string, actor: string, text: string, now: nat)
    | PrepareSubject(subject: string)
    | EraseSubject(plan: Plan, now: nat)

  function OrElse(after: Option<State>, before: State): State {
    if after.Some? then after.value else before
  }

  function Apply(s: State, a: Action): State {
    match a
    case UpsertConnection(w, raw, actor, value) => OrElse(UpsertSpelled(s, w, raw, actor, value), s)
    case RegisterAccount(key, account) => OrElse(Register(s, key, account), s)
    case DeleteConnection(key) => OrElse(Delete(s, key), s)
    case SetStatus(key, status, now) =>
      if key in s.connections && s.connections[key].id !in s.fencedRows then s.(connections := s.connections[key := s.connections[key].(status := status, updatedAt := now)]) else s
    case Manifest(key, status, now) => SyncManifest(s, key, status, now)
    case RevokeAccount(key, expected, now) => Revoke(s, key, expected, now)
    case PutSecret(key, secret) => WriteSecret(s, key, secret)
    case UpsertSecret(w, raw, actor, text, now) => OrElse(UpsertSecretSpelled(s, w, raw, actor, text, now), s)
    case PrepareSubject(subject) => Prepare(s, subject)
    case EraseSubject(plan, now) => Erase(s, plan, now)
  }

  const Start := State(map[], map[], map[], map[], {}, {}, {}, {}, {})

  function Run(s: State, actions: seq<Action>): State
    decreases |actions|
  {
    if actions == [] then s else Run(Apply(s, actions[0]), actions[1..])
  }

  lemma ConnectionRowKeeps(s: State, key: string, status: ConnectionStatus, now: nat, v: State)
    requires Exclusive(s) && key in s.connections
    requires v == s.(connections := s.connections[key := s.connections[key].(status := status, updatedAt := now)])
    ensures Exclusive(v)
  {
    SameReferencesKeep(s, v);
  }

  lemma ManifestKeeps(s: State, key: string, status: ConnectionStatus, now: nat, v: State)
    requires Exclusive(s) && v == SyncManifest(s, key, status, now)
    ensures Exclusive(v)
  {
    if key in s.connections && s.connections[key].id !in s.fencedRows {
      ConnectionRowKeeps(s, key, status, now, v);
    } else if key !in s.connections {
      SameReferencesKeep(s, v);
    }
  }

  lemma RevokeKeeps(s: State, key: string, expected: nat, now: nat, v: State)
    requires Exclusive(s) && v == Revoke(s, key, expected, now)
    ensures Exclusive(v)
  {
    if RevokeOutcome(s, key, expected) == Performed {
      SameReferencesKeep(s, v);
    }
  }

  lemma WriteSecretKeeps(s: State, key: string, secret: Secret, v: State)
    requires Exclusive(s) && v == WriteSecret(s, key, secret)
    ensures Exclusive(v)
  {
    if key !in s.fencedSecrets {
      SameReferencesKeep(s, v);
    }
  }

  lemma SpelledSecretKeeps(s: State, workspaceId: string, raw: string, actor: string, text: string, now: nat, v: State)
    requires Exclusive(s) && UpsertSecretSpelled(s, workspaceId, raw, actor, text, now) == Some(v)
    ensures Exclusive(v)
  {
    var key := Trim(raw);
    if key !in s.fencedSecrets {
      WriteSecretKeeps(s, key, Written(s, key, text, now), v);
    } else if key !in s.secrets {
      BareSecretKeeps(s, key, now, v);
    }
  }

  lemma BareSecretKeeps(s: State, key: string, now: nat, v: State)
    requires Exclusive(s) && v == s.(secrets := s.secrets[key := Secret(Active, None, now)])
    ensures Exclusive(v)
  {
    SameReferencesKeep(s, v);
  }

  /** The step is an upsert that gets past the fence of an erased account, with references other
      than those the row is left with. */
  predicate SlipStep(s: State, a: Action) {
    a.UpsertConnection? && UpsertSpelled(s, a.workspaceId, a.raw, a.actor, a.value).Some? && Slips(s, Trim(a.raw), a.value.refs)
  }

  /** A step keeps credentials exclusive exactly when it does not slip. */
  lemma StepKeepsIff(s: State, a: Action)
    requires Exclusive(s)
    ensures Exclusive(Apply(s, a)) <==> !SlipStep(s, a)
  {
    match a
    case UpsertConnection(w, raw, actor, value) => if UpsertSpelled(s, w, raw, actor, value).Some? { UpsertSpelledKeepsIff(s, w, raw, actor, value); }
    case RegisterAccount(key, account) => if Register(s, key, account).Some? { RegisterKeeps(s, key, account); }
    case DeleteConnection(key) => if Delete(s, key).Some? { DeleteKeeps(s, key); }
    case UpsertSecret(w, raw, actor, text, now) =>
      if UpsertSecretSpelled(s, w, raw, actor, text, now).Some? { SpelledSecretKeeps(s, w, raw, actor, text, now, Apply(s, a)); }
    case PrepareSubject(subject) => PrepareKeeps(s, subject);
    case EraseSubject(plan, now) => EraseKeeps(s, plan, now);
    case SetStatus(key, status, now) => if key in s.connections && s.connections[key].id !in s.fencedRows { ConnectionRowKeeps(s, key, status, now, Apply(s, a)); }
    case Manifest(key, status, now) => ManifestKeeps(s, key, status, now, Apply(s, a));
    case RevokeAccount(key, expected, now) => RevokeKeeps(s, key, expected, now, Apply(s, a));
    case PutSecret(key, secret) => WriteSecretKeeps(s, key, secret, Apply(s, a));
  }

  ghost predicate NeverSlips(s: State, actions: seq<Action>)
    decreases |actions|
  {
    actions != [] ==> !SlipStep(s, actions[0]) && NeverSlips(Apply(s, actions[0]), actions[1..])
  }

  ghost predicate ExclusiveThroughout(s: State, actions: seq<Action>)
    decreases |actions|
  {
    Exclusive(s) && (actions != [] ==> ExclusiveThroughout(Apply(s, actions[0]), actions[1..]))
  }

  /** Credentials stay exclusive over a run exactly when no step of it slips. */
  lemma {:induction false} RunKeepsIff(s: State, actions: seq<Action>)
    requires Exclusive(s)
    ensures ExclusiveThroughout(s, actions) <==> NeverSlips(s, actions)
    ensures NeverSlips(s, actions) ==> Exclusive(Run(s, actions))
    decreases |actions|
  {
    if actions != [] {
      StepKeepsIff(s, actions[0]);
      if !SlipStep(s, actions[0]) {
        RunKeepsIff(Apply(s, actions[0]), actions[1..]);
      }
    }
  }

  /** The workspace and the key of every connection upsert are spelled as they are stored. */
  predicate KeysTrimmed(actions: seq<Action>) {
    forall i :: 0 <= i < |actions| && actions[i].UpsertConnection? ==> Trim(actions[i].workspaceId) == actions[i].workspaceId && Trim(actions[i].raw) == actions[i].raw
  }

  /** Then no step slips: a fenced row has a fenced key, which the guard finds. */
  lemma {:induction false} TrimmedKeysNeverSlip(s: State, actions: seq<Action>)
    requires Exclusive(s) && KeysTrimmed(actions)
    ensures NeverSlips(s, actions)
    decreases |actions|
  {
    if actions != [] {
      var a := actions[0];
      if a.UpsertConnection? && UpsertSpelled(s, a.workspaceId, a.raw, a.actor, a.value).Some? {
        UpsertSpelledKeepsIff(s, a.workspaceId, a.raw, a.actor, a.value);
      }
      StepKeepsIff(s, a);
      TrimmedKeysNeverSlip(Apply(s, a), actions[1..]);
    }
  }

  /** In every state reached without slipping an account's reservations are exactly its
      references, and a reserved key is referenced by its owner only. */
  lemma CredentialsStayExclusive(actions: seq<Action>, account: string, other: string, key: string)
    requires NeverSlips(Start, actions)
    requires account in Run(Start, actions).accounts && other in Run(Start, actions).connections
    ensures var s := Run(Start, actions);
            && account in s.connections
            && (key in s.reservations && s.reservations[key] == account <==> key in ManagedKeys(s.connections[account].refs))
            && (other != account && key in ManagedKeys(s.connections[account].refs) ==> key !in ManagedKeys(s.connections[other].refs))
  {
    RunKeepsIff(Start, actions);
    var s := Run(Start, actions);
    assert AccountInv(s, account);
    assert key in ReservedBy(s, account) <==> key in s.reservations && s.reservations[key] == account;
  }

  const OWN := Connection(OwnerRow("c"), ConnectionActive, map[], 0)
  const OTHER := Connection(OwnerRow("c"), ConnectionActive, map["f" := Managed("k")], 0)

  /** Account `c` of workspace `w`, prepared for erasure, and then upserted as spelled. */
  function ErasedThenUpserted(workspaceId: string, raw: string): seq<Action> {
    [UpsertConnection("w", "c", "u", OWN), RegisterAccount("c", Account(true, "u")), PutSecret("k", Secret(Active, Some("v"), 0)),
     PrepareSubject("u"), UpsertConnection(workspaceId, raw, "x", OTHER)]
  }

  /** The row stays without references, and the secret of the upsert is reserved for it. */
  predicate ReservedBesideRow(s: State) {
    "c" in s.accounts && "c" in s.connections && s.connections["c"].refs == map[] && "k" in s.reservations && s.reservations["k"] == "c"
  }

  /** It slips under a key with a space. */
  lemma SpelledKeySlips()
    ensures ReservedBesideRow(Run(Start, ErasedThenUpserted("w", " c")))
  {
    assert (" c")[1..] == "c" && Trim(" c") == "c";
    ErasedAccountSlips("w", " c");
  }

  /** It slips under a workspace with a space. */
  lemma SpelledWorkspaceSlips()
    ensures ReservedBesideRow(Run(Start, ErasedThenUpserted(" w", "c")))
  {
    assert (" w")[1..] == "w" && Trim(" w") == "w";
    ErasedAccountSlips(" w", "c");
  }

  /** It is refused when both are spelled as they are stored. */
  lemma TrimmedUpsertIsRefused()
    ensures !ReservedBesideRow(Run(Start, ErasedThenUpserted("w", "c")))
  {
    TrimmedKeysNeverSlip(Start, ErasedThenUpserted("w", "c"));
    RunKeepsIff(Start, ErasedThenUpserted("w", "c"));
    var s := Run(Start, ErasedThenUpserted("w", "c"));
    if "c" in s.accounts {
      assert AccountInv(s, "c");
      assert "k" in ReservedBy(s, "c") <==> "k" in ManagedKeys(s.connections["c"].refs);
    }
  }

  lemma ErasedAccountSlips(workspaceId: string, raw: string)
    requires Trim(workspaceId) == "w" && Trim(raw) == "c" && (workspaceId != "w" || raw != "c")
    ensures ReservedBesideRow(Run(Start, ErasedThenUpserted(workspaceId, raw)))
  {
    var b, c, d := RegisterAccount("c", Account(true, "u")), PutSecret("k", Secret(Active, Some("v"), 0)), PrepareSubject("u");
    RunFive(Start, UpsertConnection("w", "c", "u", OWN), b, c, d, UpsertConnection(workspaceId, raw, "x", OTHER));
    ConnectionIsThere();
    var s := Apply(Apply(Start.(connections := map["c" := OWN]), b), c);
    AccountIsThere();
    AccountIsPrepared(s);
    FencedAccountSlips(Apply(s, d), workspaceId, raw);
  }

  lemma ConnectionIsThere()
    ensures Apply(Start, UpsertConnection("w", "c", "u", OWN)) == Start.(connections := map["c" := OWN])
  {
    assert Trim("w") == "w" && Trim("c") == "c";
    TrimmedUpsertIsSpelled(Start, "w", "c", "u", OWN);
    assert WrittenRow(Start, "c", OWN) == Start.(connections := map["c" := OWN]);
  }

  lemma AccountIsThere()
    ensures Apply(Apply(Start.(connections := map["c" := OWN]), RegisterAccount("c", Account(true, "u"))), PutSecret("k", Secret(Active, Some("v"), 0)))
         == Start.(connections := map["c" := OWN], accounts := map["c" := Account(true, "u")], secrets := map["k" := Secret(Active, Some("v"), 0)])
  {
    var s := Start.(connections := map["c" := OWN]);
    assert Apply(s, RegisterAccount("c", Account(true, "u"))) == s.(accounts := map["c" := Account(true, "u")]);
  }

  lemma AccountIsPrepared(s: State)
    requires s.connections == map["c" := OWN] && s.accounts == map["c" := Account(true, "u")] && s.reservations == map[]
    requires s.fencedConnections == s.fencedSubjects == {}
    ensures var t := Apply(s, PrepareSubject("u"));
            && t.accounts == s.accounts && t.connections == map["c" := OWN.(status := ConnectionErasing)] && t.reservations == map[] && t.secrets == s.secrets
            && OWN.id in t.fencedRows && t.fencedConnections == {"c"} && t.fencedSubjects == {"u"}
  {
    var p := Collect(s, "u");
    assert SubjectConnections(s, "u") == {"c"};
    assert p.connections == map["c" := OwnerRow("c")] && p.secrets == {};
    assert p.connections["c"] in p.connections.Values;
  }

  lemma FencedAccountSlips(t: State, workspaceId: string, raw: string)
    requires Trim(workspaceId) == "w" && Trim(raw) == "c" && (workspaceId != "w" || raw != "c")
    requires "c" in t.accounts && t.connections.Keys == {"c"} && t.connections["c"].refs == map[] && t.connections["c"].id in t.fencedRows
    requires t.fencedConnections == {"c"} && t.fencedSubjects == {"u"} && t.reservations == map[] && t.secrets == map["k" := Secret(Active, Some("v"), 0)]
    ensures Apply(t, UpsertConnection(workspaceId, raw, "x", OTHER)) == t.(reservations := map["k" := "c"])
  {
    var refs := OTHER.refs;
    assert refs["f"].key == "k" && ManagedKeys(refs) == {"k"};
    assert SyncAllowed(t, "c", refs);
    assert SyncedReservations(t, "c", refs) == map["k" := "c"];
  }

  lemma RunFive(s: State, a: Action, b: Action, c: Action, d: Action, e: Action)
    ensures Run(s, [a, b, c, d, e]) == Apply(Apply(Apply(Apply(Apply(s, a), b), c), d), e)
  {
    var s1 := Apply(s, a);
    var s2 := Apply(s1, b);
    var s3 := Apply(s2, c);
    var s4 := Apply(s3, d);
    assert [a, b, c, d, e][1..] == [b, c, d, e] && [b, c, d, e][1..] == [c, d, e] && [c, d, e][1..] == [d, e] && [d, e][1..] == [e] && [e][1..] == [];
    assert Run(s4, [e]) == Apply(s4, e);
    assert Run(s3, [d, e]) == Run(s4, [e]);
    assert Run(s2, [c, d, e]) == Run(s3, [d, e]);
    assert Run(s1, [b, c, d, e]) == Run(s2, [c, d, e]);
  }

  // ----- resolution -----

  /** What a reference resolves to; references outside the secret table depend on the host only. */
  function Resolve(s: State, environment: string -> Option<string>, ref: Ref): Option<string> {
    match ref
    case Foreign(text) => environment(text)
    case Managed(key) => if key in s.secrets && s.secrets[key].status == Active then s.secrets[key].material else None
  }

  /** Connection `c` is there unchanged and each of its fields resolves as before. */
  ghost predicate Untouched(s: State, v: State, c: string)
    requires c in s.connections
  {
    && c in v.connections && v.connections[c] == s.connections[c]
    && forall f, environment: string -> Option<string> :: f in s.connections[c].refs ==>
         Resolve(v, environment, s.connections[c].refs[f]) == Resolve(s, environment, s.connections[c].refs[f])
  }

  lemma RefersToOwnKeys(s: State, c: string, f: string)
    requires c in s.connections && f in s.connections[c].refs && s.connections[c].refs[f].Managed?
    ensures s.connections[c].refs[f].key in ManagedKeys(s.connections[c].refs)
  {
  }

  /** Revocation: nobody else's credentials move, none of the account's stays active, and a
      stale revision changes nothing. */
  lemma RevokeIsolates(s: State, key: string, expected: nat, now: nat)
    requires Exclusive(s)
    ensures var v := Revoke(s, key, expected, now);
            && (forall c :: c in s.connections && c != key ==> Untouched(s, v, c))
            && (RevokeOutcome(s, key, expected) == Performed ==>
                  v.connections[key].status == ConnectionRevoked && forall f :: f in s.connections[key].refs ==> ResolvesToNothing(v, s.connections[key].refs[f]))
            && (RevokeOutcome(s, key, expected) != Performed ==> v == s)
  {
    var v := Revoke(s, key, expected, now);
    forall c | c in s.connections && c != key ensures Untouched(s, v, c) {
      forall f | f in s.connections[c].refs && s.connections[c].refs[f].Managed? { RefersToOwnKeys(s, c, f); }
    }
    if RevokeOutcome(s, key, expected) == Performed {
      assert AccountInv(s, key);
      forall f | f in s.connections[key].refs ensures ResolvesToNothing(v, s.connections[key].refs[f]) {
        RefersToOwnKeys(s, key, f);
        assert s.connections[key].refs[f].key in ReservedBy(s, key);
      }
    }
  }

  predicate ResolvesToNothing(s: State, ref: Ref) {
    ref.Managed? && (ref.key in s.secrets ==> Unusable(s.secrets[ref.key]))
  }

  /** Preparing an erasure plans exactly the subject's connections and every credential they
      reference, and touches no other connection. */
  lemma PrepareIsolates(s: State, subject: string)
    requires Exclusive(s)
    ensures var v, own := Prepare(s, subject), SubjectConnections(s, subject);
            && Collect(s, subject).connections.Keys == own
            && (forall c :: c in s.connections && c !in own ==> Untouched(s, v, c))
            && (forall c, f :: c in own && c in s.connections && f in s.connections[c].refs ==> ResolvesToNothing(v, s.connections[c].refs[f]))
  {
    var v, own := Prepare(s, subject), SubjectConnections(s, subject);
    CollectCovers(s, subject);
    forall c | c in s.connections && c !in own ensures Untouched(s, v, c) {
      forall f | f in s.connections[c].refs && s.connections[c].refs[f].Managed?
        ensures s.connections[c].refs[f].key !in Collect(s, subject).secrets
      {
        RefersToOwnKeys(s, c, f);
        assert s.connections[c].refs[f].key in Shared(s, own);
      }
    }
    forall c, f | c in own && c in s.connections && f in s.connections[c].refs ensures ResolvesToNothing(v, s.connections[c].refs[f]) {
      assert AccountInv(s, c);
      RefersToOwnKeys(s, c, f);
    }
  }

  /** Erasing changes planned rows only; a connection that took a planned key in between
      resolved it to nothing before and resolves it to nothing after. */
  lemma EraseIsolates(s: State, p: Plan, now: nat)
    requires Exclusive(s)
    ensures var v := Erase(s, p, now);
            && (forall c :: c in s.connections && !PlannedRow(s, p, c) ==> Untouched(s, v, c))
            && (p in s.plans ==> p.secrets !! v.secrets.Keys && forall c :: c in s.connections && PlannedRow(s, p, c) ==> v.connections[c].refs == map[])
  {
    var v := Erase(s, p, now);
    if p in s.plans {
      assert PlanInv(s, p);
      forall c | c in s.connections && !PlannedRow(s, p, c) ensures Untouched(s, v, c) {
        forall f | f in s.connections[c].refs && s.connections[c].refs[f].Managed? { RefersToOwnKeys(s, c, f); }
      }
    }
  }

  lemma SpelledSecretKeepsFenced(s: State, workspaceId: string, raw: string, actor: string, text: string, now: nat, v: State)
    requires FencedUnusable(s) && UpsertSecretSpelled(s, workspaceId, raw, actor, text, now) == Some(v)
    ensures FencedUnusable(v) && v.fencedSecrets == s.fencedSecrets
  {
  }

  lemma StepKeepsFenced(s: State, a: Action, key: string)
    requires FencedUnusable(s) && key in s.fencedSecrets
    ensures FencedUnusable(Apply(s, a)) && key in Apply(s, a).fencedSecrets
  {
    match a
    case RevokeAccount(account, expected, now) =>
    case PrepareSubject(subject) =>
    case EraseSubject(plan, now) =>
    case UpsertSecret(w, raw, actor, text, now) =>
      if UpsertSecretSpelled(s, w, raw, actor, text, now).Some? { SpelledSecretKeepsFenced(s, w, raw, actor, text, now, Apply(s, a)); }
    case _ =>
  }

  /** A fenced secret is never usable again: after every later run it is absent, inactive or
      without material, and resolves to nothing. */
  lemma {:induction false} FencedSecretStaysGone(s: State, later: seq<Action>, key: string, environment: string -> Option<string>)
    requires FencedUnusable(s) && key in s.fencedSecrets
    ensures var v := Run(s, later);
            && key in v.fencedSecrets && FencedUnusable(v)
            && Resolve(v, environment, Managed(key)) == None
    decreases |later|
  {
    if later != [] {
      StepKeepsFenced(s, later[0], key);
      FencedSecretStaysGone(Apply(s, later[0]), later[1..], key, environment);
    }
  }
}
