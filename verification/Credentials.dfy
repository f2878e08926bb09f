/** Connection accounts and the credentials they own, for the rows of one workspace.
    internal/infrastructure/persistence/database/integration/connection_account_store.go
    internal/infrastructure/persistence/database/integration/management_store.go */
module Credentials {
  import opened Basics
  import opened Text

  /** A secret reference: `secret:<key>`, or anything else. */
  datatype Ref = Managed(key: string) | Foreign(text: string)

  type Refs = map<string, Ref>

  datatype ConnectionStatus = Configured | ConnectionActive | Inactive | ConnectionError | ConnectionRevoked | ConnectionErasing

  /** Row ids are hashed from the key, by an owner's upsert or by the manifest. */
  datatype RowId = OwnerRow(key: string) | ManifestRow(key: string)

  datatype Connection = Connection(id: RowId, status: ConnectionStatus, refs: Refs, updatedAt: nat)

  datatype Account = Account(personal: bool, owner: string)

  datatype SecretStatus = Active | Disabled | Expired | Revoked | SecretErasing

  /** `material` is what the stored value decrypts to; None when the value lives elsewhere. */
  datatype Secret = Secret(status: SecretStatus, material: Option<string>, updatedAt: nat)

  /** The rows an erasure request has planned. */
  datatype Plan = Plan(connections: map<string, RowId>, reservations: set<string>, secrets: set<string>)

  /** Fences by connection key, by id of a connection row, by secret key and by subject. */
  datatype State = State(
    connections: map<string, Connection>, accounts: map<string, Account>,
    reservations: map<string, string>, secrets: map<string, Secret>,
    fencedConnections: set<string>, fencedRows: set<RowId>, fencedSecrets: set<string>, fencedSubjects: set<string>, plans: set<Plan>)

  function ManagedKeys(refs: Refs): set<string> {
    set f | f in refs && refs[f].Managed? :: refs[f].key
  }

  predicate AllManaged(refs: Refs) {
    forall f :: f in refs ==> refs[f].Managed? && refs[f].key != ""
  }

  function ReservedBy(s: State, connection: string): set<string> {
    set k | k in s.reservations && s.reservations[k] == connection
  }

  // ----- the transactions, None is a rollback -----

  predicate FreeFor(s: State, connection: string, refs: Refs) {
    forall k :: k in ManagedKeys(refs) && k in s.reservations ==> s.reservations[k] == connection
  }

  predicate NotAliased(s: State, connection: string, keys: set<string>) {
    forall c :: c in s.connections && c != connection ==> ManagedKeys(s.connections[c].refs) !! keys
  }

  predicate AllActive(s: State, keys: set<string>) {
    forall k :: k in keys ==> k in s.secrets && s.secrets[k].status == Active && s.secrets[k].material.Some?
  }

  predicate SyncAllowed(s: State, connection: string, refs: Refs) {
    && FreeFor(s, connection, refs)
    && (connection in s.accounts ==> AllManaged(refs) && NotAliased(s, connection, ManagedKeys(refs)) && AllActive(s, ManagedKeys(refs)))
  }

  function SyncedReservations(s: State, connection: string, refs: Refs): map<string, string> {
    if connection !in s.accounts then s.reservations
    else
      var kept := map k | k in s.reservations && s.reservations[k] != connection :: s.reservations[k];
      kept + map k | k in ManagedKeys(refs) :: connection
  }

  function Sync(s: State, connection: string, refs: Refs): Option<State> {
    if SyncAllowed(s, connection, refs) then Some(s.(reservations := SyncedReservations(s, connection, refs))) else None
  }

  /** The row of an upsert: an existing row keeps its id, and a fenced row stays as it is. */
  function SavedRow(s: State, key: string, value: Connection): State {
    if key !in s.connections then s.(connections := s.connections[key := value.(id := OwnerRow(key))])
    else if s.connections[key].id in s.fencedRows then s
    else s.(connections := s.connections[key := value.(id := s.connections[key].id)])
  }

  /** An upsert whose workspace and key arrive trimmed. */
  function Upsert(s: State, key: string, actor: string, value: Connection): Option<State> {
    if key in s.fencedConnections || actor in s.fencedSubjects then None else Sync(WrittenRow(s, key, value), key, value.refs)
  }

  function WrittenRow(s: State, key: string, value: Connection): State {
    s.(connections := s.connections[key := value.(id := if key in s.connections then s.connections[key].id else OwnerRow(key))])
  }

  /** Fences are stored under the trimmed workspace, and found only if it is spelled so. */
  predicate FencesFound(workspaceId: string) {
    Trim(workspaceId) == workspaceId
  }

  /** Workspace and key as the caller spells them: the fences are read before both are trimmed. */
  function UpsertSpelled(s: State, workspaceId: string, raw: string, actor: string, value: Connection): Option<State> {
    if FencesFound(workspaceId) && (raw in s.fencedConnections || actor in s.fencedSubjects) then None
    else if Trim(workspaceId) == "" || Trim(raw) == "" then None
    else Sync(SavedRow(s, Trim(raw), value), Trim(raw), value.refs)
  }

  function Register(s: State, key: string, account: Account): Option<State> {
    if account.owner in s.fencedSubjects || key in s.fencedConnections || key !in s.connections then None
    else if key in s.accounts then (if s.accounts[key] == account then Some(s) else None)
    else Sync(s.(accounts := s.accounts[key := account]), key, s.connections[key].refs)
  }

  function Delete(s: State, key: string): Option<State> {
    if key !in s.connections then None
    else Some(s.(connections := s.connections - {key}, accounts := s.accounts - {key},
                 reservations := map k | k in s.reservations && s.reservations[k] != key :: s.reservations[k]))
  }

  /** Manifest synchronisation never touches references and ignores fences on insert. */
  function SyncManifest(s: State, key: string, status: ConnectionStatus, now: nat): State {
    if key !in s.connections then s.(connections := s.connections[key := Connection(ManifestRow(key), status, map[], now)])
    else if s.connections[key].id in s.fencedRows then s
    else s.(connections := s.connections[key := s.connections[key].(status := status, updatedAt := now)])
  }

  datatype RevokeResult = Unchanged | Changed | Missing | Performed

  function RevokeOutcome(s: State, key: string, expected: nat): RevokeResult {
    if key !in s.accounts || key !in s.connections then Missing
    else if s.connections[key].status == ConnectionRevoked then Unchanged
    else if s.connections[key].updatedAt != expected || s.connections[key].id in s.fencedRows then Changed
    else Performed
  }

  function RevokedSecrets(s: State, keys: set<string>, now: nat): map<string, Secret> {
    map k | k in s.secrets :: if k in keys && s.secrets[k].status == Active && k !in s.fencedSecrets
                              then s.secrets[k].(status := Revoked, updatedAt := now) else s.secrets[k]
  }

  function Revoke(s: State, key: string, expected: nat, now: nat): State {
    if RevokeOutcome(s, key, expected) != Performed then s
    else s.(connections := s.connections[key := s.connections[key].(status := ConnectionRevoked, updatedAt := now)],
            secrets := RevokedSecrets(s, ReservedBy(s, key), now))
  }

  /** Any other writer of secrets: it is refused on fenced keys and never empties a material. */
  function WriteSecret(s: State, key: string, value: Secret): State {
    if key in s.fencedSecrets then s else s.(secrets := s.secrets[key := value])
  }

  /** An empty value leaves the stored material as it was. */
  function Written(s: State, key: string, value: string, now: nat): Secret {
    Secret(Active, if value != "" then Some(value) else if key in s.secrets then s.secrets[key].material else None, now)
  }

  function UpsertSecret(s: State, key: string, actor: string, value: string, now: nat): Option<State> {
    if key in s.fencedSecrets || actor in s.fencedSubjects then None else Some(WriteSecret(s, key, Written(s, key, value, now)))
  }

  /** Workspace and key as the caller spells them. Only a value makes the fence of the trimmed key
      be read under the trimmed workspace, and a row that is there under a fenced key stays. */
  function UpsertSecretSpelled(s: State, workspaceId: string, raw: string, actor: string, value: string, now: nat): Option<State> {
    var key := Trim(raw);
    if FencesFound(workspaceId) && (raw in s.fencedSecrets || actor in s.fencedSubjects) then None
    else if Trim(workspaceId) == "" || key == "" || (value != "" && key in s.fencedSecrets) then None
    else if key in s.fencedSecrets then
      Some(if key in s.secrets then s else s.(secrets := s.secrets[key := Secret(Active, None, now)]))
    else Some(WriteSecret(s, key, Written(s, key, value, now)))
  }

  // ----- erasure of a subject -----

  function SubjectConnections(s: State, subject: string): set<string> {
    set c | c in s.accounts && s.accounts[c].personal && s.accounts[c].owner == subject
  }

  function Owned(s: State, own: set<string>): set<string> {
    (set c, k | c in s.connections && c in own && k in ManagedKeys(s.connections[c].refs) :: k)
    + (set k | k in s.reservations && s.reservations[k] in own)
  }

  function Shared(s: State, own: set<string>): set<string> {
    set c, k | c in s.connections && c !in own && k in ManagedKeys(s.connections[c].refs) :: k
  }

  function Collect(s: State, subject: string): Plan {
    var own := SubjectConnections(s, subject);
    Plan((map c | c in s.connections && c in own :: s.connections[c].id),
         (set k | k in s.reservations && s.reservations[k] in own),
         Owned(s, own) - Shared(s, own))
  }

  function Prepare(s: State, subject: string): State {
    var p := Collect(s, subject);
    s.(connections := map c | c in s.connections :: if c in p.connections then s.connections[c].(status := ConnectionErasing) else s.connections[c],
       secrets := map k | k in s.secrets :: if k in p.secrets then s.secrets[k].(status := SecretErasing) else s.secrets[k],
       fencedConnections := s.fencedConnections + SubjectConnections(s, subject), fencedRows := s.fencedRows + p.connections.Values,
       fencedSecrets := s.fencedSecrets + p.secrets,
       fencedSubjects := s.fencedSubjects + {subject}, plans := s.plans + {p})
  }

  predicate PlannedRow(s: State, p: Plan, c: string) {
    c in p.connections && c in s.connections && s.connections[c].id == p.connections[c]
  }

  function Erase(s: State, p: Plan, now: nat): State {
    if p !in s.plans then s
    else s.(connections := map c | c in s.connections :: if PlannedRow(s, p, c) then Connection(s.connections[c].id, ConnectionRevoked, map[], now) else s.connections[c],
            reservations := map k | k in s.reservations && !(k in p.reservations && s.reservations[k] in p.connections) :: s.reservations[k],
            secrets := s.secrets - p.secrets)
  }

  // ----- the invariant -----

  ghost predicate AccountInv(s: State, a: string)
    requires a in s.accounts
  {
    a in s.connections && AllManaged(s.connections[a].refs) && ReservedBy(s, a) == ManagedKeys(s.connections[a].refs)
  }

  ghost predicate PlanInv(s: State, p: Plan) {
    && p.connections.Keys <= s.fencedConnections && p.connections.Values <= s.fencedRows && p.secrets <= s.fencedSecrets
    && (forall k :: k in s.reservations && s.reservations[k] in p.connections ==> k in p.reservations)
    && (forall c :: c in p.connections && c in s.accounts ==> PlannedRow(s, p, c))
  }

  predicate Unusable(secret: Secret) {
    secret.status != Active || secret.material.None?
  }

  predicate FencedUnusable(s: State) {
    forall k :: k in s.fencedSecrets && k in s.secrets ==> Unusable(s.secrets[k])
  }

  /** Row ids tell the key they were made from, and a row is fenced together with its key. */
  predicate KeyedIds(s: State) {
    && (forall c :: c in s.connections ==> s.connections[c].id.key == c)
    && (forall id :: id in s.fencedRows ==> id.key in s.fencedConnections)
  }

  /** Every account reserves exactly the keys its connection references, and nobody else
      references a reserved key. A key has one reservation because reservations are keyed by it. */
  ghost predicate Exclusive(s: State) {
    && (forall a :: a in s.accounts ==> AccountInv(s, a))
    && (forall k :: k in s.reservations ==> s.reservations[k] in s.accounts)
    && (forall c, k :: c in s.connections && k in ManagedKeys(s.connections[c].refs) && k in s.reservations ==> s.reservations[k] == c)
    && FencedUnusable(s) && KeyedIds(s)
    && (forall p :: p in s.plans ==> PlanInv(s, p))
  }

  /** A synchronisation after one connection row or one account row was written. */
  ghost predicate SyncStep(s: State, t: State, key: string, refs: Refs, v: State) {
    && key in t.connections && t.connections[key].refs == refs && t.connections[key].id.key == key && (forall p :: p in s.plans && key in p.connections ==> key !in t.accounts)
    && (forall c :: c in t.connections <==> c in s.connections || c == key)
    && (forall c :: c in s.connections && c != key ==> t.connections[c] == s.connections[c])
    && (forall a :: a in t.accounts && a != key ==> a in s.accounts)
    && (forall a :: a in s.accounts ==> a in t.accounts)
    && t == s.(connections := t.connections, accounts := t.accounts)
    && SyncAllowed(t, key, refs) && v == t.(reservations := SyncedReservations(t, key, refs))
  }

  lemma SyncOtherAccount(s: State, t: State, key: string, refs: Refs, v: State, a: string)
    requires SyncStep(s, t, key, refs, v)
    requires a != key && a in s.accounts && AccountInv(s, a)
    ensures AccountInv(v, a)
  {
    assert ReservedBy(v, a) == ReservedBy(s, a);
  }

  lemma SyncOwnAccount(s: State, t: State, key: string, refs: Refs, v: State)
    requires SyncStep(s, t, key, refs, v) && key in t.accounts
    ensures AccountInv(v, key)
  {
    assert ReservedBy(v, key) == ManagedKeys(refs);
  }

  lemma SyncAccounts(s: State, t: State, key: string, refs: Refs, v: State)
    requires SyncStep(s, t, key, refs, v)
    requires forall a :: a in s.accounts ==> AccountInv(s, a)
    requires forall k :: k in s.reservations ==> s.reservations[k] in s.accounts
    ensures forall a :: a in v.accounts ==> AccountInv(v, a)
    ensures forall k :: k in v.reservations ==> v.reservations[k] in v.accounts
  {
    forall a | a in v.accounts ensures AccountInv(v, a) {
      if a != key {
        SyncOtherAccount(s, t, key, refs, v, a);
      } else {
        SyncOwnAccount(s, t, key, refs, v);
      }
    }
  }

  lemma SyncReferences(s: State, t: State, key: string, refs: Refs, v: State)
    requires Exclusive(s) && SyncStep(s, t, key, refs, v)
    ensures forall c, k :: c in v.connections && k in ManagedKeys(v.connections[c].refs) && k in v.reservations ==> v.reservations[k] == c
  {
    forall c, k | c in v.connections && k in ManagedKeys(v.connections[c].refs) && k in v.reservations ensures v.reservations[k] == c {
      if c != key && key in t.accounts {
        assert ManagedKeys(t.connections[c].refs) !! ManagedKeys(refs);
      }
    }
  }

  lemma SyncPlans(s: State, t: State, key: string, refs: Refs, v: State)
    requires SyncStep(s, t, key, refs, v)
    requires forall p :: p in s.plans ==> PlanInv(s, p)
    ensures forall p :: p in v.plans ==> PlanInv(v, p)
  {
    forall p | p in v.plans ensures PlanInv(v, p) {
      assert PlanInv(s, p);
      forall c | c in p.connections && c in v.accounts ensures PlannedRow(v, p, c) {
        assert c in s.accounts && PlannedRow(s, p, c);
      }
    }
  }

  lemma SyncKeeps(s: State, t: State, key: string, refs: Refs, v: State)
    requires Exclusive(s) && SyncStep(s, t, key, refs, v)
    ensures Exclusive(v)
  {
    SyncAccounts(s, t, key, refs, v);
    SyncReferences(s, t, key, refs, v);
    SyncPlans(s, t, key, refs, v);
  }

  /** The upsert would change the reservations of an account whose row is fenced. */
  predicate Slips(s: State, key: string, refs: Refs) {
    && key in s.accounts && key in s.connections && s.connections[key].id in s.fencedRows
    && ManagedKeys(refs) != ManagedKeys(s.connections[key].refs)
  }

  lemma SameReservations(s: State, key: string, refs: Refs)
    requires Exclusive(s) && SyncAllowed(s, key, refs) && key in s.accounts && ManagedKeys(refs) == ManagedKeys(s.connections[key].refs)
    ensures SyncedReservations(s, key, refs) == s.reservations
  {
    assert AccountInv(s, key);
    forall k ensures (k in s.reservations && s.reservations[k] == key) <==> k in ManagedKeys(refs) { assert k in ReservedBy(s, key) <==> k in ManagedKeys(refs); }
  }

  lemma SaveOnFencedRow(s: State, key: string, value: Connection, v: State)
    requires Exclusive(s) && Sync(s, key, value.refs) == Some(v) && key in s.connections && s.connections[key].id in s.fencedRows
    ensures Exclusive(v) <==> !Slips(s, key, value.refs)
  {
    if key in s.accounts {
      if Slips(s, key, value.refs) {
        assert ReservedBy(v, key) == ManagedKeys(value.refs);
        assert !AccountInv(v, key);
      } else {
        SameReservations(s, key, value.refs);
      }
    }
  }

  /** An upsert keeps credentials exclusive exactly when it does not slip: the row fence stops
      the row of an erased account, and its reservations are synchronised all the same. */
  lemma SaveKeepsIff(s: State, key: string, value: Connection, v: State)
    requires Exclusive(s) && Sync(SavedRow(s, key, value), key, value.refs) == Some(v)
    ensures Exclusive(v) <==> !Slips(s, key, value.refs)
  {
    if key in s.connections && s.connections[key].id in s.fencedRows {
      SaveOnFencedRow(s, key, value, v);
    } else {
      forall p | p in s.plans && key in p.connections ensures key !in s.accounts {
        assert PlanInv(s, p) && p.connections[key] in p.connections.Values;
      }
      SyncKeeps(s, SavedRow(s, key, value), key, value.refs, v);
    }
  }

  lemma UpsertKeeps(s: State, key: string, actor: string, value: Connection)
    requires Exclusive(s) && Upsert(s, key, actor, value).Some?
    ensures Exclusive(Upsert(s, key, actor, value).value)
  {
    forall p | p in s.plans ensures key !in p.connections { assert PlanInv(s, p); }
    SyncKeeps(s, WrittenRow(s, key, value), key, value.refs, Upsert(s, key, actor, value).value);
  }

  /** Trimmed arguments are upserted as spelled: a row whose key is not fenced is not fenced. */
  lemma TrimmedUpsertIsSpelled(s: State, workspaceId: string, key: string, actor: string, value: Connection)
    requires KeyedIds(s) && Trim(workspaceId) == workspaceId != "" && Trim(key) == key != ""
    ensures UpsertSpelled(s, workspaceId, key, actor, value) == Upsert(s, key, actor, value)
  {
    if key !in s.fencedConnections {
      assert key in s.connections ==> s.connections[key].id !in s.fencedRows;
      assert SavedRow(s, key, value) == WrittenRow(s, key, value);
    }
  }

  lemma UpsertSpelledKeepsIff(s: State, workspaceId: string, raw: string, actor: string, value: Connection)
    requires Exclusive(s) && UpsertSpelled(s, workspaceId, raw, actor, value).Some?
    ensures Exclusive(UpsertSpelled(s, workspaceId, raw, actor, value).value) <==> !Slips(s, Trim(raw), value.refs)
    ensures Slips(s, Trim(raw), value.refs) ==> Trim(raw) in s.fencedConnections && (Trim(raw) != raw || Trim(workspaceId) != workspaceId)
  {
    SaveKeepsIff(s, Trim(raw), value, UpsertSpelled(s, workspaceId, raw, actor, value).value);
  }

  lemma RegisterKeeps(s: State, key: string, account: Account)
    requires Exclusive(s) && Register(s, key, account).Some?
    ensures Exclusive(Register(s, key, account).value)
  {
    if key !in s.accounts {
      SyncKeeps(s, s.(accounts := s.accounts[key := account]), key, s.connections[key].refs, Register(s, key, account).value);
    }
  }

  lemma DeleteKeeps(s: State, key: string)
    requires Exclusive(s) && Delete(s, key).Some?
    ensures Exclusive(Delete(s, key).value)
  {
    var v := Delete(s, key).value;
    forall a | a in v.accounts ensures AccountInv(v, a) {
      assert AccountInv(s, a);
      assert ReservedBy(v, a) == ReservedBy(s, a);
    }
    forall p | p in v.plans ensures PlanInv(v, p) { assert PlanInv(s, p); }
  }

  /** Steps that leave accounts, references and reservations as they are. */
  lemma SameReferencesKeep(s: State, v: State)
    requires Exclusive(s) && v.accounts == s.accounts && v.reservations == s.reservations
    requires forall c :: c in s.connections ==> c in v.connections && v.connections[c].refs == s.connections[c].refs && v.connections[c].id == s.connections[c].id
    requires forall c :: c in v.connections && c !in s.connections ==> v.connections[c].refs == map[] && v.connections[c].id.key == c
    requires v.fencedConnections == s.fencedConnections && v.fencedRows == s.fencedRows && v.fencedSecrets == s.fencedSecrets && v.plans == s.plans
    requires FencedUnusable(v)
    ensures Exclusive(v)
  {
    forall a | a in v.accounts ensures AccountInv(v, a) {
      assert AccountInv(s, a);
      assert ReservedBy(v, a) == ReservedBy(s, a);
    }
    forall p | p in v.plans ensures PlanInv(v, p) { assert PlanInv(s, p); }
  }

  lemma CollectCovers(s: State, subject: string)
    requires Exclusive(s)
    ensures var own := SubjectConnections(s, subject);
            var p := Collect(s, subject);
            && p.connections.Keys == own
            && p.secrets == (set c, k | c in own && c in s.connections && k in ManagedKeys(s.connections[c].refs) :: k)
            && p.secrets == p.reservations
            && p.secrets !! Shared(s, own)
  {
    var own := SubjectConnections(s, subject);
    var p := Collect(s, subject);
    forall c | c in own ensures c in s.connections && ReservedBy(s, c) == ManagedKeys(s.connections[c].refs) { assert AccountInv(s, c); }
    forall k | k in p.reservations ensures k in (set c, k | c in own && c in s.connections && k in ManagedKeys(s.connections[c].refs) :: k) {
      var c := s.reservations[k];
      assert k in ReservedBy(s, c);
    }
    forall c, k | c in own && c in s.connections && k in ManagedKeys(s.connections[c].refs) ensures k in s.reservations && s.reservations[k] == c {
      assert k in ReservedBy(s, c);
    }
  }

  lemma PreparePlans(s: State, subject: string, v: State, p: Plan)
    requires Exclusive(s) && v == Prepare(s, subject) && p in v.plans
    ensures PlanInv(v, p)
  {
    if p in s.plans {
      assert PlanInv(s, p);
    } else {
      CollectCovers(s, subject);
    }
  }

  lemma PrepareKeeps(s: State, subject: string)
    requires Exclusive(s)
    ensures Exclusive(Prepare(s, subject))
  {
    var v := Prepare(s, subject);
    forall a | a in v.accounts ensures AccountInv(v, a) {
      assert AccountInv(s, a);
      assert ReservedBy(v, a) == ReservedBy(s, a);
    }
    forall p | p in v.plans ensures PlanInv(v, p) { PreparePlans(s, subject, v, p); }
  }

  lemma EraseAccount(s: State, p: Plan, now: nat, v: State, a: string)
    requires a in s.accounts && AccountInv(s, a) && PlanInv(s, p) && p in s.plans && v == Erase(s, p, now)
    ensures AccountInv(v, a)
  {
    if a !in p.connections {
      assert ReservedBy(v, a) == ReservedBy(s, a);
    } else {
      assert PlannedRow(s, p, a) && v.connections[a].refs == map[];
      assert ReservedBy(v, a) == {};
    }
  }

  lemma ErasePlans(s: State, p: Plan, now: nat, v: State)
    requires Exclusive(s) && p in s.plans && v == Erase(s, p, now)
    ensures forall q :: q in v.plans ==> PlanInv(v, q)
  {
    forall q | q in v.plans ensures PlanInv(v, q) {
      assert PlanInv(s, q);
      forall c | c in q.connections && c in v.accounts ensures PlannedRow(v, q, c) { assert PlannedRow(s, q, c); }
    }
  }

  lemma EraseReferences(s: State, p: Plan, now: nat, v: State)
    requires Exclusive(s) && p in s.plans && v == Erase(s, p, now)
    ensures forall k :: k in v.reservations ==> v.reservations[k] in v.accounts
    ensures forall c, k :: c in v.connections && k in ManagedKeys(v.connections[c].refs) && k in v.reservations ==> v.reservations[k] == c
    ensures FencedUnusable(v) && KeyedIds(v)
  {
  }

  lemma EraseKeeps(s: State, p: Plan, now: nat)
    requires Exclusive(s)
    ensures Exclusive(Erase(s, p, now))
  {
    if p in s.plans {
      var v := Erase(s, p, now);
      forall a | a in v.accounts ensures AccountInv(v, a) { EraseAccount(s, p, now, v, a); }
      ErasePlans(s, p, now, v);
      EraseReferences(s, p, now, v);
    }
  }
}
