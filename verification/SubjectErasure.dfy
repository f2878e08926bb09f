/** Erasure of a subject's rows: the request, its plan, the transactions that prepare
    and carry it out.
    internal/infrastructure/persistence/database/integration/subject_erasure.go */
module SubjectErasure {
  import opened Basics
  import opened Text
  import opened Sorting
  import opened Fences

  datatype Resource = Resource(objectKey: string, recordId: string)

  datatype Request = Request(workspaceId: string, subjectId: string, requestId: string,
    resources: seq<Resource>, messageIds: seq<string>, eventIds: seq<string>, legalHolds: string)

  predicate ResourceLess(a: Resource, b: Resource) {
    if a.objectKey != b.objectKey then Less(a.objectKey, b.objectKey) else Less(a.recordId, b.recordId)
  }

  lemma ResourceOrder()
    ensures StrictOrder(ResourceLess)
  {
    forall a ensures !ResourceLess(a, a) { LessIsIrreflexive(a.recordId); }
    forall a, b ensures ResourceLess(a, b) || a == b || ResourceLess(b, a) {
      LessIsTotal(a.objectKey, b.objectKey);
      LessIsTotal(a.recordId, b.recordId);
    }
    forall a, b, c | ResourceLess(a, b) && ResourceLess(b, c) ensures ResourceLess(a, c) { ResourceLessIsTransitive(a, b, c); }
  }

  lemma ResourceLessIsTransitive(a: Resource, b: Resource, c: Resource)
    requires ResourceLess(a, b) && ResourceLess(b, c)
    ensures ResourceLess(a, c)
  {
    LessIsIrreflexive(a.objectKey);
    if a.objectKey != b.objectKey && b.objectKey != c.objectKey {
      LessIsTransitive(a.objectKey, b.objectKey, c.objectKey);
    } else if a.objectKey == b.objectKey && b.objectKey == c.objectKey {
      LessIsTransitive(a.recordId, b.recordId, c.recordId);
    }
  }

  /** Legal holds are dropped, the three lists are sorted and freed of duplicates. */
  function Normalize(r: Request): Request {
    r.(legalHolds := "", resources := Listing(r.resources, ResourceLess),
       messageIds := Listing(r.messageIds, Less), eventIds := Listing(r.eventIds, Less))
  }

  ghost predicate SameElements<T(!new)>(a: seq<T>, b: seq<T>) {
    forall x :: x in a <==> x in b
  }

  ghost predicate SameUpToOrder(a: Request, b: Request) {
    && a.workspaceId == b.workspaceId && a.subjectId == b.subjectId && a.requestId == b.requestId
    && SameElements(a.resources, b.resources) && SameElements(a.messageIds, b.messageIds) && SameElements(a.eventIds, b.eventIds)
  }

  lemma TextListings(a: seq<string>, b: seq<string>)
    ensures Listing(a, Less) == Listing(b, Less) <==> SameElements(a, b)
  {
    TextOrder();
    ListingEqualIff(a, b, Less);
  }

  lemma ResourceListings(a: seq<Resource>, b: seq<Resource>)
    ensures Listing(a, ResourceLess) == Listing(b, ResourceLess) <==> SameElements(a, b)
  {
    ResourceOrder();
    ListingEqualIff(a, b, ResourceLess);
  }

  /** The stored form identifies a request exactly up to order, duplicates and legal holds. */
  lemma NormalizedEqualIff(a: Request, b: Request)
    ensures Normalize(a) == Normalize(b) <==> SameUpToOrder(a, b)
  {
    ResourceListings(a.resources, b.resources);
    TextListings(a.messageIds, b.messageIds);
    TextListings(a.eventIds, b.eventIds);
  }

  // ----- tables -----

  datatype RowRef = RowRef(workspaceId: string, table: string, id: string)

  /** Text columns; a missing column is NULL. */
  datatype Row = Row(columns: map<string, string>, token: nat)

  /** How a table takes part: its status column ("" when it has none), the statuses that are
      in flight, whether its rows are deleted, whether they carry a lease, and otherwise what
      they are overwritten with. */
  datatype Spec = Spec(status: string, busy: set<string>, erase: bool, token: bool, values: map<string, string>)

  type Specs = map<string, Spec>

  const ACCOUNTS := "_integration_connection_accounts"
  const CONNECTIONS := "_integration_connections"
  const RESERVATIONS := "_integration_connection_account_secrets"
  const LEASES := "_integration_credential_refresh_leases"
  const GRANTS := "_integration_connection_grants"
  const STATES := "_integration_connector_provider_states"
  const COMMITS := "_integration_connector_provider_commits"
  const WEBHOOKS := "_integration_webhook_subscriptions"
  const SESSIONS := "_integration_oauth_sessions"
  const WEB_PUSH := "_integration_web_push_subscriptions"
  const API_KEYS := "_integration_api_keys"
  const IDENTITIES := "_integration_external_identities"
  const SECRETS := "_integration_secrets"
  const MATERIALS := "_integration_secret_materials"
  const INVOCATIONS := "_integration_invocations"
  const EVENTS := "_integration_events"
  const INTENTS := "_integration_event_mapping_intents"

  const SUBJECT_SPECS: Specs := map[
    ACCOUNTS := Spec("", {}, false, false, map["created_by" := "anonymous"]),
    CONNECTIONS := Spec("status", {}, false, false,
      map["name" := "", "config_json" := "{}", "secret_refs_json" := "{}", "created_by" := "anonymous", "status" := "revoked"]),
    RESERVATIONS := Spec("", {}, true, false, map[]),
    GRANTS := Spec("", {}, true, false, map[]),
    STATES := Spec("status", {"processing", "running"}, false, true,
      map["payload_json" := "{}", "status" := "cancelled", "lease_owner" := "", "lease_expires_at" := "", "due_at" := "", "last_error_code" := "integration.subject_erased"]),
    COMMITS := Spec("status", {"processing", "running"}, false, true,
      map["payload_json" := "{}", "status" := "cancelled", "lease_owner" := "", "lease_expires_at" := "", "due_at" := ""]),
    LEASES := Spec("lease_expires_at", {}, true, false, map[]),
    WEBHOOKS := Spec("status", {}, false, false,
      map["name" := "", "description" := "", "event_types_json" := "[]", "created_by" := "anonymous", "status" := "disabled"]),
    SESSIONS := Spec("status", {"exchanging"}, true, false, map[]),
    WEB_PUSH := Spec("status", {}, true, false, map[]),
    API_KEYS := Spec("status", {}, true, false, map[]),
    IDENTITIES := Spec("status", {}, true, false, map[]),
    SECRETS := Spec("status", {}, true, false, map[]),
    MATERIALS := Spec("", {}, true, false, map[]),
    INVOCATIONS := Spec("status", {"running", "processing", "reconciling"}, false, false,
      map["metadata_json" := "{}", "request_ref" := "", "response_ref" := "", "error" := "", "status" := "failed"]),
    EVENTS := Spec("status", {"processing", "running"}, false, true,
      map["payload_json" := "{}", "error" := "", "status" := "cancelled", "next_retry_at" := "", "lease_owner" := "", "lease_expires_at" := ""]),
    INTENTS := Spec("status", {}, false, false, map["payload_json" := "{}", "status" := "cancelled"])]

  /** Tables whose rows nothing deletes. */
  const KEPT := {STATES, COMMITS, INVOCATIONS, EVENTS, INTENTS}

  /** The columns that identify a row of a table; no UPDATE sets them. */
  function KeyColumns(table: string): set<string> {
    if table in {ACCOUNTS, CONNECTIONS, GRANTS} then {"connection_key"}
    else if table == RESERVATIONS then {"connection_key", "secret_key"}
    else if table in {SECRETS, MATERIALS} then {"secret_key"}
    else if table == WEBHOOKS then {"subscription_key"}
    else {}
  }

  /** What the protocol needs from the table of specs. */
  predicate Coherent(specs: Specs) {
    ConnectionsAnonymized(specs) && EachCoherent(specs) && EachKeyStays(specs) && KeptStay(specs) && PeopleErased(specs) && UseEnded(specs)
  }

  predicate PeopleErased(specs: Specs) {
    (forall t :: t in {SECRETS, WEB_PUSH, IDENTITIES, API_KEYS} ==> t in specs && specs[t].erase) && specs[SECRETS].status == "status"
  }

  predicate UseEnded(specs: Specs) {
    forall t :: t in {CONNECTIONS, WEBHOOKS} ==>
      t in specs && !specs[t].erase && "status" in specs[t].values && specs[t].values["status"] != "active"
  }

  predicate ConnectionsAnonymized(specs: Specs) {
    && CONNECTIONS in specs && !specs[CONNECTIONS].erase
    && "created_by" in specs[CONNECTIONS].values && specs[CONNECTIONS].values["created_by"] == "anonymous" && specs[CONNECTIONS].status != "created_by"
  }

  predicate EachCoherent(specs: Specs) {
    forall t :: t in specs ==> CoherentSpec(specs[t])
  }

  predicate EachKeyStays(specs: Specs) {
    forall t :: t in specs ==> KeysStay(t, specs[t])
  }

  predicate KeptStay(specs: Specs) {
    forall t :: t in specs && t in KEPT ==> !specs[t].erase
  }

  /** Neither marking nor redaction sets an identifying column. */
  predicate KeysStay(table: string, spec: Spec) {
    forall c :: c in KeyColumns(table) ==> c !in spec.values && c != spec.status && c !in {"lease_owner", "lease_expires_at", "updated_at"}
  }

  predicate CoherentSpec(spec: Spec) {
    && "updated_at" !in spec.values && spec.status != "lease_owner"
    && (spec.token ==> spec.status != "lease_expires_at")
    && (spec.token && "lease_owner" in spec.values ==> spec.values["lease_owner"] == "")
    && (spec.token && "lease_expires_at" in spec.values ==> spec.values["lease_expires_at"] == "")
  }

  lemma EachSubjectSpecIsCoherent(table: string)
    requires table in SUBJECT_SPECS
    ensures CoherentSpec(SUBJECT_SPECS[table])
  {
  }

  lemma EachSubjectKeyStays(table: string)
    requires table in SUBJECT_SPECS
    ensures KeysStay(table, SUBJECT_SPECS[table])
  {
    if table in {ACCOUNTS, CONNECTIONS, GRANTS, RESERVATIONS, SECRETS, MATERIALS, WEBHOOKS} {
      var spec := SUBJECT_SPECS[table];
      forall c | c in KeyColumns(table) ensures c !in spec.values && c != spec.status { }
    }
  }

  lemma EachSubjectSpecsAreCoherent()
    ensures EachCoherent(SUBJECT_SPECS)
  {
    forall t | t in SUBJECT_SPECS ensures CoherentSpec(SUBJECT_SPECS[t]) { EachSubjectSpecIsCoherent(t); }
  }

  lemma EachSubjectKeysStay()
    ensures EachKeyStays(SUBJECT_SPECS)
  {
    forall t | t in SUBJECT_SPECS ensures KeysStay(t, SUBJECT_SPECS[t]) { EachSubjectKeyStays(t); }
  }

  lemma SubjectKeptStay()
    ensures KeptStay(SUBJECT_SPECS)
  {
    forall t | t in SUBJECT_SPECS && t in KEPT ensures !SUBJECT_SPECS[t].erase { }
  }

  lemma SubjectConnectionsAnonymized()
    ensures ConnectionsAnonymized(SUBJECT_SPECS)
  {
    assert CONNECTIONS in SUBJECT_SPECS;
  }

  lemma SubjectPeopleErased()
    ensures PeopleErased(SUBJECT_SPECS)
  {
  }

  lemma SubjectUseEnded()
    ensures UseEnded(SUBJECT_SPECS)
  {
  }

  lemma SubjectSpecsAreCoherent()
    ensures Coherent(SUBJECT_SPECS)
  {
    SubjectConnectionsAnonymized();
    SubjectKeptStay();
    SubjectPeopleErased();
    SubjectUseEnded();
    EachSubjectSpecsAreCoherent();
    EachSubjectKeysStay();
  }

  // ----- the inventory -----

  datatype Metadata = Metadata(kind: string, actorId: string, objectKey: string, recordId: string)

  /** Decoding of stored text: invocation metadata, the managed secrets that references name,
      and whether a refresh lease is over. */
  datatype Host = Host(metadata: string -> Option<Metadata>, references: string -> Option<set<string>>, leaseOver: string -> bool)

  /** What tracing found: the subject's events and external identities. */
  datatype Trace = Trace(eventIds: set<string>, external: set<(string, string)>)

  /** Keys found before the tables are searched: the subject's connections, the credentials
      nobody else references, and what tracing found. */
  datatype Inventory = Inventory(connectionKeys: set<string>, secretKeys: set<string>, eventIds: set<string>, external: set<(string, string)>)

  predicate Column(row: Row, name: string, values: set<string>) {
    name in row.columns && row.columns[name] in values
  }

  predicate ActorInvocation(row: Row, r: Request, host: Host) {
    && "metadata_json" in row.columns && host.metadata(row.columns["metadata_json"]).Some?
    && var m := host.metadata(row.columns["metadata_json"]).value;
       || (m.kind == "account-write-v1" && m.actorId == r.subjectId)
       || (m.kind == "operation-v1" && (m.actorId == r.subjectId || Resource(m.objectKey, m.recordId) in r.resources))
  }

  predicate OfResource(row: Row, r: Request) {
    "object_key" in row.columns && "record_id" in row.columns && Resource(row.columns["object_key"], row.columns["record_id"]) in r.resources
  }

  predicate Covers(ref: RowRef, row: Row, r: Request, inv: Inventory, host: Host) {
    if ref.table in {SESSIONS, WEB_PUSH} then Column(row, "user_id", {r.subjectId})
    else if ref.table in {API_KEYS, IDENTITIES} then Column(row, "actor_id", {r.subjectId})
    else if ref.table in {SECRETS, MATERIALS} then Column(row, "secret_key", inv.secretKeys)
    else if ref.table == INVOCATIONS then
      || Column(row, "connection_key", inv.connectionKeys) || ActorInvocation(row, r, host)
      || Column(row, "request_ref", set m | m in r.messageIds) || Column(row, "event_id", inv.eventIds) || OfResource(row, r)
    else if ref.table == EVENTS then ref.id in inv.eventIds
    else if ref.table == INTENTS then Column(row, "event_id", inv.eventIds)
    else Column(row, "connection_key", inv.connectionKeys)
  }

  datatype Plan = Plan(request: Request, connectionKeys: set<string>, secretKeys: set<string>, external: set<(string, string)>, rows: set<RowRef>)

  /** `result` is the number of records once the plan was carried out. */
  datatype Receipt = Receipt(subjectId: string, plan: Plan, result: Option<nat>)

  datatype State = State(rows: map<RowRef, Row>, fences: set<Fence>, receipts: map<(string, string), Receipt>)

  predicate PersonalAccount(ref: RowRef, row: Row, r: Request) {
    && ref.table == ACCOUNTS && ref.workspaceId == r.workspaceId
    && Column(row, "scope", {"personal"}) && Column(row, "owner_user_id", {r.subjectId}) && "connection_key" in row.columns
  }

  function PersonalKeys(s: State, r: Request): set<string> {
    set ref | ref in s.rows && PersonalAccount(ref, s.rows[ref], r) :: s.rows[ref].columns["connection_key"]
  }

  /** The references of a connection can be read. */
  predicate Decodes(row: Row, host: Host) {
    "connection_key" in row.columns && "secret_refs_json" in row.columns && host.references(row.columns["secret_refs_json"]).Some?
  }

  function ReferencedBy(row: Row, host: Host): set<string> {
    if Decodes(row, host) then host.references(row.columns["secret_refs_json"]).value else {}
  }

  predicate IsConnection(ref: RowRef, r: Request) {
    ref.table == CONNECTIONS && ref.workspaceId == r.workspaceId
  }

  /** Secrets that the given connections reference, or the others. */
  function Referenced(s: State, r: Request, host: Host, keys: set<string>, own: bool): set<string> {
    set ref, k | ref in s.rows && IsConnection(ref, r) && Column(s.rows[ref], "connection_key", keys) == own && k in ReferencedBy(s.rows[ref], host) :: k
  }

  predicate ReservedFor(ref: RowRef, row: Row, r: Request, keys: set<string>) {
    ref.table == RESERVATIONS && ref.workspaceId == r.workspaceId && Column(row, "connection_key", keys) && "secret_key" in row.columns
  }

  function ReservedKeys(s: State, r: Request, keys: set<string>): set<string> {
    set ref | ref in s.rows && ReservedFor(ref, s.rows[ref], r, keys) :: s.rows[ref].columns["secret_key"]
  }

  function SecretKeys(s: State, r: Request, host: Host, keys: set<string>): set<string> {
    Referenced(s, r, host, keys, true) + ReservedKeys(s, r, keys) - Referenced(s, r, host, keys, false)
  }

  predicate AllDecode(s: State, r: Request, host: Host) {
    forall ref :: ref in s.rows && IsConnection(ref, r) ==> Decodes(s.rows[ref], host)
  }

  function Gather(s: State, r: Request, trace: Trace, host: Host): Inventory {
    var keys := PersonalKeys(s, r);
    Inventory(keys, SecretKeys(s, r, host, keys), trace.eventIds, trace.external)
  }

  predicate InScope(specs: Specs, s: State, r: Request, inv: Inventory, host: Host, ref: RowRef) {
    ref in s.rows && ref.workspaceId == r.workspaceId && ref.table in specs && Covers(ref, s.rows[ref], r, inv, host)
  }

  function Scope(specs: Specs, s: State, r: Request, inv: Inventory, host: Host): set<RowRef> {
    set ref | ref in s.rows && InScope(specs, s, r, inv, host, ref)
  }

  /** The row is being worked on: an in-flight status, or a refresh lease that is not over. */
  predicate InFlight(spec: Spec, table: string, row: Row, host: Host) {
    && spec.status != ""
    && var text := if spec.status in row.columns then row.columns[spec.status] else "";
       text in spec.busy || (table == LEASES && text != "" && !host.leaseOver(text))
  }

  const MAXIMUM_ROWS := 10000

  lemma SubsetIsNotLarger<T>(a: set<T>, b: set<T>)
    requires a <= b
    ensures |a| <= |b|
  {
    if a != {} {
      var x :| x in a;
      SubsetIsNotLarger(a - {x}, b - {x});
    }
  }

  ghost predicate Plannable(specs: Specs, s: State, r: Request, trace: Trace, host: Host) {
    var inv := Gather(s, r, trace, host);
    && AllDecode(s, r, host)
    && (forall ref :: InScope(specs, s, r, inv, host, ref) ==> !InFlight(specs[ref.table], ref.table, s.rows[ref], host))
    && |Scope(specs, s, r, inv, host)| <= MAXIMUM_ROWS
  }

  function NewPlan(specs: Specs, s: State, r: Request, trace: Trace, host: Host): Plan {
    var inv := Gather(s, r, trace, host);
    Plan(Normalize(r), inv.connectionKeys, inv.secretKeys, inv.external, Scope(specs, s, r, inv, host))
  }

  // ----- prepare -----

  datatype Reason = SubjectMismatch | ProvenanceConflicts | NotPlannable | ScopeMismatch | NotPrepared | PlanDiffers | TableInvalid

  datatype Prepared = Prepared(plan: Plan) | PrepareRefused(reason: Reason)

  function Key(r: Request): (string, string) {
    (r.workspaceId, r.requestId)
  }

  function Replay(receipt: Receipt, r: Request): Prepared {
    if receipt.subjectId != r.subjectId then PrepareRefused(SubjectMismatch)
    else if Normalize(r) != receipt.plan.request then PrepareRefused(ProvenanceConflicts)
    else Prepared(receipt.plan)
  }

  ghost function PrepareReply(specs: Specs, s: State, r: Request, trace: Trace, host: Host): Prepared {
    if Key(r) in s.receipts then Replay(s.receipts[Key(r)], r)
    else if Plannable(specs, s, r, trace, host) then Prepared(NewPlan(specs, s, r, trace, host))
    else PrepareRefused(NotPlannable)
  }

  function Marked(spec: Spec, table: string, row: Row): Row {
    if spec.status == "" || table == LEASES then row
    else
      var status := row.columns[spec.status := "erasing"];
      if spec.token then Row(status["lease_owner" := ""]["lease_expires_at" := ""], row.token + 1) else Row(status, row.token)
  }

  function PlanFences(r: Request, p: Plan): set<Fence> {
    {Fence(r.workspaceId, "subject", "", r.subjectId)}
    + (set k | k in p.connectionKeys :: Fence(r.workspaceId, "connection", "", k))
    + (set k | k in p.secretKeys :: Fence(r.workspaceId, "secret", "", k))
    + (set m | m in r.messageIds :: Fence(r.workspaceId, "message", "", m))
    + (set x | x in r.resources :: Fence(r.workspaceId, "resource", x.objectKey, x.recordId))
    + (set e | e in p.external :: Fence(r.workspaceId, "external", e.0, e.1))
    + (set ref | ref in p.rows :: Fence(r.workspaceId, "row", ref.table, ref.id))
  }

  predicate Tables(specs: Specs, rows: set<RowRef>) {
    forall ref :: ref in rows ==> ref.table in specs
  }

  function MarkedRows(specs: Specs, rows: map<RowRef, Row>, planned: set<RowRef>): map<RowRef, Row>
    requires Tables(specs, planned)
  {
    map ref | ref in rows :: if ref in planned then Marked(specs[ref.table], ref.table, rows[ref]) else rows[ref]
  }

  ghost function Prepare(specs: Specs, s: State, r: Request, trace: Trace, host: Host): State {
    if Key(r) in s.receipts || !Plannable(specs, s, r, trace, host) then s
    else
      var p := NewPlan(specs, s, r, trace, host);
      State(MarkedRows(specs, s.rows, p.rows), s.fences + PlanFences(r, p), s.receipts[Key(r) := Receipt(r.subjectId, p, None)])
  }

  // ----- erase -----

  datatype Erased = Erased(records: nat) | EraseRefused(reason: Reason)

  function EraseReply(specs: Specs, s: State, r: Request, p: Plan): Erased {
    if Key(p.request) != Key(r) || p.request.subjectId != r.subjectId then EraseRefused(ScopeMismatch)
    else if Normalize(r) != p.request then EraseRefused(ProvenanceConflicts)
    else if Key(r) !in s.receipts then EraseRefused(NotPrepared)
    else if s.receipts[Key(r)].subjectId != r.subjectId then EraseRefused(SubjectMismatch)
    else if s.receipts[Key(r)].plan != p then EraseRefused(PlanDiffers)
    else if s.receipts[Key(r)].result.Some? then Erased(s.receipts[Key(r)].result.value)
    else if !Tables(specs, p.rows) then EraseRefused(TableInvalid)
    else Erased(|p.rows|)
  }

  predicate Performs(specs: Specs, s: State, r: Request, p: Plan) {
    EraseReply(specs, s, r, p).Erased? && s.receipts[Key(r)].result.None?
  }

  function Redacted(spec: Spec, row: Row, now: string): Row {
    Row(row.columns + spec.values + map["updated_at" := now], row.token)
  }

  function ErasedRows(specs: Specs, rows: map<RowRef, Row>, planned: set<RowRef>, now: string): map<RowRef, Row>
    requires Tables(specs, planned)
  {
    map ref | ref in rows && !(ref in planned && specs[ref.table].erase) ::
      if ref in planned then Redacted(specs[ref.table], rows[ref], now) else rows[ref]
  }

  function Erase(specs: Specs, s: State, r: Request, p: Plan, now: string): State {
    if !Performs(specs, s, r, p) then s
    else State(ErasedRows(specs, s.rows, p.rows, now), s.fences, s.receipts[Key(r) := s.receipts[Key(r)].(result := Some(|p.rows|))])
  }
}
