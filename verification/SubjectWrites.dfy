/** Inserts into the tables an erasure covers: which fences each one reads, and which row it
    writes. Keys and workspaces arrive as the caller gave them; some guards read the fences
    before they are trimmed.
    internal/infrastructure/persistence/database/integration/management_store.go
    internal/infrastructure/persistence/database/integration/management_secret_store.go
    internal/infrastructure/persistence/database/integration/management_webhook_store.go
    internal/infrastructure/persistence/database/integration/management_identity_store.go
    internal/infrastructure/persistence/database/integration/management_api_key_store.go
    internal/infrastructure/persistence/database/integration/web_push_subscription_store.go
    internal/infrastructure/persistence/database/integration/connection_account_store.go
    internal/infrastructure/persistence/database/integration/requirements_store.go */
module SubjectWrites {
  import opened Text
  import opened Identity
  import opened Fences
  import opened SubjectErasure

  datatype Insertion =
    | Account(key: string, owner: string)
    | Connection(key: string, actor: string)
    | Manifest(key: string)
    | Reservation(key: string, actor: string, secret: string)
    | Grant(key: string, owner: string)
    | Secret(key: string, actor: string, hasValue: bool)
    | Material(key: string)
    | Webhook(key: string)
    | WebPush(key: string, owner: string)
    | ExternalIdentity(key: string, actor: string, provider: string, subjectHash: string)
    | ApiKey(key: string, actor: string)
    | Session(key: string, owner: string)     // under a random id
    | Lasting(table: string, key: string)     // into a table that nothing deletes from

  // ----- guards -----

  /** Fences read with the arguments as given. */
  function RawGuards(ins: Insertion): seq<Reference> {
    match ins
    case Account(key, owner) => [Reference("subject", "", owner), Reference("connection", "", key)]
    case Connection(key, actor) => [Reference("connection", "", key), Reference("subject", "", actor)]
    case Reservation(key, actor, _) => [Reference("connection", "", key), Reference("subject", "", actor)]
    case Secret(key, actor, _) => [Reference("secret", "", key), Reference("subject", "", actor)]
    case ExternalIdentity(_, actor, provider, subjectHash) => [Reference("subject", "", actor), Reference("external", Trim(provider), subjectHash)]
    case ApiKey(_, actor) => [Reference("subject", "", actor)]
    case Session(_, owner) => [Reference("subject", "", owner)]
    case _ => []
  }

  /** Fences read after trimming. */
  function TrimmedGuards(ins: Insertion): seq<Reference> {
    match ins
    case Account(key, owner) => [Reference("subject", "", Trim(owner)), Reference("connection", "", Trim(key))]
    case Grant(key, owner) => [Reference("connection", "", key), Reference("subject", "", owner)]
    case Secret(key, _, hasValue) => if hasValue then [Reference("secret", "", Trim(key))] else []
    case Material(key) => [Reference("secret", "", Trim(key))]
    case WebPush(_, owner) => [Reference("subject", "", Trim(owner))]
    case _ => []
  }

  predicate Refused(fences: set<Fence>, workspaceId: string, ins: Insertion) {
    SubjectErased(fences, workspaceId, RawGuards(ins)) || SubjectErased(fences, Trim(workspaceId), TrimmedGuards(ins))
  }

  // ----- the row -----

  /** Manifest synchronisation hashes and stores its keys as they are. */
  function ManifestId(digest: string -> string, workspaceId: string, key: string): string {
    "manifest_" + digest(workspaceId + [NUL] + key)
  }

  function Place(workspaceId: string, ins: Insertion): string {
    if ins.Manifest? then workspaceId else Trim(workspaceId)
  }

  function TableOf(ins: Insertion): string {
    match ins
    case Account(_, _) => ACCOUNTS
    case Connection(_, _) => CONNECTIONS
    case Manifest(_) => CONNECTIONS
    case Reservation(_, _, _) => RESERVATIONS
    case Grant(_, _) => GRANTS
    case Secret(_, _, _) => SECRETS
    case Material(_) => MATERIALS
    case Webhook(_) => WEBHOOKS
    case WebPush(_, _) => WEB_PUSH
    case ExternalIdentity(_, _, _, _) => IDENTITIES
    case ApiKey(_, _) => API_KEYS
    case Session(_, _) => SESSIONS
    case Lasting(table, _) => table
  }

  function RowId(digest: string -> string, w: string, ins: Insertion): string {
    match ins
    case Account(key, _) => OwnerId(digest, "connection_account_", w, Trim(key))
    case Connection(key, _) => OwnerId(digest, "connection_", w, Trim(key))
    case Manifest(key) => ManifestId(digest, w, key)
    case Reservation(key, _, secret) => OwnerId(digest, "connection_account_secret_", w, Trim(key) + [NUL] + secret)
    case Grant(key, _) => key
    case Secret(key, _, _) => OwnerId(digest, "secret_", w, Trim(key))
    case Material(key) => OwnerId(digest, "secret_material_", w, Trim(key))
    case Webhook(key) => OwnerId(digest, "webhook_subscription_", w, Trim(key))
    case WebPush(key, _) => Trim(key)
    case ExternalIdentity(key, _, _, _) => OwnerId(digest, "external_identity_", w, Trim(key))
    case ApiKey(key, _) => OwnerId(digest, "api_key_", w, Trim(key))
    case Session(key, _) => key
    case Lasting(_, key) => key
  }

  function Target(digest: string -> string, workspaceId: string, ins: Insertion): RowRef {
    RowRef(Place(workspaceId, ins), TableOf(ins), RowId(digest, Place(workspaceId, ins), ins))
  }

  /** The columns an insert fixes; the others are the caller's. */
  function KeyValues(ins: Insertion): map<string, string> {
    match ins
    case Account(key, owner) => map["connection_key" := Trim(key), "owner_user_id" := Trim(owner)]
    case Connection(key, _) => map["connection_key" := Trim(key)]
    case Manifest(key) => map["connection_key" := key, "created_by" := "manifest"]
    case Reservation(key, _, secret) => map["connection_key" := Trim(key), "secret_key" := secret]
    case Grant(key, _) => map["connection_key" := key]
    case Secret(key, _, hasValue) => map["secret_key" := Trim(key), "status" := "active", "value_ref" := if hasValue then "material:" + Trim(key) else ""]
    case Material(key) => map["secret_key" := Trim(key)]
    case Webhook(key) => map["subscription_key" := Trim(key)]
    case WebPush(_, owner) => map["user_id" := Trim(owner), "status" := "active"]
    case ExternalIdentity(key, actor, _, _) => map["identity_key" := Trim(key), "actor_id" := Trim(actor)]
    case ApiKey(key, actor) => map["api_key" := Trim(key), "actor_id" := Trim(actor), "status" := "active"]
    case Session(_, owner) => map["user_id" := Trim(owner), "status" := "pending"]
    case Lasting(_, _) => map[]
  }

  function Stored(ins: Insertion, row: Row): Row {
    row.(columns := row.columns + KeyValues(ins))
  }

  // ----- when it is attempted -----

  /** The arguments the store demands. */
  predicate Named(workspaceId: string, ins: Insertion) {
    && (Trim(workspaceId) != "" || ins.Lasting?)
    && match ins
       case Reservation(key, _, secret) => Trim(key) != "" && Trimmed(secret) && secret != ""
       case Grant(key, _) => Trimmed(key) && key != ""
       case WebPush(key, owner) => Trim(key) != "" && Trim(owner) != ""
       case ExternalIdentity(key, actor, provider, _) => Trim(key) != "" && Trim(actor) != "" && Trim(provider) != ""
       case ApiKey(key, actor) => Trim(key) != "" && Trim(actor) != ""
       case Lasting(table, _) => table in KEPT
       case _ => Trim(ins.key) != ""
  }

  predicate KeyIs(row: Row, column: string, key: string) {
    column in row.columns && row.columns[column] == key
  }

  predicate Held(s: State, w: string, table: string, column: string, key: string) {
    exists ref :: ref in s.rows && ref.workspaceId == w && ref.table == table && KeyIs(s.rows[ref], column, key)
  }

  predicate ActiveMaterial(s: State, w: string, key: string) {
    exists ref :: ref in s.rows && ref.workspaceId == w && ref.table == SECRETS && KeyIs(s.rows[ref], "secret_key", key)
                  && KeyIs(s.rows[ref], "status", "active") && KeyIs(s.rows[ref], "value_ref", "material:" + key)
  }

  /** What the store looks up before it inserts. */
  predicate LooksFree(s: State, w: string, ins: Insertion) {
    match ins
    case Account(key, _) => !Held(s, w, ACCOUNTS, "connection_key", Trim(key)) && Held(s, w, CONNECTIONS, "connection_key", Trim(key))
    case Connection(key, _) => !Held(s, w, CONNECTIONS, "connection_key", Trim(key))
    case Manifest(key) => !Held(s, w, CONNECTIONS, "connection_key", key)
    case Reservation(key, _, secret) => Held(s, w, ACCOUNTS, "connection_key", Trim(key)) && ActiveMaterial(s, w, secret)
    case Secret(key, _, _) => !Held(s, w, SECRETS, "secret_key", Trim(key))
    case Material(key) => !Held(s, w, MATERIALS, "secret_key", Trim(key))
    case Webhook(key) => !Held(s, w, WEBHOOKS, "subscription_key", Trim(key))
    case ExternalIdentity(key, _, _, _) => !Held(s, w, IDENTITIES, "identity_key", Trim(key))
    case _ => true
  }

  predicate Planned(s: State, ref: RowRef) {
    exists q :: q in s.receipts && ref in s.receipts[q].plan.rows
  }

  /** The insert lands: its guards, its lookups and the primary key allow it. */
  predicate Lands(digest: string -> string, s: State, workspaceId: string, ins: Insertion) {
    && Named(workspaceId, ins) && !Refused(s.fences, workspaceId, ins) && LooksFree(s, Place(workspaceId, ins), ins)
    && Target(digest, workspaceId, ins) !in s.rows
    && (ins.Session? ==> !Planned(s, Target(digest, workspaceId, ins)))
  }

  // ----- what identifies a row -----

  function KeyColumn(table: string): string {
    if table in {ACCOUNTS, CONNECTIONS, RESERVATIONS, GRANTS} then "connection_key"
    else if table in {SECRETS, MATERIALS} then "secret_key"
    else if table == WEBHOOKS then "subscription_key"
    else ""
  }

  /** The kind of fence that prepare sets on the keys of a table. */
  function FenceKind(table: string): string {
    if table in {ACCOUNTS, CONNECTIONS, RESERVATIONS, GRANTS} then "connection"
    else if table in {SECRETS, MATERIALS} then "secret"
    else ""
  }

  /** The row id comes from this key, for reservations from a connection and a secret. */
  predicate Names(digest: string -> string, ref: RowRef, key: string, secret: string) {
    if ref.table == ACCOUNTS then ref.id == OwnerId(digest, "connection_account_", ref.workspaceId, key)
    else if ref.table == CONNECTIONS then ref.id == OwnerId(digest, "connection_", ref.workspaceId, key) || ref.id == ManifestId(digest, ref.workspaceId, key)
    else if ref.table == RESERVATIONS then ref.id == OwnerId(digest, "connection_account_secret_", ref.workspaceId, key + [NUL] + secret)
    else if ref.table == GRANTS then ref.id == key
    else if ref.table == SECRETS then ref.id == OwnerId(digest, "secret_", ref.workspaceId, key)
    else if ref.table == MATERIALS then ref.id == OwnerId(digest, "secret_material_", ref.workspaceId, key)
    else if ref.table == WEBHOOKS then ref.id == OwnerId(digest, "webhook_subscription_", ref.workspaceId, key)
    else true
  }

  predicate ProperKey(table: string, key: string, secret: string) {
    && (table != CONNECTIONS ==> Trimmed(key) && key != "")
    && (table == RESERVATIONS ==> Trimmed(secret) && secret != "")
  }

  function ColumnOr(row: Row, column: string): string {
    if column in row.columns then row.columns[column] else ""
  }

  /** The key columns are there and determine the row id. */
  predicate KeyedRow(digest: string -> string, ref: RowRef, row: Row) {
    KeyColumn(ref.table) != "" ==>
      && KeyColumns(ref.table) <= row.columns.Keys
      && Names(digest, ref, ColumnOr(row, KeyColumn(ref.table)), ColumnOr(row, "secret_key"))
      && ProperKey(ref.table, ColumnOr(row, KeyColumn(ref.table)), ColumnOr(row, "secret_key"))
  }

  lemma KeyedBy(digest: string -> string, ref: RowRef, row: Row, key: string, secret: string)
    requires KeyColumns(ref.table) <= row.columns.Keys && KeyIs(row, KeyColumn(ref.table), key) && (ref.table == RESERVATIONS ==> KeyIs(row, "secret_key", secret))
    requires Names(digest, ref, key, secret) && ProperKey(ref.table, key, secret)
    ensures KeyedRow(digest, ref, row)
  {
  }

  lemma ConnectionKeyed(digest: string -> string, workspaceId: string, ins: Insertion, row: Row)
    requires Named(workspaceId, ins) && (ins.Account? || ins.Connection? || ins.Manifest? || ins.Grant?)
    ensures KeyedRow(digest, Target(digest, workspaceId, ins), Stored(ins, row))
  {
    TrimIsTrimmed(ins.key);
    KeyedBy(digest, Target(digest, workspaceId, ins), Stored(ins, row), KeyValues(ins)["connection_key"], "");
  }

  lemma SecretKeyed(digest: string -> string, workspaceId: string, ins: Insertion, row: Row)
    requires Named(workspaceId, ins) && (ins.Secret? || ins.Material? || ins.Reservation? || ins.Webhook?)
    ensures KeyedRow(digest, Target(digest, workspaceId, ins), Stored(ins, row))
  {
    TrimIsTrimmed(ins.key);
    KeyedBy(digest, Target(digest, workspaceId, ins), Stored(ins, row), Trim(ins.key), if ins.Reservation? then ins.secret else "");
  }

  lemma InsertedIsKeyed(digest: string -> string, workspaceId: string, ins: Insertion, row: Row)
    requires Named(workspaceId, ins)
    ensures KeyedRow(digest, Target(digest, workspaceId, ins), Stored(ins, row))
  {
    if ins.Account? || ins.Connection? || ins.Manifest? || ins.Grant? {
      ConnectionKeyed(digest, workspaceId, ins, row);
    } else if ins.Secret? || ins.Material? || ins.Reservation? || ins.Webhook? {
      SecretKeyed(digest, workspaceId, ins, row);
    } else {
      assert KeyColumn(TableOf(ins)) == "";
    }
  }

  // ----- which key an insert must name to write a given row -----

  lemma SameOwner(digest: string -> string, prefix: string, w: string, key: string, key': string)
    requires Injective(digest) && OwnerId(digest, prefix, w, key) == OwnerId(digest, prefix, w, key') && Trimmed(key) && Trimmed(key')
    ensures key == key'
  {
    OwnerIdInjective(digest, prefix, w, key, key');
    TrimmedIsFixed(key);
    TrimmedIsFixed(key');
  }

  lemma SameManifest(digest: string -> string, w: string, key: string, key': string)
    requires Injective(digest) && ManifestId(digest, w, key) == ManifestId(digest, w, key')
    ensures key == key'
  {
    PrefixedInjective("manifest_", digest(w + [NUL] + key), digest(w + [NUL] + key'));
    PrefixedInjective(w + [NUL], key, key');
  }

  lemma ManifestIsApart(digest: string -> string, w: string, key: string, key': string)
    ensures ManifestId(digest, w, key) != OwnerId(digest, "connection_", w, key')
  {
    assert ManifestId(digest, w, key)[0] == 'm' && OwnerId(digest, "connection_", w, key')[0] == 'c';
  }

  /** The tuple a reservation id is made of: the pair joined by NUL. */
  lemma SamePair(digest: string -> string, w: string, key: string, secret: string, key': string, secret': string)
    requires Injective(digest) && Trimmed(key) && key != "" && Trimmed(secret) && secret != "" && Trimmed(key') && key' != "" && Trimmed(secret') && secret' != ""
    requires OwnerId(digest, "connection_account_secret_", w, key + [NUL] + secret) == OwnerId(digest, "connection_account_secret_", w, key' + [NUL] + secret')
    ensures key + [NUL] + secret == key' + [NUL] + secret'
  {
    SameOwner(digest, "connection_account_secret_", w, key + [NUL] + secret, key' + [NUL] + secret');
  }

  /** Two pairs with one id and different connection keys hold a NUL inside a key. */
  lemma DifferentPairs(key: string, secret: string, key': string, secret': string)
    requires key + [NUL] + secret == key' + [NUL] + secret' && key != key'
    ensures NUL in key' || NUL in secret'
  {
    if NUL !in key' && NUL !in key {
      SplitAtFirst(key, secret, key', secret', NUL);
    } else {
      var t := key + [NUL] + secret;
      assert t[|key|] == NUL && key == t[..|key|] && key' == (key' + [NUL] + secret')[..|key'|];
    }
  }

  /** The key, or for a reservation the joined pair, that an insert into this row has. */
  predicate NamesSame(ins: Insertion, key: string, secret: string) {
    match ins
    case Manifest(k) => k == key
    case Grant(k, _) => k == key
    case Reservation(k, _, m) => Trim(k) + [NUL] + m == key + [NUL] + secret
    case _ => ins.Lasting? || Trim(ins.key) == key
  }

  lemma TargetNames(digest: string -> string, workspaceId: string, ins: Insertion, ref: RowRef, key: string, secret: string)
    requires Injective(digest) && Named(workspaceId, ins) && Target(digest, workspaceId, ins) == ref && KeyColumn(ref.table) != ""
    requires Names(digest, ref, key, secret) && Trimmed(key) && ProperKey(ref.table, key, secret)
    ensures NamesSame(ins, key, secret)
  {
    var w := ref.workspaceId;
    match ins
    case Account(k, _) => TrimIsTrimmed(k); SameOwner(digest, "connection_account_", w, Trim(k), key);
    case Connection(k, _) => TrimIsTrimmed(k); ManifestIsApart(digest, w, key, Trim(k)); SameOwner(digest, "connection_", w, Trim(k), key);
    case Manifest(k) => ManifestIsApart(digest, w, k, key); SameManifest(digest, w, k, key);
    case Reservation(k, _, m) => TrimIsTrimmed(k); SamePair(digest, w, Trim(k), m, key, secret);
    case Secret(k, _, _) => TrimIsTrimmed(k); SameOwner(digest, "secret_", w, Trim(k), key);
    case Material(k) => TrimIsTrimmed(k); SameOwner(digest, "secret_material_", w, Trim(k), key);
    case Webhook(k) => TrimIsTrimmed(k); SameOwner(digest, "webhook_subscription_", w, Trim(k), key);
    case _ =>
  }

  // ----- which inserts get past the fences of a planned row -----

  /** An insert that a key fence on its own row does not stop. */
  predicate SlipsPast(workspaceId: string, ins: Insertion) {
    match ins
    case Manifest(_) => true
    case Webhook(_) => true
    case WebPush(_, _) => true
    case ExternalIdentity(_, _, _, _) => true
    case ApiKey(_, _) => true
    case Connection(key, _) => !Trimmed(key) || !Trimmed(workspaceId)
    case Secret(key, _, hasValue) => !hasValue && (!Trimmed(key) || !Trimmed(workspaceId))
    case Reservation(key, _, secret) => !Trimmed(key) || !Trimmed(workspaceId) || NUL in key || NUL in secret
    case _ => false
  }

  lemma RefersRefuses(fences: set<Fence>, w: string, refs: seq<Reference>, i: nat)
    requires i < |refs| && Refers(fences, w, refs[i])
    ensures SubjectErased(fences, w, refs)
  {
  }

  /** An insert whose row is named by a fenced key is refused, unless it slips past. */
  lemma FencedKeyRefuses(digest: string -> string, fences: set<Fence>, workspaceId: string, ins: Insertion, ref: RowRef, key: string, secret: string)
    requires Injective(digest) && Named(workspaceId, ins) && Target(digest, workspaceId, ins) == ref && FenceKind(ref.table) != ""
    requires Names(digest, ref, key, secret) && Trimmed(key) && key != "" && ProperKey(ref.table, key, secret)
    requires Fence(ref.workspaceId, FenceKind(ref.table), "", key) in fences
    ensures Refused(fences, workspaceId, ins) || SlipsPast(workspaceId, ins)
  {
    TargetNames(digest, workspaceId, ins, ref, key, secret);
    if !SlipsPast(workspaceId, ins) {
      match ins
      case Account(_, _) => RefersRefuses(fences, Trim(workspaceId), TrimmedGuards(ins), 1);
      case Grant(_, _) => RefersRefuses(fences, Trim(workspaceId), TrimmedGuards(ins), 0);
      case Material(_) => RefersRefuses(fences, Trim(workspaceId), TrimmedGuards(ins), 0);
      case Secret(k, _, hasValue) =>
        if hasValue {
          RefersRefuses(fences, Trim(workspaceId), TrimmedGuards(ins), 0);
        } else {
          TrimmedIsFixed(k);
          TrimmedIsFixed(workspaceId);
          RefersRefuses(fences, workspaceId, RawGuards(ins), 0);
        }
      case Connection(k, _) =>
        TrimmedIsFixed(k);
        TrimmedIsFixed(workspaceId);
        RefersRefuses(fences, workspaceId, RawGuards(ins), 0);
      case Reservation(k, _, m) =>
        TrimmedIsFixed(k);
        TrimmedIsFixed(workspaceId);
        if k != key {
          DifferentPairs(key, secret, k, m);
        }
        RefersRefuses(fences, workspaceId, RawGuards(ins), 0);
      case _ =>
    }
  }
}
