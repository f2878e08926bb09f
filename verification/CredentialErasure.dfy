/** The credential model and the erasure model speak of the same rows: what one plans, marks,
    fences and erases is what the other does.
    internal/infrastructure/persistence/database/integration/subject_erasure.go */
module CredentialErasure {
  import opened Basics
  import opened Fences
  import opened Identity
  import opened SubjectErasure
  import opened SubjectWrites
  import opened Text
  import C = Credentials

  function ConnectionText(status: C.ConnectionStatus): string {
    match status
    case Configured => "configured"
    case ConnectionActive => "active"
    case Inactive => "inactive"
    case ConnectionError => "error"
    case ConnectionRevoked => "revoked"
    case ConnectionErasing => "erasing"
  }

  function SecretText(status: C.SecretStatus): string {
    match status
    case Active => "active"
    case Disabled => "disabled"
    case Expired => "expired"
    case Revoked => "revoked"
    case SecretErasing => "erasing"
  }

  /** The id of a connection row, in a workspace that is stored trimmed. */
  function IdText(digest: string -> string, w: string, id: C.RowId): string {
    match id
    case OwnerRow(key) => "connection_" + digest(w + [NUL] + key)
    case ManifestRow(key) => ManifestId(digest, w, key)
  }

  lemma IdTextIsOwnerId(digest: string -> string, w: string, key: string)
    requires Trimmed(w) && Trimmed(key)
    ensures IdText(digest, w, C.OwnerRow(key)) == OwnerId(digest, "connection_", w, key)
  {
    TrimmedIsFixed(w);
    TrimmedIsFixed(key);
  }

  lemma IdTextsApart(digest: string -> string, w: string, key: string, key': string)
    ensures IdText(digest, w, C.OwnerRow(key)) != IdText(digest, w, C.ManifestRow(key'))
  {
    assert IdText(digest, w, C.OwnerRow(key))[0] == 'c' && IdText(digest, w, C.ManifestRow(key'))[0] == 'm';
  }

  lemma IdTextInjective(digest: string -> string, w: string, a: C.RowId, b: C.RowId)
    requires Injective(digest) && IdText(digest, w, a) == IdText(digest, w, b)
    ensures a == b
  {
    if a.OwnerRow? && b.OwnerRow? {
      PrefixedInjective("connection_", digest(w + [NUL] + a.key), digest(w + [NUL] + b.key));
      PrefixedInjective(w + [NUL], a.key, b.key);
    } else if a.ManifestRow? && b.ManifestRow? {
      SameManifest(digest, w, a.key, b.key);
    } else if a.OwnerRow? {
      IdTextsApart(digest, w, a.key, b.key);
    } else {
      IdTextsApart(digest, w, b.key, a.key);
    }
  }

  predicate Has(row: Row, column: string, value: string) {
    column in row.columns && row.columns[column] == value
  }

  predicate IsAccount(ref: RowRef, row: Row, w: string, key: string, a: C.Account) {
    && ref.workspaceId == w && ref.table == ACCOUNTS
    && Has(row, "connection_key", key) && Has(row, "owner_user_id", a.owner) && Has(row, "scope", "personal") == a.personal
  }

  predicate IsConnectionRow(digest: string -> string, ref: RowRef, row: Row, w: string, host: Host, key: string, c: C.Connection) {
    && ref.workspaceId == w && ref.table == CONNECTIONS && ref.id == IdText(digest, w, c.id)
    && Has(row, "connection_key", key) && Has(row, "status", ConnectionText(c.status))
    && Decodes(row, host) && ReferencedBy(row, host) == C.ManagedKeys(c.refs)
  }

  predicate IsReservation(ref: RowRef, row: Row, w: string, key: string, connection: string) {
    ref.workspaceId == w && ref.table == RESERVATIONS && Has(row, "secret_key", key) && Has(row, "connection_key", connection)
  }

  predicate IsSecret(ref: RowRef, row: Row, w: string, key: string, c: C.Secret) {
    ref.workspaceId == w && ref.table == SECRETS && Has(row, "secret_key", key) && Has(row, "status", SecretText(c.status))
  }

  function TextOf(row: Row, column: string): string {
    if column in row.columns then row.columns[column] else ""
  }

  /** Every row of the four tables in the workspace stands in the credential state. */
  predicate RowStands(digest: string -> string, ref: RowRef, row: Row, w: string, host: Host, c: C.State) {
    var key, secret := TextOf(row, "connection_key"), TextOf(row, "secret_key");
    && (ref.workspaceId == w && ref.table == ACCOUNTS ==> key in c.accounts && IsAccount(ref, row, w, key, c.accounts[key]))
    && (ref.workspaceId == w && ref.table == CONNECTIONS ==> key in c.connections && IsConnectionRow(digest, ref, row, w, host, key, c.connections[key]))
    && (ref.workspaceId == w && ref.table == RESERVATIONS ==> secret in c.reservations && IsReservation(ref, row, w, secret, c.reservations[secret]))
    && (ref.workspaceId == w && ref.table == SECRETS ==> secret in c.secrets && IsSecret(ref, row, w, secret, c.secrets[secret]))
  }

  ghost predicate RowsStand(digest: string -> string, s: State, w: string, host: Host, c: C.State) {
    && (forall ref :: ref in s.rows ==> RowStands(digest, ref, s.rows[ref], w, host, c))
    && (forall k :: k in c.accounts ==> exists ref :: ref in s.rows && IsAccount(ref, s.rows[ref], w, k, c.accounts[k]))
    && (forall k :: k in c.connections ==> exists ref :: ref in s.rows && IsConnectionRow(digest, ref, s.rows[ref], w, host, k, c.connections[k]))
    && (forall k :: k in c.reservations ==> exists ref :: ref in s.rows && IsReservation(ref, s.rows[ref], w, k, c.reservations[k]))
    && (forall k :: k in c.secrets ==> exists ref :: ref in s.rows && IsSecret(ref, s.rows[ref], w, k, c.secrets[k]))
  }

  ghost predicate FencesStand(digest: string -> string, fences: set<Fence>, w: string, c: C.State) {
    && (forall k :: k in c.fencedConnections <==> Fence(w, "connection", "", k) in fences)
    && (forall id: C.RowId :: id in c.fencedRows <==> Fence(w, "row", CONNECTIONS, IdText(digest, w, id)) in fences)
    && (forall k :: k in c.fencedSecrets <==> Fence(w, "secret", "", k) in fences)
    && (forall k :: k in c.fencedSubjects <==> Fence(w, "subject", "", k) in fences)
  }

  ghost predicate Stands(digest: string -> string, s: State, w: string, host: Host, c: C.State) {
    RowsStand(digest, s, w, host, c) && FencesStand(digest, s.fences, w, c)
  }

  // ----- the same plan -----

  lemma SameConnections(digest: string -> string, s: State, r: Request, host: Host, c: C.State)
    requires RowsStand(digest, s, r.workspaceId, host, c)
    ensures PersonalKeys(s, r) == C.SubjectConnections(c, r.subjectId)
  {
    forall k | k in C.SubjectConnections(c, r.subjectId) ensures k in PersonalKeys(s, r) {
      var ref :| ref in s.rows && IsAccount(ref, s.rows[ref], r.workspaceId, k, c.accounts[k]);
      assert PersonalAccount(ref, s.rows[ref], r);
    }
    forall k | k in PersonalKeys(s, r) ensures k in C.SubjectConnections(c, r.subjectId) {
      var ref :| ref in s.rows && PersonalAccount(ref, s.rows[ref], r) && s.rows[ref].columns["connection_key"] == k;
      assert RowStands(digest, ref, s.rows[ref], r.workspaceId, host, c);
    }
  }

  lemma SameReferences(digest: string -> string, s: State, r: Request, host: Host, c: C.State, keys: set<string>, own: bool)
    requires RowsStand(digest, s, r.workspaceId, host, c)
    ensures Referenced(s, r, host, keys, own) == set k, f | k in c.connections && (k in keys) == own && f in C.ManagedKeys(c.connections[k].refs) :: f
  {
    forall f | f in Referenced(s, r, host, keys, own) ensures exists k :: k in c.connections && (k in keys) == own && f in C.ManagedKeys(c.connections[k].refs) {
      var ref :| ref in s.rows && IsConnection(ref, r) && Column(s.rows[ref], "connection_key", keys) == own && f in ReferencedBy(s.rows[ref], host);
      assert RowStands(digest, ref, s.rows[ref], r.workspaceId, host, c);
      assert s.rows[ref].columns["connection_key"] in c.connections;
    }
    forall k, f | k in c.connections && (k in keys) == own && f in C.ManagedKeys(c.connections[k].refs) ensures f in Referenced(s, r, host, keys, own) {
      var ref :| ref in s.rows && IsConnectionRow(digest, ref, s.rows[ref], r.workspaceId, host, k, c.connections[k]);
      assert IsConnection(ref, r) && Column(s.rows[ref], "connection_key", keys) == own && f in ReferencedBy(s.rows[ref], host);
    }
  }

  lemma SameReservations(digest: string -> string, s: State, r: Request, host: Host, c: C.State, keys: set<string>)
    requires RowsStand(digest, s, r.workspaceId, host, c)
    ensures ReservedKeys(s, r, keys) == set k | k in c.reservations && c.reservations[k] in keys
  {
    forall k | k in ReservedKeys(s, r, keys) ensures k in c.reservations && c.reservations[k] in keys {
      var ref :| ref in s.rows && ReservedFor(ref, s.rows[ref], r, keys) && s.rows[ref].columns["secret_key"] == k;
      assert RowStands(digest, ref, s.rows[ref], r.workspaceId, host, c);
    }
    forall k | k in c.reservations && c.reservations[k] in keys ensures k in ReservedKeys(s, r, keys) {
      var ref :| ref in s.rows && IsReservation(ref, s.rows[ref], r.workspaceId, k, c.reservations[k]);
      assert ReservedFor(ref, s.rows[ref], r, keys);
    }
  }

  /** The keys found before the tables are searched are the connections and secrets that the
      credential model plans. */
  lemma GatherIsCollect(digest: string -> string, s: State, r: Request, trace: Trace, host: Host, c: C.State)
    requires RowsStand(digest, s, r.workspaceId, host, c)
    ensures var inv := Gather(s, r, trace, host);
            inv.connectionKeys == C.SubjectConnections(c, r.subjectId) && inv.secretKeys == C.Collect(c, r.subjectId).secrets
  {
    var own := PersonalKeys(s, r);
    SameConnections(digest, s, r, host, c);
    SameReferences(digest, s, r, host, c, own, true);
    SameReferences(digest, s, r, host, c, own, false);
    SameReservations(digest, s, r, host, c, own);
    assert SecretKeys(s, r, host, own) == C.Owned(c, own) - C.Shared(c, own);
  }

  // ----- the same prepare -----

  /** How the four tables take part in an erasure. */
  predicate FourTables(specs: Specs) {
    && ACCOUNTS in specs && CONNECTIONS in specs && RESERVATIONS in specs && SECRETS in specs
    && specs[ACCOUNTS].status == "" && specs[RESERVATIONS].status == ""
    && specs[CONNECTIONS].status == "status" && !specs[CONNECTIONS].token
    && specs[SECRETS].status == "status" && !specs[SECRETS].token
  }

  lemma SubjectFourTables()
    ensures FourTables(SUBJECT_SPECS)
  {
  }

  const FOUR := {ACCOUNTS, CONNECTIONS, RESERVATIONS, SECRETS}

  function KeyColumnOf(table: string): string {
    if table == SECRETS then "secret_key" else "connection_key"
  }

  lemma CoveredInFour(ref: RowRef, row: Row, r: Request, inv: Inventory, host: Host)
    requires ref.table in FOUR
    ensures Covers(ref, row, r, inv, host) <==> Column(row, KeyColumnOf(ref.table), if ref.table == SECRETS then inv.secretKeys else inv.connectionKeys)
  {
  }

  lemma MarkedInFour(specs: Specs, table: string, row: Row)
    requires FourTables(specs) && table in FOUR
    ensures Marked(specs[table], table, row) == if table in {ACCOUNTS, RESERVATIONS} then row else Row(row.columns["status" := "erasing"], row.token)
  {
  }

  /** The columns that say where a row stands. */
  predicate SameStand(before: Row, after: Row) {
    forall c :: c in {"connection_key", "secret_key", "owner_user_id", "scope", "secret_refs_json"} ==>
      (c in after.columns <==> c in before.columns) && (c in before.columns ==> after.columns[c] == before.columns[c])
  }

  lemma ConnectionRowMarked(digest: string -> string, ref: RowRef, row: Row, after: Row, w: string, host: Host, key: string, c: C.Connection, d: C.Connection)
    requires IsConnectionRow(digest, ref, row, w, host, key, c) && SameStand(row, after) && Has(after, "status", ConnectionText(d.status)) && d == c.(status := d.status)
    ensures IsConnectionRow(digest, ref, after, w, host, key, d)
  {
    assert after.columns["connection_key"] == row.columns["connection_key"];
    assert after.columns["secret_refs_json"] == row.columns["secret_refs_json"];
  }

  lemma MarkSameStand(row: Row)
    ensures SameStand(row, Row(row.columns["status" := "erasing"], row.token))
  {
  }

  /** What a prepare does to one row of the four tables. */
  ghost predicate PreparedAs(row: Row, after: Row, table: string, planned: bool) {
    after == if planned && table in {CONNECTIONS, SECRETS} then Row(row.columns["status" := "erasing"], row.token) else row
  }

  lemma PlannedIffCovered(specs: Specs, s: State, r: Request, trace: Trace, host: Host, ref: RowRef)
    requires ref in s.rows && ref.workspaceId == r.workspaceId && ref.table in specs
    ensures ref in NewPlan(specs, s, r, trace, host).rows <==> Covers(ref, s.rows[ref], r, Gather(s, r, trace, host), host)
  {
  }

  /** The plan covers exactly the rows under the keys that the credential model plans. */
  lemma PlannedIffNamed(digest: string -> string, specs: Specs, s: State, r: Request, trace: Trace, host: Host, c: C.State, ref: RowRef)
    requires FourTables(specs) && RowsStand(digest, s, r.workspaceId, host, c) && ref in s.rows && ref.workspaceId == r.workspaceId && ref.table in FOUR
    ensures ref in NewPlan(specs, s, r, trace, host).rows <==> NamedByPlan(ref.table, s.rows[ref], c, r.subjectId)
  {
    GatherIsCollect(digest, s, r, trace, host, c);
    CoveredInFour(ref, s.rows[ref], r, Gather(s, r, trace, host), host);
    PlannedIffCovered(specs, s, r, trace, host, ref);
  }

  predicate NamedByPlan(table: string, row: Row, c: C.State, subject: string) {
    Column(row, KeyColumnOf(table), if table == SECRETS then C.Collect(c, subject).secrets else C.SubjectConnections(c, subject))
  }

  lemma PreparedIff(specs: Specs, s: State, r: Request, trace: Trace, host: Host, ref: RowRef)
    requires ref in s.rows && Key(r) !in s.receipts && Plannable(specs, s, r, trace, host)
    ensures ref in Prepare(specs, s, r, trace, host).rows
    ensures Prepare(specs, s, r, trace, host).rows[ref] ==
            if ref in NewPlan(specs, s, r, trace, host).rows then Marked(specs[ref.table], ref.table, s.rows[ref]) else s.rows[ref]
  {
  }

  lemma MarkedAs(specs: Specs, table: string, row: Row, after: Row, planned: bool)
    requires FourTables(specs) && table in FOUR && after == if planned then Marked(specs[table], table, row) else row
    ensures PreparedAs(row, after, table, planned)
  {
    MarkedInFour(specs, table, row);
  }

  lemma PreparedConnection(digest: string -> string, ref: RowRef, row: Row, after: Row, w: string, host: Host, c: C.State, subject: string)
    requires ref.workspaceId == w && ref.table == CONNECTIONS && RowStands(digest, ref, row, w, host, c)
    requires PreparedAs(row, after, CONNECTIONS, NamedByPlan(CONNECTIONS, row, c, subject))
    ensures RowStands(digest, ref, after, w, host, C.Prepare(c, subject))
  {
    var key, d := TextOf(row, "connection_key"), C.Prepare(c, subject);
    MarkSameStand(row);
    ConnectionRowMarked(digest, ref, row, after, w, host, key, c.connections[key], d.connections[key]);
  }

  lemma PreparedSecret(digest: string -> string, ref: RowRef, row: Row, after: Row, w: string, host: Host, c: C.State, subject: string)
    requires ref.workspaceId == w && ref.table == SECRETS && RowStands(digest, ref, row, w, host, c)
    requires PreparedAs(row, after, SECRETS, NamedByPlan(SECRETS, row, c, subject))
    ensures RowStands(digest, ref, after, w, host, C.Prepare(c, subject))
  {
    var key, d := TextOf(row, "secret_key"), C.Prepare(c, subject);
    assert IsSecret(ref, after, w, key, d.secrets[key]);
  }

  /** The rows that a prepare leaves stand where the credential model's prepare puts them. */
  lemma PreparedRow(digest: string -> string, specs: Specs, s: State, r: Request, trace: Trace, host: Host, c: C.State, ref: RowRef)
    requires FourTables(specs) && RowsStand(digest, s, r.workspaceId, host, c) && ref in s.rows
    requires Key(r) !in s.receipts && Plannable(specs, s, r, trace, host)
    ensures RowStands(digest, ref, Prepare(specs, s, r, trace, host).rows[ref], r.workspaceId, host, C.Prepare(c, r.subjectId))
  {
    var after := Prepare(specs, s, r, trace, host).rows[ref];
    assert RowStands(digest, ref, s.rows[ref], r.workspaceId, host, c);
    if ref.workspaceId == r.workspaceId && ref.table in FOUR {
      PlannedIffNamed(digest, specs, s, r, trace, host, c, ref);
      PreparedIff(specs, s, r, trace, host, ref);
      MarkedAs(specs, ref.table, s.rows[ref], after, NamedByPlan(ref.table, s.rows[ref], c, r.subjectId));
      if ref.table == CONNECTIONS {
        PreparedConnection(digest, ref, s.rows[ref], after, r.workspaceId, host, c, r.subjectId);
      } else if ref.table == SECRETS {
        PreparedSecret(digest, ref, s.rows[ref], after, r.workspaceId, host, c, r.subjectId);
      }
    }
  }

  predicate SameKeyTexts(before: Row, after: Row) {
    TextOf(after, "connection_key") == TextOf(before, "connection_key") && TextOf(after, "secret_key") == TextOf(before, "secret_key")
  }

  /** The key of the row is still there in the credential state. */
  predicate StillKeyed(table: string, row: Row, d: C.State) {
    && (table == ACCOUNTS ==> TextOf(row, "connection_key") in d.accounts)
    && (table == CONNECTIONS ==> TextOf(row, "connection_key") in d.connections)
    && (table == RESERVATIONS ==> TextOf(row, "secret_key") in d.reservations)
    && (table == SECRETS ==> TextOf(row, "secret_key") in d.secrets)
  }

  /** No row whose key is still there is lost or moved to another key. */
  ghost predicate KeepsStand(s: State, v: State, w: string, d: C.State) {
    forall ref :: ref in s.rows && ref.workspaceId == w && ref.table in FOUR && StillKeyed(ref.table, s.rows[ref], d) ==>
      ref in v.rows && SameKeyTexts(s.rows[ref], v.rows[ref])
  }

  ghost predicate EachStands(digest: string -> string, v: State, w: string, host: Host, d: C.State) {
    forall ref :: ref in v.rows ==> RowStands(digest, ref, v.rows[ref], w, host, d)
  }

  lemma AccountStands(digest: string -> string, s: State, w: string, host: Host, c: C.State, v: State, d: C.State, k: string)
    requires RowsStand(digest, s, w, host, c) && EachStands(digest, v, w, host, d) && k in c.accounts && k in d.accounts && KeepsStand(s, v, w, d)
    ensures exists ref :: ref in v.rows && IsAccount(ref, v.rows[ref], w, k, d.accounts[k])
  {
    var ref :| ref in s.rows && IsAccount(ref, s.rows[ref], w, k, c.accounts[k]);
    assert RowStands(digest, ref, v.rows[ref], w, host, d);
  }

  lemma ConnectionStands(digest: string -> string, s: State, w: string, host: Host, c: C.State, v: State, d: C.State, k: string)
    requires RowsStand(digest, s, w, host, c) && EachStands(digest, v, w, host, d) && k in c.connections && k in d.connections && KeepsStand(s, v, w, d)
    ensures exists ref :: ref in v.rows && IsConnectionRow(digest, ref, v.rows[ref], w, host, k, d.connections[k])
  {
    var ref :| ref in s.rows && IsConnectionRow(digest, ref, s.rows[ref], w, host, k, c.connections[k]);
    assert RowStands(digest, ref, v.rows[ref], w, host, d);
  }

  lemma ReservationStands(digest: string -> string, s: State, w: string, host: Host, c: C.State, v: State, d: C.State, k: string)
    requires RowsStand(digest, s, w, host, c) && EachStands(digest, v, w, host, d) && k in c.reservations && k in d.reservations && KeepsStand(s, v, w, d)
    ensures exists ref :: ref in v.rows && IsReservation(ref, v.rows[ref], w, k, d.reservations[k])
  {
    var ref :| ref in s.rows && IsReservation(ref, s.rows[ref], w, k, c.reservations[k]);
    assert RowStands(digest, ref, v.rows[ref], w, host, d);
  }

  lemma SecretStands(digest: string -> string, s: State, w: string, host: Host, c: C.State, v: State, d: C.State, k: string)
    requires RowsStand(digest, s, w, host, c) && EachStands(digest, v, w, host, d) && k in c.secrets && k in d.secrets && KeepsStand(s, v, w, d)
    ensures exists ref :: ref in v.rows && IsSecret(ref, v.rows[ref], w, k, d.secrets[k])
  {
    var ref :| ref in s.rows && IsSecret(ref, s.rows[ref], w, k, c.secrets[k]);
    assert RowStands(digest, ref, v.rows[ref], w, host, d);
  }

  lemma PrepareKeepsStand(specs: Specs, s: State, r: Request, trace: Trace, host: Host, d: C.State)
    requires FourTables(specs) && Key(r) !in s.receipts && Plannable(specs, s, r, trace, host)
    ensures KeepsStand(s, Prepare(specs, s, r, trace, host), r.workspaceId, d)
  {
    var v := Prepare(specs, s, r, trace, host);
    forall ref | ref in s.rows && ref.workspaceId == r.workspaceId && ref.table in FOUR ensures ref in v.rows && SameKeyTexts(s.rows[ref], v.rows[ref]) {
      PreparedIff(specs, s, r, trace, host, ref);
      MarkedInFour(specs, ref.table, s.rows[ref]);
      MarkSameStand(s.rows[ref]);
    }
  }

  /** One prepare: the rows and fences it leaves stand in the credential model's prepare. */
  lemma PrepareAgrees(digest: string -> string, specs: Specs, s: State, r: Request, trace: Trace, host: Host, c: C.State)
    requires Injective(digest) && FourTables(specs) && Stands(digest, s, r.workspaceId, host, c)
    requires Key(r) !in s.receipts && Plannable(specs, s, r, trace, host)
    ensures Stands(digest, Prepare(specs, s, r, trace, host), r.workspaceId, host, C.Prepare(c, r.subjectId))
  {
    var v, d, w := Prepare(specs, s, r, trace, host), C.Prepare(c, r.subjectId), r.workspaceId;
    forall ref | ref in v.rows ensures RowStands(digest, ref, v.rows[ref], w, host, d) { PreparedRow(digest, specs, s, r, trace, host, c, ref); }
    PrepareKeepsStand(specs, s, r, trace, host, d);
    KeysStand(digest, s, w, host, c, v, d);
    PreparedFencesStand(digest, specs, s, r, trace, host, c);
  }

  /** A row for every key that both states have. */
  lemma KeysStand(digest: string -> string, s: State, w: string, host: Host, c: C.State, v: State, d: C.State)
    requires RowsStand(digest, s, w, host, c) && EachStands(digest, v, w, host, d) && KeepsStand(s, v, w, d)
    requires d.accounts.Keys <= c.accounts.Keys && d.connections.Keys <= c.connections.Keys
    requires d.reservations.Keys <= c.reservations.Keys && d.secrets.Keys <= c.secrets.Keys
    ensures RowsStand(digest, v, w, host, d)
  {
    forall k | k in d.accounts ensures exists ref :: ref in v.rows && IsAccount(ref, v.rows[ref], w, k, d.accounts[k]) { AccountStands(digest, s, w, host, c, v, d, k); }
    forall k | k in d.connections ensures exists ref :: ref in v.rows && IsConnectionRow(digest, ref, v.rows[ref], w, host, k, d.connections[k]) { ConnectionStands(digest, s, w, host, c, v, d, k); }
    forall k | k in d.reservations ensures exists ref :: ref in v.rows && IsReservation(ref, v.rows[ref], w, k, d.reservations[k]) { ReservationStands(digest, s, w, host, c, v, d, k); }
    forall k | k in d.secrets ensures exists ref :: ref in v.rows && IsSecret(ref, v.rows[ref], w, k, d.secrets[k]) { SecretStands(digest, s, w, host, c, v, d, k); }
  }

  lemma PlannedIdHasRow(digest: string -> string, s: State, w: string, host: Host, c: C.State, subject: string, id: C.RowId)
    requires RowsStand(digest, s, w, host, c) && id in C.Collect(c, subject).connections.Values
    ensures var ref := RowRef(w, CONNECTIONS, IdText(digest, w, id)); ref in s.rows && NamedByPlan(CONNECTIONS, s.rows[ref], c, subject)
  {
    var p := C.Collect(c, subject);
    var key :| key in p.connections && p.connections[key] == id;
    var at :| at in s.rows && IsConnectionRow(digest, at, s.rows[at], w, host, key, c.connections[key]);
    assert at == RowRef(w, CONNECTIONS, IdText(digest, w, id));
  }

  /** The connection rows in scope are those the credential model plans. */
  lemma PlannedConnectionRows(digest: string -> string, specs: Specs, s: State, r: Request, trace: Trace, host: Host, c: C.State, id: C.RowId)
    requires Injective(digest) && FourTables(specs) && RowsStand(digest, s, r.workspaceId, host, c)
    ensures RowRef(r.workspaceId, CONNECTIONS, IdText(digest, r.workspaceId, id)) in NewPlan(specs, s, r, trace, host).rows <==> id in C.Collect(c, r.subjectId).connections.Values
  {
    var ref := RowRef(r.workspaceId, CONNECTIONS, IdText(digest, r.workspaceId, id));
    if ref in s.rows {
      assert RowStands(digest, ref, s.rows[ref], r.workspaceId, host, c);
      PlannedIffNamed(digest, specs, s, r, trace, host, c, ref);
      ConnectionRowNamed(digest, ref, s.rows[ref], r.workspaceId, host, c, r.subjectId);
      IdTextInjective(digest, r.workspaceId, id, c.connections[TextOf(s.rows[ref], "connection_key")].id);
    }
    if id in C.Collect(c, r.subjectId).connections.Values {
      PlannedIdHasRow(digest, s, r.workspaceId, host, c, r.subjectId, id);
    }
  }

  lemma ConnectionRowNamed(digest: string -> string, ref: RowRef, row: Row, w: string, host: Host, c: C.State, subject: string)
    requires ref.workspaceId == w && ref.table == CONNECTIONS && RowStands(digest, ref, row, w, host, c)
    ensures NamedByPlan(CONNECTIONS, row, c, subject) ==> c.connections[TextOf(row, "connection_key")].id in C.Collect(c, subject).connections.Values
    ensures TextOf(row, "connection_key") in C.Collect(c, subject).connections ==> NamedByPlan(CONNECTIONS, row, c, subject)
  {
    var p, key := C.Collect(c, subject), TextOf(row, "connection_key");
    if key in p.connections {
      assert p.connections[key] == c.connections[key].id;
    }
  }

  lemma PreparedFencesStand(digest: string -> string, specs: Specs, s: State, r: Request, trace: Trace, host: Host, c: C.State)
    requires Injective(digest) && FourTables(specs) && Stands(digest, s, r.workspaceId, host, c)
    requires Key(r) !in s.receipts && Plannable(specs, s, r, trace, host)
    ensures FencesStand(digest, Prepare(specs, s, r, trace, host).fences, r.workspaceId, C.Prepare(c, r.subjectId))
  {
    var p, d := NewPlan(specs, s, r, trace, host), C.Prepare(c, r.subjectId);
    GatherIsCollect(digest, s, r, trace, host, c);
    forall id: C.RowId ensures RowRef(r.workspaceId, CONNECTIONS, IdText(digest, r.workspaceId, id)) in p.rows <==> id in C.Collect(c, r.subjectId).connections.Values {
      PlannedConnectionRows(digest, specs, s, r, trace, host, c, id);
    }
    AddedFencesStand(digest, s.fences, r, p, c, d);
  }

  lemma AddedFencesStand(digest: string -> string, fences: set<Fence>, r: Request, p: Plan, c: C.State, d: C.State)
    requires FencesStand(digest, fences, r.workspaceId, c) && d == C.Prepare(c, r.subjectId)
    requires p.connectionKeys == C.SubjectConnections(c, r.subjectId) && p.secretKeys == C.Collect(c, r.subjectId).secrets
    requires forall ref :: ref in p.rows ==> ref.workspaceId == r.workspaceId
    requires forall id: C.RowId :: RowRef(r.workspaceId, CONNECTIONS, IdText(digest, r.workspaceId, id)) in p.rows <==> id in C.Collect(c, r.subjectId).connections.Values
    ensures FencesStand(digest, fences + PlanFences(r, p), r.workspaceId, d)
  {
    var w, after := r.workspaceId, fences + PlanFences(r, p);
    forall k ensures k in d.fencedConnections <==> Fence(w, "connection", "", k) in after { ConnectionFence(r, p, k); }
    forall id: C.RowId ensures id in d.fencedRows <==> Fence(w, "row", CONNECTIONS, IdText(digest, w, id)) in after { RowFence(r, p, IdText(digest, w, id)); }
    forall k ensures k in d.fencedSecrets <==> Fence(w, "secret", "", k) in after { SecretFence(r, p, k); }
    forall k ensures k in d.fencedSubjects <==> Fence(w, "subject", "", k) in after { SubjectFence(r, p, k); }
  }

  lemma RowFence(r: Request, p: Plan, id: string)
    requires forall ref :: ref in p.rows ==> ref.workspaceId == r.workspaceId
    ensures Fence(r.workspaceId, "row", CONNECTIONS, id) in PlanFences(r, p) <==> RowRef(r.workspaceId, CONNECTIONS, id) in p.rows
  {
    if RowRef(r.workspaceId, CONNECTIONS, id) in p.rows {
      assert Fence(r.workspaceId, "row", CONNECTIONS, id) in (set at: RowRef | at in p.rows :: Fence(r.workspaceId, "row", at.table, at.id));
    }
  }

  lemma ConnectionFence(r: Request, p: Plan, k: string)
    ensures Fence(r.workspaceId, "connection", "", k) in PlanFences(r, p) <==> k in p.connectionKeys
  {
  }

  lemma SecretFence(r: Request, p: Plan, k: string)
    ensures Fence(r.workspaceId, "secret", "", k) in PlanFences(r, p) <==> k in p.secretKeys
  {
  }

  lemma SubjectFence(r: Request, p: Plan, k: string)
    ensures Fence(r.workspaceId, "subject", "", k) in PlanFences(r, p) <==> k == r.subjectId
  {
  }

  // ----- the same erasure -----

  /** How the four tables are erased. */
  predicate FourErased(specs: Specs) {
    && ACCOUNTS in specs && CONNECTIONS in specs && RESERVATIONS in specs && SECRETS in specs
    && !specs[ACCOUNTS].erase && specs[ACCOUNTS].values.Keys !! {"connection_key", "owner_user_id", "scope", "secret_key"}
    && !specs[CONNECTIONS].erase && specs[CONNECTIONS].values.Keys !! {"connection_key", "secret_key"}
    && "status" in specs[CONNECTIONS].values && specs[CONNECTIONS].values["status"] == "revoked"
    && "secret_refs_json" in specs[CONNECTIONS].values && specs[CONNECTIONS].values["secret_refs_json"] == "{}"
    && specs[RESERVATIONS].erase && specs[SECRETS].erase
  }

  /** The erasure plan names the rows that the plan of the credential model names. */
  predicate RowPlanned(ref: RowRef, row: Row, p: Plan, c: C.State, q: C.Plan) {
    var key, secret := TextOf(row, "connection_key"), TextOf(row, "secret_key");
    && (ref.table == CONNECTIONS ==> (ref in p.rows <==> C.PlannedRow(c, q, key)))
    && (ref.table == RESERVATIONS ==> (ref in p.rows <==> secret in q.reservations && secret in c.reservations && c.reservations[secret] in q.connections))
    && (ref.table == SECRETS ==> (ref in p.rows <==> secret in q.secrets))
  }

  ghost predicate PlanStands(s: State, w: string, p: Plan, c: C.State, q: C.Plan) {
    forall ref :: ref in s.rows && ref.workspaceId == w && ref.table in FOUR ==> RowPlanned(ref, s.rows[ref], p, c, q)
  }

  lemma PlannedIsRevoked(c: C.State, q: C.Plan, key: string, at: nat)
    requires q in c.plans && C.PlannedRow(c, q, key)
    ensures var d := C.Erase(c, q, at); key in d.connections && d.connections[key] == C.Connection(c.connections[key].id, C.ConnectionRevoked, map[], at)
  {
  }

  lemma RedactedConnectionRow(digest: string -> string, spec: Spec, ref: RowRef, row: Row, w: string, host: Host, key: string, c: C.Connection, now: string, at: nat)
    requires IsConnectionRow(digest, ref, row, w, host, key, c) && host.references("{}") == Some({})
    requires "connection_key" !in spec.values
    requires "status" in spec.values && spec.values["status"] == "revoked" && "secret_refs_json" in spec.values && spec.values["secret_refs_json"] == "{}"
    ensures IsConnectionRow(digest, ref, Redacted(spec, row, now), w, host, key, C.Connection(c.id, C.ConnectionRevoked, map[], at))
  {
    var after := Redacted(spec, row, now);
    assert after.columns["connection_key"] == key && after.columns["status"] == "revoked" && after.columns["secret_refs_json"] == "{}";
    assert C.ManagedKeys(map[]) == {};
  }

  lemma ErasedConnection(digest: string -> string, spec: Spec, ref: RowRef, row: Row, w: string, host: Host, c: C.State, q: C.Plan, now: string, at: nat)
    requires ref.workspaceId == w && ref.table == CONNECTIONS && RowStands(digest, ref, row, w, host, c) && host.references("{}") == Some({})
    requires q in c.plans && C.PlannedRow(c, q, TextOf(row, "connection_key"))
    requires "connection_key" !in spec.values
    requires "status" in spec.values && spec.values["status"] == "revoked" && "secret_refs_json" in spec.values && spec.values["secret_refs_json"] == "{}"
    ensures RowStands(digest, ref, Redacted(spec, row, now), w, host, C.Erase(c, q, at))
  {
    var key := TextOf(row, "connection_key");
    PlannedIsRevoked(c, q, key, at);
    RedactedConnectionRow(digest, spec, ref, row, w, host, key, c.connections[key], now, at);
  }

  lemma ErasedAccount(digest: string -> string, spec: Spec, ref: RowRef, row: Row, w: string, host: Host, c: C.State, d: C.State, now: string)
    requires ref.workspaceId == w && ref.table == ACCOUNTS && RowStands(digest, ref, row, w, host, c) && d.accounts == c.accounts
    requires spec.values.Keys !! {"connection_key", "owner_user_id", "scope", "secret_key"}
    ensures RowStands(digest, ref, Redacted(spec, row, now), w, host, d)
  {
    var key, after := TextOf(row, "connection_key"), Redacted(spec, row, now);
    forall column | column in {"connection_key", "owner_user_id", "scope"} ensures column !in spec.values { }
    assert IsAccount(ref, after, w, key, c.accounts[key]);
  }

  /** A row that the plan does not name stands as before. */
  lemma UnplannedRow(digest: string -> string, ref: RowRef, row: Row, w: string, host: Host, p: Plan, c: C.State, q: C.Plan, at: nat)
    requires RowStands(digest, ref, row, w, host, c) && (ref.workspaceId == w && ref.table in FOUR ==> RowPlanned(ref, row, p, c, q))
    requires ref !in p.rows
    ensures RowStands(digest, ref, row, w, host, C.Erase(c, q, at))
  {
  }

  lemma ErasedIs(specs: Specs, s: State, r: Request, p: Plan, now: string, ref: RowRef)
    requires Performs(specs, s, r, p)
    ensures var v := Erase(specs, s, r, p, now);
            && (ref in v.rows <==> ref in s.rows && !(ref in p.rows && specs[ref.table].erase))
            && (ref in v.rows ==> v.rows[ref] == if ref in p.rows then Redacted(specs[ref.table], s.rows[ref], now) else s.rows[ref])
  {
  }

  lemma ErasedRow(digest: string -> string, specs: Specs, s: State, r: Request, p: Plan, now: string, host: Host, c: C.State, q: C.Plan, at: nat, ref: RowRef)
    requires FourErased(specs) && Performs(specs, s, r, p) && q in c.plans && host.references("{}") == Some({})
    requires RowsStand(digest, s, r.workspaceId, host, c) && PlanStands(s, r.workspaceId, p, c, q)
    requires ref in Erase(specs, s, r, p, now).rows
    ensures RowStands(digest, ref, Erase(specs, s, r, p, now).rows[ref], r.workspaceId, host, C.Erase(c, q, at))
  {
    ErasedIs(specs, s, r, p, now, ref);
    assert RowStands(digest, ref, s.rows[ref], r.workspaceId, host, c);
    if ref !in p.rows {
      UnplannedRow(digest, ref, s.rows[ref], r.workspaceId, host, p, c, q, at);
    } else if ref.workspaceId == r.workspaceId {
      if ref.table == CONNECTIONS {
        assert RowPlanned(ref, s.rows[ref], p, c, q);
        ErasedConnection(digest, specs[CONNECTIONS], ref, s.rows[ref], r.workspaceId, host, c, q, now, at);
      } else if ref.table == ACCOUNTS {
        ErasedAccount(digest, specs[ACCOUNTS], ref, s.rows[ref], r.workspaceId, host, c, C.Erase(c, q, at), now);
      }
    }
  }

  lemma RedactionKeepsTexts(specs: Specs, table: string, row: Row, now: string)
    requires FourErased(specs) && table in {ACCOUNTS, CONNECTIONS}
    ensures SameKeyTexts(row, Redacted(specs[table], row, now))
  {
    forall column | column in {"connection_key", "secret_key"} ensures column !in specs[table].values { }
  }

  lemma ErasedKeeps(digest: string -> string, specs: Specs, s: State, r: Request, p: Plan, now: string, host: Host, c: C.State, q: C.Plan, at: nat, ref: RowRef)
    requires FourErased(specs) && Performs(specs, s, r, p) && q in c.plans && ref in s.rows && ref.workspaceId == r.workspaceId && ref.table in FOUR
    requires RowStands(digest, ref, s.rows[ref], r.workspaceId, host, c) && RowPlanned(ref, s.rows[ref], p, c, q) && StillKeyed(ref.table, s.rows[ref], C.Erase(c, q, at))
    ensures ref in Erase(specs, s, r, p, now).rows && SameKeyTexts(s.rows[ref], Erase(specs, s, r, p, now).rows[ref])
  {
    ErasedIs(specs, s, r, p, now, ref);
    if ref in p.rows {
      KeyedIsKept(digest, ref, s.rows[ref], r.workspaceId, host, p, c, q, at);
      RedactionKeepsTexts(specs, ref.table, s.rows[ref], now);
    }
  }

  /** A planned row whose key is still there is an account or a connection. */
  lemma KeyedIsKept(digest: string -> string, ref: RowRef, row: Row, w: string, host: Host, p: Plan, c: C.State, q: C.Plan, at: nat)
    requires q in c.plans && ref.workspaceId == w && ref.table in FOUR && ref in p.rows
    requires RowStands(digest, ref, row, w, host, c) && RowPlanned(ref, row, p, c, q) && StillKeyed(ref.table, row, C.Erase(c, q, at))
    ensures ref.table in {ACCOUNTS, CONNECTIONS}
  {
  }

  lemma EraseKeepsStand(digest: string -> string, specs: Specs, s: State, r: Request, p: Plan, now: string, host: Host, c: C.State, q: C.Plan, at: nat)
    requires FourErased(specs) && Performs(specs, s, r, p) && q in c.plans
    requires RowsStand(digest, s, r.workspaceId, host, c) && PlanStands(s, r.workspaceId, p, c, q)
    ensures KeepsStand(s, Erase(specs, s, r, p, now), r.workspaceId, C.Erase(c, q, at))
  {
    var v, d := Erase(specs, s, r, p, now), C.Erase(c, q, at);
    forall ref | ref in s.rows && ref.workspaceId == r.workspaceId && ref.table in FOUR && StillKeyed(ref.table, s.rows[ref], d)
      ensures ref in v.rows && SameKeyTexts(s.rows[ref], v.rows[ref])
    {
      assert RowStands(digest, ref, s.rows[ref], r.workspaceId, host, c) && RowPlanned(ref, s.rows[ref], p, c, q);
      ErasedKeeps(digest, specs, s, r, p, now, host, c, q, at, ref);
    }
  }

  /** One erasure: the rows it leaves stand in the credential model's erasure of its plan. */
  lemma EraseAgrees(digest: string -> string, specs: Specs, s: State, r: Request, p: Plan, now: string, host: Host, c: C.State, q: C.Plan, at: nat)
    requires FourErased(specs) && Performs(specs, s, r, p) && q in c.plans && host.references("{}") == Some({})
    requires Stands(digest, s, r.workspaceId, host, c) && PlanStands(s, r.workspaceId, p, c, q)
    ensures Stands(digest, Erase(specs, s, r, p, now), r.workspaceId, host, C.Erase(c, q, at))
  {
    var v, d, w := Erase(specs, s, r, p, now), C.Erase(c, q, at), r.workspaceId;
    forall ref | ref in v.rows ensures RowStands(digest, ref, v.rows[ref], w, host, d) { ErasedRow(digest, specs, s, r, p, now, host, c, q, at, ref); }
    EraseKeepsStand(digest, specs, s, r, p, now, host, c, q, at);
    KeysStand(digest, s, w, host, c, v, d);
  }

  lemma PreparedTexts(specs: Specs, s: State, r: Request, trace: Trace, host: Host, ref: RowRef)
    requires FourTables(specs) && Key(r) !in s.receipts && Plannable(specs, s, r, trace, host) && ref in s.rows && ref.table in FOUR
    ensures ref in Prepare(specs, s, r, trace, host).rows && SameKeyTexts(s.rows[ref], Prepare(specs, s, r, trace, host).rows[ref])
  {
    PreparedIff(specs, s, r, trace, host, ref);
    MarkedInFour(specs, ref.table, s.rows[ref]);
  }

  lemma PrepareKeepsRefs(specs: Specs, s: State, r: Request, trace: Trace, host: Host)
    ensures Prepare(specs, s, r, trace, host).rows.Keys == s.rows.Keys
  {
  }

  /** After the same prepare the two plans name the same rows. */
  lemma PreparedPlanStands(digest: string -> string, specs: Specs, s: State, r: Request, trace: Trace, host: Host, c: C.State, v: State, p: Plan, d: C.State, q: C.Plan)
    requires FourTables(specs) && RowsStand(digest, s, r.workspaceId, host, c) && C.Exclusive(c)
    requires Key(r) !in s.receipts && Plannable(specs, s, r, trace, host)
    requires v == Prepare(specs, s, r, trace, host) && p == NewPlan(specs, s, r, trace, host) && d == C.Prepare(c, r.subjectId) && q == C.Collect(c, r.subjectId)
    ensures PlanStands(v, r.workspaceId, p, d, q)
  {
    PrepareKeepsRefs(specs, s, r, trace, host);
    forall ref | ref in v.rows && ref.workspaceId == r.workspaceId && ref.table in FOUR ensures RowPlanned(ref, v.rows[ref], p, d, q) {
      PreparedRowPlanned(digest, specs, s, r, trace, host, c, ref);
    }
  }

  lemma PreparedRowPlanned(digest: string -> string, specs: Specs, s: State, r: Request, trace: Trace, host: Host, c: C.State, ref: RowRef)
    requires FourTables(specs) && RowsStand(digest, s, r.workspaceId, host, c) && C.Exclusive(c)
    requires Key(r) !in s.receipts && Plannable(specs, s, r, trace, host) && ref in s.rows && ref.workspaceId == r.workspaceId && ref.table in FOUR
    ensures ref in Prepare(specs, s, r, trace, host).rows
    ensures RowPlanned(ref, Prepare(specs, s, r, trace, host).rows[ref], NewPlan(specs, s, r, trace, host), C.Prepare(c, r.subjectId), C.Collect(c, r.subjectId))
  {
    PreparedTexts(specs, s, r, trace, host, ref);
    assert RowStands(digest, ref, s.rows[ref], r.workspaceId, host, c);
    PlannedIffNamed(digest, specs, s, r, trace, host, c, ref);
    NamedIsPlanned(digest, ref, s.rows[ref], Prepare(specs, s, r, trace, host).rows[ref], r.workspaceId, host, c, r.subjectId, NewPlan(specs, s, r, trace, host));
  }

  lemma NamedIsPlanned(digest: string -> string, ref: RowRef, row: Row, after: Row, w: string, host: Host, c: C.State, subject: string, p: Plan)
    requires ref.workspaceId == w && ref.table in FOUR && RowStands(digest, ref, row, w, host, c) && C.Exclusive(c)
    requires SameKeyTexts(row, after) && (ref in p.rows <==> NamedByPlan(ref.table, row, c, subject))
    ensures RowPlanned(ref, after, p, C.Prepare(c, subject), C.Collect(c, subject))
  {
    forall a | a in C.SubjectConnections(c, subject) ensures a in c.connections { assert C.AccountInv(c, a); }
  }

  // ----- the table of erased tables -----

  lemma SubjectFourErased()
    ensures FourErased(SUBJECT_SPECS)
  {
  }

  /** The erasure of a subject, prepared and carried out, is the erasure of the credential model. */
  lemma SubjectErasureAgrees(digest: string -> string, s: State, r: Request, trace: Trace, host: Host, c: C.State, now: string, at: nat)
    requires Injective(digest) && Stands(digest, s, r.workspaceId, host, c) && C.Exclusive(c) && host.references("{}") == Some({})
    requires Key(r) !in s.receipts && Plannable(SUBJECT_SPECS, s, r, trace, host)
    ensures var p, q := NewPlan(SUBJECT_SPECS, s, r, trace, host), C.Collect(c, r.subjectId);
            var v, d := Prepare(SUBJECT_SPECS, s, r, trace, host), C.Prepare(c, r.subjectId);
            && Stands(digest, v, r.workspaceId, host, d)
            && Performs(SUBJECT_SPECS, v, r, p)
            && Stands(digest, Erase(SUBJECT_SPECS, v, r, p, now), r.workspaceId, host, C.Erase(d, q, at))
  {
    SubjectFourTables();
    SubjectFourErased();
    PreparedThenErased(digest, SUBJECT_SPECS, s, r, trace, host, c, now, at);
  }

  lemma PreparedThenErased(digest: string -> string, specs: Specs, s: State, r: Request, trace: Trace, host: Host, c: C.State, now: string, at: nat)
    requires FourTables(specs) && FourErased(specs)
    requires Injective(digest) && Stands(digest, s, r.workspaceId, host, c) && C.Exclusive(c) && host.references("{}") == Some({})
    requires Key(r) !in s.receipts && Plannable(specs, s, r, trace, host)
    ensures var p, q := NewPlan(specs, s, r, trace, host), C.Collect(c, r.subjectId);
            var v, d := Prepare(specs, s, r, trace, host), C.Prepare(c, r.subjectId);
            && Stands(digest, v, r.workspaceId, host, d)
            && Performs(specs, v, r, p)
            && Stands(digest, Erase(specs, v, r, p, now), r.workspaceId, host, C.Erase(d, q, at))
  {
    var p, q := NewPlan(specs, s, r, trace, host), C.Collect(c, r.subjectId);
    var v, d := Prepare(specs, s, r, trace, host), C.Prepare(c, r.subjectId);
    PrepareAgrees(digest, specs, s, r, trace, host, c);
    PreparedPlanStands(digest, specs, s, r, trace, host, c, v, p, d, q);
    NewPlanPerforms(specs, s, r, trace, host);
    EraseAgrees(digest, specs, v, r, p, now, host, d, q, at);
  }

  lemma StoredPlanPerforms(specs: Specs, v: State, r: Request, p: Plan)
    requires Key(r) in v.receipts && v.receipts[Key(r)] == Receipt(r.subjectId, p, None) && p.request == Normalize(r) && Tables(specs, p.rows)
    ensures Performs(specs, v, r, p)
  {
  }

  lemma NewPlanPerforms(specs: Specs, s: State, r: Request, trace: Trace, host: Host)
    requires Key(r) !in s.receipts && Plannable(specs, s, r, trace, host)
    ensures Performs(specs, Prepare(specs, s, r, trace, host), r, NewPlan(specs, s, r, trace, host))
  {
    StoredPlanPerforms(specs, Prepare(specs, s, r, trace, host), r, NewPlan(specs, s, r, trace, host));
  }
}
