/** Erasure under interleaving: other writers run between prepare, erase and their repeats. */
module SubjectErasureSafety {
  import opened Basics
  import opened Fences
  import opened Identity
  import opened SubjectErasure
  import opened SubjectWrites
  import opened Text

  datatype Action =
    | PrepareErasure(request: Request, trace: Trace, host: Host)
    | CarryOut(request: Request, plan: Plan, now: string)
    | Update(ref: RowRef, row: Row)                                      // every UPDATE carries the row predicate and leaves the key columns
    | Remove(workspaceId: string, table: string, key: string)            // deletion by key: no fence is consulted
    | Insert(workspaceId: string, insertion: Insertion, row: Row)

  /** Tables with rows that a caller can delete: connections with their accounts and
      reservations, and webhook subscriptions. */
  const REMOVABLE := {ACCOUNTS, CONNECTIONS, RESERVATIONS, WEBHOOKS}

  predicate Removed(ref: RowRef, row: Row, workspaceId: string, table: string, key: string) {
    ref.workspaceId == workspaceId && ref.table == table && KeyIs(row, KeyColumn(table), key)
  }

  function RemoveRows(s: State, workspaceId: string, table: string, key: string): State {
    s.(rows := map ref | ref in s.rows && !Removed(ref, s.rows[ref], workspaceId, table, key) :: s.rows[ref])
  }

  predicate SameKeys(table: string, before: Row, after: Row) {
    forall c :: c in KeyColumns(table) ==> SameColumn(before, after, c)
  }

  predicate Updates(s: State, ref: RowRef, row: Row) {
    ref in s.rows && RowWriteAllowed(s.fences, ref.table, ref.workspaceId, ref.id) && SameKeys(ref.table, s.rows[ref], row)
  }

  predicate Pending(s: State, ref: RowRef) {
    exists q :: q in s.receipts && ref in s.receipts[q].plan.rows && s.receipts[q].result.None?
  }

  predicate Finished(s: State, ref: RowRef) {
    exists q :: q in s.receipts && ref in s.receipts[q].plan.rows && s.receipts[q].result.Some?
  }

  function WriteRow(s: State, ref: RowRef, row: Row): State {
    s.(rows := s.rows[ref := row])
  }

  ghost function Apply(specs: Specs, digest: string -> string, s: State, a: Action): State {
    match a
    case PrepareErasure(r, trace, host) => Prepare(specs, s, r, trace, host)
    case CarryOut(r, p, now) => Erase(specs, s, r, p, now)
    case Update(ref, row) => if Updates(s, ref, row) then WriteRow(s, ref, row) else s
    case Remove(w, table, key) => if table in REMOVABLE then RemoveRows(s, w, table, key) else s
    case Insert(w, ins, row) => if Lands(digest, s, w, ins) then WriteRow(s, Target(digest, w, ins), Stored(ins, row)) else s
  }

  ghost function Run(specs: Specs, digest: string -> string, s: State, actions: seq<Action>): State
    decreases |actions|
  {
    if actions == [] then s else Run(specs, digest, Apply(specs, digest, s, actions[0]), actions[1..])
  }

  // ----- receipts and fences only accumulate -----

  ghost predicate ReceiptGrows(before: Receipt, after: Receipt) {
    && after.plan == before.plan && after.subjectId == before.subjectId
    && (before.result.Some? ==> after.result == before.result)
  }

  ghost predicate Grows(s: State, v: State) {
    && s.fences <= v.fences
    && forall q :: q in s.receipts ==> q in v.receipts && ReceiptGrows(s.receipts[q], v.receipts[q])
  }

  lemma StepGrows(specs: Specs, digest: string -> string, s: State, a: Action)
    ensures Grows(s, Apply(specs, digest, s, a))
  {
    match a
    case PrepareErasure(r, trace, host) =>
    case CarryOut(r, p, now) =>
    case _ =>
  }

  lemma {:induction false} RunGrows(specs: Specs, digest: string -> string, s: State, actions: seq<Action>)
    ensures Grows(s, Run(specs, digest, s, actions))
    decreases |actions|
  {
    if actions != [] {
      StepGrows(specs, digest, s, actions[0]);
      RunGrows(specs, digest, Apply(specs, digest, s, actions[0]), actions[1..]);
    }
  }

  /** Repeating prepare at any later time returns the saved plan exactly when the request is
      equal up to order, duplicates and legal holds, and changes nothing either way. */
  lemma RepeatedPrepareReplays(specs: Specs, digest: string -> string, s: State, r: Request, trace: Trace, host: Host, later: seq<Action>,
                               again: Request, trace': Trace, host': Host)
    requires Key(r) !in s.receipts && Plannable(specs, s, r, trace, host)
    requires Key(again) == Key(r)
    ensures var v := Run(specs, digest, Prepare(specs, s, r, trace, host), later);
            && (PrepareReply(specs, v, again, trace', host') == Prepared(NewPlan(specs, s, r, trace, host)) <==> SameUpToOrder(again, r))
            && Prepare(specs, v, again, trace', host') == v
  {
    var t := Prepare(specs, s, r, trace, host);
    RunGrows(specs, digest, t, later);
    var v := Run(specs, digest, t, later);
    assert t.receipts[Key(r)] == Receipt(r.subjectId, NewPlan(specs, s, r, trace, host), None);
    NormalizedEqualIff(again, r);
  }

  /** Repeating erase at any later time returns the stored result and changes nothing. */
  lemma RepeatedEraseReplays(specs: Specs, digest: string -> string, s: State, r: Request, p: Plan, now: string, later: seq<Action>, again: string)
    requires Performs(specs, s, r, p)
    ensures var v := Run(specs, digest, Erase(specs, s, r, p, now), later);
            && EraseReply(specs, v, r, p) == Erased(|p.rows|)
            && Erase(specs, v, r, p, again) == v
  {
    RunGrows(specs, digest, Erase(specs, s, r, p, now), later);
  }

  /** What a prepared request protects: the subject, the planned connections, credentials,
      external identities and rows, and the messages and resources it names. */
  predicate Protected(r: Request, p: Plan, ref: Reference) {
    || (ref.kind == "subject" && ref.objectKey == "" && ref.id == r.subjectId)
    || (ref.kind == "connection" && ref.objectKey == "" && ref.id in p.connectionKeys)
    || (ref.kind == "secret" && ref.objectKey == "" && ref.id in p.secretKeys)
    || (ref.kind == "message" && ref.objectKey == "" && ref.id in r.messageIds)
    || (ref.kind == "resource" && Resource(ref.objectKey, ref.id) in r.resources)
    || (ref.kind == "external" && (ref.objectKey, ref.id) in p.external)
    || (ref.kind == "row" && RowRef(r.workspaceId, ref.objectKey, ref.id) in p.rows)
  }

  lemma ProtectedIsFenced(r: Request, p: Plan, ref: Reference)
    ensures Protected(r, p, ref) ==> Fence(r.workspaceId, ref.kind, ref.objectKey, ref.id) in PlanFences(r, p)
  {
    if ref.kind == "row" && RowRef(r.workspaceId, ref.objectKey, ref.id) in p.rows {
      assert Fence(r.workspaceId, "row", ref.objectKey, ref.id) in (set at: RowRef | at in p.rows :: Fence(r.workspaceId, "row", at.table, at.id));
    } else if ref.kind == "resource" && Resource(ref.objectKey, ref.id) in r.resources {
      assert Fence(r.workspaceId, "resource", ref.objectKey, ref.id) in (set x: Resource | x in r.resources :: Fence(r.workspaceId, "resource", x.objectKey, x.recordId));
    } else if ref.kind == "external" && (ref.objectKey, ref.id) in p.external {
      assert Fence(r.workspaceId, "external", ref.objectKey, ref.id) in (set e: (string, string) | e in p.external :: Fence(r.workspaceId, "external", e.0, e.1));
    }
  }

  /** Once prepared, every guarded write that names something protected is refused for good. */
  lemma ProtectedWritesAreRefused(specs: Specs, digest: string -> string, s: State, r: Request, trace: Trace, host: Host, later: seq<Action>, guards: seq<Reference>, ref: Reference)
    requires Key(r) !in s.receipts && Plannable(specs, s, r, trace, host)
    requires ref in guards && ref.id != "" && Protected(r, NewPlan(specs, s, r, trace, host), ref)
    ensures SubjectErased(Run(specs, digest, Prepare(specs, s, r, trace, host), later).fences, r.workspaceId, guards)
  {
    var t := Prepare(specs, s, r, trace, host);
    RunGrows(specs, digest, t, later);
    ProtectedIsFenced(r, NewPlan(specs, s, r, trace, host), ref);
    assert Fence(r.workspaceId, ref.kind, ref.objectKey, ref.id) in t.fences;
    var i :| 0 <= i < |guards| && guards[i] == ref;
    assert Refers(Run(specs, digest, t, later).fences, r.workspaceId, guards[i]);
  }

  // ----- frame -----

  predicate MarkedColumn(spec: Spec, table: string, column: string) {
    spec.status != "" && table != LEASES && (column == spec.status || (spec.token && column in {"lease_owner", "lease_expires_at"}))
  }

  /** Status erasing, one token more and no lease where the table has them; nothing else moves. */
  ghost predicate ExactlyMarked(spec: Spec, table: string, before: Row, after: Row) {
    if spec.status == "" || table == LEASES then after == before
    else
      && spec.status in after.columns && after.columns[spec.status] == "erasing"
      && (spec.token ==> "lease_owner" in after.columns && after.columns["lease_owner"] == "")
      && (spec.token ==> "lease_expires_at" in after.columns && after.columns["lease_expires_at"] == "")
      && after.token == before.token + (if spec.token then 1 else 0)
      && forall c :: !MarkedColumn(spec, table, c) ==> SameColumn(before, after, c)
  }

  predicate SameColumn(before: Row, after: Row, c: string) {
    (c in after.columns <==> c in before.columns) && (c in before.columns ==> after.columns[c] == before.columns[c])
  }

  lemma MarkIsExact(spec: Spec, table: string, row: Row)
    requires CoherentSpec(spec)
    ensures ExactlyMarked(spec, table, row, Marked(spec, table, row))
  {
  }

  /** A covered row is marked, exactly, and no other row is touched. */
  lemma PrepareFrame(specs: Specs, s: State, r: Request, trace: Trace, host: Host, ref: RowRef)
    requires Coherent(specs) && Key(r) !in s.receipts && Plannable(specs, s, r, trace, host)
    ensures var v := Prepare(specs, s, r, trace, host);
            && (ref in v.rows <==> ref in s.rows)
            && (InScope(specs, s, r, Gather(s, r, trace, host), host, ref) ==> ExactlyMarked(specs[ref.table], ref.table, s.rows[ref], v.rows[ref]))
            && (ref in s.rows && !InScope(specs, s, r, Gather(s, r, trace, host), host, ref) ==> v.rows[ref] == s.rows[ref])
  {
    if InScope(specs, s, r, Gather(s, r, trace, host), host, ref) {
      assert CoherentSpec(specs[ref.table]);
      MarkIsExact(specs[ref.table], ref.table, s.rows[ref]);
    }
  }

  /** Redaction overwrites the listed columns and the revision, nothing else. */
  ghost predicate ExactlyRedacted(spec: Spec, before: Row, after: Row, now: string) {
    && after.token == before.token && "updated_at" in after.columns && after.columns["updated_at"] == now
    && (forall c :: c in spec.values ==> c in after.columns && after.columns[c] == spec.values[c])
    && (forall c :: c !in spec.values && c != "updated_at" ==> SameColumn(before, after, c))
  }

  lemma RedactionIsExact(spec: Spec, row: Row, now: string)
    requires CoherentSpec(spec)
    ensures ExactlyRedacted(spec, row, Redacted(spec, row, now), now)
  {
  }

  /** A planned row is deleted or redacted, exactly, and no other row and no fence is touched. */
  lemma EraseFrame(specs: Specs, s: State, r: Request, p: Plan, now: string, ref: RowRef)
    requires Coherent(specs) && Performs(specs, s, r, p)
    ensures var v := Erase(specs, s, r, p, now);
            && v.fences == s.fences && Tables(specs, p.rows)
            && (ref in v.rows <==> ref in s.rows && !(ref in p.rows && specs[ref.table].erase))
            && (ref in v.rows && ref in p.rows ==> ExactlyRedacted(specs[ref.table], s.rows[ref], v.rows[ref], now))
            && (ref in v.rows && ref !in p.rows ==> v.rows[ref] == s.rows[ref])
  {
    if ref in p.rows && ref in s.rows {
      assert CoherentSpec(specs[ref.table]);
      RedactionIsExact(specs[ref.table], s.rows[ref], now);
    }
  }

  // ----- planned rows -----

  ghost predicate PlanHolds(specs: Specs, s: State, q: (string, string)) {
    q in s.receipts ==> forall ref :: ref in s.receipts[q].plan.rows ==>
      ref.table in specs && ref.workspaceId == q.0 && Fence(ref.workspaceId, "row", ref.table, ref.id) in s.fences
  }

  /** The row was written under a key that is fenced. */
  ghost predicate KeyFenced(digest: string -> string, fences: set<Fence>, ref: RowRef, key: string, secret: string) {
    && Names(digest, ref, key, secret) && Trimmed(key) && key != "" && ProperKey(ref.table, key, secret)
    && Fence(ref.workspaceId, FenceKind(ref.table), "", key) in fences
  }

  /** Beside the row fence, what keeps a planned row from being inserted again. */
  ghost predicate PlannedKey(digest: string -> string, s: State, ref: RowRef) {
    && (FenceKind(ref.table) != "" ==> exists key, secret :: KeyFenced(digest, s.fences, ref, key, secret))
    && (ref.table in KEPT ==> ref in s.rows)
  }

  ghost predicate KeyInv(digest: string -> string, s: State) {
    && (forall ref :: ref in s.rows ==> KeyedRow(digest, ref, s.rows[ref]))
    && (forall ref :: Planned(s, ref) ==> PlannedKey(digest, s, ref))
  }

  ghost predicate Inv(specs: Specs, digest: string -> string, s: State) {
    Coherent(specs) && Injective(digest) && (forall q :: PlanHolds(specs, s, q)) && KeyInv(digest, s)
  }

  lemma PlannedIsFenced(specs: Specs, s: State, ref: RowRef)
    requires (forall q :: PlanHolds(specs, s, q)) && Planned(s, ref)
    ensures ref.table in specs && !RowWriteAllowed(s.fences, ref.table, ref.workspaceId, ref.id)
  {
    var q :| q in s.receipts && ref in s.receipts[q].plan.rows;
    assert PlanHolds(specs, s, q);
  }

  lemma PrepareKeepsPlans(specs: Specs, s: State, r: Request, trace: Trace, host: Host, v: State, q: (string, string))
    requires (forall q :: PlanHolds(specs, s, q)) && v == Prepare(specs, s, r, trace, host)
    ensures PlanHolds(specs, v, q)
  {
    assert PlanHolds(specs, s, q);
    if q == Key(r) && q !in s.receipts && q in v.receipts {
      forall ref | ref in v.receipts[q].plan.rows
        ensures ref.table in specs && ref.workspaceId == q.0 && Fence(ref.workspaceId, "row", ref.table, ref.id) in v.fences
      {
        assert InScope(specs, s, r, Gather(s, r, trace, host), host, ref);
      }
    }
  }

  lemma StepKeepsPlans(specs: Specs, digest: string -> string, s: State, a: Action, v: State)
    requires (forall q :: PlanHolds(specs, s, q)) && v == Apply(specs, digest, s, a)
    ensures forall q :: PlanHolds(specs, v, q)
  {
    StepGrows(specs, digest, s, a);
    forall q ensures PlanHolds(specs, v, q) {
      assert PlanHolds(specs, s, q);
      if a.PrepareErasure? {
        PrepareKeepsPlans(specs, s, a.request, a.trace, a.host, v, q);
      }
    }
  }

  // ----- keys -----

  lemma SameKeysSameNames(digest: string -> string, ref: RowRef, before: Row, after: Row)
    requires KeyedRow(digest, ref, before) && SameKeys(ref.table, before, after)
    ensures KeyedRow(digest, ref, after)
  {
    if KeyColumn(ref.table) != "" {
      assert KeyColumn(ref.table) in KeyColumns(ref.table);
      assert SameColumn(before, after, KeyColumn(ref.table));
      if ref.table == RESERVATIONS {
        assert SameColumn(before, after, "secret_key");
      }
    }
  }

  lemma MarkKeepsKeys(specs: Specs, table: string, row: Row)
    requires Coherent(specs) && table in specs
    ensures SameKeys(table, row, Marked(specs[table], table, row))
  {
    assert KeysStay(table, specs[table]);
  }

  lemma RedactionKeepsKeys(specs: Specs, table: string, row: Row, now: string)
    requires Coherent(specs) && table in specs
    ensures SameKeys(table, row, Redacted(specs[table], row, now))
  {
    assert KeysStay(table, specs[table]);
  }

  lemma PrepareKeepsKeyedRow(specs: Specs, digest: string -> string, s: State, r: Request, trace: Trace, host: Host, v: State, ref: RowRef)
    requires Coherent(specs) && v == Prepare(specs, s, r, trace, host) && ref in s.rows && KeyedRow(digest, ref, s.rows[ref])
    ensures ref in v.rows && KeyedRow(digest, ref, v.rows[ref])
  {
    if v.rows[ref] != s.rows[ref] {
      MarkKeepsKeys(specs, ref.table, s.rows[ref]);
      SameKeysSameNames(digest, ref, s.rows[ref], v.rows[ref]);
    }
  }

  lemma EraseKeepsKeyedRow(specs: Specs, digest: string -> string, s: State, r: Request, p: Plan, now: string, v: State, ref: RowRef)
    requires Coherent(specs) && v == Erase(specs, s, r, p, now) && ref in s.rows && KeyedRow(digest, ref, s.rows[ref])
    ensures ref in v.rows ==> KeyedRow(digest, ref, v.rows[ref])
  {
    if ref in v.rows && v.rows[ref] != s.rows[ref] {
      RedactionKeepsKeys(specs, ref.table, s.rows[ref], now);
      SameKeysSameNames(digest, ref, s.rows[ref], v.rows[ref]);
    }
  }

  lemma StepKeepsKeyedRow(specs: Specs, digest: string -> string, s: State, a: Action, v: State, ref: RowRef)
    requires Coherent(specs) && v == Apply(specs, digest, s, a) && ref in v.rows && (ref in s.rows ==> KeyedRow(digest, ref, s.rows[ref]))
    ensures KeyedRow(digest, ref, v.rows[ref])
  {
    match a
    case PrepareErasure(r, trace, host) => PrepareKeepsKeyedRow(specs, digest, s, r, trace, host, v, ref);
    case CarryOut(r, p, now) => EraseKeepsKeyedRow(specs, digest, s, r, p, now, v, ref);
    case Update(at, row) => if at == ref && Updates(s, at, row) { SameKeysSameNames(digest, ref, s.rows[ref], row); }
    case Remove(w, table, key) =>
    case Insert(w, ins, row) => if ref !in s.rows { InsertedIsKeyed(digest, w, ins, row); }
  }

  /** The subject's connection keys are those of accounts, which are trimmed. */
  lemma PersonalKeysAreProper(digest: string -> string, s: State, r: Request, key: string)
    requires KeyInv(digest, s) && key in PersonalKeys(s, r)
    ensures Trimmed(key) && key != ""
  {
    var ref :| ref in s.rows && PersonalAccount(ref, s.rows[ref], r) && s.rows[ref].columns["connection_key"] == key;
    assert KeyedRow(digest, ref, s.rows[ref]);
  }

  lemma PlanFencesKeys(r: Request, p: Plan, key: string)
    ensures key in p.connectionKeys ==> Fence(r.workspaceId, "connection", "", key) in PlanFences(r, p)
    ensures key in p.secretKeys ==> Fence(r.workspaceId, "secret", "", key) in PlanFences(r, p)
  {
  }

  lemma CoveredByKey(ref: RowRef, row: Row, r: Request, inv: Inventory, host: Host)
    requires Covers(ref, row, r, inv, host)
    ensures FenceKind(ref.table) == "connection" ==> Column(row, "connection_key", inv.connectionKeys)
    ensures FenceKind(ref.table) == "secret" ==> Column(row, "secret_key", inv.secretKeys)
  {
  }

  lemma FencedByKey(digest: string -> string, fences: set<Fence>, ref: RowRef, row: Row)
    requires KeyedRow(digest, ref, row) && FenceKind(ref.table) != ""
    requires var key := ColumnOr(row, KeyColumn(ref.table)); Trimmed(key) && key != "" && Fence(ref.workspaceId, FenceKind(ref.table), "", key) in fences
    ensures exists key, secret :: KeyFenced(digest, fences, ref, key, secret)
  {
    assert KeyFenced(digest, fences, ref, ColumnOr(row, KeyColumn(ref.table)), ColumnOr(row, "secret_key"));
  }

  /** What prepare plans in a table of keys it has fenced by key. */
  lemma NewlyPlannedKey(specs: Specs, digest: string -> string, s: State, r: Request, trace: Trace, host: Host, v: State, ref: RowRef)
    requires KeyInv(digest, s) && Key(r) !in s.receipts && Plannable(specs, s, r, trace, host) && v == Prepare(specs, s, r, trace, host)
    requires InScope(specs, s, r, Gather(s, r, trace, host), host, ref)
    ensures PlannedKey(digest, v, ref)
  {
    var row, p, key := s.rows[ref], NewPlan(specs, s, r, trace, host), ColumnOr(s.rows[ref], KeyColumn(ref.table));
    assert KeyedRow(digest, ref, row);
    CoveredByKey(ref, row, r, Gather(s, r, trace, host), host);
    PlanFencesKeys(r, p, key);
    if FenceKind(ref.table) == "connection" {
      PersonalKeysAreProper(digest, s, r, key);
      FencedByKey(digest, v.fences, ref, row);
    } else if FenceKind(ref.table) == "secret" {
      FencedByKey(digest, v.fences, ref, row);
    }
  }

  lemma FencesKeepPlannedKey(digest: string -> string, s: State, v: State, ref: RowRef)
    requires PlannedKey(digest, s, ref) && s.fences <= v.fences && (ref.table in KEPT ==> ref in v.rows)
    ensures PlannedKey(digest, v, ref)
  {
    if FenceKind(ref.table) != "" {
      var key, secret :| KeyFenced(digest, s.fences, ref, key, secret);
      assert KeyFenced(digest, v.fences, ref, key, secret);
    }
  }

  lemma NotRemovable(table: string)
    ensures table in KEPT ==> table !in REMOVABLE
  {
  }

  lemma KeptRowsStay(specs: Specs, digest: string -> string, s: State, a: Action, ref: RowRef)
    requires Coherent(specs) && ref.table in KEPT && ref in s.rows
    ensures ref in Apply(specs, digest, s, a).rows
  {
    match a
    case PrepareErasure(r, trace, host) =>
    case CarryOut(r, p, now) => if Performs(specs, s, r, p) { assert ref.table in specs ==> !specs[ref.table].erase; }
    case Remove(w, table, key) => NotRemovable(ref.table);
    case _ =>
  }

  lemma StepKeepsPlannedKey(specs: Specs, digest: string -> string, s: State, a: Action, v: State, ref: RowRef)
    requires Inv(specs, digest, s) && v == Apply(specs, digest, s, a) && Planned(v, ref)
    ensures PlannedKey(digest, v, ref)
  {
    StepGrows(specs, digest, s, a);
    if Planned(s, ref) {
      if ref.table in KEPT {
        KeptRowsStay(specs, digest, s, a, ref);
      }
      FencesKeepPlannedKey(digest, s, v, ref);
    } else {
      NewPlanIsPrepared(specs, digest, s, a, v, ref);
      NewlyPlannedKey(specs, digest, s, a.request, a.trace, a.host, v, ref);
    }
  }

  lemma NewPlanIsPrepared(specs: Specs, digest: string -> string, s: State, a: Action, v: State, ref: RowRef)
    requires v == Apply(specs, digest, s, a) && Planned(v, ref) && !Planned(s, ref)
    ensures a.PrepareErasure? && Key(a.request) !in s.receipts && Plannable(specs, s, a.request, a.trace, a.host)
    ensures InScope(specs, s, a.request, Gather(s, a.request, a.trace, a.host), a.host, ref)
  {
    var q :| q in v.receipts && ref in v.receipts[q].plan.rows;
    match a
    case PrepareErasure(r, trace, host) =>
    case CarryOut(r, p, now) =>
    case _ =>
  }

  lemma StepKeeps(specs: Specs, digest: string -> string, s: State, a: Action)
    requires Inv(specs, digest, s)
    ensures Inv(specs, digest, Apply(specs, digest, s, a))
  {
    var v := Apply(specs, digest, s, a);
    StepKeepsPlans(specs, digest, s, a, v);
    forall ref | ref in v.rows ensures KeyedRow(digest, ref, v.rows[ref]) { StepKeepsKeyedRow(specs, digest, s, a, v, ref); }
    forall ref | Planned(v, ref) ensures PlannedKey(digest, v, ref) { StepKeepsPlannedKey(specs, digest, s, a, v, ref); }
  }

  lemma {:induction false} RunKeeps(specs: Specs, digest: string -> string, s: State, actions: seq<Action>)
    requires Inv(specs, digest, s)
    ensures Inv(specs, digest, Run(specs, digest, s, actions))
    decreases |actions|
  {
    if actions != [] {
      StepKeeps(specs, digest, s, actions[0]);
      RunKeeps(specs, digest, Apply(specs, digest, s, actions[0]), actions[1..]);
    }
  }
}
