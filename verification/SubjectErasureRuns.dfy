/** Runs from the empty state in which an erased row comes back. */
module SubjectErasureRuns {
  import opened Basics
  import opened Text
  import opened Fences
  import opened Identity
  import opened SubjectErasure
  import opened SubjectWrites
  import opened SubjectErasureSafety
  import opened SubjectErasureTheorems

  const Start := State(map[], {}, map[])

  ghost predicate Reachable(specs: Specs, digest: string -> string, s: State) {
    exists actions :: Run(specs, digest, Start, actions) == s
  }

  /** In some reachable state the row is erased, and these steps bring it back. */
  ghost predicate ComesBack(specs: Specs, digest: string -> string, ref: RowRef, steps: seq<Action>) {
    exists s :: Reachable(specs, digest, s) && Returns(specs, digest, s, ref, steps)
  }

  ghost predicate Returns(specs: Specs, digest: string -> string, s: State, ref: RowRef, steps: seq<Action>) {
    Finished(s, ref) && Settled(specs, s, ref) && !Settled(specs, Run(specs, digest, s, steps), ref)
  }

  lemma {:induction false} RunSnoc(specs: Specs, digest: string -> string, s: State, actions: seq<Action>, a: Action)
    ensures Run(specs, digest, s, actions + [a]) == Apply(specs, digest, Run(specs, digest, s, actions), a)
    decreases |actions|
  {
    if actions == [] {
      assert [] + [a] == [a];
      RunOne(specs, digest, s, a);
    } else {
      assert (actions + [a])[1..] == actions[1..] + [a];
      RunSnoc(specs, digest, Apply(specs, digest, s, actions[0]), actions[1..], a);
    }
  }

  lemma StartIsReachable(specs: Specs, digest: string -> string)
    ensures Reachable(specs, digest, Start)
  {
    assert Run(specs, digest, Start, []) == Start;
  }

  lemma StepIsReachable(specs: Specs, digest: string -> string, s: State, a: Action)
    requires Reachable(specs, digest, s)
    ensures Reachable(specs, digest, Apply(specs, digest, s, a))
  {
    var actions :| Run(specs, digest, Start, actions) == s;
    RunSnoc(specs, digest, Start, actions, a);
    assert Run(specs, digest, Start, actions + [a]) == Apply(specs, digest, s, a);
  }

  lemma ReachableKeeps(specs: Specs, digest: string -> string, s: State)
    requires Coherent(specs) && Injective(digest) && Reachable(specs, digest, s)
    ensures Inv(specs, digest, s)
  {
    var actions :| Run(specs, digest, Start, actions) == s;
    RunKeeps(specs, digest, Start, actions);
  }

  /** A reachable state before the first request. */
  ghost predicate Fresh(specs: Specs, digest: string -> string, s: State) {
    Reachable(specs, digest, s) && s.fences == {} && s.receipts == map[] && |s.rows| <= 10 && QuietRows(s.rows)
  }

  ghost predicate QuietRows(rows: map<RowRef, Row>) {
    forall ref :: ref in rows ==> QuietRow(ref, rows[ref])
  }

  predicate QuietRow(ref: RowRef, row: Row) {
    ref.table in QUIET && (ref.table == CONNECTIONS ==> "connection_key" in row.columns && "secret_refs_json" in row.columns)
  }

  /** Tables whose rows are never in flight. */
  const QUIET := {ACCOUNTS, CONNECTIONS, RESERVATIONS, WEBHOOKS, WEB_PUSH, API_KEYS, IDENTITIES, SECRETS}

  ghost predicate QuietTables(specs: Specs) {
    forall t :: t in QUIET ==> t in specs && specs[t].busy == {}
  }

  lemma NoFenceRefuses(w: string, ins: Insertion)
    ensures !Refused({}, w, ins)
  {
  }

  lemma OneMoreRow(rows: map<RowRef, Row>, ref: RowRef, row: Row)
    requires QuietRows(rows) && QuietRow(ref, row)
    ensures QuietRows(rows[ref := row])
    ensures |rows[ref := row]| <= |rows| + 1
  {
    assert rows[ref := row].Keys == rows.Keys + {ref};
  }

  lemma InsertIsReachable(specs: Specs, digest: string -> string, s: State, w: string, ins: Insertion, row: Row, v: State)
    requires Reachable(specs, digest, s) && Lands(digest, s, w, ins) && v == WriteRow(s, Target(digest, w, ins), Stored(ins, row))
    ensures Reachable(specs, digest, v)
  {
    StepIsReachable(specs, digest, s, Insert(w, ins, row));
    LandingWrites(specs, digest, s, w, ins, row, Apply(specs, digest, s, Insert(w, ins, row)));
  }

  lemma InsertIsFresh(specs: Specs, digest: string -> string, s: State, w: string, ins: Insertion, row: Row, v: State)
    requires Fresh(specs, digest, s) && |s.rows| < 10 && QuietRow(Target(digest, w, ins), Stored(ins, row)) && Named(w, ins) && !ins.Session?
    requires LooksFree(s, Place(w, ins), ins) && Target(digest, w, ins) !in s.rows
    requires v == WriteRow(s, Target(digest, w, ins), Stored(ins, row))
    ensures Fresh(specs, digest, v)
  {
    NoFenceRefuses(w, ins);
    InsertIsReachable(specs, digest, s, w, ins, row, v);
    OneMoreRow(s.rows, Target(digest, w, ins), Stored(ins, row));
  }

  lemma NotInFlight(specs: Specs, table: string, row: Row, host: Host)
    requires QuietTables(specs) && table in QUIET
    ensures table in specs && !InFlight(specs[table], table, row, host)
  {
  }

  /** Any stored references name these secrets; nothing else is decoded. */
  function Naming(secrets: set<string>): Host {
    Host(_ => None, _ => Some(secrets), _ => true)
  }

  lemma FreshIsPlannable(specs: Specs, digest: string -> string, s: State, r: Request, trace: Trace, host: Host, secrets: set<string>)
    requires QuietTables(specs) && Fresh(specs, digest, s) && host == Naming(secrets)
    ensures Plannable(specs, s, r, trace, host)
  {
    var inv := Gather(s, r, trace, host);
    forall ref | ref in s.rows && IsConnection(ref, r) ensures Decodes(s.rows[ref], host) { assert QuietRow(ref, s.rows[ref]); }
    forall ref | InScope(specs, s, r, inv, host, ref) ensures !InFlight(specs[ref.table], ref.table, s.rows[ref], host) {
      assert QuietRow(ref, s.rows[ref]);
      NotInFlight(specs, ref.table, s.rows[ref], host);
    }
    SubsetIsNotLarger(Scope(specs, s, r, inv, host), s.rows.Keys);
  }

  ghost function AfterErasure(specs: Specs, s: State, r: Request, trace: Trace, host: Host, now: string): State {
    Erase(specs, Prepare(specs, s, r, trace, host), r, NewPlan(specs, s, r, trace, host), now)
  }

  lemma UnfinishedPerforms(specs: Specs, u: State, r: Request, p: Plan)
    requires Key(r) in u.receipts && u.receipts[Key(r)] == Receipt(r.subjectId, p, None) && p.request == Normalize(r) && Tables(specs, p.rows)
    ensures Performs(specs, u, r, p)
  {
  }

  lemma PreparedPerforms(specs: Specs, s: State, r: Request, trace: Trace, host: Host, u: State, p: Plan)
    requires Key(r) !in s.receipts && Plannable(specs, s, r, trace, host) && u == Prepare(specs, s, r, trace, host) && p == NewPlan(specs, s, r, trace, host)
    ensures Performs(specs, u, r, p) && u.fences == s.fences + PlanFences(r, p)
  {
    assert Tables(specs, p.rows) by {
      forall ref | ref in p.rows ensures ref.table in specs { assert InScope(specs, s, r, Gather(s, r, trace, host), host, ref); }
    }
    UnfinishedPerforms(specs, u, r, p);
  }

  lemma ErasureIsReachable(specs: Specs, digest: string -> string, s: State, r: Request, trace: Trace, host: Host, now: string)
    requires Reachable(specs, digest, s)
    ensures Reachable(specs, digest, AfterErasure(specs, s, r, trace, host, now))
  {
    var u, p := Prepare(specs, s, r, trace, host), NewPlan(specs, s, r, trace, host);
    StepIsReachable(specs, digest, s, PrepareErasure(r, trace, host));
    StepIsReachable(specs, digest, u, CarryOut(r, p, now));
  }

  lemma EraseKeepsFences(specs: Specs, u: State, r: Request, p: Plan, now: string)
    ensures Erase(specs, u, r, p, now).fences == u.fences
  {
  }

  /** The request prepared and carried out in a fresh state. */
  lemma FreshErasure(specs: Specs, digest: string -> string, s: State, r: Request, trace: Trace, host: Host, secrets: set<string>, now: string, u: State, p: Plan, t: State)
    requires Coherent(specs) && Injective(digest) && QuietTables(specs) && Fresh(specs, digest, s) && host == Naming(secrets)
    requires u == Prepare(specs, s, r, trace, host) && p == NewPlan(specs, s, r, trace, host) && t == AfterErasure(specs, s, r, trace, host, now)
    ensures t.fences == s.fences + PlanFences(r, p)
    ensures Plannable(specs, s, r, trace, host) && Performs(specs, u, r, p)
  {
    FreshIsPlannable(specs, digest, s, r, trace, host, secrets);
    PreparedPerforms(specs, s, r, trace, host, u, p);
    EraseKeepsFences(specs, u, r, p, now);
  }

  /** A covered row is erased. */
  lemma FreshRowIsErased(specs: Specs, digest: string -> string, s: State, r: Request, trace: Trace, host: Host, secrets: set<string>, now: string, t: State, ref: RowRef)
    requires Coherent(specs) && Injective(digest) && QuietTables(specs) && Fresh(specs, digest, s) && host == Naming(secrets)
    requires t == AfterErasure(specs, s, r, trace, host, now) && InScope(specs, s, r, Gather(s, r, trace, host), host, ref)
    ensures Finished(t, ref) && Settled(specs, t, ref)
  {
    var u, p := Prepare(specs, s, r, trace, host), NewPlan(specs, s, r, trace, host);
    FreshErasure(specs, digest, s, r, trace, host, secrets, now, u, p, t);
    ReachableKeeps(specs, digest, s);
    StepKeeps(specs, digest, s, PrepareErasure(r, trace, host));
    EraseSettled(specs, digest, u, r, p, now, ref);
    assert t.receipts[Key(r)].plan == p;
  }

  lemma ComposeKeys(table: string, a: Row, b: Row, c: Row)
    requires SameKeys(table, a, b) && SameKeys(table, b, c)
    ensures SameKeys(table, a, c)
  {
    forall k | k in KeyColumns(table) ensures SameColumn(a, c, k) { assert SameColumn(a, b, k) && SameColumn(b, c, k); }
  }

  /** A covered row is deleted, or keeps its key. */
  lemma FreshRowKeepsKeys(specs: Specs, digest: string -> string, s: State, r: Request, trace: Trace, host: Host, secrets: set<string>, now: string, t: State, ref: RowRef)
    requires Coherent(specs) && Injective(digest) && QuietTables(specs) && Fresh(specs, digest, s) && host == Naming(secrets)
    requires t == AfterErasure(specs, s, r, trace, host, now) && InScope(specs, s, r, Gather(s, r, trace, host), host, ref)
    ensures ref in t.rows <==> !specs[ref.table].erase
    ensures ref in t.rows ==> SameKeys(ref.table, s.rows[ref], t.rows[ref])
  {
    var u, p := Prepare(specs, s, r, trace, host), NewPlan(specs, s, r, trace, host);
    FreshErasure(specs, digest, s, r, trace, host, secrets, now, u, p, t);
    MarkKeepsKeys(specs, ref.table, s.rows[ref]);
    RedactionKeepsKeys(specs, ref.table, u.rows[ref], now);
    if ref in t.rows { ComposeKeys(ref.table, s.rows[ref], u.rows[ref], t.rows[ref]); }
  }

  lemma ErasedAt(specs: Specs, digest: string -> string, s: State, r: Request, trace: Trace, host: Host, secrets: set<string>, ref: RowRef, p: Plan, t: State)
    requires Coherent(specs) && Injective(digest) && QuietTables(specs) && Fresh(specs, digest, s) && host == Naming(secrets)
    requires p == NewPlan(specs, s, r, trace, host) && t == AfterErasure(specs, s, r, trace, host, "now")
    requires InScope(specs, s, r, Gather(s, r, trace, host), host, ref)
    ensures Reachable(specs, digest, t) && Finished(t, ref) && Settled(specs, t, ref) && t.fences == {} + PlanFences(r, p)
  {
    ErasureIsReachable(specs, digest, s, r, trace, host, "now");
    FreshErasure(specs, digest, s, r, trace, host, secrets, "now", Prepare(specs, s, r, trace, host), p, t);
    FreshRowIsErased(specs, digest, s, r, trace, host, secrets, "now", t, ref);
  }

  /** A row that is not covered is left as it is, and no row appears. */
  lemma FreshRowIsLeft(specs: Specs, digest: string -> string, s: State, r: Request, trace: Trace, host: Host, secrets: set<string>, now: string, t: State, ref: RowRef)
    requires Coherent(specs) && Injective(digest) && QuietTables(specs) && Fresh(specs, digest, s) && host == Naming(secrets)
    requires t == AfterErasure(specs, s, r, trace, host, now)
    ensures ref !in s.rows ==> ref !in t.rows
    ensures ref in s.rows && !InScope(specs, s, r, Gather(s, r, trace, host), host, ref) ==> ref in t.rows && t.rows[ref] == s.rows[ref]
  {
    var u, p := Prepare(specs, s, r, trace, host), NewPlan(specs, s, r, trace, host);
    FreshErasure(specs, digest, s, r, trace, host, secrets, now, u, p, t);
    PrepareFrame(specs, s, r, trace, host, ref);
    EraseFrame(specs, u, r, p, now, ref);
  }

  /** What a plan does not name has no fence. */
  predicate Unplanned(r: Request, p: Plan, ref: Reference) {
    || (ref.kind == "subject" && ref.id != r.subjectId)
    || (ref.kind == "connection" && ref.id !in p.connectionKeys)
    || (ref.kind == "secret" && ref.id !in p.secretKeys)
    || (ref.kind == "external" && (ref.objectKey, ref.id) !in p.external)
  }

  lemma UnplannedIsUnfenced(r: Request, p: Plan, ref: Reference)
    requires Unplanned(r, p, ref)
    ensures Fence(r.workspaceId, ref.kind, ref.objectKey, ref.id) !in {} + PlanFences(r, p)
  {
  }

  lemma BothUnfenced(r: Request, p: Plan, a: Reference, b: Reference)
    requires Unplanned(r, p, a) && Unplanned(r, p, b)
    ensures !SubjectErased({} + PlanFences(r, p), r.workspaceId, [a, b])
  {
    UnplannedIsUnfenced(r, p, a);
    UnplannedIsUnfenced(r, p, b);
  }

  function Of(w: string, subject: string): Request {
    Request(w, subject, "request", [], [], [], "")
  }

  lemma NothingIsHeld(t: State, w: string, table: string, column: string, key: string)
    requires forall x :: x !in t.rows
    ensures !Held(t, w, table, column, key)
  {
  }

  // ----- rows of the subject itself -----

  function Person(ins: Insertion): string
    requires ins.WebPush? || ins.ExternalIdentity? || ins.ApiKey?
  {
    if ins.WebPush? then Trim(ins.owner) else Trim(ins.actor)
  }

  /** A row that a request covers by its person. */
  predicate PersonRow(ref: RowRef, row: Row, r: Request) {
    ref.workspaceId == r.workspaceId
    && if ref.table == WEB_PUSH then Column(row, "user_id", {r.subjectId}) else ref.table in {API_KEYS, IDENTITIES} && Column(row, "actor_id", {r.subjectId})
  }

  lemma InsertedIsPersonRow(digest: string -> string, w: string, ins: Insertion)
    requires (ins.WebPush? || ins.ExternalIdentity? || ins.ApiKey?) && Trim(w) == w
    ensures PersonRow(Target(digest, w, ins), Stored(ins, Row(map[], 0)), Of(w, Person(ins)))
  {
  }

  lemma PersonRowIsCovered(specs: Specs, s: State, r: Request, inv: Inventory, host: Host, ref: RowRef)
    requires Coherent(specs) && ref in s.rows && PersonRow(ref, s.rows[ref], r)
    ensures InScope(specs, s, r, inv, host, ref) && specs[ref.table].erase
  {
  }

  lemma PersonIsFresh(specs: Specs, digest: string -> string, w: string, ins: Insertion, s: State)
    requires (ins.WebPush? || ins.ExternalIdentity? || ins.ApiKey?) && Named(w, ins)
    requires s == WriteRow(Start, Target(digest, w, ins), Stored(ins, Row(map[], 0)))
    ensures Fresh(specs, digest, s)
  {
    StartIsReachable(specs, digest);
    InsertIsFresh(specs, digest, Start, w, ins, Row(map[], 0), s);
  }

  lemma RowIsGone(specs: Specs, digest: string -> string, s: State, r: Request, trace: Trace, ref: RowRef, t: State, x: RowRef)
    requires Coherent(specs) && Injective(digest) && QuietTables(specs) && Fresh(specs, digest, s) && (x in s.rows ==> x == ref)
    requires InScope(specs, s, r, Gather(s, r, trace, Naming({})), Naming({}), ref) && specs[ref.table].erase
    requires t == AfterErasure(specs, s, r, trace, Naming({}), "now")
    ensures x !in t.rows
  {
    if x == ref {
      FreshRowKeepsKeys(specs, digest, s, r, trace, Naming({}), {}, "now", t, ref);
    } else {
      FreshRowIsLeft(specs, digest, s, r, trace, Naming({}), {}, "now", t, x);
    }
  }

  /** Erased as the only row. */
  lemma OnlyRowIsErased(specs: Specs, digest: string -> string, s: State, r: Request, trace: Trace, ref: RowRef) returns (p: Plan, t: State)
    requires Coherent(specs) && Injective(digest) && QuietTables(specs) && Fresh(specs, digest, s) && forall x :: x in s.rows ==> x == ref
    requires InScope(specs, s, r, Gather(s, r, trace, Naming({})), Naming({}), ref) && specs[ref.table].erase
    ensures Reachable(specs, digest, t) && Finished(t, ref) && Settled(specs, t, ref) && t.fences == {} + PlanFences(r, p)
    ensures p.external == trace.external && forall x :: x !in t.rows
  {
    p, t := NewPlan(specs, s, r, trace, Naming({})), AfterErasure(specs, s, r, trace, Naming({}), "now");
    ErasedAt(specs, digest, s, r, trace, Naming({}), {}, ref, p, t);
    forall x ensures x !in t.rows { RowIsGone(specs, digest, s, r, trace, ref, t, x); }
  }

  lemma PersonIsErased(specs: Specs, digest: string -> string, r: Request, trace: Trace, ref: RowRef, s: State) returns (p: Plan, t: State)
    requires Coherent(specs) && Injective(digest) && QuietTables(specs) && Fresh(specs, digest, s)
    requires ref in s.rows && PersonRow(ref, s.rows[ref], r) && forall x :: x in s.rows ==> x == ref
    ensures Reachable(specs, digest, t) && Finished(t, ref) && Settled(specs, t, ref) && t.fences == {} + PlanFences(r, p)
    ensures p.external == trace.external && forall x :: x !in t.rows
  {
    PersonRowIsCovered(specs, s, r, Gather(s, r, trace, Naming({})), Naming({}), ref);
    p, t := OnlyRowIsErased(specs, digest, s, r, trace, ref);
  }

  /** The row is inserted, and erased. */
  lemma InsertedIsErased(specs: Specs, digest: string -> string, w: string, ins: Insertion, r: Request, trace: Trace, ref: RowRef) returns (p: Plan, t: State)
    requires Coherent(specs) && Injective(digest) && QuietTables(specs)
    requires (ins.WebPush? || ins.ExternalIdentity? || ins.ApiKey?) && Named(w, ins) && Trim(w) == w && ref == Target(digest, w, ins) && r == Of(w, Person(ins))
    ensures Reachable(specs, digest, t) && Finished(t, ref) && Settled(specs, t, ref) && t.fences == {} + PlanFences(r, p)
    ensures p.external == trace.external && forall x :: x !in t.rows
  {
    var row := Stored(ins, Row(map[], 0));
    var s := WriteRow(Start, ref, row);
    PersonIsFresh(specs, digest, w, ins, s);
    InsertedIsPersonRow(digest, w, ins);
    p, t := PersonIsErased(specs, digest, r, trace, ref, s);
  }

  /** A web push subscription returns under its id for another owner. */
  lemma WebPushComesBack(specs: Specs, digest: string -> string, w: string, id: string, subject: string, owner: string, row: Row)
    requires Coherent(specs) && QuietTables(specs) && Injective(digest)
    requires Trim(w) == w != "" && Trim(id) == id != "" && Trim(subject) == subject != "" && Trim(owner) !in {"", subject}
    ensures ComesBack(specs, digest, RowRef(w, WEB_PUSH, id), [Insert(w, WebPush(id, owner), row)])
  {
    var ref, r := RowRef(w, WEB_PUSH, id), Of(w, subject);
    var p, t := InsertedIsErased(specs, digest, w, WebPush(id, subject), r, Trace({}, {}), ref);
    UnplannedIsUnfenced(r, p, Reference("subject", "", Trim(owner)));
    WebPushRevives(specs, digest, t, ref, owner, row);
    assert Returns(specs, digest, t, ref, [Insert(w, WebPush(id, owner), row)]);
  }

  lemma IdentityReturns(specs: Specs, digest: string -> string, t: State, r: Request, p: Plan, ref: RowRef, again: Insertion, row: Row)
    requires Coherent(specs) && Finished(t, ref) && Settled(specs, t, ref) && t.fences == {} + PlanFences(r, p) && forall x :: x !in t.rows
    requires again.ExternalIdentity? && r.workspaceId == ref.workspaceId && Named(ref.workspaceId, again) && Target(digest, ref.workspaceId, again) == ref
    requires again.actor != r.subjectId && (Trim(again.provider), again.subjectHash) !in p.external
    ensures Returns(specs, digest, t, ref, [Insert(ref.workspaceId, again, row)])
  {
    UnplannedIsUnfenced(r, p, Reference("subject", "", again.actor));
    UnplannedIsUnfenced(r, p, Reference("external", Trim(again.provider), again.subjectHash));
    NothingIsHeld(t, ref.workspaceId, IDENTITIES, "identity_key", Trim(again.key));
    IdentityRevives(specs, digest, t, ref, again, row);
  }

  /** An external identity returns under its key for another actor and external subject. */
  lemma IdentityComesBack(specs: Specs, digest: string -> string, w: string, ins: Insertion, again: Insertion, row: Row)
    requires Coherent(specs) && QuietTables(specs) && Injective(digest)
    requires ins.ExternalIdentity? && again.ExternalIdentity? && Trim(w) == w && Named(w, ins) && Named(w, again) && Trim(again.key) == Trim(ins.key)
    requires again.actor != Trim(ins.actor) && (Trim(again.provider), again.subjectHash) != (Trim(ins.provider), ins.subjectHash)
    ensures ComesBack(specs, digest, Target(digest, w, ins), [Insert(w, again, row)])
  {
    var ref, r := Target(digest, w, ins), Of(w, Trim(ins.actor));
    var p, t := InsertedIsErased(specs, digest, w, ins, r, Trace({}, {(Trim(ins.provider), ins.subjectHash)}), ref);
    IdentityReturns(specs, digest, t, r, p, ref, again, row);
  }

  /** An API key returns under its key for another actor. */
  lemma ApiKeyComesBack(specs: Specs, digest: string -> string, w: string, ins: Insertion, again: Insertion, row: Row)
    requires Coherent(specs) && QuietTables(specs) && Injective(digest)
    requires ins.ApiKey? && again.ApiKey? && Trim(w) == w && Named(w, ins) && Named(w, again) && Trim(again.key) == Trim(ins.key)
    requires again.actor != Trim(ins.actor)
    ensures ComesBack(specs, digest, Target(digest, w, ins), [Insert(w, again, row)])
  {
    var ref, r := Target(digest, w, ins), Of(w, Trim(ins.actor));
    var p, t := InsertedIsErased(specs, digest, w, ins, r, Trace({}, {}), ref);
    UnplannedIsUnfenced(r, p, Reference("subject", "", again.actor));
    ApiKeyRevives(specs, digest, t, ref, again, row);
    assert Returns(specs, digest, t, ref, [Insert(w, again, row)]);
  }

  // ----- rows of the subject's connection -----

  const CONNECTED := Row(map["secret_refs_json" := ""], 0)
  const PERSONAL := Row(map["scope" := "personal"], 0)

  /** A connection and the subject's personal account of it. */
  function Connected(digest: string -> string, w: string, first: Insertion, subject: string): State
    requires first.Connection? || first.Manifest?
  {
    WriteRow(WriteRow(Start, Target(digest, w, first), Stored(first, CONNECTED)),
             Target(digest, w, Account(first.key, subject)), Stored(Account(first.key, subject), PERSONAL))
  }

  lemma FirstIsQuiet(digest: string -> string, w: string, first: Insertion)
    requires (first.Connection? || first.Manifest?) && Trim(w) == w != "" && Trim(first.key) == first.key != ""
    ensures var ref, row := Target(digest, w, first), Stored(first, CONNECTED);
            QuietRow(ref, row) && ref.workspaceId == w && ref.table == CONNECTIONS && KeyIs(row, "connection_key", first.key)
    ensures Named(w, first) && LooksFree(Start, Place(w, first), first)
  {
    NothingIsHeld(Start, w, CONNECTIONS, "connection_key", first.key);
  }

  lemma FirstIsFresh(specs: Specs, digest: string -> string, w: string, first: Insertion, s: State)
    requires (first.Connection? || first.Manifest?) && Trim(w) == w != "" && Trim(first.key) == first.key != ""
    requires s == WriteRow(Start, Target(digest, w, first), Stored(first, CONNECTED))
    ensures Fresh(specs, digest, s) && |s.rows| == 1 && Held(s, w, CONNECTIONS, "connection_key", first.key)
    ensures forall ref :: ref in s.rows ==> ref.table == CONNECTIONS
  {
    var ref := Target(digest, w, first);
    FirstIsQuiet(digest, w, first);
    StartIsReachable(specs, digest);
    InsertIsFresh(specs, digest, Start, w, first, CONNECTED, s);
    assert s.rows.Keys == {ref};
    assert ref in s.rows && KeyIs(s.rows[ref], "connection_key", first.key);
  }

  lemma AccountIsFresh(specs: Specs, digest: string -> string, w: string, key: string, subject: string, s: State, v: State)
    requires Trim(w) == w != "" && Trim(key) == key != "" && Fresh(specs, digest, s) && |s.rows| < 10
    requires Held(s, w, CONNECTIONS, "connection_key", key) && forall ref :: ref in s.rows ==> ref.table != ACCOUNTS
    requires v == WriteRow(s, Target(digest, w, Account(key, subject)), Stored(Account(key, subject), PERSONAL))
    ensures Fresh(specs, digest, v) && |v.rows| <= |s.rows| + 1
  {
    InsertIsFresh(specs, digest, s, w, Account(key, subject), PERSONAL, v);
    assert v.rows.Keys == s.rows.Keys + {Target(digest, w, Account(key, subject))};
  }

  lemma ConnectedIsFresh(specs: Specs, digest: string -> string, w: string, first: Insertion, subject: string)
    requires (first.Connection? || first.Manifest?) && Trim(w) == w != "" && Trim(first.key) == first.key != ""
    ensures Fresh(specs, digest, Connected(digest, w, first, subject)) && |Connected(digest, w, first, subject).rows| <= 2
  {
    var s := WriteRow(Start, Target(digest, w, first), Stored(first, CONNECTED));
    FirstIsFresh(specs, digest, w, first, s);
    AccountIsFresh(specs, digest, w, first.key, subject, s, Connected(digest, w, first, subject));
  }

  /** The key of the account is among the subject's, also when more rows are there. */
  lemma ConnectedIsPersonal(digest: string -> string, w: string, key: string, subject: string, s: State)
    requires Trim(w) == w && Trim(key) == key && Trim(subject) == subject
    requires var ref := Target(digest, w, Account(key, subject)); ref in s.rows && s.rows[ref] == Stored(Account(key, subject), PERSONAL)
    ensures key in PersonalKeys(s, Of(w, subject))
  {
    assert PersonalAccount(Target(digest, w, Account(key, subject)), Stored(Account(key, subject), PERSONAL), Of(w, subject));
  }

  lemma ConnectionRowIsCovered(specs: Specs, s: State, r: Request, trace: Trace, host: Host, ref: RowRef, key: string)
    requires ref in s.rows && ref.workspaceId == r.workspaceId && ref.table in specs && ref.table in {CONNECTIONS, WEBHOOKS, RESERVATIONS, ACCOUNTS}
    requires KeyIs(s.rows[ref], "connection_key", key) && key in PersonalKeys(s, r)
    ensures InScope(specs, s, r, Gather(s, r, trace, host), host, ref)
  {
  }

  /** Every connection key of a plan is trimmed: no other spelling is fenced. */
  lemma SpelledIsUnplanned(specs: Specs, digest: string -> string, s: State, r: Request, trace: Trace, host: Host, key: string)
    requires Coherent(specs) && Injective(digest) && Reachable(specs, digest, s) && !Trimmed(key)
    ensures key !in NewPlan(specs, s, r, trace, host).connectionKeys
  {
    ReachableKeeps(specs, digest, s);
    if key in PersonalKeys(s, r) { PersonalKeysAreProper(digest, s, r, key); }
  }

  lemma KeepsConnectionKey(table: string, before: Row, after: Row, key: string)
    requires SameKeys(table, before, after) && table in {CONNECTIONS, RESERVATIONS, ACCOUNTS} && KeyIs(before, "connection_key", key)
    ensures KeyIs(after, "connection_key", key)
  {
    assert SameColumn(before, after, "connection_key");
  }

  /** A fresh state in which the request covers this row by the key of a personal connection. */
  ghost predicate Ready(specs: Specs, digest: string -> string, s: State, r: Request, ref: RowRef, key: string) {
    && Fresh(specs, digest, s) && ref in s.rows && ref.workspaceId == r.workspaceId && ref.table in {CONNECTIONS, WEBHOOKS, RESERVATIONS}
    && KeyIs(s.rows[ref], "connection_key", key) && key in PersonalKeys(s, r)
  }

  lemma ReadyIsErased(specs: Specs, digest: string -> string, s: State, r: Request, secrets: set<string>, ref: RowRef, key: string, p: Plan, t: State)
    requires Coherent(specs) && QuietTables(specs) && Injective(digest) && Ready(specs, digest, s, r, ref, key)
    requires p == NewPlan(specs, s, r, Trace({}, {}), Naming(secrets)) && t == AfterErasure(specs, s, r, Trace({}, {}), Naming(secrets), "now")
    ensures Reachable(specs, digest, t) && Finished(t, ref) && Settled(specs, t, ref) && t.fences == {} + PlanFences(r, p)
    ensures ref in s.rows && (ref in t.rows <==> !specs[ref.table].erase) && (ref in t.rows ==> SameKeys(ref.table, s.rows[ref], t.rows[ref]))
  {
    ConnectionRowIsCovered(specs, s, r, Trace({}, {}), Naming(secrets), ref, key);
    ErasedAt(specs, digest, s, r, Trace({}, {}), Naming(secrets), secrets, ref, p, t);
    FreshRowKeepsKeys(specs, digest, s, r, Trace({}, {}), Naming(secrets), secrets, "now", t, ref);
  }

  lemma ConnectionIsReady(specs: Specs, digest: string -> string, w: string, first: Insertion, r: Request, ref: RowRef, s: State)
    requires (first.Connection? || first.Manifest?) && Trim(w) == w != "" && Trim(first.key) == first.key != "" && Trim(r.subjectId) == r.subjectId && r == Of(w, r.subjectId)
    requires ref == Target(digest, w, first) && s == Connected(digest, w, first, r.subjectId)
    ensures Ready(specs, digest, s, r, ref, first.key)
  {
    ConnectedIsFresh(specs, digest, w, first, r.subjectId);
    ConnectedIsPersonal(digest, w, first.key, r.subjectId, s);
    FirstIsQuiet(digest, w, first);
  }

  /** The connection is erased with its account and keeps its key. */
  lemma ConnectionIsErased(specs: Specs, digest: string -> string, w: string, first: Insertion, r: Request, ref: RowRef, s: State, p: Plan, t: State)
    requires Coherent(specs) && QuietTables(specs) && Injective(digest)
    requires (first.Connection? || first.Manifest?) && Trim(w) == w != "" && Trim(first.key) == first.key != "" && Trim(r.subjectId) == r.subjectId && r == Of(w, r.subjectId)
    requires ref == Target(digest, w, first) && s == Connected(digest, w, first, r.subjectId) && p == NewPlan(specs, s, r, Trace({}, {}), Naming({}))
    requires t == AfterErasure(specs, s, r, Trace({}, {}), Naming({}), "now")
    ensures Reachable(specs, digest, t) && Finished(t, ref) && Settled(specs, t, ref) && t.fences == {} + PlanFences(r, p)
    ensures ref in t.rows && KeyIs(t.rows[ref], "connection_key", first.key)
  {
    ConnectionIsReady(specs, digest, w, first, r, ref, s);
    ReadyIsErased(specs, digest, s, r, {}, ref, first.key, p, t);
    KeepsConnectionKey(ref.table, s.rows[ref], t.rows[ref], first.key);
  }

  lemma ConnectionReturns(specs: Specs, digest: string -> string, t: State, r: Request, p: Plan, ref: RowRef, again: Insertion, row: Row)
    requires Coherent(specs) && Finished(t, ref) && Settled(specs, t, ref) && t.fences == {} + PlanFences(r, p) && ref in t.rows && r.workspaceId == ref.workspaceId
    requires again.Connection? && Named(ref.workspaceId, again) && Target(digest, ref.workspaceId, again) == ref
    requires KeyIs(t.rows[ref], "connection_key", Trim(again.key)) && KeyIs(row, "status", "active")
    requires again.key !in p.connectionKeys && again.actor != r.subjectId
    ensures Returns(specs, digest, t, ref, [Remove(ref.workspaceId, CONNECTIONS, Trim(again.key)), Insert(ref.workspaceId, again, row)])
  {
    BothUnfenced(r, p, Reference("connection", "", again.key), Reference("subject", "", again.actor));
    ConnectionRevives(specs, digest, t, ref, again, row);
  }

  /** A connection returns under an untrimmed spelling of its key, after a deletion. */
  lemma ConnectionComesBack(specs: Specs, digest: string -> string, w: string, first: Insertion, subject: string, again: Insertion, row: Row)
    requires Coherent(specs) && QuietTables(specs) && Injective(digest) && Trim(w) == w != "" && Trim(subject) == subject
    requires first.Connection? && Trim(first.key) == first.key != "" && again.Connection? && Trim(again.key) == first.key && !Trimmed(again.key)
    requires again.actor != subject && KeyIs(row, "status", "active")
    ensures ComesBack(specs, digest, Target(digest, w, first), [Remove(w, CONNECTIONS, first.key), Insert(w, again, row)])
  {
    var ref, r, trace, s := Target(digest, w, first), Of(w, subject), Trace({}, {}), Connected(digest, w, first, subject);
    var p, t := NewPlan(specs, s, r, trace, Naming({})), AfterErasure(specs, s, r, trace, Naming({}), "now");
    ConnectionIsErased(specs, digest, w, first, r, ref, s, p, t);
    ConnectedIsFresh(specs, digest, w, first, subject);
    SpelledIsUnplanned(specs, digest, s, r, trace, Naming({}), again.key);
    ConnectionReturns(specs, digest, t, r, p, ref, again, row);
  }

  /** A manifest connection returns at the next synchronisation after a deletion. */
  lemma ManifestComesBack(specs: Specs, digest: string -> string, w: string, key: string, subject: string, row: Row)
    requires Coherent(specs) && QuietTables(specs) && Injective(digest) && Trim(w) == w != "" && Trim(key) == key != "" && Trim(subject) == subject
    ensures ComesBack(specs, digest, Target(digest, w, Manifest(key)), [Remove(w, CONNECTIONS, key), Insert(w, Manifest(key), row)])
  {
    var ref, r, trace, s := Target(digest, w, Manifest(key)), Of(w, subject), Trace({}, {}), Connected(digest, w, Manifest(key), subject);
    var p, t := NewPlan(specs, s, r, trace, Naming({})), AfterErasure(specs, s, r, trace, Naming({}), "now");
    ConnectionIsErased(specs, digest, w, Manifest(key), r, ref, s, p, t);
    ManifestRevives(specs, digest, t, ref, key, row);
    assert Returns(specs, digest, t, ref, [Remove(w, CONNECTIONS, key), Insert(w, Manifest(key), row)]);
  }

  // ----- further rows beside the connection -----

  /** Only the connection of this key and its personal account. */
  ghost predicate Base(specs: Specs, digest: string -> string, s: State, r: Request, key: string) {
    && Fresh(specs, digest, s) && |s.rows| <= 2 && key in PersonalKeys(s, r)
    && (forall x :: x in s.rows ==> BaseRow(x, s.rows[x], key)) && (exists x :: x in s.rows && IsConnection(x, r))
  }

  predicate BaseRow(ref: RowRef, row: Row, key: string) {
    ref.table in {CONNECTIONS, ACCOUNTS} && KeyIs(row, "connection_key", key)
  }

  lemma ConnectedRows(digest: string -> string, w: string, first: Insertion, subject: string, s: State)
    requires (first.Connection? || first.Manifest?) && Trim(w) == w != "" && Trim(first.key) == first.key != "" && s == Connected(digest, w, first, subject)
    ensures forall x :: x in s.rows ==> BaseRow(x, s.rows[x], first.key)
    ensures exists x :: x in s.rows && IsConnection(x, Of(w, subject))
  {
    FirstIsQuiet(digest, w, first);
    assert Target(digest, w, first) in s.rows && IsConnection(Target(digest, w, first), Of(w, subject));
  }

  lemma ConnectedIsBase(specs: Specs, digest: string -> string, w: string, first: Insertion, subject: string, s: State, r: Request, key: string)
    requires (first.Connection? || first.Manifest?) && Trim(w) == w != "" && Trim(first.key) == first.key == key != "" && Trim(subject) == subject
    requires s == Connected(digest, w, first, subject) && r == Of(w, subject)
    ensures Base(specs, digest, s, r, key)
  {
    ConnectedIsFresh(specs, digest, w, first, subject);
    ConnectedIsPersonal(digest, w, first.key, subject, s);
    ConnectedRows(digest, w, first, subject, s);
  }

  lemma PersonalKeysStay(s: State, r: Request, ref: RowRef, row: Row, key: string)
    requires ref !in s.rows && key in PersonalKeys(s, r)
    ensures key in PersonalKeys(WriteRow(s, ref, row), r)
  {
    var x :| x in s.rows && PersonalAccount(x, s.rows[x], r) && s.rows[x].columns["connection_key"] == key;
    assert x in WriteRow(s, ref, row).rows;
  }

  lemma WebhookIsQuiet(digest: string -> string, w: string, hook: string, key: string, ref: RowRef, row: Row)
    requires Trim(w) == w != "" && Trim(hook) != "" && ref == Target(digest, w, Webhook(hook)) && row == Stored(Webhook(hook), Row(map["connection_key" := key], 0))
    ensures QuietRow(ref, row) && Named(w, Webhook(hook)) && ref.workspaceId == w && ref.table == WEBHOOKS
    ensures KeyIs(row, "connection_key", key) && KeyIs(row, "subscription_key", Trim(hook))
  {
  }

  lemma WebhookIsReady(specs: Specs, digest: string -> string, w: string, hook: string, key: string, r: Request, before: State, ref: RowRef, row: Row)
    requires Base(specs, digest, before, r, key) && r.workspaceId == w && Trim(w) == w != "" && Trim(hook) != ""
    requires ref == Target(digest, w, Webhook(hook)) && row == Stored(Webhook(hook), Row(map["connection_key" := key], 0))
    ensures Ready(specs, digest, WriteRow(before, ref, row), r, ref, key)
  {
    WebhookIsQuiet(digest, w, hook, key, ref, row);
    assert forall x :: x in before.rows ==> BaseRow(x, before.rows[x], key);
    InsertIsFresh(specs, digest, before, w, Webhook(hook), Row(map["connection_key" := key], 0), WriteRow(before, ref, row));
    PersonalKeysStay(before, r, ref, row, key);
  }

  lemma KeepsSubscriptionKey(before: Row, after: Row, key: string)
    requires SameKeys(WEBHOOKS, before, after) && KeyIs(before, "subscription_key", key)
    ensures KeyIs(after, "subscription_key", key)
  {
    assert SameColumn(before, after, "subscription_key");
  }

  lemma WebhookStays(specs: Specs)
    requires Coherent(specs)
    ensures WEBHOOKS in specs && !specs[WEBHOOKS].erase
  {
  }

  /** The webhook is inserted beside the connection and erased with it. */
  lemma WebhookIsErased(specs: Specs, digest: string -> string, w: string, hook: string, key: string, r: Request, before: State, ref: RowRef, row: Row, t: State)
    requires Coherent(specs) && QuietTables(specs) && Injective(digest)
    requires Base(specs, digest, before, r, key) && r.workspaceId == w && Trim(w) == w != "" && Trim(hook) != ""
    requires ref == Target(digest, w, Webhook(hook)) && row == Stored(Webhook(hook), Row(map["connection_key" := key], 0))
    requires t == AfterErasure(specs, WriteRow(before, ref, row), r, Trace({}, {}), Naming({}), "now")
    ensures Reachable(specs, digest, t) && Finished(t, ref) && Settled(specs, t, ref) && ref in t.rows && KeyIs(t.rows[ref], "subscription_key", Trim(hook))
  {
    var s := WriteRow(before, ref, row);
    WebhookIsReady(specs, digest, w, hook, key, r, before, ref, row);
    WebhookIsQuiet(digest, w, hook, key, ref, row);
    ReadyIsErased(specs, digest, s, r, {}, ref, key, NewPlan(specs, s, r, Trace({}, {}), Naming({})), t);
    WebhookStays(specs);
    KeepsSubscriptionKey(row, t.rows[ref], Trim(hook));
  }

  /** A webhook subscription returns after a deletion. */
  lemma WebhookComesBack(specs: Specs, digest: string -> string, w: string, first: Insertion, subject: string, hook: string, row: Row)
    requires Coherent(specs) && QuietTables(specs) && Injective(digest) && Trim(w) == w != "" && Trim(subject) == subject
    requires first.Connection? && Trim(first.key) == first.key != "" && Trim(hook) != "" && KeyIs(row, "status", "active")
    ensures ComesBack(specs, digest, Target(digest, w, Webhook(hook)), [Remove(w, WEBHOOKS, Trim(hook)), Insert(w, Webhook(hook), row)])
  {
    var ref, r, before, old' := Target(digest, w, Webhook(hook)), Of(w, subject), Connected(digest, w, first, subject), Stored(Webhook(hook), Row(map["connection_key" := first.key], 0));
    var t := AfterErasure(specs, WriteRow(before, ref, old'), r, Trace({}, {}), Naming({}), "now");
    ConnectedIsBase(specs, digest, w, first, subject, before, r, first.key);
    WebhookIsErased(specs, digest, w, hook, first.key, r, before, ref, old', t);
    WebhookRevives(specs, digest, t, ref, Webhook(hook), row);
    assert Returns(specs, digest, t, ref, [Remove(w, WEBHOOKS, Trim(hook)), Insert(w, Webhook(hook), row)]);
  }

  // ----- a secret that the connection references -----

  lemma SecretIsQuiet(digest: string -> string, w: string, ins: Insertion, ref: RowRef, row: Row)
    requires ins.Secret? && Trim(w) == w != "" && Trim(ins.key) == ins.key != "" && ref == Target(digest, w, ins) && row == Stored(ins, Row(map[], 0))
    ensures QuietRow(ref, row) && Named(w, ins) && ref.workspaceId == w && ref.table == SECRETS && KeyIs(row, "secret_key", ins.key)
    ensures ins.hasValue ==> KeyIs(row, "status", "active") && KeyIs(row, "value_ref", "material:" + ins.key)
  {
  }

  lemma SecretIsFresh(specs: Specs, digest: string -> string, w: string, ins: Insertion, before: State, ref: RowRef, row: Row)
    requires ins.Secret? && Trim(w) == w != "" && Trim(ins.key) == ins.key != "" && ref == Target(digest, w, ins) && row == Stored(ins, Row(map[], 0))
    requires Fresh(specs, digest, before) && |before.rows| < 10 && forall x :: x in before.rows ==> x.table != SECRETS
    ensures Fresh(specs, digest, WriteRow(before, ref, row))
  {
    SecretIsQuiet(digest, w, ins, ref, row);
    InsertIsFresh(specs, digest, before, w, ins, Row(map[], 0), WriteRow(before, ref, row));
  }

  /** Every connection of the state is the subject's and references exactly these secrets. */
  ghost predicate AllOwn(s: State, r: Request, host: Host, keys: set<string>, secrets: set<string>) {
    forall x :: x in s.rows && IsConnection(x, r) ==> Column(s.rows[x], "connection_key", keys) && ReferencedBy(s.rows[x], host) == secrets
  }

  lemma OwnReferences(s: State, r: Request, host: Host, keys: set<string>, secrets: set<string>)
    requires AllOwn(s, r, host, keys, secrets) && exists x :: x in s.rows && IsConnection(x, r)
    ensures Referenced(s, r, host, keys, true) == secrets && Referenced(s, r, host, keys, false) == {}
  {
    var x :| x in s.rows && IsConnection(x, r);
    forall k | k in secrets ensures k in Referenced(s, r, host, keys, true) { assert k in ReferencedBy(s.rows[x], host); }
  }

  lemma OwnSecretKeys(s: State, r: Request, host: Host, keys: set<string>, secrets: set<string>)
    requires AllOwn(s, r, host, keys, secrets) && (exists x :: x in s.rows && IsConnection(x, r)) && forall x :: x in s.rows ==> x.table != RESERVATIONS
    ensures SecretKeys(s, r, host, keys) == secrets
  {
    OwnReferences(s, r, host, keys, secrets);
    assert ReservedKeys(s, r, keys) == {};
  }

  lemma BaseIsOwn(specs: Specs, digest: string -> string, s: State, r: Request, key: string, secrets: set<string>, ref: RowRef, row: Row, keys: set<string>)
    requires Base(specs, digest, s, r, key) && ref.table == SECRETS && key in keys
    ensures AllOwn(WriteRow(s, ref, row), r, Naming(secrets), keys, secrets)
    ensures forall x :: x in WriteRow(s, ref, row).rows ==> x.table != RESERVATIONS
    ensures exists x :: x in WriteRow(s, ref, row).rows && IsConnection(x, r)
  {
    var v := WriteRow(s, ref, row);
    forall x | x in v.rows && IsConnection(x, r) ensures Column(v.rows[x], "connection_key", keys) && ReferencedBy(v.rows[x], Naming(secrets)) == secrets {
      assert BaseRow(x, s.rows[x], key) && QuietRow(x, s.rows[x]);
    }
    forall x | x in v.rows ensures x.table != RESERVATIONS { if x != ref { assert BaseRow(x, s.rows[x], key); } }
    var x :| x in s.rows && IsConnection(x, r);
    assert x in v.rows;
  }

  /** The secret that all connections reference is the subject's, and the only one. */
  lemma SecretIsPlanned(specs: Specs, digest: string -> string, s: State, r: Request, key: string, secret: string, ref: RowRef, row: Row, v: State, keys: set<string>)
    requires Base(specs, digest, s, r, key) && ref.table == SECRETS && ref !in s.rows && v == WriteRow(s, ref, row) && keys == PersonalKeys(v, r)
    ensures SecretKeys(v, r, Naming({secret}), keys) == {secret}
  {
    PersonalKeysStay(s, r, ref, row, key);
    BaseIsOwn(specs, digest, s, r, key, {secret}, ref, row, keys);
    OwnSecretKeys(v, r, Naming({secret}), keys, {secret});
  }

  /** The secret is inserted beside the connection, erased with it, and nothing else is held. */
  lemma SecretIsErased(specs: Specs, digest: string -> string, w: string, ins: Insertion, key: string, r: Request, before: State, ref: RowRef, row: Row, p: Plan, t: State)
    requires Coherent(specs) && QuietTables(specs) && Injective(digest) && Base(specs, digest, before, r, key) && r.workspaceId == w
    requires ins.Secret? && Trim(w) == w != "" && Trim(ins.key) == ins.key != "" && ref == Target(digest, w, ins) && row == Stored(ins, Row(map[], 0))
    requires var s := WriteRow(before, ref, row); p == NewPlan(specs, s, r, Trace({}, {}), Naming({ins.key})) && t == AfterErasure(specs, s, r, Trace({}, {}), Naming({ins.key}), "now")
    ensures Reachable(specs, digest, t) && Finished(t, ref) && Settled(specs, t, ref) && t.fences == {} + PlanFences(r, p)
    ensures p.secretKeys == {ins.key} && forall x :: x in t.rows ==> x.table != SECRETS
  {
    var s, trace, host := WriteRow(before, ref, row), Trace({}, {}), Naming({ins.key});
    assert forall x :: x in before.rows ==> BaseRow(x, before.rows[x], key);
    SecretIsFresh(specs, digest, w, ins, before, ref, row);
    SecretIsQuiet(digest, w, ins, ref, row);
    SecretIsPlanned(specs, digest, before, r, key, ins.key, ref, row, s, PersonalKeys(s, r));
    SecretIsCovered(specs, s, r, trace, host, ref, ins.key);
    ErasedAt(specs, digest, s, r, trace, host, {ins.key}, ref, p, t);
    forall x | x in t.rows ensures x.table != SECRETS { SecretIsGone(specs, digest, s, r, host, {ins.key}, ref, t, x); }
  }

  lemma SecretIsCovered(specs: Specs, s: State, r: Request, trace: Trace, host: Host, ref: RowRef, secret: string)
    requires Coherent(specs) && ref in s.rows && ref.workspaceId == r.workspaceId && ref.table == SECRETS && KeyIs(s.rows[ref], "secret_key", secret)
    requires SecretKeys(s, r, host, PersonalKeys(s, r)) == {secret}
    ensures InScope(specs, s, r, Gather(s, r, trace, host), host, ref) && NewPlan(specs, s, r, trace, host).secretKeys == {secret}
  {
  }

  lemma SecretIsGone(specs: Specs, digest: string -> string, s: State, r: Request, host: Host, secrets: set<string>, ref: RowRef, t: State, x: RowRef)
    requires Coherent(specs) && Injective(digest) && QuietTables(specs) && Fresh(specs, digest, s) && host == Naming(secrets)
    requires ref.table == SECRETS && InScope(specs, s, r, Gather(s, r, Trace({}, {}), host), host, ref)
    requires t == AfterErasure(specs, s, r, Trace({}, {}), host, "now") && x in t.rows && (x in s.rows && x.table == SECRETS ==> x == ref)
    ensures x.table != SECRETS
  {
    FreshRowIsLeft(specs, digest, s, r, Trace({}, {}), host, secrets, "now", t, x);
    FreshRowKeepsKeys(specs, digest, s, r, Trace({}, {}), host, secrets, "now", t, ref);
  }

  lemma SecretReturns(specs: Specs, digest: string -> string, t: State, r: Request, p: Plan, ref: RowRef, again: Insertion, row: Row)
    requires Coherent(specs) && Finished(t, ref) && Settled(specs, t, ref) && t.fences == {} + PlanFences(r, p) && r.workspaceId == ref.workspaceId
    requires again.Secret? && !again.hasValue && Named(ref.workspaceId, again) && Target(digest, ref.workspaceId, again) == ref
    requires (forall x :: x in t.rows ==> x.table != SECRETS) && again.key !in p.secretKeys && again.actor != r.subjectId
    ensures Returns(specs, digest, t, ref, [Insert(ref.workspaceId, again, row)])
  {
    BothUnfenced(r, p, Reference("secret", "", again.key), Reference("subject", "", again.actor));
    SecretRevives(specs, digest, t, ref, again, row);
  }

  lemma ConnectedSecretIsErased(specs: Specs, digest: string -> string, w: string, first: Insertion, subject: string, ins: Insertion, r: Request, ref: RowRef)
    returns (p: Plan, t: State)
    requires Coherent(specs) && QuietTables(specs) && Injective(digest) && Trim(w) == w != "" && Trim(subject) == subject
    requires first.Connection? && Trim(first.key) == first.key != "" && ins.Secret? && Trim(ins.key) == ins.key != "" && r == Of(w, subject)
    requires ref == Target(digest, w, ins)
    ensures Reachable(specs, digest, t) && Finished(t, ref) && Settled(specs, t, ref) && t.fences == {} + PlanFences(r, p)
    ensures p.secretKeys == {ins.key} && forall x :: x in t.rows ==> x.table != SECRETS
  {
    var before := Connected(digest, w, first, subject);
    var s := WriteRow(before, ref, Stored(ins, Row(map[], 0)));
    p, t := NewPlan(specs, s, r, Trace({}, {}), Naming({ins.key})), AfterErasure(specs, s, r, Trace({}, {}), Naming({ins.key}), "now");
    ConnectedIsBase(specs, digest, w, first, subject, before, r, first.key);
    SecretIsErased(specs, digest, w, ins, first.key, r, before, ref, Stored(ins, Row(map[], 0)), p, t);
  }

  /** A secret returns bare under an untrimmed spelling of its key. */
  lemma SecretComesBack(specs: Specs, digest: string -> string, w: string, first: Insertion, subject: string, ins: Insertion, again: Insertion, row: Row)
    requires Coherent(specs) && QuietTables(specs) && Injective(digest) && Trim(w) == w != "" && Trim(subject) == subject
    requires first.Connection? && Trim(first.key) == first.key != "" && ins.Secret? && Trim(ins.key) == ins.key != ""
    requires again.Secret? && !again.hasValue && Trim(again.key) == ins.key != again.key && again.actor != subject
    ensures ComesBack(specs, digest, Target(digest, w, ins), [Insert(w, again, row)])
  {
    var ref, r := Target(digest, w, ins), Of(w, subject);
    var p, t := ConnectedSecretIsErased(specs, digest, w, first, subject, ins, r, ref);
    SecretReturns(specs, digest, t, r, p, ref, again, row);
  }

  // ----- a reservation whose secret another connection references too -----

  /** The account of the key is the subject's only one, and another connection is there. */
  ghost predicate Sharing(s: State, r: Request, key: string, other: string) {
    && key in PersonalKeys(s, r) && (forall x :: x in s.rows && x.table == ACCOUNTS ==> KeyIs(s.rows[x], "connection_key", key))
    && exists x :: x in s.rows && OtherRow(x, s.rows[x], r, other)
  }

  predicate OtherRow(ref: RowRef, row: Row, r: Request, other: string) {
    IsConnection(ref, r) && KeyIs(row, "connection_key", other) && "secret_refs_json" in row.columns
  }

  lemma SharingStays(s: State, r: Request, key: string, other: string, ref: RowRef, row: Row)
    requires Sharing(s, r, key, other) && ref !in s.rows && ref.table != ACCOUNTS
    ensures Sharing(WriteRow(s, ref, row), r, key, other)
  {
    PersonalKeysStay(s, r, ref, row, key);
    var x :| x in s.rows && OtherRow(x, s.rows[x], r, other);
    assert x in WriteRow(s, ref, row).rows;
  }

  /** What the other connection references is not the subject's alone. */
  lemma SharedIsUnplanned(s: State, r: Request, key: string, other: string, secret: string, keys: set<string>)
    requires Sharing(s, r, key, other) && other != key && keys == PersonalKeys(s, r)
    ensures secret !in SecretKeys(s, r, Naming({secret}), keys)
  {
    assert other !in keys;
    var x :| x in s.rows && OtherRow(x, s.rows[x], r, other);
    assert !Column(s.rows[x], "connection_key", keys) && secret in ReferencedBy(s.rows[x], Naming({secret}));
    assert secret in Referenced(s, r, Naming({secret}), keys, false);
  }

  lemma OtherIsNew(specs: Specs, digest: string -> string, s: State, r: Request, key: string, w: string, other: Insertion)
    requires Coherent(specs) && Injective(digest) && Base(specs, digest, s, r, key) && other.Connection? && Trim(w) == w && Trim(other.key) == other.key != key && Trim(key) == key
    ensures Target(digest, w, other) !in s.rows && !Held(s, w, CONNECTIONS, "connection_key", other.key)
  {
    var ref := Target(digest, w, other);
    ReachableKeeps(specs, digest, s);
    forall x | x in s.rows ensures x != ref && !KeyIs(s.rows[x], "connection_key", other.key) {
      assert BaseRow(x, s.rows[x], key) && KeyedRow(digest, x, s.rows[x]);
      OtherId(digest, x, s.rows[x], key, ref, other.key);
    }
  }

  lemma OtherId(digest: string -> string, x: RowRef, row: Row, key: string, ref: RowRef, other: string)
    requires Injective(digest) && KeyedRow(digest, x, row) && BaseRow(x, row, key) && key != other && Trim(key) == key && Trim(other) == other
    requires ref.table == CONNECTIONS && ref.id == OwnerId(digest, "connection_", ref.workspaceId, other)
    ensures x != ref
  {
    ManifestIsApart(digest, ref.workspaceId, key, other);
    if x == ref && OwnerId(digest, "connection_", ref.workspaceId, key) == OwnerId(digest, "connection_", ref.workspaceId, other) {
      OwnerIdInjective(digest, "connection_", ref.workspaceId, key, other);
    }
  }

  lemma OtherIsShared(specs: Specs, digest: string -> string, r: Request, key: string, other: string, before: State, ref: RowRef, row: Row, s: State)
    requires Base(specs, digest, before, r, key) && ref !in before.rows && OtherRow(ref, row, r, other) && s == WriteRow(before, ref, row)
    ensures |s.rows| <= 3 && Sharing(s, r, key, other) && forall x :: x in s.rows ==> x.table in {CONNECTIONS, ACCOUNTS}
  {
    assert forall x :: x in before.rows ==> BaseRow(x, before.rows[x], key);
    assert s.rows.Keys == before.rows.Keys + {ref};
    PersonalKeysStay(before, r, ref, row, key);
  }

  lemma OtherConnection(specs: Specs, digest: string -> string, w: string, r: Request, key: string, other: Insertion, before: State) returns (s: State)
    requires Coherent(specs) && Injective(digest) && Base(specs, digest, before, r, key) && r.workspaceId == w
    requires Trim(w) == w != "" && other.Connection? && Trim(other.key) == other.key != "" && Trim(key) == key != other.key
    ensures Fresh(specs, digest, s) && |s.rows| <= 3 && Sharing(s, r, key, other.key) && forall x :: x in s.rows ==> x.table in {CONNECTIONS, ACCOUNTS}
  {
    var ref, row := Target(digest, w, other), Stored(other, CONNECTED);
    s := WriteRow(before, ref, row);
    FirstIsQuiet(digest, w, other);
    OtherIsNew(specs, digest, before, r, key, w, other);
    InsertIsFresh(specs, digest, before, w, other, CONNECTED, s);
    OtherIsShared(specs, digest, r, key, other.key, before, ref, row, s);
  }

  predicate ActiveRow(ref: RowRef, row: Row, w: string, secret: string) {
    ref.workspaceId == w && ref.table == SECRETS && KeyIs(row, "secret_key", secret) && KeyIs(row, "status", "active") && KeyIs(row, "value_ref", "material:" + secret)
  }

  lemma ActiveIsFound(s: State, at: RowRef, w: string, secret: string)
    requires at in s.rows && ActiveRow(at, s.rows[at], w, secret)
    ensures ActiveMaterial(s, w, secret)
  {
  }

  lemma SecretBeside(before: State, r: Request, key: string, other: string, at: RowRef, row: Row, s: State)
    requires |before.rows| <= 3 && Sharing(before, r, key, other) && (forall x :: x in before.rows ==> x.table in {CONNECTIONS, ACCOUNTS})
    requires at.table == SECRETS && s == WriteRow(before, at, row)
    ensures |s.rows| <= 4 && Sharing(s, r, key, other) && forall x :: x in s.rows ==> x.table != RESERVATIONS
  {
    SharingStays(before, r, key, other, at, row);
    assert s.rows.Keys == before.rows.Keys + {at};
  }

  lemma SharedSecret(specs: Specs, digest: string -> string, w: string, r: Request, key: string, other: string, secret: string, before: State) returns (s: State, at: RowRef)
    requires Fresh(specs, digest, before) && |before.rows| <= 3 && Sharing(before, r, key, other) && forall x :: x in before.rows ==> x.table in {CONNECTIONS, ACCOUNTS}
    requires Trim(w) == w != "" && Trim(secret) == secret != ""
    ensures Fresh(specs, digest, s) && |s.rows| <= 4 && Sharing(s, r, key, other) && at in s.rows && ActiveRow(at, s.rows[at], w, secret)
    ensures forall x :: x in s.rows ==> x.table != RESERVATIONS
  {
    var ins := Secret(secret, "", true);
    at := Target(digest, w, ins);
    var row := Stored(ins, Row(map[], 0));
    s := WriteRow(before, at, row);
    SecretIsQuiet(digest, w, ins, at, row);
    SecretIsFresh(specs, digest, w, ins, before, at, row);
    SecretBeside(before, r, key, other, at, row, s);
  }

  lemma ReservationIsQuiet(digest: string -> string, w: string, ins: Insertion, ref: RowRef, row: Row)
    requires ins.Reservation? && Trim(w) == w != "" && Trim(ins.key) == ins.key != "" && Trimmed(ins.secret) && ins.secret != ""
    requires ref == Target(digest, w, ins) && row == Stored(ins, Row(map[], 0))
    ensures QuietRow(ref, row) && Named(w, ins) && ref.workspaceId == w && ref.table == RESERVATIONS && KeyIs(row, "connection_key", ins.key)
  {
  }

  lemma AccountIsHeld(s: State, r: Request, key: string) returns (account: RowRef)
    requires key in PersonalKeys(s, r)
    ensures account in s.rows && account.workspaceId == r.workspaceId && account.table == ACCOUNTS && KeyIs(s.rows[account], "connection_key", key)
    ensures Held(s, r.workspaceId, ACCOUNTS, "connection_key", key)
  {
    account :| account in s.rows && PersonalAccount(account, s.rows[account], r) && s.rows[account].columns["connection_key"] == key;
  }

  lemma ReservationIsFresh(specs: Specs, digest: string -> string, w: string, ins: Insertion, before: State, ref: RowRef, row: Row)
    requires Fresh(specs, digest, before) && |before.rows| < 10 && ins.Reservation? && Trim(w) == w != "" && Trim(ins.key) == ins.key != "" && Trimmed(ins.secret) && ins.secret != ""
    requires ref == Target(digest, w, ins) && row == Stored(ins, Row(map[], 0)) && forall x :: x in before.rows ==> x.table != RESERVATIONS
    requires Held(before, w, ACCOUNTS, "connection_key", ins.key) && ActiveMaterial(before, w, ins.secret)
    ensures Fresh(specs, digest, WriteRow(before, ref, row))
  {
    ReservationIsQuiet(digest, w, ins, ref, row);
    InsertIsFresh(specs, digest, before, w, ins, Row(map[], 0), WriteRow(before, ref, row));
  }

  lemma SharedReservation(specs: Specs, digest: string -> string, w: string, r: Request, ins: Insertion, other: string, before: State, at: RowRef, ref: RowRef) returns (s: State)
    requires Fresh(specs, digest, before) && |before.rows| <= 4 && ins.Reservation? && Sharing(before, r, ins.key, other) && r.workspaceId == w && ref == Target(digest, w, ins)
    requires at in before.rows && ActiveRow(at, before.rows[at], w, ins.secret) && forall x :: x in before.rows ==> x.table != RESERVATIONS
    requires Trim(w) == w != "" && Trim(ins.key) == ins.key != "" && Trimmed(ins.secret) && ins.secret != ""
    ensures Ready(specs, digest, s, r, ref, ins.key) && Sharing(s, r, ins.key, other) && at in s.rows && ActiveRow(at, s.rows[at], w, ins.secret)
  {
    var row := Stored(ins, Row(map[], 0));
    s := WriteRow(before, ref, row);
    var account := AccountIsHeld(before, r, ins.key);
    ActiveIsFound(before, at, w, ins.secret);
    ReservationIsFresh(specs, digest, w, ins, before, ref, row);
    ReservationIsQuiet(digest, w, ins, ref, row);
    SharingStays(before, r, ins.key, other, ref, row);
  }

  predicate ReservationTables(specs: Specs) {
    ACCOUNTS in specs && !specs[ACCOUNTS].erase && RESERVATIONS in specs && specs[RESERVATIONS].erase
  }

  /** The account is erased but stays. */
  lemma AccountStays(specs: Specs, digest: string -> string, s: State, r: Request, secrets: set<string>, key: string, t: State)
    requires Coherent(specs) && QuietTables(specs) && ReservationTables(specs) && Injective(digest) && Fresh(specs, digest, s) && key in PersonalKeys(s, r)
    requires t == AfterErasure(specs, s, r, Trace({}, {}), Naming(secrets), "now")
    ensures Held(t, r.workspaceId, ACCOUNTS, "connection_key", key)
  {
    var account := AccountIsHeld(s, r, key);
    ConnectionRowIsCovered(specs, s, r, Trace({}, {}), Naming(secrets), account, key);
    FreshRowKeepsKeys(specs, digest, s, r, Trace({}, {}), Naming(secrets), secrets, "now", t, account);
    KeepsConnectionKey(ACCOUNTS, s.rows[account], t.rows[account], key);
  }

  lemma UncoveredSecret(specs: Specs, s: State, r: Request, trace: Trace, host: Host, at: RowRef, secret: string)
    requires at in s.rows && at.table == SECRETS && KeyIs(s.rows[at], "secret_key", secret) && secret !in SecretKeys(s, r, host, PersonalKeys(s, r))
    ensures !InScope(specs, s, r, Gather(s, r, trace, host), host, at)
  {
  }

  /** The shared secret is left alone. */
  lemma SharedSecretStays(specs: Specs, digest: string -> string, s: State, r: Request, key: string, other: string, at: RowRef, secret: string, t: State)
    requires Coherent(specs) && QuietTables(specs) && Injective(digest) && Fresh(specs, digest, s) && Sharing(s, r, key, other) && other != key
    requires at in s.rows && ActiveRow(at, s.rows[at], r.workspaceId, secret)
    requires t == AfterErasure(specs, s, r, Trace({}, {}), Naming({secret}), "now")
    ensures ActiveMaterial(t, r.workspaceId, secret)
  {
    SharedIsUnplanned(s, r, key, other, secret, PersonalKeys(s, r));
    UncoveredSecret(specs, s, r, Trace({}, {}), Naming({secret}), at, secret);
    FreshRowIsLeft(specs, digest, s, r, Trace({}, {}), Naming({secret}), {secret}, "now", t, at);
    ActiveIsFound(t, at, r.workspaceId, secret);
  }

  /** The reservation is erased, its account stays, its secret is left alone. */
  lemma SharedReservationIsErased(specs: Specs, digest: string -> string, s: State, r: Request, key: string, other: string, at: RowRef, secret: string, ref: RowRef, again: string)
    returns (p: Plan, t: State)
    requires Coherent(specs) && QuietTables(specs) && ReservationTables(specs) && Injective(digest) && Ready(specs, digest, s, r, ref, key) && ref.table == RESERVATIONS
    requires Sharing(s, r, key, other) && other != key && at in s.rows && ActiveRow(at, s.rows[at], r.workspaceId, secret) && !Trimmed(again)
    ensures Reachable(specs, digest, t) && Finished(t, ref) && Settled(specs, t, ref) && t.fences == {} + PlanFences(r, p) && ref !in t.rows
    ensures Held(t, r.workspaceId, ACCOUNTS, "connection_key", key) && ActiveMaterial(t, r.workspaceId, secret) && again !in p.connectionKeys
  {
    p, t := NewPlan(specs, s, r, Trace({}, {}), Naming({secret})), AfterErasure(specs, s, r, Trace({}, {}), Naming({secret}), "now");
    ReadyIsErased(specs, digest, s, r, {secret}, ref, key, p, t);
    AccountStays(specs, digest, s, r, {secret}, key, t);
    SharedSecretStays(specs, digest, s, r, key, other, at, secret, t);
    SpelledIsUnplanned(specs, digest, s, r, Trace({}, {}), Naming({secret}), again);
  }

  lemma ReservationReturns(specs: Specs, digest: string -> string, t: State, r: Request, p: Plan, ref: RowRef, again: Insertion, row: Row)
    requires Coherent(specs) && ReservationTables(specs) && Finished(t, ref) && Settled(specs, t, ref) && ref !in t.rows && t.fences == {} + PlanFences(r, p)
    requires again.Reservation? && r.workspaceId == ref.workspaceId && Trim(ref.workspaceId) == ref.workspaceId && Named(ref.workspaceId, again) && Target(digest, ref.workspaceId, again) == ref
    requires Held(t, ref.workspaceId, ACCOUNTS, "connection_key", Trim(again.key)) && ActiveMaterial(t, ref.workspaceId, again.secret)
    requires again.key !in p.connectionKeys && again.actor != r.subjectId
    ensures Returns(specs, digest, t, ref, [Insert(ref.workspaceId, again, row)])
  {
    BothUnfenced(r, p, Reference("connection", "", again.key), Reference("subject", "", again.actor));
    ReservationRevives(specs, digest, t, ref, again, row);
  }

  lemma SharedSetup(specs: Specs, digest: string -> string, w: string, first: Insertion, other: Insertion, r: Request, ins: Insertion, ref: RowRef) returns (s: State, at: RowRef)
    requires Coherent(specs) && Injective(digest) && Trim(w) == w != "" && Trim(r.subjectId) == r.subjectId && r == Of(w, r.subjectId)
    requires first.Connection? && Trim(first.key) == first.key != "" && other.Connection? && Trim(other.key) == other.key != "" && other.key != first.key
    requires ins.Reservation? && ins.key == first.key && Trimmed(ins.secret) && ins.secret != "" && ref == Target(digest, w, ins)
    ensures Ready(specs, digest, s, r, ref, ins.key) && Sharing(s, r, ins.key, other.key) && at in s.rows && ActiveRow(at, s.rows[at], w, ins.secret)
  {
    TrimmedIsFixed(ins.secret);
    var base := Connected(digest, w, first, r.subjectId);
    ConnectedIsBase(specs, digest, w, first, r.subjectId, base, r, first.key);
    s := OtherConnection(specs, digest, w, r, first.key, other, base);
    s, at := SharedSecret(specs, digest, w, r, first.key, other.key, ins.secret, s);
    s := SharedReservation(specs, digest, w, r, ins, other.key, s, at, ref);
  }

  /** A reservation of a shared secret returns under an untrimmed spelling of its connection key. */
  lemma ReservationComesBack(specs: Specs, digest: string -> string, w: string, first: Insertion, subject: string, other: Insertion, ins: Insertion, again: Insertion, row: Row)
    requires Coherent(specs) && QuietTables(specs) && ReservationTables(specs) && Injective(digest) && Trim(w) == w != "" && Trim(subject) == subject
    requires first.Connection? && Trim(first.key) == first.key != "" && other.Connection? && Trim(other.key) == other.key != "" && other.key != first.key
    requires ins.Reservation? && ins.key == first.key && Trimmed(ins.secret) && ins.secret != ""
    requires again.Reservation? && Trim(again.key) == ins.key && !Trimmed(again.key) && again.secret == ins.secret && again.actor != subject
    ensures ComesBack(specs, digest, Target(digest, w, ins), [Insert(w, again, row)])
  {
    var ref, r := Target(digest, w, ins), Of(w, subject);
    var s, at := SharedSetup(specs, digest, w, first, other, r, ins, ref);
    var p, t := SharedReservationIsErased(specs, digest, s, r, ins.key, other.key, at, ins.secret, ref, again.key);
    ReservationReturns(specs, digest, t, r, p, ref, again, row);
  }

  // ----- the real table -----

  lemma EachSubjectTableIsQuiet(table: string)
    requires table in QUIET
    ensures table in SUBJECT_SPECS && SUBJECT_SPECS[table].busy == {}
  {
  }

  lemma SubjectTablesAreQuiet()
    ensures QuietTables(SUBJECT_SPECS)
  {
    forall t | t in QUIET ensures t in SUBJECT_SPECS && SUBJECT_SPECS[t].busy == {} { EachSubjectTableIsQuiet(t); }
  }

  lemma SubjectReservationTables()
    ensures ReservationTables(SUBJECT_SPECS)
  {
  }
}
