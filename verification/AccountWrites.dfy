/** Host-authorized account writes and sensitive provider calls as one machine:
    every caller is a program counter, every storage statement is one atomic
    step, any caller may stop between two steps, and an insert or update that
    landed may still report an error.
    internal/application/integration/connection_account_writes.go
    internal/infrastructure/persistence/database/integration/connection_account_write_executor.go
    internal/infrastructure/persistence/database/integration/operations_store.go */
module AccountWrites {
  import opened Basics
  import opened Fences
  import opened Identity
  import opened InvocationLedger

  // ----- pure computations of the flow -----

  /** The connection as the executor reads it. */
  datatype ConnectionView = ConnectionView(updatedAt: string, providerKey: string)

  /** Everything the executor looks at before the provider call. */
  datatype ExecutorView = ExecutorView(
    connection: Option<ConnectionView>, providerFound: bool,
    operationContract: Option<string>, modeCall: bool, effectWrite: bool,
    secretsResolved: bool, recheck: Option<ConnectionView>,
    scopesDeclared: bool, scopesGranted: bool, alive: bool)

  predicate ConnectionCurrent(view: Option<ConnectionView>, source: Source) {
    view == Some(ConnectionView(source.accountUpdatedAt, source.providerKey))
  }

  predicate CallPermitted(view: ExecutorView, source: Source) {
    && ConnectionCurrent(view.connection, source)
    && view.providerFound
    && view.operationContract == Some(source.contractSha256) && view.modeCall && view.effectWrite
    && view.secretsResolved
    && ConnectionCurrent(view.recheck, source)
    && view.scopesDeclared && view.scopesGranted && view.alive
  }

  datatype Classification = Permanent | Retryable | Unclassified

  datatype Reply = Success(payload: string) | Error(classification: Classification)

  /** The executor's classification followed by the service's receipt rules. */
  function Settle(k: Contracts, claim: Claim, reply: Reply, secretsFailed: bool): (o: Outcome)
    ensures o.status == Succeeded <==> reply.Success? && k.receipt(claim, reply.payload).Some?
    ensures o.status == Succeeded ==> k.receipt(claim, reply.payload) == Some(o.payload)
    ensures o.status == Failed <==> reply.Error? && reply.classification != Unclassified
    ensures o.status == Succeeded || o.status == Failed || o.status == Uncertain
    ensures o.status != Succeeded ==> o.payload == ""
    ensures o.credentialUpdateFailed == secretsFailed
  {
    match reply
    case Success(payload) =>
      (match k.receipt(claim, payload)
       case Some(receipt) => Outcome(Succeeded, receipt, secretsFailed)
       case None => Outcome(Uncertain, "", secretsFailed))
    case Error(classification) =>
      Outcome(if classification == Unclassified then Uncertain else Failed, "", secretsFailed)
  }

  predicate Authorized(access: Option<Source>, claim: Claim, key: string) {
    access == Some(claim.source) && claim.source.workspaceId == claim.workspaceId && claim.source.connectionKey == key
  }

  // ----- the machine -----

  datatype Answer = Refused | Answered(reading: Reading)

  datatype Pc =
    | Fresh            // authorized, identity frozen
    | Guarded          // no fence on the subject
    | Looked           // no row yet
    | InsertGuarded    // no fence on connection, message or row
    | Collided         // the insert reported an error
    | Acquired         // the insert reported success
    | Permitted        // authorization rechecked after the claim
    | Decided(outcome: Outcome)
    | Finished
    | Settled(reading: Reading)
    | Done(answer: Answer)

  datatype Caller =
    | Writer(claim: Claim, key: string, pc: Pc)
    | Sensitive(workspaceId: string, requestId: string, connectionKey: string, actorId: string, evidence: Metadata, pc: Pc)

  datatype Call =
    | WriteCall(id: string, claim: Claim, view: ExecutorView, reply: Reply)
    | SensitiveCall(id: string)
    | RetriableCall(id: string)

  datatype World = World(rows: Rows, fences: set<Fence>, callers: map<nat, Caller>, calls: seq<Call>)

  /** Rows that retriable calls, deliveries and reconciliation write. */
  datatype Target = CallTarget(workspaceId: string, requestId: string) | DeliveryTarget(messageId: string) | ReconciliationTarget(id: string)

  datatype Action =
    | Begin(c: nat, caller: Caller)
    | Guard(c: nat)
    | Look(c: nat, readable: bool)
    | GuardInsert(c: nat)
    | Insert(c: nat, fate: Fate)
    | Reread(c: nat, readable: bool)
    | Recheck(c: nat, alive: bool, access: Option<Source>)
    | Execute(c: nat, view: ExecutorView, reply: Reply, secretsFailed: bool)
    | Finish(c: nat, fate: Fate)
    | Report(c: nat, access: Option<Source>)
    | Crash(c: nat)
    | OtherInsert(target: Target, workspaceId: string, metadata: Metadata)
    | OtherUpdate(target: Target, status: Status, metadata: Metadata)
    | OtherCall(target: Target)
    | Prepare(ids: set<string>, subjectFences: set<Fence>)
    | Erase(ids: set<string>)

  function Id(k: Contracts, caller: Caller): string {
    match caller
    case Writer(claim, _, _) => claim.invocationId
    case Sensitive(w, r, _, _, _, _) => CallId(k.digest, w, r)
  }

  /** Reconciliation takes its rows from a list that never holds an account write. */
  predicate TargetEnabled(target: Target) {
    target.ReconciliationTarget? ==> !IsAccountWriteId(target.id)
  }

  function TargetId(k: Contracts, target: Target): string {
    match target
    case CallTarget(w, r) => CallId(k.digest, w, r)
    case DeliveryTarget(m) => DeliveryId(k.digest, m)
    case ReconciliationTarget(id) => id
  }

  lemma TargetsAvoidAccountWrites(k: Contracts, target: Target)
    requires TargetEnabled(target)
    ensures !IsAccountWriteId(TargetId(k, target))
  {
    match target
    case CallTarget(w, r) => NamespacesDisjoint("", CallId(k.digest, w, r)[|CALL|..], "");
    case DeliveryTarget(m) => NamespacesDisjoint("", "", DeliveryId(k.digest, m)[|DELIVERY|..]);
    case ReconciliationTarget(_) =>
  }

  /** A caller enters with the claim its own request determines. */
  predicate Frozen(k: Contracts, caller: Caller) {
    && (caller.Writer? ==>
          && caller.claim == MakeClaim(k, caller.claim.workspaceId, caller.claim.actorId, caller.claim.requestId, caller.claim.source, caller.claim.payload)
          && caller.claim.source.workspaceId == caller.claim.workspaceId
          && caller.claim.source.connectionKey == caller.key)
    && (caller.Sensitive? ==> caller.evidence.OtherEvidence?)
  }

  predicate At(w: World, c: nat, pc: Pc) {
    c in w.callers && w.callers[c].pc == pc
  }

  function Go(w: World, c: nat, pc: Pc): World
    requires c in w.callers
  {
    w.(callers := w.callers[c := w.callers[c].(pc := pc)])
  }

  function SubjectReferences(caller: Caller): seq<Reference> {
    match caller
    case Writer(claim, _, _) => [Reference("subject", "", claim.actorId)]
    case Sensitive(_, _, _, actor, _, _) => [Reference("subject", "", actor)]
  }

  function CallerWorkspace(caller: Caller): string {
    match caller
    case Writer(claim, _, _) => claim.workspaceId
    case Sensitive(w, _, _, _, _, _) => w
  }

  function CallerInsertReferences(k: Contracts, caller: Caller): seq<Reference> {
    match caller
    case Writer(claim, _, _) => InsertReferences(claim.source.connectionKey, claim.invocationId, claim.invocationId)
    case Sensitive(w, r, connectionKey, _, _, _) => InsertReferences(connectionKey, r, CallId(k.digest, w, r))
  }

  function ClaimRow(caller: Caller): Row {
    match caller
    case Writer(claim, _, _) => Row(claim.workspaceId, Running, Evidence(claim))
    case Sensitive(w, _, _, _, evidence, _) => Row(w, Running, evidence)
  }

  /** The first read: a recorded write is answered, a conflicting one refused;
      a sensitive call stops only at a recorded success. */
  function AfterLook(k: Contracts, w: World, caller: Caller, readable: bool): Pc {
    match caller
    case Writer(claim, _, _) =>
      if !readable then Done(Refused)
      else (match Read(k, w.rows, claim)
            case NotFound => Looked
            case Conflict => Done(Refused)
            case ReceiptInvalid => Done(Refused)
            case Recorded(s, r) => Settled(Recorded(s, r)))
    case Sensitive(ws, r, _, _, _, _) =>
      var id := CallId(k.digest, ws, r);
      if readable && id in w.rows && w.rows[id].workspaceId == ws && w.rows[id].status == Succeeded
      then Done(Answered(Recorded(Succeeded, "")))
      else Looked
  }

  function ApplyInsert(k: Contracts, w: World, c: nat, fate: Fate): World
    requires c in w.callers
  {
    var caller := w.callers[c];
    var id := Id(k, caller);
    var inserted := if id !in w.rows && fate.Lands() then w.(rows := w.rows[id := ClaimRow(caller)]) else w;
    if id !in w.rows && fate == Landed then Go(inserted, c, Acquired)
    else Go(inserted, c, if caller.Writer? then Collided else Done(Refused))
  }

  function ApplyReread(k: Contracts, w: World, c: nat, readable: bool): World
    requires c in w.callers && w.callers[c].Writer?
  {
    var reading := Read(k, w.rows, w.callers[c].claim);
    if readable && reading.Recorded? then Go(w, c, Settled(reading)) else Go(w, c, Done(Refused))
  }

  function ApplyExecute(k: Contracts, w: World, c: nat, view: ExecutorView, reply: Reply, secretsFailed: bool): World
    requires c in w.callers
  {
    match w.callers[c]
    case Writer(claim, _, _) =>
      if !CallPermitted(view, claim.source) then Go(w, c, Decided(Outcome(Failed, "", false)))
      else Go(w.(calls := w.calls + [WriteCall(claim.invocationId, claim, view, reply)]), c, Decided(Settle(k, claim, reply, secretsFailed)))
    case Sensitive(ws, r, _, _, _, _) =>
      var id := CallId(k.digest, ws, r);
      var failed := reply.Error? || secretsFailed;
      Go(w.(calls := w.calls + [SensitiveCall(id)]), c, Decided(Outcome(if failed then Failed else Succeeded, "", false)))
  }

  function ApplyFinish(k: Contracts, w: World, c: nat, fate: Fate): World
    requires c in w.callers && w.callers[c].pc.Decided?
  {
    var outcome := w.callers[c].pc.outcome;
    match w.callers[c]
    case Writer(claim, _, _) =>
      if !OutcomeValid(k, outcome) || fate == Lost then Go(w, c, Done(Refused))
      else
        var landed := fate == Landed && StillClaimed(w.rows, w.fences, claim);
        Go(w.(rows := InvocationLedger.Finished(w.rows, w.fences, claim, outcome)), c, if landed then Finished else Done(Refused))
    case Sensitive(ws, r, _, _, evidence, _) =>
      var id := CallId(k.digest, ws, r);
      var writes := fate.Lands() && id in w.rows && w.rows[id].workspaceId == ws && RowWriteAllowed(w.fences, TABLE, ws, id);
      Go(if writes then w.(rows := w.rows[id := Row(ws, outcome.status, evidence)]) else w, c, Done(Refused))
  }

  function Apply(k: Contracts, w: World, a: Action): World {
    match a
    case Begin(c, caller) =>
      if c !in w.callers && caller.pc == Fresh && Frozen(k, caller) then w.(callers := w.callers[c := caller]) else w
    case Guard(c) =>
      if !At(w, c, Fresh) then w
      else if SubjectErased(w.fences, CallerWorkspace(w.callers[c]), SubjectReferences(w.callers[c])) then Go(w, c, Done(Refused))
      else Go(w, c, Guarded)
    case Look(c, readable) =>
      if !At(w, c, Guarded) then w else Go(w, c, AfterLook(k, w, w.callers[c], readable))
    case GuardInsert(c) =>
      if !At(w, c, Looked) then w
      else if SubjectErased(w.fences, CallerWorkspace(w.callers[c]), CallerInsertReferences(k, w.callers[c]))
      then Go(w, c, if w.callers[c].Writer? then Collided else Done(Refused))
      else Go(w, c, InsertGuarded)
    case Insert(c, fate) =>
      if !At(w, c, InsertGuarded) then w else ApplyInsert(k, w, c, fate)
    case Reread(c, readable) =>
      if !((At(w, c, Collided) || At(w, c, Finished)) && w.callers[c].Writer?) then w else ApplyReread(k, w, c, readable)
    case Recheck(c, alive, access) =>
      if !(At(w, c, Acquired) && w.callers[c].Writer?) then w
      else if alive && Authorized(access, w.callers[c].claim, w.callers[c].key) then Go(w, c, Permitted)
      else Go(w, c, Decided(Outcome(Failed, "", false)))
    case Execute(c, view, reply, secretsFailed) =>
      if !(c in w.callers && w.callers[c].pc == (if w.callers[c].Writer? then Permitted else Acquired)) then w
      else ApplyExecute(k, w, c, view, reply, secretsFailed)
    case Finish(c, fate) =>
      if !(c in w.callers && w.callers[c].pc.Decided?) then w else ApplyFinish(k, w, c, fate)
    case Report(c, access) =>
      if !(c in w.callers && w.callers[c].pc.Settled? && w.callers[c].Writer?) then w
      else if Authorized(access, w.callers[c].claim, w.callers[c].key) then Go(w, c, Done(Answered(w.callers[c].pc.reading)))
      else Go(w, c, Done(Refused))
    case Crash(c) =>
      if c !in w.callers then w else Go(w, c, Done(Refused))
    case OtherInsert(target, ws, metadata) =>
      if TargetEnabled(target) && TargetId(k, target) !in w.rows then w.(rows := w.rows[TargetId(k, target) := Row(ws, Running, metadata)]) else w
    case OtherUpdate(target, status, metadata) =>
      var id := TargetId(k, target);
      if TargetEnabled(target) && id in w.rows && RowWriteAllowed(w.fences, TABLE, w.rows[id].workspaceId, id)
      then w.(rows := w.rows[id := w.rows[id].(status := status, metadata := metadata)]) else w
    case OtherCall(target) =>
      if TargetEnabled(target) then w.(calls := w.calls + [RetriableCall(TargetId(k, target))]) else w
    case Prepare(ids, subjectFences) =>
      if Preparable(w.rows, ids) && (forall f :: f in subjectFences ==> f.kind != "row")
      then w.(rows := PreparedRows(w.rows, ids), fences := PreparedFences(w.rows, w.fences, ids) + subjectFences) else w
    case Erase(ids) =>
      if Planned(w.rows, w.fences, ids) then w.(rows := ErasedRows(w.rows, ids)) else w
  }

  const Start := World(map[], {}, map[], [])

  function Run(k: Contracts, w: World, actions: seq<Action>): World
    decreases |actions|
  {
    if actions == [] then w else Run(k, Apply(k, w, actions[0]), actions[1..])
  }
}
