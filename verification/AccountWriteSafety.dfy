/** What every run of the account-write machine keeps. */
module AccountWriteSafety {
  import opened Basics
  import opened Fences
  import opened Identity
  import opened InvocationLedger
  import opened AccountWrites

  /** A caller whose insert landed and whose outcome is not stored yet. */
  predicate Owns(caller: Caller) {
    match caller.pc
    case Acquired => true
    case Permitted => true
    case Decided(_) => caller.Writer?
    case _ => false
  }

  predicate InsertOnly(call: Call) {
    !call.RetriableCall?
  }

  ghost predicate NotCalled(calls: seq<Call>, id: string) {
    forall i :: 0 <= i < |calls| && InsertOnly(calls[i]) ==> calls[i].id != id
  }

  ghost predicate Backed(k: Contracts, calls: seq<Call>, id: string, claim: Claim, receipt: string) {
    exists i :: 0 <= i < |calls| && calls[i].WriteCall? && calls[i].id == id && calls[i].claim == claim
             && calls[i].reply.Success? && k.receipt(claim, calls[i].reply.payload) == Some(receipt)
  }

  ghost predicate NoSuccess(calls: seq<Call>, id: string) {
    forall i :: 0 <= i < |calls| && calls[i].WriteCall? && calls[i].id == id
      ==> calls[i].reply.Error? && calls[i].reply.classification != Unclassified
  }

  ghost predicate OwnerInv(k: Contracts, w: World, c: nat)
    requires c in w.callers
  {
    var caller := w.callers[c];
    var id := Id(k, caller);
    && Frozen(k, caller)
    && (Owns(caller) ==> id in w.rows)
    && (Owns(caller) && !caller.pc.Decided? ==> NotCalled(w.calls, id))
    && (Owns(caller) && caller.Writer? ==> w.rows[id] == ClaimRow(caller) && RowWriteAllowed(w.fences, TABLE, w.rows[id].workspaceId, id))
    && (caller.Writer? && caller.pc.Decided? && caller.pc.outcome.status == Succeeded ==> Backed(k, w.calls, id, caller.claim, caller.pc.outcome.payload))
    && (caller.Writer? && caller.pc.Decided? && caller.pc.outcome.status == Failed ==> NoSuccess(w.calls, id))
  }

  ghost predicate OwnersDistinct(k: Contracts, w: World) {
    forall c, d :: c in w.callers && d in w.callers && c != d && Owns(w.callers[c]) && Owns(w.callers[d])
      ==> Id(k, w.callers[c]) != Id(k, w.callers[d])
  }

  ghost predicate AtMostOnce(calls: seq<Call>) {
    forall i, j :: 0 <= i < j < |calls| && InsertOnly(calls[i]) && InsertOnly(calls[j]) ==> calls[i].id != calls[j].id
  }

  ghost predicate CallInv(k: Contracts, w: World, call: Call) {
    && (InsertOnly(call) ==> call.id in w.rows)
    && (call.WriteCall? <==> IsAccountWriteId(call.id))
    && (call.WriteCall? ==>
          && call.id == call.claim.invocationId
          && call.claim == MakeClaim(k, call.claim.workspaceId, call.claim.actorId, call.claim.requestId, call.claim.source, call.claim.payload)
          && CallPermitted(call.view, call.claim.source)
          && w.rows[call.id].workspaceId == call.claim.workspaceId
          && (SameRequest(w.rows[call.id].metadata, call.claim) || w.rows[call.id].metadata.Redacted?))
  }

  ghost predicate SucceededBacked(k: Contracts, calls: seq<Call>, id: string, row: Row) {
    exists claim :: SameRequest(row.metadata, claim) && Backed(k, calls, id, claim, row.metadata.receipt)
  }

  ghost predicate RowInv(k: Contracts, w: World, id: string)
    requires id in w.rows
  {
    var row := w.rows[id];
    && (!RowWriteAllowed(w.fences, TABLE, row.workspaceId, id) ==> !Busy(row))
    && (IsAccountWriteId(id) ==> !row.metadata.OtherEvidence?)
    && (IsAccountWriteId(id) && row.metadata.WriteEvidence? && row.status == Succeeded ==> SucceededBacked(k, w.calls, id, row))
    && (IsAccountWriteId(id) && row.metadata.WriteEvidence? && row.status == Failed ==> NoSuccess(w.calls, id))
  }

  ghost predicate FencesInv(w: World) {
    forall ws, id :: !RowWriteAllowed(w.fences, TABLE, ws, id) ==> id in w.rows
  }

  ghost predicate Inv(k: Contracts, w: World) {
    && (forall c :: c in w.callers ==> OwnerInv(k, w, c))
    && OwnersDistinct(k, w)
    && AtMostOnce(w.calls)
    && (forall i :: 0 <= i < |w.calls| ==> CallInv(k, w, w.calls[i]))
    && (forall id :: id in w.rows ==> RowInv(k, w, id))
    && FencesInv(w)
  }

  // ----- one step at a time -----

  /** Any move that takes a caller to a program point where it owns nothing. */
  lemma ReleaseKeeps(k: Contracts, w: World, c: nat, pc: Pc)
    requires Inv(k, w) && c in w.callers
    requires pc != Acquired && pc != Permitted && !pc.Decided?
    ensures Inv(k, Go(w, c, pc))
  {
    var v := Go(w, c, pc);
    forall d | d in v.callers ensures OwnerInv(k, v, d) {
      assert OwnerInv(k, w, d);
    }
    forall id | id in v.rows ensures RowInv(k, v, id) { assert RowInv(k, w, id); }
    forall i | 0 <= i < |v.calls| ensures CallInv(k, v, v.calls[i]) { assert CallInv(k, w, w.calls[i]); }
  }

  lemma WriterIdIsAccountWrite(k: Contracts, caller: Caller)
    requires Frozen(k, caller)
    ensures IsAccountWriteId(Id(k, caller)) <==> caller.Writer?
  {
    if caller.Sensitive? {
      TargetsAvoidAccountWrites(k, CallTarget(caller.workspaceId, caller.requestId));
    }
  }

  lemma BeginKeeps(k: Contracts, w: World, c: nat, caller: Caller)
    requires Inv(k, w)
    ensures Inv(k, Apply(k, w, Begin(c, caller)))
  {
    var v := Apply(k, w, Begin(c, caller));
    forall d | d in v.callers ensures OwnerInv(k, v, d) {
      if d in w.callers { assert OwnerInv(k, w, d); }
    }
    forall id | id in v.rows ensures RowInv(k, v, id) { assert RowInv(k, w, id); }
    forall i | 0 <= i < |v.calls| ensures CallInv(k, v, v.calls[i]) { assert CallInv(k, w, w.calls[i]); }
  }

  /** A fresh row, inserted where there was none, with nobody logged against it. */
  lemma AddRowKeeps(k: Contracts, w: World, id: string, row: Row)
    requires Inv(k, w) && id !in w.rows
    requires row.status == Running
    requires IsAccountWriteId(id) ==> !row.metadata.OtherEvidence?
    ensures Inv(k, w.(rows := w.rows[id := row]))
  {
    var v := w.(rows := w.rows[id := row]);
    forall d | d in v.callers ensures OwnerInv(k, v, d) { assert OwnerInv(k, w, d); }
    forall x | x in v.rows ensures RowInv(k, v, x) { if x != id { assert RowInv(k, w, x); } }
    forall i | 0 <= i < |v.calls| ensures CallInv(k, v, v.calls[i]) { assert CallInv(k, w, w.calls[i]); }
  }

  lemma InsertKeeps(k: Contracts, w: World, c: nat, fate: Fate)
    requires Inv(k, w) && c in w.callers
    ensures Inv(k, ApplyInsert(k, w, c, fate))
  {
    var caller := w.callers[c];
    var id := Id(k, caller);
    assert OwnerInv(k, w, c);
    WriterIdIsAccountWrite(k, caller);
    if id !in w.rows && fate.Lands() {
      AddRowKeeps(k, w, id, ClaimRow(caller));
    }
    var u := if id !in w.rows && fate.Lands() then w.(rows := w.rows[id := ClaimRow(caller)]) else w;
    assert Inv(k, u);
    if id !in w.rows && fate == Landed {
      AcquireKeeps(k, w, u, c);
    } else {
      ReleaseKeeps(k, u, c, if caller.Writer? then Collided else Done(Refused));
    }
  }

  lemma AcquireKeeps(k: Contracts, w: World, u: World, c: nat)
    requires Inv(k, w) && c in w.callers && Id(k, w.callers[c]) !in w.rows
    requires u == w.(rows := w.rows[Id(k, w.callers[c]) := ClaimRow(w.callers[c])]) && Inv(k, u)
    ensures Inv(k, Go(u, c, Acquired))
  {
    var v := Go(u, c, Acquired);
    var id := Id(k, w.callers[c]);
    forall i | 0 <= i < |w.calls| && InsertOnly(w.calls[i]) ensures w.calls[i].id != id {
      assert CallInv(k, w, w.calls[i]);
    }
    forall d | d in v.callers ensures OwnerInv(k, v, d) {
      assert OwnerInv(k, w, d) && OwnerInv(k, u, d);
    }
    forall x | x in v.rows ensures RowInv(k, v, x) { assert RowInv(k, u, x); }
    forall i | 0 <= i < |v.calls| ensures CallInv(k, v, v.calls[i]) { assert CallInv(k, u, u.calls[i]); }
  }

  lemma RecheckKeeps(k: Contracts, w: World, c: nat, pc: Pc)
    requires Inv(k, w) && c in w.callers && w.callers[c].Writer?
    requires w.callers[c].pc == Acquired || w.callers[c].pc == Permitted
    requires pc == Permitted || pc == Decided(Outcome(Failed, "", false))
    ensures Inv(k, Go(w, c, pc))
  {
    var v := Go(w, c, pc);
    forall d | d in v.callers ensures OwnerInv(k, v, d) { assert OwnerInv(k, w, d); }
    forall id | id in v.rows ensures RowInv(k, v, id) { assert RowInv(k, w, id); }
    forall i | 0 <= i < |v.calls| ensures CallInv(k, v, v.calls[i]) { assert CallInv(k, w, w.calls[i]); }
  }

  /** Facts about one id survive a call logged under another id. */
  lemma LogOther(k: Contracts, calls: seq<Call>, call: Call, id: string)
    requires call.id == id ==> call.RetriableCall?
    ensures NotCalled(calls, id) ==> NotCalled(calls + [call], id)
    ensures NoSuccess(calls, id) ==> NoSuccess(calls + [call], id)
    ensures forall claim, receipt :: Backed(k, calls, id, claim, receipt) ==> Backed(k, calls + [call], id, claim, receipt)
  {
    var after := calls + [call];
    assert forall i :: 0 <= i < |calls| ==> after[i] == calls[i];
    forall claim, receipt | Backed(k, calls, id, claim, receipt) ensures Backed(k, after, id, claim, receipt) {
      var i :| 0 <= i < |calls| && calls[i].WriteCall? && calls[i].id == id && calls[i].claim == claim
             && calls[i].reply.Success? && k.receipt(claim, calls[i].reply.payload) == Some(receipt);
      assert after[i] == calls[i];
    }
  }

  lemma OtherCallKeeps(k: Contracts, w: World, id: string)
    requires Inv(k, w) && !IsAccountWriteId(id)
    ensures Inv(k, w.(calls := w.calls + [RetriableCall(id)]))
  {
    var v := w.(calls := w.calls + [RetriableCall(id)]);
    forall d | d in v.callers ensures OwnerInv(k, v, d) {
      assert OwnerInv(k, w, d);
      LogOther(k, w.calls, RetriableCall(id), Id(k, w.callers[d]));
    }
    forall x | x in v.rows ensures RowInv(k, v, x) {
      assert RowInv(k, w, x);
      LogOther(k, w.calls, RetriableCall(id), x);
    }
    forall i | 0 <= i < |v.calls| ensures CallInv(k, v, v.calls[i]) {
      if i < |w.calls| { assert CallInv(k, w, w.calls[i]); }
    }
  }

  /** A provider call by the unique holder of a claim, and its decision. */
  lemma CallKeeps(k: Contracts, w: World, c: nat, call: Call, outcome: Outcome)
    requires Inv(k, w) && c in w.callers && Owns(w.callers[c]) && !w.callers[c].pc.Decided?
    requires InsertOnly(call) && call.id == Id(k, w.callers[c]) && (call.WriteCall? <==> w.callers[c].Writer?)
    requires call.WriteCall? ==> call.claim == w.callers[c].claim && CallPermitted(call.view, call.claim.source) && exists f :: outcome == Settle(k, call.claim, call.reply, f)
    ensures Inv(k, Go(w.(calls := w.calls + [call]), c, Decided(outcome)))
  {
    var v := Go(w.(calls := w.calls + [call]), c, Decided(outcome));
    assert OwnerInv(k, w, c);
    WriterIdIsAccountWrite(k, w.callers[c]);
    forall d | d in v.callers ensures OwnerInv(k, v, d) {
      assert OwnerInv(k, w, d);
      if d != c {
        if Owns(w.callers[d]) { LogOther(k, w.calls, call, Id(k, w.callers[d])); }
      } else if call.WriteCall? {
        assert v.calls[|w.calls|] == call;
        assert forall i :: 0 <= i < |w.calls| ==> v.calls[i] == w.calls[i];
      }
    }
    forall x | x in v.rows ensures RowInv(k, v, x) {
      assert RowInv(k, w, x);
      if x != call.id { LogOther(k, w.calls, call, x); }
    }
    forall i | 0 <= i < |v.calls| ensures CallInv(k, v, v.calls[i]) {
      if i < |w.calls| { assert CallInv(k, w, w.calls[i]); }
    }
  }

  lemma ExecuteKeeps(k: Contracts, w: World, c: nat, view: ExecutorView, reply: Reply, secretsFailed: bool)
    requires Inv(k, w) && c in w.callers
    requires w.callers[c].pc == if w.callers[c].Writer? then Permitted else Acquired
    ensures Inv(k, ApplyExecute(k, w, c, view, reply, secretsFailed))
  {
    match w.callers[c]
    case Writer(claim, _, _) =>
      if CallPermitted(view, claim.source) {
        CallKeeps(k, w, c, WriteCall(claim.invocationId, claim, view, reply), Settle(k, claim, reply, secretsFailed));
      } else {
        RecheckKeeps(k, w, c, Decided(Outcome(Failed, "", false)));
      }
    case Sensitive(ws, r, _, _, _, _) =>
      CallKeeps(k, w, c, SensitiveCall(CallId(k.digest, ws, r)), Outcome(if reply.Error? || secretsFailed then Failed else Succeeded, "", false));
  }

  /** A guarded write on a row that belongs to no account write. */
  lemma OtherRowKeeps(k: Contracts, w: World, id: string, row: Row)
    requires Inv(k, w) && id in w.rows && !IsAccountWriteId(id)
    requires row.workspaceId == w.rows[id].workspaceId && RowWriteAllowed(w.fences, TABLE, row.workspaceId, id)
    ensures Inv(k, w.(rows := w.rows[id := row]))
  {
    var v := w.(rows := w.rows[id := row]);
    forall d | d in v.callers ensures OwnerInv(k, v, d) {
      assert OwnerInv(k, w, d);
      WriterIdIsAccountWrite(k, w.callers[d]);
    }
    forall x | x in v.rows ensures RowInv(k, v, x) { assert RowInv(k, w, x); }
    forall i | 0 <= i < |v.calls| ensures CallInv(k, v, v.calls[i]) {
      assert CallInv(k, w, w.calls[i]);
    }
  }

  lemma FinishKeeps(k: Contracts, w: World, c: nat, fate: Fate)
    requires Inv(k, w) && c in w.callers && w.callers[c].pc.Decided?
    ensures Inv(k, ApplyFinish(k, w, c, fate))
  {
    assert OwnerInv(k, w, c);
    var outcome := w.callers[c].pc.outcome;
    match w.callers[c]
    case Writer(claim, _, _) =>
      if !OutcomeValid(k, outcome) || fate == Lost {
        ReleaseKeeps(k, w, c, Done(Refused));
      } else {
        ReleaseKeeps(k, w, c, if fate == Landed then Finished else Done(Refused));
        StoreKeeps(k, w, c, if fate == Landed then Finished else Done(Refused));
      }
    case Sensitive(ws, r, _, _, evidence, _) =>
      var id := CallId(k.digest, ws, r);
      TargetsAvoidAccountWrites(k, CallTarget(ws, r));
      if fate.Lands() && id in w.rows && w.rows[id].workspaceId == ws && RowWriteAllowed(w.fences, TABLE, ws, id) {
        OtherRowKeeps(k, w, id, Row(ws, outcome.status, evidence));
        ReleaseKeeps(k, w.(rows := w.rows[id := Row(ws, outcome.status, evidence)]), c, Done(Refused));
      } else {
        ReleaseKeeps(k, w, c, Done(Refused));
      }
  }

  /** The terminal update of the owner lands: nothing else can have touched the claim. */
  lemma StoreKeeps(k: Contracts, w: World, c: nat, pc: Pc)
    requires Inv(k, w) && c in w.callers && w.callers[c].Writer? && w.callers[c].pc.Decided?
    requires OutcomeValid(k, w.callers[c].pc.outcome)
    requires (pc == Finished || pc == Done(Refused)) && Inv(k, Go(w, c, pc))
    ensures StillClaimed(w.rows, w.fences, w.callers[c].claim)
    ensures Inv(k, Go(w.(rows := InvocationLedger.Finished(w.rows, w.fences, w.callers[c].claim, w.callers[c].pc.outcome)), c, pc))
  {
    var claim, outcome := w.callers[c].claim, w.callers[c].pc.outcome;
    assert OwnerInv(k, w, c);
    var u := Go(w, c, pc);
    var id := claim.invocationId;
    var v := u.(rows := InvocationLedger.Finished(w.rows, w.fences, claim, outcome));
    forall d | d in v.callers ensures OwnerInv(k, v, d) { assert OwnerInv(k, u, d) && OwnerInv(k, w, d); }
    forall x | x in v.rows ensures RowInv(k, v, x) {
      assert RowInv(k, u, x);
      if x == id && outcome.status == Succeeded {
        assert SameRequest(v.rows[x].metadata, claim) && Backed(k, v.calls, id, claim, v.rows[x].metadata.receipt);
      }
    }
    forall i | 0 <= i < |v.calls| ensures CallInv(k, v, v.calls[i]) { assert CallInv(k, u, u.calls[i]); }
  }

  lemma PrepareKeeps(k: Contracts, w: World, ids: set<string>, subjectFences: set<Fence>)
    requires Inv(k, w) && Preparable(w.rows, ids) && forall f :: f in subjectFences ==> f.kind != "row"
    ensures Inv(k, w.(rows := PreparedRows(w.rows, ids), fences := PreparedFences(w.rows, w.fences, ids) + subjectFences))
  {
    var v := w.(rows := PreparedRows(w.rows, ids), fences := PreparedFences(w.rows, w.fences, ids) + subjectFences);
    forall ws, id ensures RowWriteAllowed(v.fences, TABLE, ws, id) <==> RowWriteAllowed(w.fences, TABLE, ws, id) && !(id in ids && w.rows[id].workspaceId == ws) {
    }
    forall d | d in v.callers ensures OwnerInv(k, v, d) { assert OwnerInv(k, w, d); }
    forall x | x in v.rows ensures RowInv(k, v, x) { assert RowInv(k, w, x); }
    forall i | 0 <= i < |v.calls| ensures CallInv(k, v, v.calls[i]) { assert CallInv(k, w, w.calls[i]); }
  }

  lemma EraseKeeps(k: Contracts, w: World, ids: set<string>)
    requires Inv(k, w) && Planned(w.rows, w.fences, ids)
    ensures Inv(k, w.(rows := ErasedRows(w.rows, ids)))
  {
    var v := w.(rows := ErasedRows(w.rows, ids));
    forall d | d in v.callers ensures OwnerInv(k, v, d) { assert OwnerInv(k, w, d); }
    forall x | x in v.rows ensures RowInv(k, v, x) { assert RowInv(k, w, x); }
    forall i | 0 <= i < |v.calls| ensures CallInv(k, v, v.calls[i]) { assert CallInv(k, w, w.calls[i]); }
  }

  /** Steps that only move one caller to a point where it owns nothing. */
  predicate Local(a: Action) {
    a.Guard? || a.Look? || a.GuardInsert? || a.Reread? || a.Report? || a.Crash?
  }

  lemma LocalMoves(k: Contracts, w: World, a: Action)
    requires Local(a)
    ensures Apply(k, w, a) == w
         || (a.c in w.callers && exists pc :: pc != Acquired && pc != Permitted && !pc.Decided? && Apply(k, w, a) == Go(w, a.c, pc))
  {
  }

  predicate Remote(a: Action) {
    a.OtherInsert? || a.OtherUpdate? || a.OtherCall? || a.Prepare? || a.Erase?
  }

  lemma RemoteKeeps(k: Contracts, w: World, a: Action)
    requires Inv(k, w) && Remote(a)
    ensures Inv(k, Apply(k, w, a))
  {
    match a
    case OtherInsert(target, ws, metadata) =>
      if TargetEnabled(target) && TargetId(k, target) !in w.rows {
        TargetsAvoidAccountWrites(k, target);
        AddRowKeeps(k, w, TargetId(k, target), Row(ws, Running, metadata));
      }
    case OtherUpdate(target, status, metadata) =>
      if TargetEnabled(target) && TargetId(k, target) in w.rows {
        TargetsAvoidAccountWrites(k, target);
        var id := TargetId(k, target);
        if RowWriteAllowed(w.fences, TABLE, w.rows[id].workspaceId, id) {
          OtherRowKeeps(k, w, id, w.rows[id].(status := status, metadata := metadata));
        }
      }
    case OtherCall(target) =>
      if TargetEnabled(target) {
        TargetsAvoidAccountWrites(k, target);
        OtherCallKeeps(k, w, TargetId(k, target));
      }
    case Prepare(ids, f) => if Preparable(w.rows, ids) && (forall x :: x in f ==> x.kind != "row") { PrepareKeeps(k, w, ids, f); }
    case Erase(ids) => if Planned(w.rows, w.fences, ids) { EraseKeeps(k, w, ids); }
  }

  /** Every step of every caller, of the retriable paths and of erasure keeps the invariant. */
  lemma StepKeeps(k: Contracts, w: World, a: Action)
    requires Inv(k, w)
    ensures Inv(k, Apply(k, w, a))
  {
    if Local(a) {
      LocalMoves(k, w, a);
      if Apply(k, w, a) != w {
        var pc :| pc != Acquired && pc != Permitted && !pc.Decided? && Apply(k, w, a) == Go(w, a.c, pc);
        ReleaseKeeps(k, w, a.c, pc);
      }
    } else if Remote(a) {
      RemoteKeeps(k, w, a);
    } else {
      match a
      case Begin(c, caller) => BeginKeeps(k, w, c, caller);
      case Insert(c, fate) => if At(w, c, InsertGuarded) { InsertKeeps(k, w, c, fate); }
      case Recheck(c, alive, access) =>
        if At(w, c, Acquired) && w.callers[c].Writer? {
          RecheckKeeps(k, w, c, Permitted);
          RecheckKeeps(k, w, c, Decided(Outcome(Failed, "", false)));
        }
      case Execute(c, view, reply, f) =>
        if c in w.callers && w.callers[c].pc == (if w.callers[c].Writer? then Permitted else Acquired) {
          ExecuteKeeps(k, w, c, view, reply, f);
        }
      case Finish(c, fate) => if c in w.callers && w.callers[c].pc.Decided? { FinishKeeps(k, w, c, fate); }
    }
  }

  lemma {:induction false} RunKeeps(k: Contracts, w: World, actions: seq<Action>)
    requires Inv(k, w)
    ensures Inv(k, Run(k, w, actions))
    decreases |actions|
  {
    if actions != [] {
      StepKeeps(k, w, actions[0]);
      RunKeeps(k, Apply(k, w, actions[0]), actions[1..]);
    }
  }
}
