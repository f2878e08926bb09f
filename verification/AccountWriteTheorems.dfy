/** The promises of the account-write ledger, over every run from an empty ledger. */
module AccountWriteTheorems {
  import opened Basics
  import opened Fences
  import opened Identity
  import opened InvocationLedger
  import opened AccountWrites
  import opened AccountWriteSafety

  lemma Reached(k: Contracts, actions: seq<Action>) returns (w: World)
    ensures w == Run(k, Start, actions) && Inv(k, w)
  {
    w := Run(k, Start, actions);
    RunKeeps(k, Start, actions);
  }

  /** At most one provider call for one (workspace, actor, RequestID), whatever
      kind of call it is, under every interleaving, crash, lost report and erasure. */
  lemma RequestCalledAtMostOnce(k: Contracts, actions: seq<Action>, i: nat, j: nat, workspaceId: string, actorId: string, requestId: string)
    requires i < |Run(k, Start, actions).calls| && j < |Run(k, Start, actions).calls|
    requires Run(k, Start, actions).calls[i].id == AccountWriteId(k.digest, workspaceId, actorId, requestId)
    requires Run(k, Start, actions).calls[j].id == AccountWriteId(k.digest, workspaceId, actorId, requestId)
    ensures i == j && Run(k, Start, actions).calls[i].WriteCall?
  {
    var w := Reached(k, actions);
    assert CallInv(k, w, w.calls[i]) && CallInv(k, w, w.calls[j]);
    NamespacesDisjoint(AccountWriteId(k.digest, workspaceId, actorId, requestId)[|ACCOUNT_WRITE|..], "", "");
  }

  /** The sensitive callers of one (workspace, RequestID) reach the provider at most once in all. */
  lemma SensitiveCalledAtMostOnce(k: Contracts, actions: seq<Action>, i: nat, j: nat)
    requires i < |Run(k, Start, actions).calls| && j < |Run(k, Start, actions).calls|
    requires Run(k, Start, actions).calls[i].SensitiveCall? && Run(k, Start, actions).calls[j].SensitiveCall?
    ensures Run(k, Start, actions).calls[i].id == Run(k, Start, actions).calls[j].id <==> i == j
  {
    var w := Reached(k, actions);
  }

  /** A write call bears the identity of its own request. */
  lemma WriteCallsAreOfRequests(k: Contracts, actions: seq<Action>, i: nat)
    requires i < |Run(k, Start, actions).calls| && Run(k, Start, actions).calls[i].WriteCall?
    ensures var call := Run(k, Start, actions).calls[i]; call.id == AccountWriteId(k.digest, call.claim.workspaceId, call.claim.actorId, call.claim.requestId)
  {
    var w := Reached(k, actions);
    assert CallInv(k, w, w.calls[i]);
  }

  /** `succeeded` is stored only for a provider success whose validated receipt it holds;
      `failed` is stored only if no provider success was ever reported for the row. */
  lemma StoredStatusIsTruthful(k: Contracts, actions: seq<Action>, id: string)
    requires id in Run(k, Start, actions).rows && IsAccountWriteId(id)
    ensures var w := Run(k, Start, actions);
            var row := w.rows[id];
            && (row.metadata.WriteEvidence? && row.status == Succeeded ==> SucceededBacked(k, w.calls, id, row))
            && (row.metadata.WriteEvidence? && row.status == Failed ==> NoSuccess(w.calls, id))
  {
    var w := Reached(k, actions);
    assert RowInv(k, w, id);
  }

  /** The owner of a claim always finds it as it was inserted: its terminal update can
      be lost by the storage, but it can never be refused. */
  lemma OwnerFinishMatches(k: Contracts, actions: seq<Action>, c: nat)
    requires c in Run(k, Start, actions).callers
    requires Owns(Run(k, Start, actions).callers[c]) && Run(k, Start, actions).callers[c].Writer?
    ensures StillClaimed(Run(k, Start, actions).rows, Run(k, Start, actions).fences, Run(k, Start, actions).callers[c].claim)
  {
    var w := Reached(k, actions);
    assert OwnerInv(k, w, c);
  }

  // ----- the lifecycle of one row -----

  predicate Terminal(status: Status) {
    status == Succeeded || status == Failed || status == Uncertain
  }

  /** absent -> running -> one terminal status -> (erasure only) erasing -> redacted. */
  ghost predicate Evolves(w: World, v: World, id: string) {
    if id !in w.rows then
      id in v.rows ==> v.rows[id].status == Running && v.rows[id].metadata.WriteEvidence?
    else
      && id in v.rows
      && (|| v.rows[id] == w.rows[id]
          || (&& w.rows[id].status == Running && Terminal(v.rows[id].status)
              && v.rows[id].metadata.WriteEvidence? && w.rows[id].metadata.WriteEvidence?
              && v.rows[id].metadata.fingerprint == w.rows[id].metadata.fingerprint
              && v.rows[id].metadata.source == w.rows[id].metadata.source)
          || (&& v.rows[id] == w.rows[id].(status := Erasing) && w.rows[id].status != Running
              && !RowWriteAllowed(v.fences, TABLE, v.rows[id].workspaceId, id))
          || (&& v.rows[id] == Row(w.rows[id].workspaceId, Failed, Redacted)
              && !RowWriteAllowed(w.fences, TABLE, w.rows[id].workspaceId, id)))
  }

  lemma OtherEvolves(k: Contracts, w: World, a: Action, id: string)
    requires IsAccountWriteId(id) && Remote(a)
    ensures Evolves(w, Apply(k, w, a), id) && w.fences <= Apply(k, w, a).fences
  {
    if a.OtherInsert? || a.OtherUpdate? {
      if TargetEnabled(a.target) { TargetsAvoidAccountWrites(k, a.target); }
    }
  }

  lemma InsertEvolves(k: Contracts, w: World, c: nat, fate: Fate, id: string)
    requires IsAccountWriteId(id) && c in w.callers && OwnerInv(k, w, c)
    ensures Evolves(w, ApplyInsert(k, w, c, fate), id) && w.fences == ApplyInsert(k, w, c, fate).fences
  {
    WriterIdIsAccountWrite(k, w.callers[c]);
  }

  lemma FinishEvolves(k: Contracts, w: World, c: nat, fate: Fate, id: string)
    requires IsAccountWriteId(id) && c in w.callers && OwnerInv(k, w, c) && w.callers[c].pc.Decided?
    ensures Evolves(w, ApplyFinish(k, w, c, fate), id) && w.fences == ApplyFinish(k, w, c, fate).fences
  {
    WriterIdIsAccountWrite(k, w.callers[c]);
  }

  lemma StepEvolves(k: Contracts, w: World, a: Action, id: string)
    requires Inv(k, w) && IsAccountWriteId(id)
    ensures Evolves(w, Apply(k, w, a), id) && w.fences <= Apply(k, w, a).fences
  {
    if Remote(a) {
      OtherEvolves(k, w, a, id);
    } else if Local(a) {
      LocalMoves(k, w, a);
    } else {
      match a
      case Insert(c, fate) => if At(w, c, InsertGuarded) { assert OwnerInv(k, w, c); InsertEvolves(k, w, c, fate, id); }
      case Finish(c, fate) => if c in w.callers && w.callers[c].pc.Decided? { assert OwnerInv(k, w, c); FinishEvolves(k, w, c, fate, id); }
      case _ =>
    }
  }

  /** Once terminal and not planned for erasure, a row is never changed by anything but erasure. */
  lemma {:induction false} TerminalRowIsFinal(k: Contracts, w: World, actions: seq<Action>, id: string)
    requires Inv(k, w) && IsAccountWriteId(id) && id in w.rows && Terminal(w.rows[id].status)
    ensures id in Run(k, w, actions).rows
    ensures Run(k, w, actions).rows[id] == w.rows[id] || !RowWriteAllowed(Run(k, w, actions).fences, TABLE, w.rows[id].workspaceId, id)
    decreases |actions|
  {
    if actions != [] {
      var v := Apply(k, w, actions[0]);
      StepKeeps(k, w, actions[0]);
      StepEvolves(k, w, actions[0], id);
      if v.rows[id] == w.rows[id] {
        TerminalRowIsFinal(k, v, actions[1..], id);
      } else {
        PlannedStaysPlanned(k, v, actions[1..], id);
      }
    }
  }

  lemma {:induction false} PlannedStaysPlanned(k: Contracts, w: World, actions: seq<Action>, id: string)
    requires Inv(k, w) && IsAccountWriteId(id) && id in w.rows
    requires !RowWriteAllowed(w.fences, TABLE, w.rows[id].workspaceId, id)
    ensures id in Run(k, w, actions).rows
    ensures !RowWriteAllowed(Run(k, w, actions).fences, TABLE, w.rows[id].workspaceId, id)
    decreases |actions|
  {
    if actions != [] {
      StepKeeps(k, w, actions[0]);
      StepEvolves(k, w, actions[0], id);
      PlannedStaysPlanned(k, Apply(k, w, actions[0]), actions[1..], id);
    }
  }

  // ----- changed content under the same RequestID -----

  ghost predicate FrozenClaim(k: Contracts, claim: Claim) {
    claim == MakeClaim(k, claim.workspaceId, claim.actorId, claim.requestId, claim.source, claim.payload)
  }

  lemma FingerprintDetects(k: Contracts, a: Claim, b: Claim)
    requires Injective(k.digest) && FrozenClaim(k, a) && FrozenClaim(k, b)
    ensures a.fingerprint == b.fingerprint <==> a.source == b.source && a.payload == b.payload
  {
    if a.fingerprint == b.fingerprint {
      ContentInjective(a.source, a.payload, b.source, b.payload);
    }
  }

  /** A row that records claim `a` answers claim `b` of the same request with a conflict
      exactly when `b` changes the source or the payload. */
  lemma ChangedContentConflicts(k: Contracts, rows: Rows, a: Claim, b: Claim)
    requires Injective(k.digest) && FrozenClaim(k, a) && FrozenClaim(k, b)
    requires a.workspaceId == b.workspaceId && a.actorId == b.actorId && a.requestId == b.requestId
    requires a.invocationId in rows && rows[a.invocationId].workspaceId == a.workspaceId && SameRequest(rows[a.invocationId].metadata, a)
    ensures Read(k, rows, b) == Conflict <==> a.source != b.source || a.payload != b.payload
  {
    FingerprintDetects(k, a, b);
  }

  /** Over every run: once one content of a request was sent, another content never is,
      and reading with the other content is refused. */
  lemma ChangedContentNeverSent(k: Contracts, actions: seq<Action>, i: nat, claim: Claim)
    requires Injective(k.digest) && FrozenClaim(k, claim)
    requires i < |Run(k, Start, actions).calls| && Run(k, Start, actions).calls[i].WriteCall?
    requires var sent := Run(k, Start, actions).calls[i].claim;
             && sent.workspaceId == claim.workspaceId && sent.actorId == claim.actorId && sent.requestId == claim.requestId
             && (sent.source != claim.source || sent.payload != claim.payload)
    ensures forall j :: 0 <= j < |Run(k, Start, actions).calls| && Run(k, Start, actions).calls[j].WriteCall? ==> Run(k, Start, actions).calls[j].claim != claim
    ensures Read(k, Run(k, Start, actions).rows, claim) == Conflict
  {
    var w := Reached(k, actions);
    assert CallInv(k, w, w.calls[i]);
    FingerprintDetects(k, w.calls[i].claim, claim);
    forall j | 0 <= j < |w.calls| && w.calls[j].WriteCall? ensures w.calls[j].claim != claim {
      assert CallInv(k, w, w.calls[j]);
      if w.calls[j].claim == claim {
        RequestCalledAtMostOnce(k, actions, i, j, claim.workspaceId, claim.actorId, claim.requestId);
      }
    }
  }

  // ----- answers -----

  predicate SameContent(a: Claim, b: Claim) {
    a.actorId == b.actorId && a.source == b.source && a.fingerprint == b.fingerprint
  }

  ghost predicate AnswerBacked(k: Contracts, calls: seq<Call>, claim: Claim, reading: Reading) {
    reading.Recorded? && reading.status == Succeeded ==>
      exists sent :: SameContent(sent, claim) && Backed(k, calls, claim.invocationId, sent, reading.receipt)
  }

  ghost predicate AnswersInv(k: Contracts, w: World) {
    forall c :: c in w.callers && w.callers[c].Writer? ==>
      && (w.callers[c].pc.Settled? ==> AnswerBacked(k, w.calls, w.callers[c].claim, w.callers[c].pc.reading))
      && (w.callers[c].pc.Done? && w.callers[c].pc.answer.Answered? ==> AnswerBacked(k, w.calls, w.callers[c].claim, w.callers[c].pc.answer.reading))
  }

  lemma ReadIsBacked(k: Contracts, w: World, c: nat)
    requires Inv(k, w) && c in w.callers && w.callers[c].Writer?
    ensures AnswerBacked(k, w.calls, w.callers[c].claim, Read(k, w.rows, w.callers[c].claim))
  {
    var claim := w.callers[c].claim;
    assert OwnerInv(k, w, c);
    WriterIdIsAccountWrite(k, w.callers[c]);
    var reading := Read(k, w.rows, claim);
    if reading.Recorded? && reading.status == Succeeded {
      var row := w.rows[claim.invocationId];
      assert RowInv(k, w, claim.invocationId);
      var sent :| SameRequest(row.metadata, sent) && Backed(k, w.calls, claim.invocationId, sent, row.metadata.receipt);
      assert SameContent(sent, claim);
    }
  }

  lemma LogKeepsAnswers(k: Contracts, calls: seq<Call>, call: Call, claim: Claim, reading: Reading)
    requires AnswerBacked(k, calls, claim, reading)
    ensures AnswerBacked(k, calls + [call], claim, reading)
  {
    if reading.Recorded? && reading.status == Succeeded {
      var sent :| SameContent(sent, claim) && Backed(k, calls, claim.invocationId, sent, reading.receipt);
      var i :| 0 <= i < |calls| && calls[i].WriteCall? && calls[i].id == claim.invocationId && calls[i].claim == sent
             && calls[i].reply.Success? && k.receipt(sent, calls[i].reply.payload) == Some(reading.receipt);
      assert (calls + [call])[i] == calls[i];
      assert Backed(k, calls + [call], claim.invocationId, sent, reading.receipt);
    }
  }

  /** What one step does to one caller and to the log, as far as answers go. */
  ghost predicate AnswerStep(k: Contracts, w: World, v: World, c: nat) {
    && (v.calls == w.calls || exists call :: v.calls == w.calls + [call])
    && (c in v.callers && v.callers[c].Writer? ==>
          || (c in w.callers && v.callers[c] == w.callers[c])
          || (!v.callers[c].pc.Settled? && !(v.callers[c].pc.Done? && v.callers[c].pc.answer.Answered?))
          || (c in w.callers && w.callers[c].Writer? && v.callers[c].claim == w.callers[c].claim && v.calls == w.calls
              && (|| v.callers[c].pc == Settled(Read(k, w.rows, w.callers[c].claim))
                  || (w.callers[c].pc.Settled? && v.callers[c].pc == Done(Answered(w.callers[c].pc.reading))))))
  }

  lemma RemoteAnswers(k: Contracts, w: World, a: Action, c: nat)
    requires Remote(a)
    ensures AnswerStep(k, w, Apply(k, w, a), c)
  {
    var v := Apply(k, w, a);
    assert v.callers == w.callers && (v.calls == w.calls || exists call :: v.calls == w.calls + [call]);
  }

  lemma ExecuteAnswers(k: Contracts, w: World, a: Action, c: nat)
    requires a.Execute?
    ensures AnswerStep(k, w, Apply(k, w, a), c)
  {
    var v := Apply(k, w, a);
    assert v.calls == w.calls || exists call :: v.calls == w.calls + [call];
  }

  lemma StepAnswers(k: Contracts, w: World, a: Action, c: nat)
    ensures AnswerStep(k, w, Apply(k, w, a), c)
  {
    if Remote(a) {
      RemoteAnswers(k, w, a, c);
    } else if a.Execute? {
      ExecuteAnswers(k, w, a, c);
    } else {
      assert Apply(k, w, a).calls == w.calls;
    }
  }

  lemma StepKeepsAnswers(k: Contracts, w: World, a: Action)
    requires Inv(k, w) && AnswersInv(k, w)
    ensures AnswersInv(k, Apply(k, w, a))
  {
    var v := Apply(k, w, a);
    forall c | c in v.callers && v.callers[c].Writer?
      ensures v.callers[c].pc.Settled? ==> AnswerBacked(k, v.calls, v.callers[c].claim, v.callers[c].pc.reading)
      ensures v.callers[c].pc.Done? && v.callers[c].pc.answer.Answered? ==> AnswerBacked(k, v.calls, v.callers[c].claim, v.callers[c].pc.answer.reading)
    {
      StepAnswers(k, w, a, c);
      if c in w.callers && v.callers[c] == w.callers[c] {
        if v.calls != w.calls {
          var call :| v.calls == w.calls + [call];
          if v.callers[c].pc.Settled? { LogKeepsAnswers(k, w.calls, call, v.callers[c].claim, v.callers[c].pc.reading); }
          if v.callers[c].pc.Done? && v.callers[c].pc.answer.Answered? { LogKeepsAnswers(k, w.calls, call, v.callers[c].claim, v.callers[c].pc.answer.reading); }
        }
      } else if v.callers[c].pc.Settled? {
        ReadIsBacked(k, w, c);
      }
    }
  }

  lemma {:induction false} RunKeepsAnswers(k: Contracts, w: World, actions: seq<Action>)
    requires Inv(k, w) && AnswersInv(k, w)
    ensures AnswersInv(k, Run(k, w, actions))
    decreases |actions|
  {
    if actions != [] {
      StepKeeps(k, w, actions[0]);
      StepKeepsAnswers(k, w, actions[0]);
      RunKeepsAnswers(k, Apply(k, w, actions[0]), actions[1..]);
    }
  }

  /** Every success any caller is ever told of is a provider success with that receipt. */
  lemma AnsweredSuccessHappened(k: Contracts, actions: seq<Action>, c: nat)
    requires c in Run(k, Start, actions).callers && Run(k, Start, actions).callers[c].Writer?
    requires Run(k, Start, actions).callers[c].pc.Done? && Run(k, Start, actions).callers[c].pc.answer.Answered?
    ensures var w := Run(k, Start, actions);
            AnswerBacked(k, w.calls, w.callers[c].claim, w.callers[c].pc.answer.reading)
  {
    RunKeepsAnswers(k, Start, actions);
  }
}
