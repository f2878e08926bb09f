/** What an erasure leaves behind over whole runs, and which inserts undo it. */
module SubjectErasureTheorems {
  import opened Basics
  import opened Text
  import opened Fences
  import opened Identity
  import opened SubjectErasure
  import opened SubjectWrites
  import opened SubjectErasureSafety

  // ----- inserts that bring a planned row back -----

  /** The row is gone and this insert writes it again. */
  predicate Reinserts(digest: string -> string, s: State, a: Action, ref: RowRef) {
    a.Insert? && Target(digest, a.workspaceId, a.insertion) == ref && Lands(digest, s, a.workspaceId, a.insertion)
  }

  /** Only the inserts that slip past the fences of their own row can bring a planned row back:
      accounts, grants, materials, sessions and the rows nothing deletes never come back; a
      connection, a secret without a value or a reservation only under a key or workspace that
      was not trimmed, a reservation also through a NUL in its keys. */
  lemma ReinsertionsSlipPast(specs: Specs, digest: string -> string, s: State, a: Action, ref: RowRef)
    requires Inv(specs, digest, s) && Planned(s, ref) && Reinserts(digest, s, a, ref)
    ensures SlipsPast(a.workspaceId, a.insertion) && ref !in s.rows
  {
    var w, ins := a.workspaceId, a.insertion;
    assert PlannedKey(digest, s, ref);
    if FenceKind(ref.table) != "" {
      var key, secret :| KeyFenced(digest, s.fences, ref, key, secret);
      FencedKeyRefuses(digest, s.fences, w, ins, ref, key, secret);
    }
  }

  ghost predicate NeverReinserted(specs: Specs, digest: string -> string, s: State, actions: seq<Action>, ref: RowRef)
    decreases |actions|
  {
    actions != [] ==> !Reinserts(digest, s, actions[0], ref) && NeverReinserted(specs, digest, Apply(specs, digest, s, actions[0]), actions[1..], ref)
  }

  // ----- between prepare and erase -----

  ghost predicate MarkedRow(specs: Specs, ref: RowRef, row: Row) {
    ref.table in specs
    && var spec := specs[ref.table];
       spec.status == "" || ref.table == LEASES
       || (&& spec.status in row.columns && row.columns[spec.status] == "erasing"
           && (spec.token ==> && "lease_owner" in row.columns && row.columns["lease_owner"] == ""
                              && "lease_expires_at" in row.columns && row.columns["lease_expires_at"] == ""))
  }

  /** The row has the same columns, or it is gone; only its token may have moved on. */
  ghost predicate HeldSince(s: State, v: State, ref: RowRef) {
    ref in v.rows ==> ref in s.rows && v.rows[ref].columns == s.rows[ref].columns && s.rows[ref].token <= v.rows[ref].token
  }

  lemma MarkedStaysMarked(specs: Specs, ref: RowRef, row: Row)
    requires Coherent(specs) && ref.table in specs
    ensures MarkedRow(specs, ref, Marked(specs[ref.table], ref.table, row))
    ensures MarkedRow(specs, ref, row) ==> Marked(specs[ref.table], ref.table, row).columns == row.columns
  {
    assert CoherentSpec(specs[ref.table]);
  }

  lemma RowsHold(specs: Specs, digest: string -> string, s: State, a: Action, v: State, ref: RowRef)
    requires !RowWriteAllowed(s.fences, ref.table, ref.workspaceId, ref.id)
    requires (a.Update? || a.Remove? || a.Insert?) && v == Apply(specs, digest, s, a)
    ensures HeldSince(s, v, ref) <==> !Reinserts(digest, s, a, ref)
  {
  }

  /** A step leaves a planned row alone exactly when it does not insert it again. */
  lemma StepHoldsIff(specs: Specs, digest: string -> string, s: State, a: Action, ref: RowRef)
    requires Inv(specs, digest, s) && Planned(s, ref)
    requires ref in s.rows ==> MarkedRow(specs, ref, s.rows[ref])
    requires !Finished(Apply(specs, digest, s, a), ref)
    ensures HeldSince(s, Apply(specs, digest, s, a), ref) <==> !Reinserts(digest, s, a, ref)
  {
    PlannedIsFenced(specs, s, ref);
    match a
    case PrepareErasure(r, trace, host) => if ref in s.rows { MarkedStaysMarked(specs, ref, s.rows[ref]); }
    case CarryOut(r, p, now) =>
      if Performs(specs, s, r, p) {
        assert Apply(specs, digest, s, a).receipts[Key(r)].result.Some?;
        assert ref !in p.rows;
      }
    case _ => RowsHold(specs, digest, s, a, Apply(specs, digest, s, a), ref);
  }

  lemma FinishedStays(s: State, v: State, ref: RowRef)
    requires Grows(s, v)
    ensures Finished(s, ref) ==> Finished(v, ref)
    ensures Planned(s, ref) ==> Planned(v, ref)
  {
    if Finished(s, ref) {
      var q :| q in s.receipts && ref in s.receipts[q].plan.rows && s.receipts[q].result.Some?;
      assert ReceiptGrows(s.receipts[q], v.receipts[q]);
    }
    if Planned(s, ref) {
      var q :| q in s.receipts && ref in s.receipts[q].plan.rows;
      assert ReceiptGrows(s.receipts[q], v.receipts[q]);
    }
  }

  /** Each step of the run leaves the row alone. */
  ghost predicate HeldThroughout(specs: Specs, digest: string -> string, s: State, actions: seq<Action>, ref: RowRef)
    decreases |actions|
  {
    actions != [] ==>
      var t := Apply(specs, digest, s, actions[0]);
      HeldSince(s, t, ref) && HeldThroughout(specs, digest, t, actions[1..], ref)
  }

  lemma {:induction false} RunHoldsIff(specs: Specs, digest: string -> string, s: State, actions: seq<Action>, ref: RowRef)
    requires Inv(specs, digest, s) && Planned(s, ref)
    requires ref in s.rows ==> MarkedRow(specs, ref, s.rows[ref])
    requires !Finished(Run(specs, digest, s, actions), ref)
    ensures HeldThroughout(specs, digest, s, actions, ref) <==> NeverReinserted(specs, digest, s, actions, ref)
    ensures NeverReinserted(specs, digest, s, actions, ref) ==> HeldSince(s, Run(specs, digest, s, actions), ref)
    decreases |actions|
  {
    if actions != [] {
      var t := Apply(specs, digest, s, actions[0]);
      RunGrows(specs, digest, t, actions[1..]);
      FinishedStays(t, Run(specs, digest, s, actions), ref);
      StepHoldsIff(specs, digest, s, actions[0], ref);
      if HeldSince(s, t, ref) {
        StepGrows(specs, digest, s, actions[0]);
        FinishedStays(s, t, ref);
        StepKeeps(specs, digest, s, actions[0]);
        RunHoldsIff(specs, digest, t, actions[1..], ref);
      }
    }
  }

  /** Until an erasure covers it, every step of a run leaves a planned row alone exactly when
      none of them inserts it again after a deletion. */
  lemma PlannedRowIsHeld(specs: Specs, digest: string -> string, s: State, r: Request, trace: Trace, host: Host, later: seq<Action>, ref: RowRef)
    requires Inv(specs, digest, s) && Key(r) !in s.receipts && Plannable(specs, s, r, trace, host)
    requires InScope(specs, s, r, Gather(s, r, trace, host), host, ref)
    requires !Finished(Run(specs, digest, Prepare(specs, s, r, trace, host), later), ref)
    ensures var t := Prepare(specs, s, r, trace, host);
            && (HeldThroughout(specs, digest, t, later, ref) <==> NeverReinserted(specs, digest, t, later, ref))
            && (NeverReinserted(specs, digest, t, later, ref) ==> HeldSince(t, Run(specs, digest, t, later), ref))
  {
    var t := Prepare(specs, s, r, trace, host);
    StepKeeps(specs, digest, s, PrepareErasure(r, trace, host));
    assert t.receipts[Key(r)].plan == NewPlan(specs, s, r, trace, host);
    assert Planned(t, ref);
    MarkedStaysMarked(specs, ref, s.rows[ref]);
    RunHoldsIff(specs, digest, t, later, ref);
  }

  // ----- after erase -----

  /** Every redacted column has its redacted value; the status may be marked again by a
      further request that is not carried out yet. */
  ghost predicate RedactedForm(spec: Spec, row: Row, marked: bool) {
    forall c :: c in spec.values ==> RedactedColumn(spec, row, marked, c)
  }

  predicate RedactedColumn(spec: Spec, row: Row, marked: bool, c: string) {
    c in row.columns && ((c in spec.values && row.columns[c] == spec.values[c]) || (marked && c == spec.status && row.columns[c] == "erasing"))
  }

  lemma MarkKeepsForm(spec: Spec, table: string, row: Row, marked: bool)
    requires CoherentSpec(spec) && RedactedForm(spec, row, marked)
    ensures RedactedForm(spec, Marked(spec, table, row), true)
  {
    var after := Marked(spec, table, row);
    forall c | c in spec.values ensures RedactedColumn(spec, after, true, c) {
      assert RedactedColumn(spec, row, marked, c);
    }
  }

  lemma FormWeakens(spec: Spec, row: Row, weaker: bool, stronger: bool)
    requires RedactedForm(spec, row, stronger) && (stronger ==> weaker)
    ensures RedactedForm(spec, row, weaker)
  {
    forall c | c in spec.values ensures RedactedColumn(spec, row, weaker, c) { assert RedactedColumn(spec, row, stronger, c); }
  }

  /** Gone, or redacted. */
  ghost predicate SettledRow(specs: Specs, rows: map<RowRef, Row>, pending: bool, ref: RowRef) {
    ref.table in specs && (ref in rows ==> !specs[ref.table].erase && RedactedForm(specs[ref.table], rows[ref], pending))
  }

  ghost predicate Settled(specs: Specs, s: State, ref: RowRef) {
    SettledRow(specs, s.rows, Pending(s, ref), ref)
  }

  /** An insert that writes the row again, other than in redacted form. */
  ghost predicate Revives(specs: Specs, digest: string -> string, s: State, a: Action, ref: RowRef) {
    && Reinserts(digest, s, a, ref) && ref.table in specs
    && (specs[ref.table].erase || !RedactedForm(specs[ref.table], Stored(a.insertion, a.row), Pending(s, ref)))
  }

  ghost predicate NeverRevived(specs: Specs, digest: string -> string, s: State, actions: seq<Action>, ref: RowRef)
    decreases |actions|
  {
    actions != [] ==> !Revives(specs, digest, s, actions[0], ref) && NeverRevived(specs, digest, Apply(specs, digest, s, actions[0]), actions[1..], ref)
  }

  lemma PreparePending(specs: Specs, s: State, r: Request, trace: Trace, host: Host, ref: RowRef)
    requires Key(r) !in s.receipts && Plannable(specs, s, r, trace, host)
    ensures Pending(Prepare(specs, s, r, trace, host), ref) <==> Pending(s, ref) || InScope(specs, s, r, Gather(s, r, trace, host), host, ref)
  {
    var v := Prepare(specs, s, r, trace, host);
    assert v.receipts[Key(r)].result.None? && v.receipts[Key(r)].plan == NewPlan(specs, s, r, trace, host);
    if Pending(s, ref) {
      var q :| q in s.receipts && ref in s.receipts[q].plan.rows && s.receipts[q].result.None?;
      assert q in v.receipts && v.receipts[q] == s.receipts[q];
    }
  }

  lemma PrepareSettled(specs: Specs, s: State, r: Request, trace: Trace, host: Host, ref: RowRef)
    requires Coherent(specs) && Settled(specs, s, ref)
    ensures Settled(specs, Prepare(specs, s, r, trace, host), ref)
  {
    if Key(r) !in s.receipts && Plannable(specs, s, r, trace, host) {
      PreparePending(specs, s, r, trace, host, ref);
      if ref in s.rows {
        assert CoherentSpec(specs[ref.table]);
        MarkKeepsForm(specs[ref.table], ref.table, s.rows[ref], Pending(s, ref));
        FormWeakens(specs[ref.table], s.rows[ref], Pending(Prepare(specs, s, r, trace, host), ref), Pending(s, ref));
      }
    }
  }

  lemma EraseSettled(specs: Specs, digest: string -> string, s: State, r: Request, p: Plan, now: string, ref: RowRef)
    requires Inv(specs, digest, s) && Performs(specs, s, r, p) && (ref in p.rows || (Planned(s, ref) && Settled(specs, s, ref)))
    ensures Settled(specs, Erase(specs, s, r, p, now), ref)
  {
    var v := Erase(specs, s, r, p, now);
    if ref in p.rows {
      assert PlanHolds(specs, s, Key(r));
      assert CoherentSpec(specs[ref.table]);
    } else if Pending(s, ref) {
      var q :| q in s.receipts && ref in s.receipts[q].plan.rows && s.receipts[q].result.None?;
      assert q in v.receipts && v.receipts[q] == s.receipts[q];
    }
  }

  lemma RowsSettle(specs: Specs, digest: string -> string, s: State, a: Action, v: State, ref: RowRef)
    requires !RowWriteAllowed(s.fences, ref.table, ref.workspaceId, ref.id) && Settled(specs, s, ref)
    requires (a.Update? || a.Remove? || a.Insert?) && v == Apply(specs, digest, s, a)
    ensures Settled(specs, v, ref) <==> !Revives(specs, digest, s, a, ref)
  {
    assert v.receipts == s.receipts;
    assert Pending(v, ref) == Pending(s, ref);
  }

  /** A step undoes the erasure of a row exactly when it revives it. */
  lemma StepSettledIff(specs: Specs, digest: string -> string, s: State, a: Action, ref: RowRef)
    requires Inv(specs, digest, s) && Finished(s, ref) && Settled(specs, s, ref)
    ensures Settled(specs, Apply(specs, digest, s, a), ref) <==> !Revives(specs, digest, s, a, ref)
  {
    assert Planned(s, ref);
    PlannedIsFenced(specs, s, ref);
    match a
    case PrepareErasure(r, trace, host) => PrepareSettled(specs, s, r, trace, host, ref);
    case CarryOut(r, p, now) => if Performs(specs, s, r, p) { EraseSettled(specs, digest, s, r, p, now, ref); }
    case _ => RowsSettle(specs, digest, s, a, Apply(specs, digest, s, a), ref);
  }

  /** Settled at the start and after each step of the run. */
  ghost predicate SettledThroughout(specs: Specs, digest: string -> string, s: State, actions: seq<Action>, ref: RowRef)
    decreases |actions|
  {
    Settled(specs, s, ref) && (actions != [] ==> SettledThroughout(specs, digest, Apply(specs, digest, s, actions[0]), actions[1..], ref))
  }

  lemma {:induction false} RunSettledIff(specs: Specs, digest: string -> string, s: State, actions: seq<Action>, ref: RowRef)
    requires Inv(specs, digest, s) && Finished(s, ref) && Settled(specs, s, ref)
    ensures SettledThroughout(specs, digest, s, actions, ref) <==> NeverRevived(specs, digest, s, actions, ref)
    ensures NeverRevived(specs, digest, s, actions, ref) ==> Settled(specs, Run(specs, digest, s, actions), ref)
    decreases |actions|
  {
    if actions != [] {
      var t := Apply(specs, digest, s, actions[0]);
      StepSettledIff(specs, digest, s, actions[0], ref);
      if Settled(specs, t, ref) {
        StepGrows(specs, digest, s, actions[0]);
        FinishedStays(s, t, ref);
        StepKeeps(specs, digest, s, actions[0]);
        RunSettledIff(specs, digest, t, actions[1..], ref);
      }
    }
  }

  /** After erase a planned row stays absent, or redacted, over a run exactly when no step of
      the run revives it; it is exactly redacted when no further request has it marked. */
  lemma ErasedForGood(specs: Specs, digest: string -> string, s: State, r: Request, p: Plan, now: string, later: seq<Action>, ref: RowRef)
    requires Inv(specs, digest, s) && Performs(specs, s, r, p) && ref in p.rows
    ensures var t := Erase(specs, s, r, p, now);
            && (SettledThroughout(specs, digest, t, later, ref) <==> NeverRevived(specs, digest, t, later, ref))
            && (NeverRevived(specs, digest, t, later, ref) ==>
                  var v := Run(specs, digest, t, later);
                  && ref.table in specs
                  && (ref in v.rows ==> !specs[ref.table].erase && RedactedForm(specs[ref.table], v.rows[ref], Pending(v, ref))))
  {
    var t := Erase(specs, s, r, p, now);
    EraseSettled(specs, digest, s, r, p, now, ref);
    StepKeeps(specs, digest, s, CarryOut(r, p, now));
    assert t.receipts[Key(r)].result.Some? && t.receipts[Key(r)].plan == p;
    assert Finished(t, ref);
    RunSettledIff(specs, digest, t, later, ref);
  }

  /** The tables whose erased rows never come back. */
  const SEALED := {ACCOUNTS, GRANTS, MATERIALS, SESSIONS, LEASES, STATES, COMMITS, INVOCATIONS, EVENTS, INTENTS}

  lemma SlippersWriteElsewhere(workspaceId: string, ins: Insertion)
    requires SlipsPast(workspaceId, ins)
    ensures TableOf(ins) !in SEALED
  {
  }

  lemma {:induction false} SealedIsNeverReinserted(specs: Specs, digest: string -> string, s: State, actions: seq<Action>, ref: RowRef)
    requires Inv(specs, digest, s) && Planned(s, ref) && ref.table in SEALED
    ensures NeverReinserted(specs, digest, s, actions, ref)
    ensures NeverRevived(specs, digest, s, actions, ref)
    decreases |actions|
  {
    if actions != [] {
      var t := Apply(specs, digest, s, actions[0]);
      if Reinserts(digest, s, actions[0], ref) {
        ReinsertionsSlipPast(specs, digest, s, actions[0], ref);
        SlippersWriteElsewhere(actions[0].workspaceId, actions[0].insertion);
      }
      StepGrows(specs, digest, s, actions[0]);
      FinishedStays(s, t, ref);
      StepKeeps(specs, digest, s, actions[0]);
      SealedIsNeverReinserted(specs, digest, t, actions[1..], ref);
    }
  }

  /** In these tables an erasure is final over every run, whatever its steps. */
  lemma SealedTablesStayErased(specs: Specs, digest: string -> string, s: State, r: Request, p: Plan, now: string, later: seq<Action>, ref: RowRef)
    requires Inv(specs, digest, s) && Performs(specs, s, r, p) && ref in p.rows && ref.table in SEALED
    ensures Settled(specs, Run(specs, digest, Erase(specs, s, r, p, now), later), ref)
  {
    var t := Erase(specs, s, r, p, now);
    StepKeeps(specs, digest, s, CarryOut(r, p, now));
    assert t.receipts[Key(r)].plan == p;
    assert Planned(t, ref);
    SealedIsNeverReinserted(specs, digest, t, later, ref);
    ErasedForGood(specs, digest, s, r, p, now, later, ref);
  }

  // ----- reservations whose secret was planned with them -----

  predicate Usable(row: Row) {
    KeyIs(row, "status", "active") && "secret_key" in row.columns && KeyIs(row, "value_ref", "material:" + row.columns["secret_key"])
  }

  predicate SecretInactive(s: State, ref: RowRef) {
    ref in s.rows ==> !Usable(s.rows[ref])
  }

  /** No planned secret can be used: it is marked, gone, or back without a value. */
  ghost predicate SecretsInactive(s: State) {
    forall ref :: Planned(s, ref) && ref.table == SECRETS ==> SecretInactive(s, ref)
  }

  lemma MarkedIsUnusable(specs: Specs, row: Row)
    requires Coherent(specs)
    ensures !Usable(Marked(specs[SECRETS], SECRETS, row))
  {
  }

  lemma BareIsUnusable(ins: Insertion, row: Row)
    requires ins.Secret? && !ins.hasValue
    ensures !Usable(Stored(ins, row))
  {
    assert Stored(ins, row).columns["value_ref"] == "";
  }

  lemma PlannedStaysInactive(specs: Specs, digest: string -> string, s: State, a: Action, v: State, ref: RowRef)
    requires Inv(specs, digest, s) && v == Apply(specs, digest, s, a) && ref.table == SECRETS
    requires Planned(s, ref) && SecretInactive(s, ref)
    ensures SecretInactive(v, ref)
  {
    PlannedIsFenced(specs, s, ref);
    match a
    case PrepareErasure(r, trace, host) => if ref in s.rows { MarkedIsUnusable(specs, s.rows[ref]); }
    case CarryOut(r, p, now) =>
    case Insert(w, ins, row) =>
      if Reinserts(digest, s, a, ref) {
        ReinsertionsSlipPast(specs, digest, s, a, ref);
        BareIsUnusable(ins, row);
      }
    case _ =>
  }

  lemma NewlyPlannedIsInactive(specs: Specs, digest: string -> string, s: State, a: Action, v: State, ref: RowRef)
    requires Inv(specs, digest, s) && v == Apply(specs, digest, s, a) && ref.table == SECRETS && Planned(v, ref) && !Planned(s, ref)
    ensures SecretInactive(v, ref)
  {
    NewPlanIsPrepared(specs, digest, s, a, v, ref);
    MarkedIsUnusable(specs, s.rows[ref]);
  }

  lemma StepKeepsSecretsInactive(specs: Specs, digest: string -> string, s: State, a: Action)
    requires Inv(specs, digest, s) && SecretsInactive(s)
    ensures SecretsInactive(Apply(specs, digest, s, a))
  {
    var v := Apply(specs, digest, s, a);
    forall ref | Planned(v, ref) && ref.table == SECRETS ensures SecretInactive(v, ref) {
      if Planned(s, ref) { PlannedStaysInactive(specs, digest, s, a, v, ref); } else { NewlyPlannedIsInactive(specs, digest, s, a, v, ref); }
    }
  }

  function SecretRef(digest: string -> string, w: string, secret: string): RowRef {
    RowRef(w, SECRETS, OwnerId(digest, "secret_", w, secret))
  }

  /** The material of a planned secret is active nowhere in its workspace. */
  lemma PlannedMaterialIsInactive(specs: Specs, digest: string -> string, s: State, w: string, secret: string)
    requires Inv(specs, digest, s) && SecretsInactive(s) && Planned(s, SecretRef(digest, w, secret))
    ensures !ActiveMaterial(s, w, secret)
  {
    assert SecretInactive(s, SecretRef(digest, w, secret));
  }

  lemma SecretRowHasKey(digest: string -> string, w: string, secret: string, row: Row)
    requires Injective(digest) && Trimmed(secret) && KeyedRow(digest, SecretRef(digest, w, secret), row)
    ensures KeyIs(row, "secret_key", secret)
  {
    SameOwner(digest, "secret_", w, ColumnOr(row, "secret_key"), secret);
  }

  lemma ReservedSecretKeyIff(s: State, r: Request, host: Host, keys: set<string>, ref: RowRef, secret: string)
    requires ref in s.rows && ReservedFor(ref, s.rows[ref], r, keys) && s.rows[ref].columns["secret_key"] == secret
    ensures secret in SecretKeys(s, r, host, keys) <==> secret !in Referenced(s, r, host, keys, false)
  {
    assert secret in ReservedKeys(s, r, keys);
  }

  lemma SecretCoveredIff(specs: Specs, s: State, r: Request, inv: Inventory, host: Host, at: RowRef, secret: string)
    requires SECRETS in specs && at.table == SECRETS && at.workspaceId == r.workspaceId && (at in s.rows ==> KeyIs(s.rows[at], "secret_key", secret))
    ensures InScope(specs, s, r, inv, host, at) <==> at in s.rows && secret in inv.secretKeys
  {
  }

  lemma CoveredReservation(specs: Specs, s: State, r: Request, inv: Inventory, host: Host, ref: RowRef, secret: string)
    requires InScope(specs, s, r, inv, host, ref) && ref.table == RESERVATIONS && KeyIs(s.rows[ref], "secret_key", secret)
    ensures ReservedFor(ref, s.rows[ref], r, inv.connectionKeys)
  {
  }

  /** A reservation's secret is planned with it exactly when it is stored and no connection of
      somebody else references it. */
  lemma ReservedSecretIsPlannedIff(specs: Specs, digest: string -> string, s: State, r: Request, trace: Trace, host: Host, ref: RowRef, secret: string, at: RowRef)
    requires Inv(specs, digest, s) && InScope(specs, s, r, Gather(s, r, trace, host), host, ref) && ref.table == RESERVATIONS && KeyIs(s.rows[ref], "secret_key", secret)
    requires at == SecretRef(digest, r.workspaceId, secret)
    ensures InScope(specs, s, r, Gather(s, r, trace, host), host, at) <==> at in s.rows && secret !in Referenced(s, r, host, PersonalKeys(s, r), false)
  {
    assert KeyedRow(digest, ref, s.rows[ref]);
    if at in s.rows { SecretRowHasKey(digest, r.workspaceId, secret, s.rows[at]); }
    CoveredReservation(specs, s, r, Gather(s, r, trace, host), host, ref, secret);
    ReservedSecretKeyIff(s, r, host, PersonalKeys(s, r), ref, secret);
    SecretCoveredIff(specs, s, r, Gather(s, r, trace, host), host, at, secret);
  }

  /** The reservation of a planned secret is never inserted again; without a NUL in its keys no
      other pair has its row. */
  lemma ReservationNeedsItsSecret(specs: Specs, digest: string -> string, s: State, a: Action, ref: RowRef, key: string, secret: string)
    requires Inv(specs, digest, s) && SecretsInactive(s) && Planned(s, SecretRef(digest, ref.workspaceId, secret))
    requires ref.table == RESERVATIONS && Names(digest, ref, key, secret) && key != "" && ProperKey(ref.table, key, secret) && NUL !in key && NUL !in secret
    ensures !Reinserts(digest, s, a, ref)
  {
    if Reinserts(digest, s, a, ref) {
      var k, m := Trim(a.insertion.key), a.insertion.secret;
      TargetNames(digest, a.workspaceId, a.insertion, ref, key, secret);
      if k != key {
        DifferentPairs(k, m, key, secret);
      } else {
        PrefixedInjective(key + [NUL], m, secret);
      }
      PlannedMaterialIsInactive(specs, digest, s, ref.workspaceId, secret);
    }
  }

  lemma {:induction false} ReservationIsNeverReinserted(specs: Specs, digest: string -> string, s: State, actions: seq<Action>, ref: RowRef, key: string, secret: string)
    requires Inv(specs, digest, s) && SecretsInactive(s) && Planned(s, SecretRef(digest, ref.workspaceId, secret))
    requires ref.table == RESERVATIONS && Names(digest, ref, key, secret) && key != "" && ProperKey(ref.table, key, secret) && NUL !in key && NUL !in secret
    ensures NeverReinserted(specs, digest, s, actions, ref) && NeverRevived(specs, digest, s, actions, ref)
    decreases |actions|
  {
    if actions != [] {
      var t := Apply(specs, digest, s, actions[0]);
      ReservationNeedsItsSecret(specs, digest, s, actions[0], ref, key, secret);
      StepGrows(specs, digest, s, actions[0]);
      FinishedStays(s, t, SecretRef(digest, ref.workspaceId, secret));
      StepKeeps(specs, digest, s, actions[0]);
      StepKeepsSecretsInactive(specs, digest, s, actions[0]);
      ReservationIsNeverReinserted(specs, digest, t, actions[1..], ref, key, secret);
    }
  }

  /** A reservation erased together with its secret stays erased over every run. */
  lemma ReservationStaysErased(specs: Specs, digest: string -> string, s: State, r: Request, p: Plan, now: string, later: seq<Action>,
                               ref: RowRef, key: string, secret: string)
    requires Inv(specs, digest, s) && SecretsInactive(s) && Performs(specs, s, r, p) && ref in p.rows && SecretRef(digest, ref.workspaceId, secret) in p.rows
    requires ref.table == RESERVATIONS && Names(digest, ref, key, secret) && key != "" && ProperKey(ref.table, key, secret) && NUL !in key && NUL !in secret
    ensures Settled(specs, Run(specs, digest, Erase(specs, s, r, p, now), later), ref)
  {
    var t := Erase(specs, s, r, p, now);
    StepKeeps(specs, digest, s, CarryOut(r, p, now));
    StepKeepsSecretsInactive(specs, digest, s, CarryOut(r, p, now));
    assert t.receipts[Key(r)].plan == p;
    assert Planned(t, SecretRef(digest, ref.workspaceId, secret));
    ReservationIsNeverReinserted(specs, digest, t, later, ref, key, secret);
    ErasedForGood(specs, digest, s, r, p, now, later, ref);
  }

  // ----- inputs that do undo an erasure -----

  lemma RunOne(specs: Specs, digest: string -> string, s: State, a: Action)
    ensures Run(specs, digest, s, [a]) == Apply(specs, digest, s, a)
  {
    assert [a][1..] == [];
    assert Run(specs, digest, Apply(specs, digest, s, a), []) == Apply(specs, digest, s, a);
  }

  lemma RunTwo(specs: Specs, digest: string -> string, s: State, a: Action, b: Action)
    ensures Run(specs, digest, s, [a, b]) == Apply(specs, digest, Apply(specs, digest, s, a), b)
  {
    assert [a, b][1..] == [b];
    RunOne(specs, digest, Apply(specs, digest, s, a), b);
  }

  lemma WrittenIsUnsettled(specs: Specs, v: State, ref: RowRef, row: Row)
    requires ref in v.rows && v.rows[ref] == row
    requires ref.table in specs ==> specs[ref.table].erase || !RedactedForm(specs[ref.table], row, true)
    ensures !Settled(specs, v, ref)
  {
    if ref.table in specs && RedactedForm(specs[ref.table], row, Pending(v, ref)) {
      FormWeakens(specs[ref.table], row, true, Pending(v, ref));
    }
  }

  lemma LandingWrites(specs: Specs, digest: string -> string, s: State, w: string, ins: Insertion, row: Row, v: State)
    requires Lands(digest, s, w, ins) && v == Apply(specs, digest, s, Insert(w, ins, row))
    ensures v == WriteRow(s, Target(digest, w, ins), Stored(ins, row))
  {
  }

  /** One insert that lands on a missing row of a deleted table brings it back. */
  lemma InsertRevives(specs: Specs, digest: string -> string, s: State, w: string, ins: Insertion, row: Row, ref: RowRef)
    requires Target(digest, w, ins) == ref && Lands(digest, s, w, ins) && ref.table in specs && specs[ref.table].erase
    ensures var v := Run(specs, digest, s, [Insert(w, ins, row)]); v.rows == s.rows[ref := Stored(ins, row)] && !Settled(specs, v, ref)
  {
    var v := Apply(specs, digest, s, Insert(w, ins, row));
    RunOne(specs, digest, s, Insert(w, ins, row));
    LandingWrites(specs, digest, s, w, ins, row, v);
    WrittenIsUnsettled(specs, v, ref, Stored(ins, row));
  }

  /** A web push subscription comes back under its id for any owner without a fence. */
  lemma WebPushRevives(specs: Specs, digest: string -> string, s: State, ref: RowRef, owner: string, row: Row)
    requires Coherent(specs) && Finished(s, ref) && Settled(specs, s, ref)
    requires ref.table == WEB_PUSH && Trim(ref.workspaceId) == ref.workspaceId != "" && Trim(ref.id) == ref.id != ""
    requires Trim(owner) != "" && Fence(ref.workspaceId, "subject", "", Trim(owner)) !in s.fences
    ensures var v := Run(specs, digest, s, [Insert(ref.workspaceId, WebPush(ref.id, owner), row)]);
            ref in v.rows && !Settled(specs, v, ref)
  {
    InsertRevives(specs, digest, s, ref.workspaceId, WebPush(ref.id, owner), row, ref);
  }

  /** An external identity comes back under its key for another actor and another subject. */
  lemma IdentityRevives(specs: Specs, digest: string -> string, s: State, ref: RowRef, ins: Insertion, row: Row)
    requires Coherent(specs) && Finished(s, ref) && Settled(specs, s, ref)
    requires ins.ExternalIdentity? && Named(ref.workspaceId, ins) && Target(digest, ref.workspaceId, ins) == ref
    requires !Held(s, ref.workspaceId, IDENTITIES, "identity_key", Trim(ins.key))
    requires Fence(ref.workspaceId, "subject", "", ins.actor) !in s.fences
    requires Fence(ref.workspaceId, "external", Trim(ins.provider), ins.subjectHash) !in s.fences
    ensures var v := Run(specs, digest, s, [Insert(ref.workspaceId, ins, row)]); ref in v.rows && !Settled(specs, v, ref)
  {
    InsertRevives(specs, digest, s, ref.workspaceId, ins, row, ref);
  }

  /** An API key comes back under its key for another actor. */
  lemma ApiKeyRevives(specs: Specs, digest: string -> string, s: State, ref: RowRef, ins: Insertion, row: Row)
    requires Coherent(specs) && Finished(s, ref) && Settled(specs, s, ref)
    requires ins.ApiKey? && Named(ref.workspaceId, ins) && Target(digest, ref.workspaceId, ins) == ref
    requires Fence(ref.workspaceId, "subject", "", ins.actor) !in s.fences
    ensures var v := Run(specs, digest, s, [Insert(ref.workspaceId, ins, row)]); ref in v.rows && !Settled(specs, v, ref)
  {
    InsertRevives(specs, digest, s, ref.workspaceId, ins, row, ref);
  }

  lemma MetadataLands(digest: string -> string, s: State, w: string, ins: Insertion)
    requires ins.Secret? && !ins.hasValue && Named(w, ins) && Target(digest, w, ins) !in s.rows
    requires !Held(s, Trim(w), SECRETS, "secret_key", Trim(ins.key)) && !SubjectErased(s.fences, w, RawGuards(ins))
    ensures Lands(digest, s, w, ins)
  {
  }

  /** An erased secret's metadata comes back, without material, under a spelling of its key
      that no fence names. */
  lemma SecretRevives(specs: Specs, digest: string -> string, s: State, ref: RowRef, ins: Insertion, row: Row)
    requires Coherent(specs) && Finished(s, ref) && Settled(specs, s, ref) && ref !in s.rows
    requires ins.Secret? && !ins.hasValue && Named(ref.workspaceId, ins) && Target(digest, ref.workspaceId, ins) == ref
    requires !Held(s, ref.workspaceId, SECRETS, "secret_key", Trim(ins.key))
    requires !SubjectErased(s.fences, ref.workspaceId, [Reference("secret", "", ins.key), Reference("subject", "", ins.actor)])
    ensures var v := Run(specs, digest, s, [Insert(ref.workspaceId, ins, row)]); v.rows == s.rows[ref := Stored(ins, row)] && !Settled(specs, v, ref)
  {
    MetadataLands(digest, s, ref.workspaceId, ins);
    InsertRevives(specs, digest, s, ref.workspaceId, ins, row, ref);
  }

  /** A reservation comes back under a spelling of its connection key that no fence names. */
  lemma ReservationRevives(specs: Specs, digest: string -> string, s: State, ref: RowRef, ins: Insertion, row: Row)
    requires Coherent(specs) && Finished(s, ref) && Settled(specs, s, ref) && ref !in s.rows
    requires ins.Reservation? && Named(ref.workspaceId, ins) && Target(digest, ref.workspaceId, ins) == ref && ref.table in specs && specs[ref.table].erase
    requires Held(s, Trim(ref.workspaceId), ACCOUNTS, "connection_key", Trim(ins.key)) && ActiveMaterial(s, Trim(ref.workspaceId), ins.secret)
    requires !SubjectErased(s.fences, ref.workspaceId, [Reference("connection", "", ins.key), Reference("subject", "", ins.actor)])
    ensures var v := Run(specs, digest, s, [Insert(ref.workspaceId, ins, row)]); v.rows == s.rows[ref := Stored(ins, row)] && !Settled(specs, v, ref)
  {
    assert Lands(digest, s, ref.workspaceId, ins);
    InsertRevives(specs, digest, s, ref.workspaceId, ins, row, ref);
  }

  /** After a deletion the key is free. */
  lemma RemovalFrees(specs: Specs, digest: string -> string, s: State, ref: RowRef, key: string, t: State)
    requires ref.table in REMOVABLE && (ref in s.rows ==> KeyIs(s.rows[ref], KeyColumn(ref.table), key))
    requires t == Apply(specs, digest, s, Remove(ref.workspaceId, ref.table, key))
    ensures ref !in t.rows && t.fences == s.fences && !Held(t, ref.workspaceId, ref.table, KeyColumn(ref.table), key)
  {
  }

  predicate SameKey(ins: Insertion, key: string) {
    (ins.Manifest? && ins.key == key) || ((ins.Connection? || ins.Webhook?) && Trim(ins.key) == key)
  }

  lemma FreeKeyLands(digest: string -> string, t: State, w: string, ins: Insertion, key: string)
    requires Named(w, ins) && !Refused(t.fences, w, ins) && SameKey(ins, key)
    requires var ref := Target(digest, w, ins); ref !in t.rows && !Held(t, ref.workspaceId, ref.table, KeyColumn(ref.table), key)
    ensures Lands(digest, t, w, ins)
  {
  }

  /** Deletion and one insert bring a redacted row back as it was written. */
  lemma DeleteThenInsertRevives(specs: Specs, digest: string -> string, s: State, key: string, w: string, ins: Insertion, row: Row, ref: RowRef)
    requires ref.table in REMOVABLE && (ref in s.rows ==> KeyIs(s.rows[ref], KeyColumn(ref.table), key))
    requires Target(digest, w, ins) == ref && Named(w, ins) && !Refused(s.fences, w, ins) && SameKey(ins, key)
    requires ref.table in specs ==> !RedactedForm(specs[ref.table], Stored(ins, row), true)
    ensures var v := Run(specs, digest, s, [Remove(ref.workspaceId, ref.table, key), Insert(w, ins, row)]);
            ref in v.rows && v.rows[ref] == Stored(ins, row) && !Settled(specs, v, ref)
  {
    var a, b := Remove(ref.workspaceId, ref.table, key), Insert(w, ins, row);
    var t := Apply(specs, digest, s, a);
    var v := Apply(specs, digest, t, b);
    RunTwo(specs, digest, s, a, b);
    RemovalFrees(specs, digest, s, ref, key, t);
    FreeKeyLands(digest, t, w, ins, key);
    LandingWrites(specs, digest, t, w, ins, row, v);
    WrittenIsUnsettled(specs, v, ref, Stored(ins, row));
  }

  lemma WebhookUnguarded(fences: set<Fence>, w: string, ins: Insertion, key: string)
    requires ins.Webhook? && Trim(ins.key) == key
    ensures !Refused(fences, w, ins) && SameKey(ins, key)
  {
  }

  /** A webhook subscription: deletion and insert of its key consult no fence at all. */
  lemma WebhookRevives(specs: Specs, digest: string -> string, s: State, ref: RowRef, ins: Insertion, row: Row)
    requires Coherent(specs) && Finished(s, ref) && Settled(specs, s, ref) && ref in s.rows
    requires ins.Webhook? && Named(ref.workspaceId, ins) && Target(digest, ref.workspaceId, ins) == ref
    requires KeyIs(s.rows[ref], "subscription_key", Trim(ins.key)) && KeyIs(row, "status", "active")
    ensures var v := Run(specs, digest, s, [Remove(ref.workspaceId, WEBHOOKS, Trim(ins.key)), Insert(ref.workspaceId, ins, row)]);
            ref in v.rows && v.rows[ref] == Stored(ins, row) && !Settled(specs, v, ref)
  {
    NotRedacted(specs, WEBHOOKS, Stored(ins, row), "status");
    WebhookUnguarded(s.fences, ref.workspaceId, ins, Trim(ins.key));
    DeleteThenInsertRevives(specs, digest, s, Trim(ins.key), ref.workspaceId, ins, row, ref);
  }

  lemma NotRedacted(specs: Specs, table: string, row: Row, column: string)
    requires Coherent(specs) && table in {CONNECTIONS, WEBHOOKS}
    requires (column == "status" && KeyIs(row, column, "active")) || (table == CONNECTIONS && column == "created_by" && KeyIs(row, column, "manifest"))
    ensures !RedactedForm(specs[table], row, true)
  {
    var spec := specs[table];
    assert column in spec.values;
    assert !RedactedColumn(spec, row, true, column);
  }

  /** A connection written by the manifest: its next synchronisation after a deletion. */
  lemma ManifestRevives(specs: Specs, digest: string -> string, s: State, ref: RowRef, key: string, row: Row)
    requires Coherent(specs) && Finished(s, ref) && Settled(specs, s, ref) && ref in s.rows
    requires ref.table == CONNECTIONS && KeyIs(s.rows[ref], "connection_key", key) && ref.id == ManifestId(digest, ref.workspaceId, key)
    requires Trim(ref.workspaceId) != "" && Trim(key) != ""
    ensures var v := Run(specs, digest, s, [Remove(ref.workspaceId, CONNECTIONS, key), Insert(ref.workspaceId, Manifest(key), row)]);
            ref in v.rows && KeyIs(v.rows[ref], "created_by", "manifest") && !Settled(specs, v, ref)
  {
    NotRedacted(specs, CONNECTIONS, Stored(Manifest(key), row), "created_by");
    DeleteThenInsertRevives(specs, digest, s, key, ref.workspaceId, Manifest(key), row, ref);
  }

  /** Any other connection: after a deletion, under a spelling of its key that no fence names. */
  lemma ConnectionRevives(specs: Specs, digest: string -> string, s: State, ref: RowRef, ins: Insertion, row: Row)
    requires Coherent(specs) && Finished(s, ref) && Settled(specs, s, ref) && ref in s.rows
    requires ins.Connection? && Named(ref.workspaceId, ins) && Target(digest, ref.workspaceId, ins) == ref
    requires KeyIs(s.rows[ref], "connection_key", Trim(ins.key)) && KeyIs(row, "status", "active")
    requires !SubjectErased(s.fences, ref.workspaceId, [Reference("connection", "", ins.key), Reference("subject", "", ins.actor)])
    ensures var v := Run(specs, digest, s, [Remove(ref.workspaceId, CONNECTIONS, Trim(ins.key)), Insert(ref.workspaceId, ins, row)]);
            ref in v.rows && v.rows[ref] == Stored(ins, row) && !Settled(specs, v, ref)
  {
    NotRedacted(specs, CONNECTIONS, Stored(ins, row), "status");
    DeleteThenInsertRevives(specs, digest, s, Trim(ins.key), ref.workspaceId, ins, row, ref);
  }
}
