/** The erasure store: the loops behind prepare and erase, inside one serializable
    transaction each.
    internal/infrastructure/persistence/database/integration/subject_erasure.go */
module SubjectLifecycle {
  import opened Basics
  import opened Fences
  import opened SubjectErasure

  lemma ScopeUpTo(specs: Specs, s: State, r: Request, inv: Inventory, host: Host, todo: set<RowRef>)
    requires todo == {}
    ensures (set ref | ref in s.rows && ref !in todo && InScope(specs, s, r, inv, host, ref)) == Scope(specs, s, r, inv, host)
  {
  }

  class SubjectLifecycleStore {
    const specs: Specs
    var rows: map<RowRef, Row>
    var fences: set<Fence>
    var receipts: map<(string, string), Receipt>

    ghost function View(): State
      reads this
    {
      State(rows, fences, receipts)
    }

    constructor ()
      ensures View() == State(map[], {}, map[]) && specs == SUBJECT_SPECS && Coherent(specs)
    {
      specs := SUBJECT_SPECS;
      rows, fences, receipts := map[], {}, map[];
      SubjectSpecsAreCoherent();
    }

    /** The connection keys of the subject's personal accounts. */
    method PersonalConnections(r: Request) returns (keys: set<string>)
      ensures keys == PersonalKeys(View(), r)
    {
      keys := {};
      var todo := rows.Keys;
      while todo != {}
        invariant todo <= rows.Keys
        invariant keys == set ref | ref in rows && ref !in todo && PersonalAccount(ref, rows[ref], r) :: rows[ref].columns["connection_key"]
        decreases |todo|
      {
        var ref :| ref in todo;
        if PersonalAccount(ref, rows[ref], r) {
          keys := keys + {rows[ref].columns["connection_key"]};
        }
        todo := todo - {ref};
      }
    }

    /** Every connection's references are read: those of the given ones are owned, the others
        shared. One that cannot be read ends the search. */
    method ReadReferences(r: Request, host: Host, keys: set<string>) returns (read: bool, owned: set<string>, shared: set<string>)
      ensures read <==> AllDecode(View(), r, host)
      ensures read ==> owned == Referenced(View(), r, host, keys, true) && shared == Referenced(View(), r, host, keys, false)
    {
      read, owned, shared := true, {}, {};
      var todo := rows.Keys;
      while todo != {}
        invariant todo <= rows.Keys
        invariant read && forall ref :: ref in rows && ref !in todo && IsConnection(ref, r) ==> Decodes(rows[ref], host)
        invariant owned == set ref, k | ref in rows && ref !in todo && IsConnection(ref, r) && Column(rows[ref], "connection_key", keys) && k in ReferencedBy(rows[ref], host) :: k
        invariant shared == set ref, k | ref in rows && ref !in todo && IsConnection(ref, r) && !Column(rows[ref], "connection_key", keys) && k in ReferencedBy(rows[ref], host) :: k
        decreases |todo|
      {
        var ref :| ref in todo;
        if IsConnection(ref, r) {
          if !Decodes(rows[ref], host) {
            return false, {}, {};
          }
          if Column(rows[ref], "connection_key", keys) {
            owned := owned + ReferencedBy(rows[ref], host);
          } else {
            shared := shared + ReferencedBy(rows[ref], host);
          }
        }
        todo := todo - {ref};
      }
    }

    method ReservedSecrets(r: Request, keys: set<string>) returns (reserved: set<string>)
      ensures reserved == ReservedKeys(View(), r, keys)
    {
      reserved := {};
      var todo := rows.Keys;
      while todo != {}
        invariant todo <= rows.Keys
        invariant reserved == set ref | ref in rows && ref !in todo && ReservedFor(ref, rows[ref], r, keys) :: rows[ref].columns["secret_key"]
        decreases |todo|
      {
        var ref :| ref in todo;
        if ReservedFor(ref, rows[ref], r, keys) {
          reserved := reserved + {rows[ref].columns["secret_key"]};
        }
        todo := todo - {ref};
      }
    }

    /** Search the tables for what the inventory covers; the first row in flight, or one row too
        many, ends the search. */
    method Collect(r: Request, trace: Trace, host: Host) returns (plan: Option<Plan>)
      ensures plan == if Plannable(specs, View(), r, trace, host) then Some(NewPlan(specs, View(), r, trace, host)) else None
    {
      var keys := PersonalConnections(r);
      var read, owned, shared := ReadReferences(r, host, keys);
      if !read {
        return None;
      }
      var reserved := ReservedSecrets(r, keys);
      var inv := Inventory(keys, owned + reserved - shared, trace.eventIds, trace.external);
      assert inv == Gather(View(), r, trace, host);
      var rowsFound := CollectRows(r, inv, host);
      plan := if rowsFound.None? then None else Some(Plan(Normalize(r), inv.connectionKeys, inv.secretKeys, inv.external, rowsFound.value));
    }

    method CollectRows(r: Request, inv: Inventory, host: Host) returns (scope: Option<set<RowRef>>)
      ensures scope.Some? <==>
        && (forall ref :: InScope(specs, View(), r, inv, host, ref) ==> !InFlight(specs[ref.table], ref.table, rows[ref], host))
        && |Scope(specs, View(), r, inv, host)| <= MAXIMUM_ROWS
      ensures scope.Some? ==> scope.value == Scope(specs, View(), r, inv, host)
    {
      var found: set<RowRef> := {};
      var todo := rows.Keys;
      while todo != {}
        invariant todo <= rows.Keys
        invariant found == set ref | ref in rows && ref !in todo && InScope(specs, View(), r, inv, host, ref)
        invariant forall ref :: ref in rows && ref !in todo && InScope(specs, View(), r, inv, host, ref) ==> !InFlight(specs[ref.table], ref.table, rows[ref], host)
        invariant |found| <= MAXIMUM_ROWS
        decreases |todo|
      {
        var ref :| ref in todo;
        if ref.workspaceId == r.workspaceId && ref.table in specs && Covers(ref, rows[ref], r, inv, host) {
          if InFlight(specs[ref.table], ref.table, rows[ref], host) {
            assert InScope(specs, View(), r, inv, host, ref);
            return None;
          }
          found := found + {ref};
          if |found| > MAXIMUM_ROWS {
            SubsetIsNotLarger(found, Scope(specs, View(), r, inv, host));
            return None;
          }
        }
        todo := todo - {ref};
      }
      ScopeUpTo(specs, View(), r, inv, host, todo);
      scope := Some(found);
    }

    method MarkRows(planned: set<RowRef>)
      requires Tables(specs, planned)
      modifies this`rows
      ensures rows == MarkedRows(specs, old(rows), planned)
    {
      var todo := planned;
      while todo != {}
        invariant todo <= planned
        invariant rows == MarkedRows(specs, old(rows), planned - todo)
        decreases |todo|
      {
        var ref :| ref in todo;
        if ref in rows {
          rows := rows[ref := Marked(specs[ref.table], ref.table, rows[ref])];
        }
        todo := todo - {ref};
      }
      assert planned - todo == planned;
    }

    /** Read the receipt; otherwise fence and mark everything planned and store the receipt. */
    method PrepareSubjectErasure(r: Request, trace: Trace, host: Host) returns (reply: Prepared)
      modifies this`rows, this`fences, this`receipts
      ensures reply == PrepareReply(specs, old(View()), r, trace, host)
      ensures View() == Prepare(specs, old(View()), r, trace, host)
    {
      if Key(r) in receipts {
        return Replay(receipts[Key(r)], r);
      }
      var found := Collect(r, trace, host);
      if found.None? {
        return PrepareRefused(NotPlannable);
      }
      var plan := found.value;
      fences := fences + PlanFences(r, plan);
      MarkRows(plan.rows);
      receipts := receipts[Key(r) := Receipt(r.subjectId, plan, None)];
      reply := Prepared(plan);
    }

    method EraseRows(planned: set<RowRef>, now: string)
      requires Tables(specs, planned)
      modifies this`rows
      ensures rows == ErasedRows(specs, old(rows), planned, now)
    {
      var todo := planned;
      while todo != {}
        invariant todo <= planned
        invariant rows == ErasedRows(specs, old(rows), planned - todo, now)
        decreases |todo|
      {
        var ref :| ref in todo;
        if specs[ref.table].erase {
          rows := rows - {ref};
        } else if ref in rows {
          rows := rows[ref := Redacted(specs[ref.table], rows[ref], now)];
        }
        todo := todo - {ref};
      }
      assert planned - todo == planned;
    }

    /** The given plan must be the stored one; a stored result is returned as it is. */
    method ErasePreparedSubject(r: Request, plan: Plan, now: string) returns (reply: Erased)
      modifies this`rows, this`receipts
      ensures reply == EraseReply(specs, old(View()), r, plan)
      ensures View() == Erase(specs, old(View()), r, plan, now)
    {
      if Key(plan.request) != Key(r) || plan.request.subjectId != r.subjectId {
        return EraseRefused(ScopeMismatch);
      }
      if Normalize(r) != plan.request {
        return EraseRefused(ProvenanceConflicts);
      }
      if Key(r) !in receipts {
        return EraseRefused(NotPrepared);
      }
      var receipt := receipts[Key(r)];
      if receipt.subjectId != r.subjectId {
        return EraseRefused(SubjectMismatch);
      }
      if receipt.plan != plan {
        return EraseRefused(PlanDiffers);
      }
      if receipt.result.Some? {
        return Erased(receipt.result.value);
      }
      if exists ref :: ref in plan.rows && ref.table !in specs {
        return EraseRefused(TableInvalid);
      }
      EraseRows(plan.rows, now);
      receipts := receipts[Key(r) := receipt.(result := Some(|plan.rows|))];
      reply := Erased(|plan.rows|);
    }
  }
}
