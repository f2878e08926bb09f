/** The write flow as the service runs it, statement by statement. One
    uninterrupted execution is one run of the machine.
    internal/application/integration/connection_account_writes.go:100-140 */
module AccountWriteService {
  import opened Basics
  import opened Fences
  import opened InvocationLedger
  import opened AccountWrites

  /** What the environment answers along the way. */
  datatype Environment = Environment(
    readable: bool, insertFate: Fate, rereadable: bool,
    alive: bool, access: Option<Source>, view: ExecutorView, reply: Reply, secretsFailed: bool,
    finishFate: Fate, finalAccess: Option<Source>)

  lemma {:induction false} RunSnoc(k: Contracts, w: World, actions: seq<Action>, a: Action)
    ensures Run(k, w, actions + [a]) == Apply(k, Run(k, w, actions), a)
    decreases |actions|
  {
    if actions == [] {
      assert [a][1..] == [];
    } else {
      assert (actions + [a])[1..] == actions[1..] + [a];
      RunSnoc(k, Apply(k, w, actions[0]), actions[1..], a);
    }
  }

  /** The executor's and the service's assignments after the provider replied. */
  method Classified(k: Contracts, claim: Claim, reply: Reply, secretsFailed: bool) returns (outcome: Outcome)
    ensures outcome == Settle(k, claim, reply, secretsFailed)
  {
    outcome := Outcome(Succeeded, if reply.Success? then reply.payload else "", secretsFailed);
    if reply.Error? {
      outcome := outcome.(status := Uncertain);
      if reply.classification == Permanent || reply.classification == Retryable {
        outcome := outcome.(status := Failed);
      }
    }
    if outcome.status == Succeeded {
      var receipt := k.receipt(claim, outcome.payload);
      if receipt.None? {
        outcome := outcome.(status := Uncertain);
      }
      outcome := outcome.(payload := if receipt.Some? then receipt.value else "");
    } else {
      outcome := outcome.(payload := "");
    }
  }

  class AccountWriteService {
    const k: Contracts
    const store: InvocationStore
    ghost var callers: map<nat, Caller>
    ghost var calls: seq<Call>

    constructor (k: Contracts, store: InvocationStore)
      ensures this.k == k && this.store == store && callers == map[] && calls == []
    {
      this.k, this.store, callers, calls := k, store, map[], [];
    }

    ghost function View(): World
      reads this, store
    {
      World(store.rows, store.fences, callers, calls)
    }

    /** The history since `start` is a run of this caller's own actions. */
    ghost predicate Traced(start: World, trace: seq<Action>, c: nat)
      reads this, store
    {
      View() == Run(k, start, trace) && AllOwn(trace, c)
    }

    /** Record that the rows have moved as action `a` moves them. */
    ghost method Advance(start: World, trace: seq<Action>, before: World, a: Action, c: nat) returns (extended: seq<Action>)
      requires before == Run(k, start, trace) && AllOwn(trace, c) && Own(a, c)
      requires before.callers == callers && before.calls == calls
      requires Apply(k, before, a).rows == store.rows && Apply(k, before, a).fences == store.fences
      modifies this
      ensures View() == Apply(k, before, a) && Traced(start, extended, c)
    {
      var after := Apply(k, before, a);
      callers, calls := after.callers, after.calls;
      RunSnoc(k, start, trace, a);
      extended := trace + [a];
    }

    method WriteConnectionAccount(ghost c: nat, claim: Claim, key: string, env: Environment) returns (answer: Answer, ghost trace: seq<Action>)
      requires c !in callers && Frozen(k, Writer(claim, key, Fresh))
      modifies this, store`rows
      ensures Traced(old(View()), trace, c)
      ensures c in callers && callers[c] == Writer(claim, key, Done(answer))
    {
      ghost var start := View();
      trace := Advance(start, [], start, Begin(c, Writer(claim, key, Fresh)), c);
      var pc;
      pc, trace := ClaimAccountWrite(c, claim, key, env, start, trace);
      if pc == Acquired {
        pc, trace := ExecuteAccountWrite(c, claim, key, env, start, trace);
        pc, trace := FinishAccountWrite(c, claim, key, pc.outcome, env, start, trace);
      }
      answer := Refused;
      if pc.Settled? {
        answer, trace := Answer(c, claim, key, pc.reading, env, start, trace);
      }
    }

    /** The result is only shown to a caller who is still authorized. */
    method Answer(ghost c: nat, claim: Claim, key: string, reading: Reading, env: Environment, ghost start: World, ghost past: seq<Action>)
      returns (answer: Answer, ghost trace: seq<Action>)
      requires c in callers && callers[c] == Writer(claim, key, Settled(reading)) && Traced(start, past, c)
      modifies this
      ensures Traced(start, trace, c) && c in callers && callers[c] == Writer(claim, key, Done(answer))
    {
      ghost var before := View();
      trace := Advance(start, past, before, Report(c, env.finalAccess), c);
      answer := if Authorized(env.finalAccess, claim, key) then Answered(reading) else Refused;
    }

    method ClaimAccountWrite(ghost c: nat, claim: Claim, key: string, env: Environment, ghost start: World, ghost past: seq<Action>)
      returns (pc: Pc, ghost trace: seq<Action>)
      requires c in callers && callers[c] == Writer(claim, key, Fresh) && Traced(start, past, c)
      requires claim.source.workspaceId == claim.workspaceId
      modifies this, store`rows
      ensures Traced(start, trace, c) && c in callers && callers[c] == Writer(claim, key, pc)
      ensures pc == Acquired || pc.Settled? || pc == Done(Refused)
    {
      ghost var before := View();
      var erased := GuardSubjectWrite(store.fences, claim.workspaceId, [Reference("subject", "", claim.actorId)]);
      trace := Advance(start, past, before, Guard(c), c);
      if erased {
        return Done(Refused), trace;
      }
      before := View();
      var current := store.ReadAccountWrite(k, claim);
      trace := Advance(start, trace, before, Look(c, env.readable), c);
      if !env.readable || current == Conflict || current == ReceiptInvalid {
        return Done(Refused), trace;
      }
      if current != NotFound {
        return Settled(current), trace;
      }
      pc, trace := InsertClaim(c, claim, key, env, start, trace);
      if pc == Acquired {
        return;
      }
      // a competing insert may have won, or this one landed and reported an error
      pc, trace := ReadAgain(c, claim, key, env.rereadable, start, trace);
    }

    method InsertClaim(ghost c: nat, claim: Claim, key: string, env: Environment, ghost start: World, ghost past: seq<Action>)
      returns (pc: Pc, ghost trace: seq<Action>)
      requires c in callers && callers[c] == Writer(claim, key, Looked) && Traced(start, past, c)
      requires claim.source.workspaceId == claim.workspaceId
      modifies this, store`rows
      ensures Traced(start, trace, c) && c in callers && callers[c] == Writer(claim, key, pc)
      ensures pc == Acquired || pc == Collided
    {
      ghost var before := View();
      ghost var refs := InsertReferences(claim.source.connectionKey, claim.invocationId, claim.invocationId);
      ghost var erased := SubjectErased(store.fences, claim.workspaceId, refs);
      trace := Advance(start, past, before, GuardInsert(c), c);
      before := View();
      var acquired := store.InsertInvocation(claim.source.workspaceId, claim.source.connectionKey, claim.invocationId, claim.invocationId, Evidence(claim), env.insertFate);
      if !erased {
        trace := Advance(start, trace, before, Insert(c, env.insertFate), c);
      }
      pc := if acquired then Acquired else Collided;
    }

    method ReadAgain(ghost c: nat, claim: Claim, key: string, readable: bool, ghost start: World, ghost past: seq<Action>)
      returns (pc: Pc, ghost trace: seq<Action>)
      requires c in callers && Traced(start, past, c)
      requires callers[c] == Writer(claim, key, Collided) || callers[c] == Writer(claim, key, Finished)
      modifies this
      ensures Traced(start, trace, c) && c in callers && callers[c] == Writer(claim, key, pc)
      ensures pc.Settled? || pc == Done(Refused)
    {
      ghost var before := View();
      var reading := store.ReadAccountWrite(k, claim);
      trace := Advance(start, past, before, Reread(c, readable), c);
      pc := if readable && reading.Recorded? then Settled(reading) else Done(Refused);
    }

    method ExecuteAccountWrite(ghost c: nat, claim: Claim, key: string, env: Environment, ghost start: World, ghost past: seq<Action>)
      returns (pc: Pc, ghost trace: seq<Action>)
      requires c in callers && callers[c] == Writer(claim, key, Acquired) && Traced(start, past, c)
      modifies this
      ensures Traced(start, trace, c) && c in callers && callers[c] == Writer(claim, key, pc)
      ensures pc.Decided?
    {
      ghost var before := View();
      trace := Advance(start, past, before, Recheck(c, env.alive, env.access), c);
      if env.alive && Authorized(env.access, claim, key) {
        pc, trace := CallProvider(c, claim, key, env, start, trace);
      } else {
        pc := Decided(Outcome(Failed, "", false));
      }
    }

    method CallProvider(ghost c: nat, claim: Claim, key: string, env: Environment, ghost start: World, ghost past: seq<Action>)
      returns (pc: Pc, ghost trace: seq<Action>)
      requires c in callers && callers[c] == Writer(claim, key, Permitted) && Traced(start, past, c)
      modifies this
      ensures Traced(start, trace, c) && c in callers && callers[c] == Writer(claim, key, pc)
      ensures pc.Decided?
    {
      ghost var before := View();
      trace := Advance(start, past, before, Execute(c, env.view, env.reply, env.secretsFailed), c);
      pc := Decided(Outcome(Failed, "", false));
      if CallPermitted(env.view, claim.source) {
        var outcome := Classified(k, claim, env.reply, env.secretsFailed);
        pc := Decided(outcome);
      }
    }

    method FinishAccountWrite(ghost c: nat, claim: Claim, key: string, outcome: Outcome, env: Environment, ghost start: World, ghost past: seq<Action>)
      returns (pc: Pc, ghost trace: seq<Action>)
      requires c in callers && callers[c] == Writer(claim, key, Decided(outcome)) && Traced(start, past, c)
      modifies this, store`rows
      ensures Traced(start, trace, c) && c in callers && callers[c] == Writer(claim, key, pc)
      ensures pc.Settled? || pc == Done(Refused)
    {
      ghost var before := View();
      var stored := store.FinishAccountWrite(k, claim, outcome, env.finishFate);
      trace := Advance(start, past, before, Finish(c, env.finishFate), c);
      pc := Done(Refused);
      if stored.Some? {
        pc, trace := ReadAgain(c, claim, key, true, start, trace);
      }
    }
  }

  predicate Own(a: Action, c: nat) {
    !(a.OtherInsert? || a.OtherUpdate? || a.OtherCall? || a.Prepare? || a.Erase?) && a.c == c
  }

  ghost predicate AllOwn(trace: seq<Action>, c: nat) {
    forall i :: 0 <= i < |trace| ==> Own(trace[i], c)
  }
}
