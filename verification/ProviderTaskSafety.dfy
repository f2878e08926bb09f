/** Workers over shared task rows: every statement is one step, any number of
    workers may share a worker id, any of them may stop between two steps, and
    state-version resets, wakes and erasure interleave. */
module ProviderTaskSafety {
  import opened Basics
  import opened Fences
  import opened Identity
  import opened ProviderTasks

  datatype Pc = Scanned | Claimed | Failing | Done

  datatype Worker = Worker(owner: string, c: Candidate, pc: Pc)

  /** A write that followed a claim and landed: a committed result or a recorded failure. */
  datatype Effect = Effect(id: string, token: nat, committed: bool)

  datatype World = World(tables: Tables, fences: set<Fence>, workers: map<nat, Worker>, effects: seq<Effect>)

  datatype Action =
    | Insert(id: string, task: Task)
    | Reset(id: string, version: int, now: string)
    | Scan(w: nat, owner: string, id: string)
    | Claim(w: nat, expires: string, fate: Fate)
    | ProcessFailed(w: nat)
    | CommitResult(w: nat, result: Result, dueAt: string, now: string, fate: Fate)
    | Fail(w: nat, retryAt: string, fate: Fate)
    | Crash(w: nat)
    | Prepare(ids: set<string>, subjectFences: set<Fence>)
    | Erase(ids: set<string>)
    | ChangeCommits(commits: map<string, Commit>)
    | Receive(event: Event)                                              // an inbound webhook
    | ChangeEvents(events: map<string, Event>)

  function Holds(w: World, i: nat, pc: Pc): bool {
    i in w.workers && w.workers[i].pc == pc
  }

  function Go(w: World, i: nat, pc: Pc): World
    requires i in w.workers
  {
    w.(workers := w.workers[i := w.workers[i].(pc := pc)])
  }

  /** Erasure of task rows: in-flight rows refuse it, planned rows lose their lease and gain a token. */
  predicate Preparable(w: World, ids: set<string>) {
    ids <= w.tables.tasks.Keys && forall id :: id in ids ==> w.tables.tasks[id].status != Processing
  }

  function PreparedTask(t: Task): Task {
    t.(status := Erasing, token := t.token + 1, leaseOwner := "", leaseExpiresAt := "")
  }

  function ErasedTask(t: Task): Task {
    t.(payload := "{}", status := Cancelled, leaseOwner := "", leaseExpiresAt := "", dueAt := "", lastErrorCode := "integration.subject_erased")
  }

  predicate SameEvents(before: map<string, Event>, after: map<string, Event>) {
    after.Keys == before.Keys && forall id :: id in before ==>
      after[id].workspaceId == before[id].workspaceId && after[id].provider == before[id].provider && after[id].externalId == before[id].externalId
  }

  function ApplyClaim(w: World, i: nat, expires: string, fate: Fate): World
    requires i in w.workers
  {
    var worker := w.workers[i];
    if fate.Lands() && Claimable(w.tables.tasks, w.fences, worker.c) then
      var tasks := w.tables.tasks[worker.c.id := Leased(w.tables.tasks[worker.c.id], worker.c, worker.owner, expires)];
      Go(w.(tables := w.tables.(tasks := tasks)), i, if fate == Landed then Claimed else Done)
    else Go(w, i, Done)
  }

  function ApplyCommit(r: Registry, w: World, i: nat, result: Result, dueAt: string, now: string, fate: Fate): World
    requires i in w.workers
  {
    var worker := w.workers[i];
    var after := Committed(r, w.tables, w.fences, worker.c, worker.owner, result, dueAt, now);
    var next := if after.Some? && fate == Landed then Done else Failing;
    if after.Some? && fate.Lands()
    then Go(w.(tables := after.value, effects := w.effects + [Effect(worker.c.id, worker.c.seen.token + 1, true)]), i, next)
    else Go(w, i, next)
  }

  function ApplyFail(w: World, i: nat, retryAt: string, fate: Fate): World
    requires i in w.workers
  {
    var worker := w.workers[i];
    if fate.Lands() && Held(w.tables.tasks, w.fences, worker.c, worker.owner) then
      var tasks := w.tables.tasks[worker.c.id := Backed(w.tables.tasks[worker.c.id], worker.c, retryAt)];
      Go(w.(tables := w.tables.(tasks := tasks), effects := w.effects + [Effect(worker.c.id, worker.c.seen.token + 1, false)]), i, Done)
    else Go(w, i, Done)
  }

  function Apply(r: Registry, w: World, a: Action): World {
    match a
    case Insert(id, task) =>
      if id !in w.tables.tasks && task.token == 0 && task.attempts == 0 && task.leaseOwner == "" && task.status == Ready
      then w.(tables := w.tables.(tasks := w.tables.tasks[id := task])) else w
    case Reset(id, version, now) =>
      // the lookup that found another version may be stale by the time the row is written
      if id in w.tables.tasks && RowWriteAllowed(w.fences, TABLE, w.tables.tasks[id].workspaceId, id)
      then w.(tables := w.tables.(tasks := w.tables.tasks[id := ResetTask(w.tables.tasks[id], version, now)])) else w
    case Scan(i, owner, id) =>
      if i !in w.workers && owner != "" && id in w.tables.tasks && (w.tables.tasks[id].status == Ready || w.tables.tasks[id].status == ProviderTasks.Failed)
      then w.(workers := w.workers[i := Worker(owner, Candidate(id, w.tables.tasks[id]), Scanned)]) else w
    case Claim(i, expires, fate) => if Holds(w, i, Scanned) then ApplyClaim(w, i, expires, fate) else w
    case ProcessFailed(i) => if Holds(w, i, Claimed) then Go(w, i, Failing) else w
    case CommitResult(i, result, dueAt, now, fate) => if Holds(w, i, Claimed) then ApplyCommit(r, w, i, result, dueAt, now, fate) else w
    case Fail(i, retryAt, fate) => if Holds(w, i, Failing) then ApplyFail(w, i, retryAt, fate) else w
    case Crash(i) => if i in w.workers then Go(w, i, Done) else w
    case Prepare(ids, subjectFences) =>
      if Preparable(w, ids) && (forall f :: f in subjectFences ==> f.kind != "row") then
        var tasks := map id | id in w.tables.tasks :: if id in ids then PreparedTask(w.tables.tasks[id]) else w.tables.tasks[id];
        var rows := set id | id in ids :: Fence(w.tables.tasks[id].workspaceId, "row", TABLE, id);
        w.(tables := w.tables.(tasks := tasks), fences := w.fences + rows + subjectFences)
      else w
    case Erase(ids) =>
      if forall id :: id in ids && id in w.tables.tasks ==> !RowWriteAllowed(w.fences, TABLE, w.tables.tasks[id].workspaceId, id)
      then w.(tables := w.tables.(tasks := map id | id in w.tables.tasks :: if id in ids then ErasedTask(w.tables.tasks[id]) else w.tables.tasks[id])) else w
    case ChangeCommits(commits) =>
      // deliveries update outbox rows; they neither add nor remove any
      if commits.Keys == w.tables.commits.Keys then w.(tables := w.tables.(commits := commits)) else w
    case Receive(event) =>
      var id := EventId(r, event.workspaceId, event.provider, event.externalId);
      if id !in w.tables.events then w.(tables := w.tables.(events := w.tables.events[id := event])) else w
    case ChangeEvents(events) =>
      // later writers of an event, the erasure among them, leave its columns of identity
      if SameEvents(w.tables.events, events) then w.(tables := w.tables.(events := events)) else w
  }

  const Start := World(Tables(map[], map[], map[]), {}, map[], [])

  function Run(r: Registry, w: World, actions: seq<Action>): World
    decreases |actions|
  {
    if actions == [] then w else Run(r, Apply(r, w, actions[0]), actions[1..])
  }

  // ----- the invariant -----

  ghost predicate WorkerInv(w: World, i: nat)
    requires i in w.workers
  {
    var worker := w.workers[i];
    && worker.owner != ""
    && worker.c.id in w.tables.tasks
    && worker.c.seen.token <= w.tables.tasks[worker.c.id].token
    && (worker.pc == Claimed || worker.pc == Failing ==> worker.c.seen.token < w.tables.tasks[worker.c.id].token)
  }

  predicate Leading(worker: Worker) {
    worker.pc == Claimed || worker.pc == Failing
  }

  /** No two workers hold the same (task, token), whatever ids they call themselves. */
  ghost predicate ClaimsDistinct(w: World) {
    forall i, j :: i in w.workers && j in w.workers && i != j && Leading(w.workers[i]) && Leading(w.workers[j]) && w.workers[i].c.id == w.workers[j].c.id
      ==> w.workers[i].c.seen.token != w.workers[j].c.seen.token
  }

  ghost predicate EffectInv(w: World, e: Effect) {
    && e.id in w.tables.tasks
    && e.token <= w.tables.tasks[e.id].token
    && (e.token == w.tables.tasks[e.id].token ==> w.tables.tasks[e.id].leaseOwner == "")
  }

  ghost predicate EffectsDistinct(effects: seq<Effect>) {
    forall i, j :: 0 <= i < j < |effects| && effects[i].id == effects[j].id ==> effects[i].token != effects[j].token
  }

  ghost predicate Originates(r: Registry, effects: seq<Effect>, id: string) {
    exists i, index: nat :: 0 <= i < |effects| && effects[i].committed && id == ProviderCommitId(r.digest, effects[i].id, effects[i].token, index)
  }

  ghost predicate Inv(r: Registry, w: World) {
    && (forall i :: i in w.workers ==> WorkerInv(w, i))
    && ClaimsDistinct(w)
    && (forall i :: 0 <= i < |w.effects| ==> EffectInv(w, w.effects[i]))
    && EffectsDistinct(w.effects)
    && (forall id :: id in w.tables.commits ==> Originates(r, w.effects, id))
  }

  /** Task rows never disappear and their tokens never decrease. */
  predicate TokensGrow(before: map<string, Task>, after: map<string, Task>) {
    forall id :: id in before ==> id in after && before[id].token <= after[id].token
  }

  /** Rows that move without a claim: the token grows, or the row keeps token and, unless the lease is dropped, owner. */
  predicate Quiet(before: map<string, Task>, after: map<string, Task>) {
    forall id :: id in before ==>
      && id in after && before[id].token <= after[id].token
      && (before[id].token == after[id].token ==> after[id].leaseOwner == before[id].leaseOwner || after[id].leaseOwner == "")
  }

  lemma QuietKeeps(r: Registry, w: World, v: World)
    requires Inv(r, w) && v.workers == w.workers && v.effects == w.effects && v.tables.commits.Keys == w.tables.commits.Keys
    requires Quiet(w.tables.tasks, v.tables.tasks)
    ensures Inv(r, v)
  {
    forall i | i in v.workers ensures WorkerInv(v, i) { assert WorkerInv(w, i); }
    forall i | 0 <= i < |v.effects| ensures EffectInv(v, v.effects[i]) { assert EffectInv(w, w.effects[i]); }
  }

  lemma MoveKeeps(r: Registry, w: World, i: nat, pc: Pc)
    requires Inv(r, w) && i in w.workers
    requires pc == Done || (pc == Failing && w.workers[i].pc == Claimed)
    ensures Inv(r, Go(w, i, pc))
  {
    var v := Go(w, i, pc);
    forall j | j in v.workers ensures WorkerInv(v, j) { assert WorkerInv(w, j); }
    forall j | 0 <= j < |v.effects| ensures EffectInv(v, v.effects[j]) { assert EffectInv(w, w.effects[j]); }
  }

  lemma ClaimKeeps(r: Registry, w: World, i: nat, expires: string, fate: Fate)
    requires Inv(r, w) && Holds(w, i, Scanned)
    ensures Inv(r, ApplyClaim(w, i, expires, fate))
  {
    var worker := w.workers[i];
    if fate.Lands() && Claimable(w.tables.tasks, w.fences, worker.c) {
      var v := ApplyClaim(w, i, expires, fate);
      forall j | j in v.workers ensures WorkerInv(v, j) { assert WorkerInv(w, j); }
      forall j | 0 <= j < |v.effects| ensures EffectInv(v, v.effects[j]) { assert EffectInv(w, w.effects[j]); }
      forall a, b | a in v.workers && b in v.workers && a != b && Leading(v.workers[a]) && Leading(v.workers[b]) && v.workers[a].c.id == v.workers[b].c.id
        ensures v.workers[a].c.seen.token != v.workers[b].c.seen.token
      {
        assert WorkerInv(w, a) && WorkerInv(w, b);
      }
    } else {
      MoveKeeps(r, w, i, Done);
    }
  }

  lemma LogKeepsOrigin(r: Registry, effects: seq<Effect>, e: Effect, id: string)
    requires Originates(r, effects, id)
    ensures Originates(r, effects + [e], id)
  {
    var i, index: nat :| 0 <= i < |effects| && effects[i].committed && id == ProviderCommitId(r.digest, effects[i].id, effects[i].token, index);
    assert (effects + [e])[i] == effects[i];
  }

  /** What landing an effect of worker `i` leaves behind. */
  ghost predicate Lands(r: Registry, w: World, i: nat, tables: Tables, e: Effect)
    requires i in w.workers
  {
    && Held(w.tables.tasks, w.fences, w.workers[i].c, w.workers[i].owner)
    && e.id == w.workers[i].c.id && e.token == w.workers[i].c.seen.token + 1
    && tables.tasks.Keys == w.tables.tasks.Keys
    && (forall id :: id in tables.tasks ==> tables.tasks[id].token == w.tables.tasks[id].token && tables.tasks[id].leaseOwner == if id == e.id then "" else w.tables.tasks[id].leaseOwner)
    && (forall id :: id in tables.commits ==> Originates(r, w.effects + [e], id))
  }

  lemma EffectIsFresh(r: Registry, w: World, i: nat, tables: Tables, e: Effect, j: nat)
    requires Inv(r, w) && i in w.workers && Lands(r, w, i, tables, e) && j < |w.effects| && w.effects[j].id == e.id
    ensures w.effects[j].token != e.token
  {
    assert EffectInv(w, w.effects[j]) && WorkerInv(w, i);
  }

  /** The one effect of a held claim: the lease is dropped with it, so its token is spent. */
  lemma EffectKeeps(r: Registry, w: World, i: nat, tables: Tables, e: Effect, pc: Pc, v: World)
    requires Inv(r, w) && i in w.workers && Lands(r, w, i, tables, e)
    requires pc == Done || (pc == Failing && w.workers[i].pc == Claimed)
    requires v == Go(w.(tables := tables, effects := w.effects + [e]), i, pc)
    ensures Inv(r, v)
  {
    forall j | j in v.workers ensures WorkerInv(v, j) { assert WorkerInv(w, j); }
    forall j | 0 <= j < |v.effects| ensures EffectInv(v, v.effects[j]) {
      if j < |w.effects| { assert EffectInv(w, w.effects[j]); }
    }
    forall j, m | 0 <= j < m < |v.effects| && v.effects[j].id == v.effects[m].id ensures v.effects[j].token != v.effects[m].token {
      if m == |w.effects| { EffectIsFresh(r, w, i, tables, e, j); }
    }
    LeadersStayDistinct(w, i, pc, v);
  }

  lemma LeadersStayDistinct(w: World, i: nat, pc: Pc, v: World)
    requires ClaimsDistinct(w) && i in w.workers && (pc == Done || (pc == Failing && w.workers[i].pc == Claimed))
    requires v.workers == w.workers[i := w.workers[i].(pc := pc)]
    ensures ClaimsDistinct(v)
  {
  }

  lemma FailKeeps(r: Registry, w: World, i: nat, retryAt: string, fate: Fate)
    requires Inv(r, w) && Holds(w, i, Failing)
    ensures Inv(r, ApplyFail(w, i, retryAt, fate))
  {
    var worker := w.workers[i];
    if fate.Lands() && Held(w.tables.tasks, w.fences, worker.c, worker.owner) {
      var e := Effect(worker.c.id, worker.c.seen.token + 1, false);
      var tables := w.tables.(tasks := w.tables.tasks[worker.c.id := Backed(w.tables.tasks[worker.c.id], worker.c, retryAt)]);
      assert Lands(r, w, i, tables, e) by {
        forall id | id in w.tables.commits ensures Originates(r, w.effects + [e], id) { LogKeepsOrigin(r, w.effects, e, id); }
      }
      EffectKeeps(r, w, i, tables, e, Done, ApplyFail(w, i, retryAt, fate));
    } else {
      MoveKeeps(r, w, i, Done);
    }
  }

  lemma ResultOrigins(r: Registry, w: World, c: Candidate, result: Result, now: string, after: map<string, Commit>, id: string)
    requires CommitsLanded(r, w.tables.commits, after, c, result.commits, 0, now) && id in after
    requires id in w.tables.commits ==> Originates(r, w.effects, id)
    ensures Originates(r, w.effects + [Effect(c.id, c.seen.token + 1, true)], id)
  {
    var e := Effect(c.id, c.seen.token + 1, true);
    if id in w.tables.commits {
      LogKeepsOrigin(r, w.effects, e, id);
    } else {
      assert IsOutboxId(r, c, 0, |result.commits|, id);
      assert (w.effects + [e])[|w.effects|] == e;
    }
  }

  lemma ResultTasks(r: Registry, w: World, c: Candidate, owner: string, result: Result, dueAt: string, now: string, after: Tables)
    requires Committed(r, w.tables, w.fences, c, owner, result, dueAt, now) == Some(after)
    ensures Held(w.tables.tasks, w.fences, c, owner) && after.tasks.Keys == w.tables.tasks.Keys
    ensures forall id :: id in after.tasks ==>
      after.tasks[id].token == w.tables.tasks[id].token && after.tasks[id].leaseOwner == if id == c.id then "" else w.tables.tasks[id].leaseOwner
    ensures InsertCommits(r, w.tables.commits, c, result.commits, 0, now) == Some(after.commits)
  {
  }

  lemma ResultLands(r: Registry, w: World, i: nat, result: Result, dueAt: string, now: string, after: Tables, e: Effect)
    requires (forall id :: id in w.tables.commits ==> Originates(r, w.effects, id)) && i in w.workers
    requires Committed(r, w.tables, w.fences, w.workers[i].c, w.workers[i].owner, result, dueAt, now) == Some(after)
    requires e == Effect(w.workers[i].c.id, w.workers[i].c.seen.token + 1, true)
    ensures Lands(r, w, i, after, e)
  {
    var c := w.workers[i].c;
    ResultTasks(r, w, c, w.workers[i].owner, result, dueAt, now, after);
    CommitsMeaning(r, w.tables.commits, c, result.commits, 0, now);
    forall id | id in after.commits ensures Originates(r, w.effects + [e], id) { ResultOrigins(r, w, c, result, now, after.commits, id); }
  }

  lemma CommitKeeps(r: Registry, w: World, i: nat, result: Result, dueAt: string, now: string, fate: Fate)
    requires Inv(r, w) && Holds(w, i, Claimed)
    ensures Inv(r, ApplyCommit(r, w, i, result, dueAt, now, fate))
  {
    var worker := w.workers[i];
    var after := Committed(r, w.tables, w.fences, worker.c, worker.owner, result, dueAt, now);
    if after.Some? && fate.Lands() {
      var e := Effect(worker.c.id, worker.c.seen.token + 1, true);
      ResultLands(r, w, i, result, dueAt, now, after.value, e);
      EffectKeeps(r, w, i, after.value, e, if fate == Landed then Done else Failing, ApplyCommit(r, w, i, result, dueAt, now, fate));
    } else {
      MoveKeeps(r, w, i, if after.Some? && fate == Landed then Done else Failing);
    }
  }

  lemma ScanKeeps(r: Registry, w: World, i: nat, owner: string, id: string)
    requires Inv(r, w)
    ensures Inv(r, Apply(r, w, Scan(i, owner, id)))
  {
    var v := Apply(r, w, Scan(i, owner, id));
    forall j | j in v.workers ensures WorkerInv(v, j) { if j in w.workers { assert WorkerInv(w, j); } }
    forall j | 0 <= j < |v.effects| ensures EffectInv(v, v.effects[j]) { assert EffectInv(w, w.effects[j]); }
  }

  lemma ClaimIsQuiet(w: World, i: nat, expires: string, fate: Fate)
    requires i in w.workers
    ensures Quiet(w.tables.tasks, ApplyClaim(w, i, expires, fate).tables.tasks)
  {
  }

  lemma CommitIsQuiet(r: Registry, w: World, i: nat, result: Result, dueAt: string, now: string, fate: Fate)
    requires i in w.workers
    ensures Quiet(w.tables.tasks, ApplyCommit(r, w, i, result, dueAt, now, fate).tables.tasks)
  {
  }

  lemma FailIsQuiet(w: World, i: nat, retryAt: string, fate: Fate)
    requires i in w.workers
    ensures Quiet(w.tables.tasks, ApplyFail(w, i, retryAt, fate).tables.tasks)
  {
  }

  lemma PrepareIsQuiet(r: Registry, w: World, ids: set<string>, subjectFences: set<Fence>)
    ensures Quiet(w.tables.tasks, Apply(r, w, Prepare(ids, subjectFences)).tables.tasks)
  {
  }

  lemma EraseIsQuiet(r: Registry, w: World, ids: set<string>)
    ensures Quiet(w.tables.tasks, Apply(r, w, Erase(ids)).tables.tasks)
  {
  }

  /** Whatever the step, a row keeps its owner or drops it, unless its token grows. */
  lemma StepIsQuiet(r: Registry, w: World, a: Action)
    ensures Quiet(w.tables.tasks, Apply(r, w, a).tables.tasks)
  {
    match a
    case Claim(i, expires, fate) => if Holds(w, i, Scanned) { ClaimIsQuiet(w, i, expires, fate); }
    case CommitResult(i, result, dueAt, now, fate) => if Holds(w, i, Claimed) { CommitIsQuiet(r, w, i, result, dueAt, now, fate); }
    case Fail(i, retryAt, fate) => if Holds(w, i, Failing) { FailIsQuiet(w, i, retryAt, fate); }
    case Prepare(ids, subjectFences) => PrepareIsQuiet(r, w, ids, subjectFences);
    case Erase(ids) => EraseIsQuiet(r, w, ids);
    case _ =>
  }

  lemma UnclaimedFrame(r: Registry, w: World, a: Action)
    requires a.Insert? || a.Reset? || a.Prepare? || a.Erase? || a.ChangeCommits? || a.Receive? || a.ChangeEvents?
    ensures var v := Apply(r, w, a); v.workers == w.workers && v.effects == w.effects && v.tables.commits.Keys == w.tables.commits.Keys
  {
  }

  lemma StepKeeps(r: Registry, w: World, a: Action)
    requires Inv(r, w)
    ensures Inv(r, Apply(r, w, a))
  {
    match a
    case Scan(i, owner, id) => ScanKeeps(r, w, i, owner, id);
    case Claim(i, expires, fate) => if Holds(w, i, Scanned) { ClaimKeeps(r, w, i, expires, fate); }
    case ProcessFailed(i) => if Holds(w, i, Claimed) { MoveKeeps(r, w, i, Failing); }
    case CommitResult(i, result, dueAt, now, fate) => if Holds(w, i, Claimed) { CommitKeeps(r, w, i, result, dueAt, now, fate); }
    case Fail(i, retryAt, fate) => if Holds(w, i, Failing) { FailKeeps(r, w, i, retryAt, fate); }
    case Crash(i) => if i in w.workers { MoveKeeps(r, w, i, Done); }
    case _ =>
      StepIsQuiet(r, w, a);
      UnclaimedFrame(r, w, a);
      QuietKeeps(r, w, Apply(r, w, a));
  }

  lemma {:induction false} RunKeeps(r: Registry, w: World, actions: seq<Action>)
    requires Inv(r, w)
    ensures Inv(r, Run(r, w, actions))
    decreases |actions|
  {
    if actions != [] {
      StepKeeps(r, w, actions[0]);
      RunKeeps(r, Apply(r, w, actions[0]), actions[1..]);
    }
  }

  // ----- the theorems -----

  /** For each (task, fencing token) at most one result or failure ever lands. */
  lemma OneEffectPerToken(r: Registry, actions: seq<Action>, i: nat, j: nat)
    requires i < |Run(r, Start, actions).effects| && j < |Run(r, Start, actions).effects|
    requires var e := Run(r, Start, actions).effects; e[i].id == e[j].id && e[i].token == e[j].token
    ensures i == j
  {
    RunKeeps(r, Start, actions);
  }

  lemma {:induction false} RunGrowsTokens(r: Registry, w: World, actions: seq<Action>)
    ensures TokensGrow(w.tables.tasks, Run(r, w, actions).tables.tasks)
    decreases |actions|
  {
    if actions != [] {
      StepIsQuiet(r, w, actions[0]);
      RunGrowsTokens(r, Apply(r, w, actions[0]), actions[1..]);
    }
  }

  /** The claim is over: a newer token exists, or the lease at its own token was dropped by
      its effect, by a failure or by a state-version reset. */
  predicate Overtaken(tasks: map<string, Task>, c: Candidate) {
    c.id in tasks && (tasks[c.id].token > c.seen.token + 1 || (tasks[c.id].token == c.seen.token + 1 && tasks[c.id].leaseOwner == ""))
  }

  lemma QuietKeepsOvertaken(before: map<string, Task>, after: map<string, Task>, c: Candidate)
    requires Quiet(before, after) && Overtaken(before, c)
    ensures Overtaken(after, c)
  {
  }

  lemma {:induction false} OvertakenForever(r: Registry, w: World, later: seq<Action>, c: Candidate)
    requires Overtaken(w.tables.tasks, c)
    ensures Overtaken(Run(r, w, later).tables.tasks, c)
    decreases |later|
  {
    if later != [] {
      StepIsQuiet(r, w, later[0]);
      QuietKeepsOvertaken(w.tables.tasks, Apply(r, w, later[0]).tables.tasks, c);
      OvertakenForever(r, Apply(r, w, later[0]), later[1..], c);
    }
  }

  lemma {:induction false} WorkersPersist(r: Registry, w: World, later: seq<Action>, i: nat)
    requires i in w.workers
    ensures var v := Run(r, w, later); i in v.workers && v.workers[i].c == w.workers[i].c && v.workers[i].owner == w.workers[i].owner
    decreases |later|
  {
    if later != [] {
      WorkersPersist(r, Apply(r, w, later[0]), later[1..], i);
    }
  }

  /** A worker whose claim is over changes nothing any more, now and after any further run,
      even when a newer claim carries the same worker id. */
  lemma StaleWorkerIsPowerless(r: Registry, w: World, later: seq<Action>, i: nat, a: Action)
    requires Inv(r, w) && i in w.workers && Overtaken(w.tables.tasks, w.workers[i].c)
    requires (a.CommitResult? || a.Fail?) && a.w == i
    ensures Apply(r, Run(r, w, later), a).tables == Run(r, w, later).tables
    ensures Apply(r, Run(r, w, later), a).effects == Run(r, w, later).effects
  {
    RunKeeps(r, w, later);
    WorkersPersist(r, w, later, i);
    OvertakenForever(r, w, later, w.workers[i].c);
    assert WorkerInv(Run(r, w, later), i);
  }

  /** Landing an effect, a reset and an overtaking claim each end the claims before them. */
  lemma ClaimsEnd(r: Registry, w: World, a: Action, i: nat)
    requires Inv(r, w) && i in w.workers && Leading(w.workers[i])
    requires Held(w.tables.tasks, w.fences, w.workers[i].c, w.workers[i].owner)
    requires w.workers[i].c.id in Apply(r, w, a).tables.tasks
    requires var v := Apply(r, w, a); v.tables.tasks[w.workers[i].c.id].token != w.tables.tasks[w.workers[i].c.id].token
                                      || v.tables.tasks[w.workers[i].c.id].leaseOwner != w.tables.tasks[w.workers[i].c.id].leaseOwner
    ensures Overtaken(Apply(r, w, a).tables.tasks, w.workers[i].c)
  {
    StepIsQuiet(r, w, a);
  }

  /** The outbox ids of a claim that still holds are free in every reachable world, so the
      transaction is never refused for a collision: whether it commits depends on its own
      events and on the operation contracts only. */
  lemma OutboxIdsAreFree(r: Registry, actions: seq<Action>, i: nat, index: nat)
    requires Injective(r.digest)
    requires i in Run(r, Start, actions).workers
    requires var w := Run(r, Start, actions); Held(w.tables.tasks, w.fences, w.workers[i].c, w.workers[i].owner)
    ensures OutboxId(r, Run(r, Start, actions).workers[i].c, index) !in Run(r, Start, actions).tables.commits
  {
    RunKeeps(r, Start, actions);
    var w := Run(r, Start, actions);
    var c := w.workers[i].c;
    assert WorkerInv(w, i);
    if OutboxId(r, c, index) in w.tables.commits {
      assert Originates(r, w.effects, OutboxId(r, c, index));
      var n, other: nat :| 0 <= n < |w.effects| && w.effects[n].committed && OutboxId(r, c, index) == ProviderCommitId(r.digest, w.effects[n].id, w.effects[n].token, other);
      assert EffectInv(w, w.effects[n]);
      ProviderCommitIdInjective(r.digest, c.id, c.seen.token + 1, index, w.effects[n].id, w.effects[n].token, other);
    }
  }

  predicate ContractsMatch(r: Registry, c: Candidate, list: seq<NewCommit>) {
    forall n :: 0 <= n < |list| ==> r.contract(c.seen.connectorKey, c.seen.providerKey, list[n].operationKey) == Some(list[n].contractSha256)
  }

  lemma StepKeepsEventsKeyed(r: Registry, w: World, a: Action, v: World)
    requires Injective(r.digest) && EventsKeyed(r, w.tables.events) && v == Apply(r, w, a)
    ensures EventsKeyed(r, v.tables.events)
  {
    if a.CommitResult? && Holds(w, a.w, Claimed) {
      EventsInsertable(r, w.tables.events, w.workers[a.w].c, a.result.events);
    }
  }

  lemma {:induction false} RunKeepsEventsKeyed(r: Registry, w: World, actions: seq<Action>)
    requires Injective(r.digest) && EventsKeyed(r, w.tables.events)
    ensures EventsKeyed(r, Run(r, w, actions).tables.events)
    decreases |actions|
  {
    if actions != [] {
      StepKeepsEventsKeyed(r, w, actions[0], Apply(r, w, actions[0]));
      RunKeepsEventsKeyed(r, Apply(r, w, actions[0]), actions[1..]);
    }
  }

  /** In every reachable world a result commits exactly when its claim holds, its events fit
      and its contracts match. */
  lemma CommitDecision(r: Registry, actions: seq<Action>, i: nat, result: Result, dueAt: string, now: string)
    requires Injective(r.digest) && i in Run(r, Start, actions).workers
    ensures var w := Run(r, Start, actions);
            var c := w.workers[i].c;
            Committed(r, w.tables, w.fences, c, w.workers[i].owner, result, dueAt, now).Some?
            <==> Held(w.tables.tasks, w.fences, c, w.workers[i].owner) && EventsFit(r, w.tables.events, c, result.events) && ContractsMatch(r, c, result.commits)
  {
    var w := Run(r, Start, actions);
    var c := w.workers[i].c;
    RunKeepsEventsKeyed(r, Start, actions);
    EventsInsertable(r, w.tables.events, c, result.events);
    if Held(w.tables.tasks, w.fences, c, w.workers[i].owner) {
      forall index: nat ensures OutboxId(r, c, index) !in w.tables.commits { OutboxIdsAreFree(r, actions, i, index); }
      CommitsInsertable(r, w.tables.commits, c, result.commits, 0, now);
    }
  }

  lemma CommitTables(r: Registry, w: World, i: nat, result: Result, dueAt: string, now: string, fate: Fate)
    requires Holds(w, i, Claimed)
    ensures var after := Committed(r, w.tables, w.fences, w.workers[i].c, w.workers[i].owner, result, dueAt, now);
            Apply(r, w, CommitResult(i, result, dueAt, now, fate)).tables == if after.Some? && fate.Lands() then after.value else w.tables
  {
  }

  /** All or nothing: in every reachable world a result commit either changes no table, or
      lands the state, the events, each outbox row exactly once, and the wakes. */
  lemma ResultIsAllOrNothing(r: Registry, actions: seq<Action>, i: nat, result: Result, dueAt: string, now: string, fate: Fate, w: World, v: World)
    requires Injective(r.digest)
    requires w == Run(r, Start, actions) && Holds(w, i, Claimed) && v == Apply(r, w, CommitResult(i, result, dueAt, now, fate))
    ensures var c := w.workers[i].c;
            var good := Held(w.tables.tasks, w.fences, c, w.workers[i].owner) && EventsFit(r, w.tables.events, c, result.events) && ContractsMatch(r, c, result.commits);
            if good && fate.Lands() then ResultLanded(r, w.tables, v.tables, w.fences, c, result, dueAt, now) else v.tables == w.tables
  {
    var c, owner := w.workers[i].c, w.workers[i].owner;
    CommitDecision(r, actions, i, result, dueAt, now);
    CommitTables(r, w, i, result, dueAt, now, fate);
    if Committed(r, w.tables, w.fences, c, owner, result, dueAt, now).Some? {
      CommittedMeansLanded(r, w.tables, w.fences, c, owner, result, dueAt, now);
    }
  }

  // ----- attempts -----

  /** Failures of a task that landed, over the whole history. */
  function Failures(effects: seq<Effect>, id: string): nat {
    if effects == [] then 0
    else Failures(effects[..|effects| - 1], id) + if effects[|effects| - 1].id == id && !effects[|effects| - 1].committed then 1 else 0
  }

  lemma FailuresSnoc(effects: seq<Effect>, e: Effect, id: string)
    ensures Failures(effects + [e], id) == Failures(effects, id) + if e.id == id && !e.committed then 1 else 0
  {
    assert (effects + [e])[..|effects|] == effects;
  }

  predicate TaskAttempts(t: Task, failures: nat) {
    && t.attempts <= 5 && t.attempts <= failures && (t.status == DeadLetter ==> t.attempts == 5)
    && (t.status == Ready || t.status == ProviderTasks.Failed || t.status == Processing ==> t.attempts <= 4)
  }

  predicate SeenAttempts(c: Candidate, failures: nat) {
    c.seen.attempts <= 4 && c.seen.attempts <= failures && (c.seen.status == Ready || c.seen.status == ProviderTasks.Failed)
  }

  ghost predicate AttemptsInv(w: World) {
    && (forall id :: id in w.tables.tasks ==> TaskAttempts(w.tables.tasks[id], Failures(w.effects, id)))
    && (forall i :: i in w.workers ==> SeenAttempts(w.workers[i].c, Failures(w.effects, w.workers[i].c.id)))
  }

  lemma ClaimKeepsAttempts(w: World, i: nat, expires: string, fate: Fate)
    requires AttemptsInv(w) && i in w.workers
    ensures AttemptsInv(ApplyClaim(w, i, expires, fate))
  {
    assert SeenAttempts(w.workers[i].c, Failures(w.effects, w.workers[i].c.id));
  }

  lemma CommitKeepsAttempts(r: Registry, w: World, i: nat, result: Result, dueAt: string, now: string, fate: Fate, v: World)
    requires AttemptsInv(w) && i in w.workers && v == ApplyCommit(r, w, i, result, dueAt, now, fate)
    ensures AttemptsInv(v)
  {
    var e := Effect(w.workers[i].c.id, w.workers[i].c.seen.token + 1, true);
    forall id ensures Failures(v.effects, id) == Failures(w.effects, id) { FailuresSnoc(w.effects, e, id); }
  }

  lemma FailKeepsAttempts(w: World, i: nat, retryAt: string, fate: Fate, v: World)
    requires AttemptsInv(w) && i in w.workers && v == ApplyFail(w, i, retryAt, fate)
    ensures AttemptsInv(v)
  {
    var e := Effect(w.workers[i].c.id, w.workers[i].c.seen.token + 1, false);
    assert SeenAttempts(w.workers[i].c, Failures(w.effects, w.workers[i].c.id));
    forall id ensures Failures(w.effects + [e], id) == Failures(w.effects, id) + if id == e.id then 1 else 0 { FailuresSnoc(w.effects, e, id); }
  }

  lemma StepKeepsAttempts(r: Registry, w: World, a: Action)
    requires AttemptsInv(w)
    ensures AttemptsInv(Apply(r, w, a))
  {
    match a
    case Claim(i, expires, fate) => if Holds(w, i, Scanned) { ClaimKeepsAttempts(w, i, expires, fate); }
    case CommitResult(i, result, dueAt, now, fate) => if Holds(w, i, Claimed) { CommitKeepsAttempts(r, w, i, result, dueAt, now, fate, Apply(r, w, a)); }
    case Fail(i, retryAt, fate) => if Holds(w, i, Failing) { FailKeepsAttempts(w, i, retryAt, fate, Apply(r, w, a)); }
    case Prepare(ids, subjectFences) => PrepareKeepsAttempts(r, w, ids, subjectFences, Apply(r, w, a));
    case Erase(ids) => EraseKeepsAttempts(r, w, ids, Apply(r, w, a));
    case _ => UnclaimedKeepsAttempts(r, w, a, Apply(r, w, a));
  }

  lemma PrepareKeepsAttempts(r: Registry, w: World, ids: set<string>, subjectFences: set<Fence>, v: World)
    requires AttemptsInv(w) && v == Apply(r, w, Prepare(ids, subjectFences))
    ensures AttemptsInv(v)
  {
  }

  lemma EraseKeepsAttempts(r: Registry, w: World, ids: set<string>, v: World)
    requires AttemptsInv(w) && v == Apply(r, w, Erase(ids))
    ensures AttemptsInv(v)
  {
  }

  lemma UnclaimedKeepsAttempts(r: Registry, w: World, a: Action, v: World)
    requires AttemptsInv(w) && v == Apply(r, w, a) && !a.Claim? && !a.CommitResult? && !a.Fail? && !a.Prepare? && !a.Erase?
    ensures AttemptsInv(v)
  {
  }

  lemma {:induction false} RunKeepsAttempts(r: Registry, w: World, actions: seq<Action>)
    requires AttemptsInv(w)
    ensures AttemptsInv(Run(r, w, actions))
    decreases |actions|
  {
    if actions != [] {
      StepKeepsAttempts(r, w, actions[0]);
      RunKeepsAttempts(r, Apply(r, w, actions[0]), actions[1..]);
    }
  }

  /** In every reachable state a task that can still run stands at four attempts at most and a
      dead letter at five, and its counter never exceeds the failures that really landed. */
  lemma DeadLetterAtFive(r: Registry, actions: seq<Action>, id: string)
    requires id in Run(r, Start, actions).tables.tasks
    ensures var w := Run(r, Start, actions);
            var t := w.tables.tasks[id];
            && (t.status == Ready || t.status == ProviderTasks.Failed || t.status == Processing ==> t.attempts < 5)
            && (t.status == DeadLetter ==> t.attempts == 5 && Failures(w.effects, id) >= 5)
            && t.attempts <= Failures(w.effects, id)
  {
    RunKeepsAttempts(r, Start, actions);
    var w := Run(r, Start, actions);
    assert TaskAttempts(w.tables.tasks[id], Failures(w.effects, id));
  }
}
