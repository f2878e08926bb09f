/** Delivery of outbox rows: claim by fencing token, hand over, record the outcome.
    internal/infrastructure/persistence/database/integration/provider_worker_store.go:352-421 */
module ProviderOutbox {
  import opened Basics
  import opened Fences
  import opened ProviderTasks

  const COMMITS := "_integration_connector_provider_commits"

  datatype Seen = Seen(id: string, row: Commit)

  predicate Deliverable(status: CommitStatus) {
    status == Pending || status == CommitFailed
  }

  predicate CommitClaimable(commits: map<string, Commit>, fences: set<Fence>, s: Seen) {
    && s.id in commits
    && RowWriteAllowed(fences, COMMITS, commits[s.id].workspaceId, s.id)
    && commits[s.id].status == s.row.status && commits[s.id].token == s.row.token
    && commits[s.id].dueAt == s.row.dueAt && commits[s.id].leaseExpiresAt == s.row.leaseExpiresAt
  }

  predicate CommitHeld(commits: map<string, Commit>, fences: set<Fence>, s: Seen, owner: string) {
    && s.id in commits
    && RowWriteAllowed(fences, COMMITS, commits[s.id].workspaceId, s.id)
    && commits[s.id].leaseOwner == owner && commits[s.id].token == s.row.token + 1
  }

  function Delivered(row: Commit, s: Seen, ok: bool, retryAt: string): Commit {
    var attempt := if ok then s.row.attempts else s.row.attempts + 1;
    var dead := !ok && attempt >= ATTEMPT_LIMIT;
    row.(status := if ok then CommitSucceeded else if dead then CommitDeadLetter else CommitFailed,
         attempts := attempt, dueAt := if ok || dead then "" else retryAt, leaseOwner := "", leaseExpiresAt := "")
  }

  class ProviderOutboxStore {
    const owner: string
    var commits: map<string, Commit>
    var fences: set<Fence>

    constructor (owner: string)
      ensures this.owner == owner && commits == map[] && fences == {}
    {
      this.owner, commits, fences := owner, map[], {};
    }

    method Claim(s: Seen, expires: string) returns (claimed: bool)
      modifies this`commits
      ensures claimed <==> CommitClaimable(old(commits), fences, s)
      ensures commits == if claimed
                         then old(commits)[s.id := old(commits)[s.id].(status := CommitProcessing, leaseOwner := owner, leaseExpiresAt := expires, token := s.row.token + 1)]
                         else old(commits)
    {
      claimed := CommitClaimable(commits, fences, s);
      if claimed {
        commits := commits[s.id := commits[s.id].(status := CommitProcessing, leaseOwner := owner, leaseExpiresAt := expires, token := s.row.token + 1)];
      }
    }

    method Finish(s: Seen, delivered: bool, retryAt: string)
      modifies this`commits
      ensures commits == if CommitHeld(old(commits), fences, s, owner) then old(commits)[s.id := Delivered(old(commits)[s.id], s, delivered, retryAt)] else old(commits)
    {
      var status, dueAt, attempt := CommitSucceeded, "", s.row.attempts;
      if !delivered {
        status, attempt, dueAt := CommitFailed, s.row.attempts + 1, retryAt;
        if attempt >= ATTEMPT_LIMIT {
          status, dueAt := CommitDeadLetter, "";
        }
      }
      if CommitHeld(commits, fences, s, owner) {
        commits := commits[s.id := commits[s.id].(status := status, attempts := attempt, dueAt := dueAt, leaseOwner := "", leaseExpiresAt := "")];
      }
    }
  }

  // ----- the machine -----

  datatype Pc = Scanned | Claimed | HandedOver(ok: bool) | Done

  datatype Worker = Worker(owner: string, s: Seen, pc: Pc)

  datatype Handover = Handover(id: string, token: nat)

  datatype World = World(commits: map<string, Commit>, fences: set<Fence>, workers: map<nat, Worker>, log: seq<Handover>)

  datatype Action =
    | Enqueue(id: string, row: Commit)
    | Scan(w: nat, owner: string, id: string)
    | Claim(w: nat, expires: string, fate: Fate)
    | Deliver(w: nat, ok: bool)
    | Finish(w: nat, retryAt: string, fate: Fate)
    | Crash(w: nat)
    | Prepare(ids: set<string>, subjectFences: set<Fence>)
    | Erase(ids: set<string>)

  predicate Holds(w: World, i: nat, pc: Pc) {
    i in w.workers && w.workers[i].pc == pc
  }

  function Go(w: World, i: nat, pc: Pc): World
    requires i in w.workers
  {
    w.(workers := w.workers[i := w.workers[i].(pc := pc)])
  }

  function ApplyClaim(w: World, i: nat, expires: string, fate: Fate): World
    requires i in w.workers
  {
    var worker := w.workers[i];
    if fate.Lands() && CommitClaimable(w.commits, w.fences, worker.s) then
      var row := w.commits[worker.s.id].(status := CommitProcessing, leaseOwner := worker.owner, leaseExpiresAt := expires, token := worker.s.row.token + 1);
      Go(w.(commits := w.commits[worker.s.id := row]), i, if fate == Landed then Claimed else Done)
    else Go(w, i, Done)
  }

  function ApplyFinish(w: World, i: nat, ok: bool, retryAt: string, fate: Fate): World
    requires i in w.workers
  {
    var worker := w.workers[i];
    if fate.Lands() && CommitHeld(w.commits, w.fences, worker.s, worker.owner)
    then Go(w.(commits := w.commits[worker.s.id := Delivered(w.commits[worker.s.id], worker.s, ok, retryAt)]), i, Done)
    else Go(w, i, Done)
  }

  predicate Preparable(w: World, ids: set<string>) {
    ids <= w.commits.Keys && forall id :: id in ids ==> w.commits[id].status != CommitProcessing
  }

  function PreparedCommit(c: Commit): Commit {
    c.(status := CommitErasing, token := c.token + 1, leaseOwner := "", leaseExpiresAt := "")
  }

  function ErasedCommit(c: Commit): Commit {
    c.(payload := "{}", status := CommitCancelled, leaseOwner := "", leaseExpiresAt := "", dueAt := "")
  }

  function Apply(w: World, a: Action): World {
    match a
    case Enqueue(id, row) =>
      if id !in w.commits && row.status == Pending && row.attempts == 0 && row.token == 0 && row.leaseOwner == ""
      then w.(commits := w.commits[id := row]) else w
    case Scan(i, owner, id) =>
      if i !in w.workers && owner != "" && id in w.commits && Deliverable(w.commits[id].status)
      then w.(workers := w.workers[i := Worker(owner, Seen(id, w.commits[id]), Scanned)]) else w
    case Claim(i, expires, fate) => if Holds(w, i, Scanned) then ApplyClaim(w, i, expires, fate) else w
    case Deliver(i, ok) =>
      if Holds(w, i, Claimed) then Go(w.(log := w.log + [Handover(w.workers[i].s.id, w.workers[i].s.row.token + 1)]), i, HandedOver(ok)) else w
    case Finish(i, retryAt, fate) =>
      if i in w.workers && w.workers[i].pc.HandedOver? then ApplyFinish(w, i, w.workers[i].pc.ok, retryAt, fate) else w
    case Crash(i) => if i in w.workers then Go(w, i, Done) else w
    case Prepare(ids, subjectFences) =>
      if Preparable(w, ids) && (forall f :: f in subjectFences ==> f.kind != "row") then
        var rows := set id | id in ids :: Fence(w.commits[id].workspaceId, "row", COMMITS, id);
        w.(commits := map id | id in w.commits :: if id in ids then PreparedCommit(w.commits[id]) else w.commits[id], fences := w.fences + rows + subjectFences)
      else w
    case Erase(ids) =>
      if forall id :: id in ids && id in w.commits ==> Planned(w, id)
      then w.(commits := map id | id in w.commits :: if id in ids then ErasedCommit(w.commits[id]) else w.commits[id]) else w
  }

  predicate Planned(w: World, id: string)
    requires id in w.commits
  {
    !RowWriteAllowed(w.fences, COMMITS, w.commits[id].workspaceId, id)
  }

  const Start := World(map[], {}, map[], [])

  function Run(w: World, actions: seq<Action>): World
    decreases |actions|
  {
    if actions == [] then w else Run(Apply(w, actions[0]), actions[1..])
  }

  // ----- the invariant -----

  predicate Live(row: Commit) {
    row.status != CommitErasing && row.status != CommitCancelled
  }

  /** While a row lives, its token counts its claims: one per failure, and one more while
      it is processed or after it succeeded. */
  predicate RowInv(row: Commit) {
    && (row.status != CommitProcessing ==> row.leaseOwner == "")
    && (Live(row) ==>
          && row.token == row.attempts + (if row.status == CommitProcessing || row.status == CommitSucceeded then 1 else 0)
          && row.attempts <= ATTEMPT_LIMIT
          && (row.status == CommitDeadLetter <==> row.attempts == ATTEMPT_LIMIT))
  }

  ghost predicate PlannedInv(w: World, id: string)
    requires id in w.commits
  {
    Planned(w, id) ==> !Live(w.commits[id])
  }

  /** What a worker that remembers `s` may rely on while the row is `row`. */
  predicate SeenInv(worker: Worker, row: Commit) {
    var s := worker.s.row;
    && worker.owner != "" && s.token == s.attempts && s.attempts < ATTEMPT_LIMIT && Deliverable(s.status)
    && s.token <= row.token
    && (row.token == s.token ==> row.status == s.status && row.attempts == s.attempts)
    && (Leading(worker) ==> s.token < row.token)
    && (row.token == s.token + 1 && row.leaseOwner != "" ==> row.status == CommitProcessing && row.attempts == s.attempts)
  }

  ghost predicate Unlogged(log: seq<Handover>, id: string, token: nat) {
    forall i :: 0 <= i < |log| ==> log[i] != Handover(id, token)
  }

  ghost predicate WorkerInv(w: World, i: nat)
    requires i in w.workers
  {
    && w.workers[i].s.id in w.commits
    && SeenInv(w.workers[i], w.commits[w.workers[i].s.id])
    && (w.workers[i].pc == Claimed ==> Unlogged(w.log, w.workers[i].s.id, w.workers[i].s.row.token + 1))
  }

  predicate Leading(worker: Worker) {
    worker.pc == Claimed || worker.pc.HandedOver?
  }

  ghost predicate ClaimsDistinct(w: World) {
    forall i, j :: i in w.workers && j in w.workers && i != j && Leading(w.workers[i]) && Leading(w.workers[j]) && w.workers[i].s.id == w.workers[j].s.id
      ==> w.workers[i].s.row.token != w.workers[j].s.row.token
  }

  ghost predicate LogInv(w: World, h: Handover) {
    h.id in w.commits && 1 <= h.token <= ATTEMPT_LIMIT && h.token <= w.commits[h.id].token
  }

  ghost predicate LogDistinct(log: seq<Handover>) {
    forall i, j :: 0 <= i < j < |log| ==> log[i] != log[j]
  }

  ghost predicate Inv(w: World) {
    && (forall id :: id in w.commits ==> RowInv(w.commits[id]) && PlannedInv(w, id))
    && (forall i :: i in w.workers ==> WorkerInv(w, i))
    && ClaimsDistinct(w)
    && (forall i :: 0 <= i < |w.log| ==> LogInv(w, w.log[i]))
    && LogDistinct(w.log)
    && (forall ws, id :: !RowWriteAllowed(w.fences, COMMITS, ws, id) ==> id in w.commits)
  }

  lemma MoveKeeps(w: World, i: nat, v: World)
    requires Inv(w) && i in w.workers && v == Go(w, i, Done)
    ensures Inv(v)
  {
    forall j | j in v.workers ensures WorkerInv(v, j) { assert WorkerInv(w, j); }
    forall id | id in v.commits ensures RowInv(v.commits[id]) && PlannedInv(v, id) { assert PlannedInv(w, id); }
    forall j | 0 <= j < |v.log| ensures LogInv(v, v.log[j]) { assert LogInv(w, w.log[j]); }
  }

  /** How a row may move under the workers that remember it. */
  predicate Shifts(a: Commit, b: Commit) {
    && a.token <= b.token
    && (a.token < b.token ==> b.leaseOwner == "" || (b.status == CommitProcessing && b.attempts == a.attempts))
    && (a.token == b.token ==>
          || (b.status == a.status && b.attempts == a.attempts && b.leaseOwner == a.leaseOwner)
          || (!Deliverable(a.status) && b.leaseOwner == ""))
  }

  lemma ShiftKeeps(w: World, v: World)
    requires Inv(w) && v.workers == w.workers && v.log == w.log
    requires forall id :: id in w.commits ==> id in v.commits && Shifts(w.commits[id], v.commits[id])
    requires forall id :: id in v.commits ==> RowInv(v.commits[id]) && PlannedInv(v, id)
    requires forall ws, id :: !RowWriteAllowed(v.fences, COMMITS, ws, id) ==> id in v.commits
    ensures Inv(v)
  {
    forall j | 0 <= j < |v.log| ensures LogInv(v, v.log[j]) { assert LogInv(w, w.log[j]); }
    forall j | j in v.workers ensures WorkerInv(v, j) { ShiftKeepsWorker(w, v, j); }
  }

  lemma ShiftKeepsWorker(w: World, v: World, j: nat)
    requires v.workers == w.workers && v.log == w.log && j in w.workers && WorkerInv(w, j)
    requires w.workers[j].s.id in v.commits && Shifts(w.commits[w.workers[j].s.id], v.commits[w.workers[j].s.id])
    ensures WorkerInv(v, j)
  {
  }

  lemma OneRowKeeps(w: World, id: string, row: Commit)
    requires Inv(w) && id in w.commits && Shifts(w.commits[id], row) && RowInv(row)
    requires row.workspaceId == w.commits[id].workspaceId && !Planned(w, id)
    ensures Inv(w.(commits := w.commits[id := row]))
  {
    var v := w.(commits := w.commits[id := row]);
    forall x | x in v.commits ensures RowInv(v.commits[x]) && PlannedInv(v, x) { assert PlannedInv(w, x); }
    ShiftKeeps(w, v);
  }

  /** The claimer becomes the one worker that leads with the new token. */
  lemma PromoteKeeps(w: World, i: nat, v: World)
    requires Inv(w) && Holds(w, i, Scanned)
    requires w.workers[i].s.row.token < w.commits[w.workers[i].s.id].token
    requires Unlogged(w.log, w.workers[i].s.id, w.workers[i].s.row.token + 1)
    requires forall j :: j in w.workers && Leading(w.workers[j]) && w.workers[j].s.id == w.workers[i].s.id ==> w.workers[j].s.row.token != w.workers[i].s.row.token
    requires v == Go(w, i, Claimed)
    ensures Inv(v)
  {
    forall id | id in v.commits ensures RowInv(v.commits[id]) && PlannedInv(v, id) { assert PlannedInv(w, id); }
    forall j | 0 <= j < |v.log| ensures LogInv(v, v.log[j]) { assert LogInv(w, w.log[j]); }
    forall j | j in v.workers ensures WorkerInv(v, j) { assert WorkerInv(w, j); }
  }

  lemma ClaimKeeps(w: World, i: nat, expires: string, fate: Fate)
    requires Inv(w) && Holds(w, i, Scanned)
    ensures Inv(ApplyClaim(w, i, expires, fate))
  {
    var worker := w.workers[i];
    if fate.Lands() && CommitClaimable(w.commits, w.fences, worker.s) {
      var u := ClaimedRowKeeps(w, i, expires);
      if fate == Landed {
        NextTokenIsFree(w, i);
        PromoteKeeps(u, i, ApplyClaim(w, i, expires, fate));
      } else {
        MoveKeeps(u, i, ApplyClaim(w, i, expires, fate));
      }
    } else {
      MoveKeeps(w, i, ApplyClaim(w, i, expires, fate));
    }
  }

  lemma ClaimedRowKeeps(w: World, i: nat, expires: string) returns (u: World)
    requires Inv(w) && Holds(w, i, Scanned) && CommitClaimable(w.commits, w.fences, w.workers[i].s)
    ensures var s := w.workers[i].s;
            u == w.(commits := w.commits[s.id := w.commits[s.id].(status := CommitProcessing, leaseOwner := w.workers[i].owner, leaseExpiresAt := expires, token := s.row.token + 1)])
    ensures Inv(u)
  {
    var s := w.workers[i].s;
    var row := w.commits[s.id].(status := CommitProcessing, leaseOwner := w.workers[i].owner, leaseExpiresAt := expires, token := s.row.token + 1);
    assert WorkerInv(w, i);
    OneRowKeeps(w, s.id, row);
    u := w.(commits := w.commits[s.id := row]);
  }

  lemma NextTokenIsFree(w: World, i: nat)
    requires Inv(w) && i in w.workers && w.workers[i].s.id in w.commits && w.commits[w.workers[i].s.id].token == w.workers[i].s.row.token
    ensures Unlogged(w.log, w.workers[i].s.id, w.workers[i].s.row.token + 1)
    ensures forall j :: j in w.workers && Leading(w.workers[j]) && w.workers[j].s.id == w.workers[i].s.id ==> w.workers[j].s.row.token != w.workers[i].s.row.token
  {
    var s := w.workers[i].s;
    forall j | 0 <= j < |w.log| ensures w.log[j] != Handover(s.id, s.row.token + 1) { assert LogInv(w, w.log[j]); }
    forall j | j in w.workers && Leading(w.workers[j]) && w.workers[j].s.id == s.id ensures w.workers[j].s.row.token != s.row.token { assert WorkerInv(w, j); }
  }

  lemma DeliverKeeps(w: World, i: nat, ok: bool, v: World)
    requires Inv(w) && Holds(w, i, Claimed) && v == Apply(w, Deliver(i, ok))
    ensures Inv(v)
  {
    assert WorkerInv(w, i);
    forall id | id in v.commits ensures RowInv(v.commits[id]) && PlannedInv(v, id) { assert PlannedInv(w, id); }
    forall j | 0 <= j < |v.log| ensures LogInv(v, v.log[j]) { if j < |w.log| { assert LogInv(w, w.log[j]); } }
    forall j | j in v.workers ensures WorkerInv(v, j) { assert WorkerInv(w, j); }
  }

  lemma FinishKeeps(w: World, i: nat, ok: bool, retryAt: string, fate: Fate)
    requires Inv(w) && Holds(w, i, HandedOver(ok))
    ensures Inv(ApplyFinish(w, i, ok, retryAt, fate))
  {
    var worker := w.workers[i];
    assert WorkerInv(w, i);
    if fate.Lands() && CommitHeld(w.commits, w.fences, worker.s, worker.owner) {
      var id := worker.s.id;
      var row := Delivered(w.commits[id], worker.s, ok, retryAt);
      OneRowKeeps(w, id, row);
      MoveKeeps(w.(commits := w.commits[id := row]), i, ApplyFinish(w, i, ok, retryAt, fate));
    } else {
      MoveKeeps(w, i, ApplyFinish(w, i, ok, retryAt, fate));
    }
  }

  lemma ScanKeeps(w: World, i: nat, owner: string, id: string, v: World)
    requires Inv(w) && v == Apply(w, Scan(i, owner, id))
    ensures Inv(v)
  {
    forall x | x in v.commits ensures RowInv(v.commits[x]) && PlannedInv(v, x) { assert PlannedInv(w, x); }
    forall j | 0 <= j < |v.log| ensures LogInv(v, v.log[j]) { assert LogInv(w, w.log[j]); }
    forall j | j in v.workers ensures WorkerInv(v, j) { if j in w.workers { assert WorkerInv(w, j); } }
  }

  lemma EnqueueKeeps(w: World, id: string, row: Commit, v: World)
    requires Inv(w) && v == Apply(w, Enqueue(id, row))
    ensures Inv(v)
  {
    forall x | x in v.commits ensures RowInv(v.commits[x]) && PlannedInv(v, x) {
      if x in w.commits { assert PlannedInv(w, x); }
    }
    ShiftKeeps(w, v);
  }

  lemma EraseKeeps(w: World, ids: set<string>, v: World)
    requires Inv(w) && v == Apply(w, Erase(ids))
    ensures Inv(v)
  {
    forall id | id in v.commits ensures RowInv(v.commits[id]) && PlannedInv(v, id) && Shifts(w.commits[id], v.commits[id]) {
      assert PlannedInv(w, id) && RowInv(w.commits[id]);
    }
    ShiftKeeps(w, v);
  }

  lemma PrepareKeeps(w: World, ids: set<string>, f: set<Fence>)
    requires Inv(w)
    ensures Inv(Apply(w, Prepare(ids, f)))
  {
    if Preparable(w, ids) && (forall x :: x in f ==> x.kind != "row") {
      var v := Apply(w, Prepare(ids, f));
      forall ws, id ensures RowWriteAllowed(v.fences, COMMITS, ws, id) <==> RowWriteAllowed(w.fences, COMMITS, ws, id) && !(id in ids && w.commits[id].workspaceId == ws) {
      }
      forall id | id in v.commits ensures RowInv(v.commits[id]) && PlannedInv(v, id) { assert PlannedInv(w, id) && RowInv(w.commits[id]); }
      ShiftKeeps(w, v);
    }
  }

  lemma StepKeeps(w: World, a: Action)
    requires Inv(w)
    ensures Inv(Apply(w, a))
  {
    match a
    case Claim(i, expires, fate) => if Holds(w, i, Scanned) { ClaimKeeps(w, i, expires, fate); }
    case Deliver(i, ok) => if Holds(w, i, Claimed) { DeliverKeeps(w, i, ok, Apply(w, a)); }
    case Finish(i, retryAt, fate) => if i in w.workers && w.workers[i].pc.HandedOver? { FinishKeeps(w, i, w.workers[i].pc.ok, retryAt, fate); }
    case Crash(i) => if i in w.workers { MoveKeeps(w, i, Apply(w, a)); }
    case Prepare(ids, f) => PrepareKeeps(w, ids, f);
    case Scan(i, owner, id) => ScanKeeps(w, i, owner, id, Apply(w, a));
    case Enqueue(id, row) => EnqueueKeeps(w, id, row, Apply(w, a));
    case Erase(ids) => EraseKeeps(w, ids, Apply(w, a));
  }

  lemma {:induction false} RunKeeps(w: World, actions: seq<Action>)
    requires Inv(w)
    ensures Inv(Run(w, actions))
    decreases |actions|
  {
    if actions != [] {
      StepKeeps(w, actions[0]);
      RunKeeps(Apply(w, actions[0]), actions[1..]);
    }
  }

  // ----- the bound -----

  function Count(log: seq<Handover>, id: string): nat {
    if log == [] then 0 else Count(log[..|log| - 1], id) + if log[|log| - 1].id == id then 1 else 0
  }

  ghost function Tokens(log: seq<Handover>, id: string): set<nat> {
    set i | 0 <= i < |log| && log[i].id == id :: log[i].token
  }

  lemma TokensSnoc(log: seq<Handover>, id: string)
    requires log != []
    ensures var init, last := log[..|log| - 1], log[|log| - 1];
            Tokens(log, id) == Tokens(init, id) + if last.id == id then {last.token} else {}
  {
    var init, last := log[..|log| - 1], log[|log| - 1];
    forall t ensures t in Tokens(log, id) <==> t in Tokens(init, id) || (last.id == id && t == last.token) {
      if t in Tokens(log, id) {
        var i :| 0 <= i < |log| && log[i].id == id && log[i].token == t;
        assert i < |init| ==> init[i] == log[i];
      }
      if t in Tokens(init, id) {
        var i :| 0 <= i < |init| && init[i].id == id && init[i].token == t;
        assert log[i] == init[i];
      }
    }
  }

  lemma {:induction false} CountIsTokens(log: seq<Handover>, id: string)
    requires LogDistinct(log)
    ensures Count(log, id) == |Tokens(log, id)|
  {
    if log != [] {
      var init, last := log[..|log| - 1], log[|log| - 1];
      CountIsTokens(init, id);
      TokensSnoc(log, id);
      if last.id == id {
        assert last.token !in Tokens(init, id);
      }
    }
  }

  lemma {:induction false} SizeUpTo(n: nat, s: set<nat>)
    requires forall x :: x in s ==> 1 <= x <= n
    ensures |s| <= n
  {
    if n == 0 {
      assert s == {};
    } else {
      SizeUpTo(n - 1, s - {n});
      assert n in s ==> |s - {n}| == |s| - 1;
      assert n !in s ==> s - {n} == s;
    }
  }

  /** Every outbox row is handed over at most five times in any run, and while it lives at
      most once per failure plus once while processing or after success. */
  lemma HandoversAreBounded(actions: seq<Action>, id: string)
    ensures var w := Run(Start, actions);
            && Count(w.log, id) <= ATTEMPT_LIMIT
            && (id in w.commits && Live(w.commits[id]) ==>
                  Count(w.log, id) <= w.commits[id].attempts + if w.commits[id].status == CommitProcessing || w.commits[id].status == CommitSucceeded then 1 else 0)
  {
    RunKeeps(Start, actions);
    var w := Run(Start, actions);
    CountIsTokens(w.log, id);
    forall x | x in Tokens(w.log, id) ensures 1 <= x <= ATTEMPT_LIMIT && id in w.commits && x <= w.commits[id].token {
      var i :| 0 <= i < |w.log| && w.log[i].id == id && w.log[i].token == x;
      assert LogInv(w, w.log[i]);
    }
    SizeUpTo(ATTEMPT_LIMIT, Tokens(w.log, id));
    if id in w.commits {
      SizeUpTo(w.commits[id].token, Tokens(w.log, id));
    }
  }

  /** A live row is dead-lettered exactly at its fifth failure. */
  lemma DeadLetterAtFive(actions: seq<Action>, id: string)
    requires id in Run(Start, actions).commits && Live(Run(Start, actions).commits[id])
    ensures var row := Run(Start, actions).commits[id];
            row.attempts <= 5 && (row.status == CommitDeadLetter <==> row.attempts == 5)
  {
    RunKeeps(Start, actions);
  }
}
