/** Provider background tasks: rows leased by fencing token, and the transaction
    that commits a task result with its events, outbox rows and wakes.
    internal/infrastructure/persistence/database/integration/provider_worker_store.go */
module ProviderTasks {
  import opened Basics
  import opened Fences
  import opened Text
  import opened Identity

  const TABLE := "_integration_connector_provider_states"

  datatype Status = Ready | Processing | Failed | DeadLetter | Erasing | Cancelled

  datatype Task = Task(
    workspaceId: string, connectorKey: string, providerKey: string, connectionKey: string, taskKey: string,
    stateVersion: int, payload: string, status: Status, dueAt: string, lastErrorCode: string, attempts: nat,
    leaseOwner: string, leaseExpiresAt: string, token: nat)

  datatype Event = Event(workspaceId: string, provider: string, externalId: string, eventType: string, payload: string)

  datatype CommitStatus = Pending | CommitProcessing | CommitFailed | CommitSucceeded | CommitDeadLetter | CommitErasing | CommitCancelled

  datatype Commit = Commit(
    workspaceId: string, connectorKey: string, providerKey: string, connectionKey: string, taskKey: string,
    operationKey: string, contractSha256: string, payload: string,
    status: CommitStatus, attempts: nat, dueAt: string, leaseOwner: string, leaseExpiresAt: string, token: nat)

  datatype Tables = Tables(tasks: map<string, Task>, events: map<string, Event>, commits: map<string, Commit>)

  /** A row as the scan saw it. */
  datatype Candidate = Candidate(id: string, seen: Task)

  datatype NewEvent = NewEvent(externalId: string, eventType: string, payload: string)
  datatype NewCommit = NewCommit(operationKey: string, contractSha256: string, payload: string)
  datatype Result = Result(state: string, nextDueAt: string, events: seq<NewEvent>, commits: seq<NewCommit>, wakes: seq<string>)

  /** The digest, the event payload wrapper and the registered operation contracts. */
  datatype Registry = Registry(
    digest: string -> string,
    eventPayload: (string, string, string) -> Option<string>,
    contract: (string, string, string) -> Option<string>)

  const ATTEMPT_LIMIT := 5
  const FAILURE_CODE := "integration.provider_task_failed"

  // ----- single statements -----

  predicate Claimable(tasks: map<string, Task>, fences: set<Fence>, c: Candidate) {
    && c.id in tasks
    && RowWriteAllowed(fences, TABLE, tasks[c.id].workspaceId, c.id)
    && tasks[c.id].status == c.seen.status && tasks[c.id].token == c.seen.token
    && tasks[c.id].dueAt == c.seen.dueAt && tasks[c.id].leaseExpiresAt == c.seen.leaseExpiresAt
  }

  function Leased(t: Task, c: Candidate, owner: string, expires: string): Task {
    t.(status := Processing, leaseOwner := owner, leaseExpiresAt := expires, token := c.seen.token + 1)
  }

  /** The condition on every write that follows a claim. */
  predicate Held(tasks: map<string, Task>, fences: set<Fence>, c: Candidate, owner: string) {
    && c.id in tasks
    && RowWriteAllowed(fences, TABLE, tasks[c.id].workspaceId, c.id)
    && tasks[c.id].leaseOwner == owner && tasks[c.id].token == c.seen.token + 1
  }

  function Advanced(t: Task, state: string, dueAt: string): Task {
    t.(payload := state, status := Ready, dueAt := dueAt, lastErrorCode := "", attempts := 0, leaseOwner := "", leaseExpiresAt := "")
  }

  function Backed(t: Task, c: Candidate, dueAt: string): Task {
    var attempt := c.seen.attempts + 1;
    t.(status := if attempt >= ATTEMPT_LIMIT then DeadLetter else Failed, dueAt := if attempt >= ATTEMPT_LIMIT then "" else dueAt,
       lastErrorCode := FAILURE_CODE, attempts := attempt, leaseOwner := "", leaseExpiresAt := "")
  }

  function ResetTask(t: Task, version: int, now: string): Task {
    t.(stateVersion := version, payload := "{}", status := Ready, dueAt := now, lastErrorCode := "", attempts := 0, leaseOwner := "", leaseExpiresAt := "")
  }

  // ----- the row of a task -----

  predicate TaskNamed(tasks: map<string, Task>, id: string, workspaceId: string, connectionKey: string, taskKey: string) {
    id in tasks && tasks[id].workspaceId == workspaceId && tasks[id].connectionKey == connectionKey && tasks[id].taskKey == taskKey
  }

  function TaskId(r: Registry, t: Task): string {
    OwnerId(r.digest, "provider_task_", t.workspaceId, t.connectionKey + [NUL] + t.taskKey)
  }

  /** The row under another state version starts afresh, unless an erasure fences it. */
  function Refreshed(tasks: map<string, Task>, fences: set<Fence>, id: string, version: int, now: string): map<string, Task>
    requires id in tasks
  {
    if tasks[id].stateVersion == version || !RowWriteAllowed(fences, TABLE, tasks[id].workspaceId, id) then tasks
    else tasks[id := ResetTask(tasks[id], version, now)]
  }

  // ----- the result transaction -----

  predicate HasEvent(events: map<string, Event>, workspaceId: string, provider: string, externalId: string) {
    exists id :: id in events && events[id].workspaceId == workspaceId && events[id].provider == provider && events[id].externalId == externalId
  }

  /** What an event id is made of: the external id counts without surrounding spaces. */
  function EventText(workspaceId: string, provider: string, externalId: string): string {
    workspaceId + [NUL] + provider + [NUL] + Trim(externalId)
  }

  function EventId(r: Registry, workspaceId: string, provider: string, externalId: string): string {
    "event:" + r.digest(EventText(workspaceId, provider, externalId))
  }

  /** Known external ids are skipped; a row id that is taken fails the statement. */
  function InsertEvents(r: Registry, events: map<string, Event>, c: Candidate, list: seq<NewEvent>): Option<map<string, Event>>
    decreases |list|
  {
    if list == [] then Some(events)
    else
      var payload := r.eventPayload(list[0].payload, c.seen.connectorKey, c.seen.connectionKey);
      var id := EventId(r, c.seen.workspaceId, c.seen.providerKey, list[0].externalId);
      if payload.None? then None
      else if HasEvent(events, c.seen.workspaceId, c.seen.providerKey, list[0].externalId) then InsertEvents(r, events, c, list[1..])
      else if id in events then None
      else InsertEvents(r, events[id := Event(c.seen.workspaceId, c.seen.providerKey, list[0].externalId, list[0].eventType, payload.value)], c, list[1..])
  }

  function OutboxRow(c: Candidate, n: NewCommit, now: string): Commit {
    Commit(c.seen.workspaceId, c.seen.connectorKey, c.seen.providerKey, c.seen.connectionKey, c.seen.taskKey,
           n.operationKey, n.contractSha256, n.payload, Pending, 0, now, "", "", 0)
  }

  function OutboxId(r: Registry, c: Candidate, index: nat): string {
    ProviderCommitId(r.digest, c.id, c.seen.token + 1, index)
  }

  function InsertCommits(r: Registry, commits: map<string, Commit>, c: Candidate, list: seq<NewCommit>, index: nat, now: string): Option<map<string, Commit>>
    decreases |list|
  {
    if list == [] then Some(commits)
    else if r.contract(c.seen.connectorKey, c.seen.providerKey, list[0].operationKey) != Some(list[0].contractSha256) then None
    else if OutboxId(r, c, index) in commits then None
    else InsertCommits(r, commits[OutboxId(r, c, index) := OutboxRow(c, list[0], now)], c, list[1..], index + 1, now)
  }

  predicate Wakes(fences: set<Fence>, c: Candidate, keys: seq<string>, id: string, t: Task) {
    t.workspaceId == c.seen.workspaceId && t.connectionKey == c.seen.connectionKey && t.taskKey in keys && RowWriteAllowed(fences, TABLE, t.workspaceId, id)
  }

  function Woken(tasks: map<string, Task>, fences: set<Fence>, c: Candidate, keys: seq<string>, now: string): map<string, Task> {
    map id | id in tasks :: if Wakes(fences, c, keys, id, tasks[id]) then tasks[id].(dueAt := now) else tasks[id]
  }

  /** The whole transaction: the tables after its commit, or None if it rolls back. */
  function Committed(r: Registry, s: Tables, fences: set<Fence>, c: Candidate, owner: string, result: Result, dueAt: string, now: string): Option<Tables> {
    if !Held(s.tasks, fences, c, owner) then None
    else
      var events := InsertEvents(r, s.events, c, result.events);
      var commits := InsertCommits(r, s.commits, c, result.commits, 0, now);
      if events.None? || commits.None? then None
      else
        var tasks := s.tasks[c.id := Advanced(s.tasks[c.id], result.state, dueAt)];
        Some(Tables(Woken(tasks, fences, c, result.wakes, now), events.value, commits.value))
  }

  // ----- what the transaction means -----

  /** Declaratively: everything the result asks for is there, nothing else moved. */
  ghost predicate ResultLanded(r: Registry, s: Tables, v: Tables, fences: set<Fence>, c: Candidate, result: Result, dueAt: string, now: string) {
    && v.tasks.Keys == s.tasks.Keys
    && (forall id :: id in s.tasks ==>
          var base := if id == c.id then Advanced(s.tasks[id], result.state, dueAt) else s.tasks[id];
          v.tasks[id] == if Wakes(fences, c, result.wakes, id, s.tasks[id]) then base.(dueAt := now) else base)
    && (forall id :: id in s.events ==> id in v.events && v.events[id] == s.events[id])
    && (forall i :: 0 <= i < |result.events| ==> HasEvent(v.events, c.seen.workspaceId, c.seen.providerKey, result.events[i].externalId))
    && (forall id :: id in v.events && id !in s.events ==> EventAsked(c, result.events, v.events[id]))
    && (forall id :: id in s.commits ==> id in v.commits && v.commits[id] == s.commits[id])
    && CommitsLanded(r, s.commits, v.commits, c, result.commits, 0, now)
  }

  /** Exactly the listed outbox rows are new, each under its own index. */
  ghost predicate CommitsLanded(r: Registry, before: map<string, Commit>, after: map<string, Commit>, c: Candidate, list: seq<NewCommit>, index: nat, now: string) {
    && (forall id :: id in before ==> id in after && after[id] == before[id])
    && (forall j :: index <= j < index + |list| ==> OutboxId(r, c, j) !in before && OutboxId(r, c, j) in after && after[OutboxId(r, c, j)] == OutboxRow(c, list[j - index], now))
    && (forall id :: id in after && id !in before ==> IsOutboxId(r, c, index, index + |list|, id))
  }

  ghost predicate IsOutboxId(r: Registry, c: Candidate, lo: nat, hi: nat, id: string) {
    exists j :: lo <= j < hi && id == OutboxId(r, c, j)
  }

  ghost predicate EventAsked(c: Candidate, list: seq<NewEvent>, e: Event) {
    e.workspaceId == c.seen.workspaceId && e.provider == c.seen.providerKey
    && exists i :: 0 <= i < |list| && list[i].externalId == e.externalId && list[i].eventType == e.eventType
  }

  lemma {:induction false} EventsMeaning(r: Registry, events: map<string, Event>, c: Candidate, list: seq<NewEvent>)
    requires InsertEvents(r, events, c, list).Some?
    ensures var after := InsertEvents(r, events, c, list).value;
            && (forall id :: id in events ==> id in after && after[id] == events[id])
            && (forall i :: 0 <= i < |list| ==> HasEvent(after, c.seen.workspaceId, c.seen.providerKey, list[i].externalId))
            && (forall id :: id in after && id !in events ==> EventAsked(c, list, after[id]))
    decreases |list|
  {
    if list != [] {
      var id := EventId(r, c.seen.workspaceId, c.seen.providerKey, list[0].externalId);
      var payload := r.eventPayload(list[0].payload, c.seen.connectorKey, c.seen.connectionKey);
      var next := if HasEvent(events, c.seen.workspaceId, c.seen.providerKey, list[0].externalId) then events
                  else events[id := Event(c.seen.workspaceId, c.seen.providerKey, list[0].externalId, list[0].eventType, payload.value)];
      EventsMeaning(r, next, c, list[1..]);
      var after := InsertEvents(r, next, c, list[1..]).value;
      assert HasEvent(next, c.seen.workspaceId, c.seen.providerKey, list[0].externalId) by {
        if next != events { assert id in next; }
      }
      forall x | x in after && x !in events ensures EventAsked(c, list, after[x]) {
        if x in next {
          assert list[0].externalId == after[x].externalId;
        } else {
          var i :| 0 <= i < |list[1..]| && list[1..][i].externalId == after[x].externalId && list[1..][i].eventType == after[x].eventType;
          assert list[i + 1] == list[1..][i];
        }
      }
      forall i | 0 <= i < |list| ensures HasEvent(after, c.seen.workspaceId, c.seen.providerKey, list[i].externalId) {
        if i > 0 { assert list[i] == list[1..][i - 1]; }
      }
    }
  }

  lemma {:induction false} CommitsMeaning(r: Registry, commits: map<string, Commit>, c: Candidate, list: seq<NewCommit>, index: nat, now: string)
    requires InsertCommits(r, commits, c, list, index, now).Some?
    ensures CommitsLanded(r, commits, InsertCommits(r, commits, c, list, index, now).value, c, list, index, now)
    decreases |list|
  {
    if list != [] {
      var first := OutboxId(r, c, index);
      var next := commits[first := OutboxRow(c, list[0], now)];
      CommitsMeaning(r, next, c, list[1..], index + 1, now);
      var after := InsertCommits(r, next, c, list[1..], index + 1, now).value;
      forall j | index <= j < index + |list|
        ensures OutboxId(r, c, j) !in commits && OutboxId(r, c, j) in after && after[OutboxId(r, c, j)] == OutboxRow(c, list[j - index], now)
      {
        if j > index {
          assert list[j - index] == list[1..][j - (index + 1)];
          assert OutboxId(r, c, j) !in next;
        }
      }
      forall id | id in after && id !in commits ensures IsOutboxId(r, c, index, index + |list|, id) {
        if id != first {
          assert IsOutboxId(r, c, index + 1, index + 1 + |list[1..]|, id);
        }
      }
    }
  }

  /** A committed result landed completely. */
  lemma CommittedMeansLanded(r: Registry, s: Tables, fences: set<Fence>, c: Candidate, owner: string, result: Result, dueAt: string, now: string)
    requires Committed(r, s, fences, c, owner, result, dueAt, now).Some?
    ensures ResultLanded(r, s, Committed(r, s, fences, c, owner, result, dueAt, now).value, fences, c, result, dueAt, now)
  {
    EventsMeaning(r, s.events, c, result.events);
    CommitsMeaning(r, s.commits, c, result.commits, 0, now);
  }

  // ----- when the events insert -----

  /** Every stored event has the id its columns make. */
  ghost predicate EventsKeyed(r: Registry, events: map<string, Event>) {
    forall id :: id in events ==> id == EventId(r, events[id].workspaceId, events[id].provider, events[id].externalId)
  }

  /** No stored event has the text of this one. */
  predicate ClearOfStored(events: map<string, Event>, c: Candidate, externalId: string) {
    forall id :: id in events ==>
      EventText(events[id].workspaceId, events[id].provider, events[id].externalId) != EventText(c.seen.workspaceId, c.seen.providerKey, externalId)
  }

  /** Nothing listed differs from it by surrounding spaces only. */
  predicate ClearOfListed(list: seq<NewEvent>, externalId: string) {
    forall j :: 0 <= j < |list| ==> list[j].externalId == externalId || Trim(list[j].externalId) != Trim(externalId)
  }

  predicate EventFits(r: Registry, events: map<string, Event>, c: Candidate, list: seq<NewEvent>, n: NewEvent) {
    && r.eventPayload(n.payload, c.seen.connectorKey, c.seen.connectionKey).Some?
    && (HasEvent(events, c.seen.workspaceId, c.seen.providerKey, n.externalId) || (ClearOfStored(events, c, n.externalId) && ClearOfListed(list, n.externalId)))
  }

  /** Every payload wraps, and no new external id differs only by surrounding spaces from a
      stored or another listed one. */
  predicate EventsFit(r: Registry, events: map<string, Event>, c: Candidate, list: seq<NewEvent>) {
    forall i :: 0 <= i < |list| ==> EventFits(r, events, c, list, list[i])
  }

  lemma IdIsFreeIff(r: Registry, events: map<string, Event>, c: Candidate, externalId: string)
    requires Injective(r.digest) && EventsKeyed(r, events)
    ensures EventId(r, c.seen.workspaceId, c.seen.providerKey, externalId) !in events <==> ClearOfStored(events, c, externalId)
  {
    var id := EventId(r, c.seen.workspaceId, c.seen.providerKey, externalId);
    if id in events {
      PrefixedInjective("event:", r.digest(EventText(events[id].workspaceId, events[id].provider, events[id].externalId)),
                        r.digest(EventText(c.seen.workspaceId, c.seen.providerKey, externalId)));
    }
  }

  lemma SameTextSameTrim(c: Candidate, x: string, y: string)
    ensures EventText(c.seen.workspaceId, c.seen.providerKey, x) == EventText(c.seen.workspaceId, c.seen.providerKey, y) <==> Trim(x) == Trim(y)
  {
    if EventText(c.seen.workspaceId, c.seen.providerKey, x) == EventText(c.seen.workspaceId, c.seen.providerKey, y) {
      PrefixedInjective(c.seen.workspaceId + [NUL] + c.seen.providerKey + [NUL], Trim(x), Trim(y));
    }
  }

  /** A stored external id is apart from whatever is clear of the table. */
  lemma StoredIsApart(events: map<string, Event>, c: Candidate, stored: string, externalId: string)
    requires HasEvent(events, c.seen.workspaceId, c.seen.providerKey, stored) && ClearOfStored(events, c, externalId)
    ensures Trim(stored) != Trim(externalId)
  {
    SameTextSameTrim(c, stored, externalId);
  }

  /** The first listed event is stored: the others fit beside it as without it. */
  lemma KnownFits(r: Registry, events: map<string, Event>, c: Candidate, list: seq<NewEvent>, n: NewEvent)
    requires list != [] && HasEvent(events, c.seen.workspaceId, c.seen.providerKey, list[0].externalId)
    ensures EventFits(r, events, c, list, n) <==> EventFits(r, events, c, list[1..], n)
  {
    if ClearOfStored(events, c, n.externalId) {
      StoredIsApart(events, c, list[0].externalId, n.externalId);
      assert forall j :: 0 < j < |list| ==> list[j] == list[1..][j - 1];
    }
  }

  /** The first listed event is inserted: the others fit beside it, listed or stored. */
  lemma InsertedFits(r: Registry, events: map<string, Event>, c: Candidate, list: seq<NewEvent>, next: map<string, Event>, e: Event, n: NewEvent)
    requires list != [] && e.workspaceId == c.seen.workspaceId && e.provider == c.seen.providerKey && e.externalId == list[0].externalId
    requires var id := EventId(r, c.seen.workspaceId, c.seen.providerKey, e.externalId); id !in events && next == events[id := e]
    requires ClearOfStored(events, c, e.externalId) && ClearOfListed(list, e.externalId)
    ensures EventFits(r, events, c, list, n) && n in list ==> EventFits(r, next, c, list[1..], n)
    ensures EventFits(r, next, c, list[1..], n) && n in list ==> EventFits(r, events, c, list, n)
  {
    var id := EventId(r, c.seen.workspaceId, c.seen.providerKey, e.externalId);
    assert next[id] == e;
    assert forall x :: x in events ==> x in next && next[x] == events[x];
    assert forall j :: 0 < j < |list| ==> list[j] == list[1..][j - 1];
    SameTextSameTrim(c, e.externalId, n.externalId);
    assert n.externalId == e.externalId ==> EventText(e.workspaceId, e.provider, e.externalId) == EventText(c.seen.workspaceId, c.seen.providerKey, n.externalId);
    if n in list && HasEvent(next, c.seen.workspaceId, c.seen.providerKey, n.externalId) && !HasEvent(events, c.seen.workspaceId, c.seen.providerKey, n.externalId) {
      assert n.externalId == e.externalId;
    }
  }

  /** The events insert exactly when they fit. */
  lemma {:induction false} EventsInsertable(r: Registry, events: map<string, Event>, c: Candidate, list: seq<NewEvent>)
    requires Injective(r.digest) && EventsKeyed(r, events)
    ensures InsertEvents(r, events, c, list).Some? <==> EventsFit(r, events, c, list)
    ensures InsertEvents(r, events, c, list).Some? ==> EventsKeyed(r, InsertEvents(r, events, c, list).value)
    decreases |list|
  {
    if list != [] {
      var n, payload := list[0], r.eventPayload(list[0].payload, c.seen.connectorKey, c.seen.connectionKey);
      var id := EventId(r, c.seen.workspaceId, c.seen.providerKey, n.externalId);
      IdIsFreeIff(r, events, c, n.externalId);
      if payload.Some? && HasEvent(events, c.seen.workspaceId, c.seen.providerKey, n.externalId) {
        EventsInsertable(r, events, c, list[1..]);
        forall x ensures EventFits(r, events, c, list, x) <==> EventFits(r, events, c, list[1..], x) { KnownFits(r, events, c, list, x); }
        RestFits(r, events, events, c, list);
      } else if payload.Some? && id !in events {
        var e := Event(c.seen.workspaceId, c.seen.providerKey, n.externalId, n.eventType, payload.value);
        var next := events[id := e];
        EventsInsertable(r, next, c, list[1..]);
        if ClearOfListed(list, n.externalId) {
          forall x | x in list ensures EventFits(r, events, c, list, x) <==> EventFits(r, next, c, list[1..], x) { InsertedFits(r, events, c, list, next, e, x); }
          RestFits(r, events, next, c, list);
        } else {
          SpacedTwinFails(r, next, c, list, n, e, id);
        }
      }
    }
  }

  lemma RestFits(r: Registry, events: map<string, Event>, next: map<string, Event>, c: Candidate, list: seq<NewEvent>)
    requires list != [] && EventFits(r, events, c, list, list[0])
    requires forall x :: x in list ==> (EventFits(r, events, c, list, x) <==> EventFits(r, next, c, list[1..], x))
    ensures EventsFit(r, events, c, list) <==> EventsFit(r, next, c, list[1..])
  {
    assert forall i :: 0 < i < |list| ==> list[i] == list[1..][i - 1];
    assert forall i :: 0 <= i < |list[1..]| ==> list[1..][i] == list[i + 1];
  }

  /** After the insert of an event another listed one of the same text is not stored, and not clear. */
  lemma SpacedTwinFails(r: Registry, next: map<string, Event>, c: Candidate, list: seq<NewEvent>, n: NewEvent, e: Event, id: string)
    requires list != [] && n == list[0] && !ClearOfListed(list, n.externalId) && id in next && next[id] == e
    requires e.workspaceId == c.seen.workspaceId && e.provider == c.seen.providerKey && e.externalId == n.externalId
    requires EventsKeyed(r, next)
    ensures !EventsFit(r, next, c, list[1..])
  {
    var j :| 0 <= j < |list| && list[j].externalId != n.externalId && Trim(list[j].externalId) == Trim(n.externalId);
    SameTextSameTrim(c, list[j].externalId, n.externalId);
    assert list[1..][j - 1] == list[j];
    assert !ClearOfStored(next, c, list[j].externalId);
  }

  /** The lookup compares external ids as they are, the row id trims them: two that differ by a
      space fail the transaction, at every retry. */
  lemma SpacedEventFails(r: Registry, c: Candidate, eventType: string, payload: string)
    requires Injective(r.digest)
    ensures InsertEvents(r, map[], c, [NewEvent("a", eventType, payload), NewEvent(" a", eventType, payload)]).None?
  {
    var list := [NewEvent("a", eventType, payload), NewEvent(" a", eventType, payload)];
    assert Trim(" a") == "a" == Trim("a");
    assert list[0].externalId == "a" && list[1].externalId == " a";
    assert !ClearOfListed(list, "a");
    assert !EventFits(r, map[], c, list, list[0]);
    EventsInsertable(r, map[], c, list);
  }

  /** With free outbox ids the transaction fails only for its own inputs. */
  lemma {:induction false} CommitsInsertable(r: Registry, commits: map<string, Commit>, c: Candidate, list: seq<NewCommit>, index: nat, now: string)
    requires Injective(r.digest)
    requires forall i :: index <= i < index + |list| ==> OutboxId(r, c, i) !in commits
    ensures InsertCommits(r, commits, c, list, index, now).Some?
       <==> forall i :: 0 <= i < |list| ==> r.contract(c.seen.connectorKey, c.seen.providerKey, list[i].operationKey) == Some(list[i].contractSha256)
    decreases |list|
  {
    if list != [] {
      var ok := r.contract(c.seen.connectorKey, c.seen.providerKey, list[0].operationKey) == Some(list[0].contractSha256);
      if ok {
        var next := commits[OutboxId(r, c, index) := OutboxRow(c, list[0], now)];
        forall i | index + 1 <= i < index + 1 + |list[1..]| ensures OutboxId(r, c, i) !in next {
          if OutboxId(r, c, i) == OutboxId(r, c, index) {
            ProviderCommitIdInjective(r.digest, c.id, c.seen.token + 1, i, c.id, c.seen.token + 1, index);
          }
        }
        CommitsInsertable(r, next, c, list[1..], index + 1, now);
        assert forall i :: 0 < i < |list| ==> list[i] == list[1..][i - 1];
        assert forall i :: 0 <= i < |list[1..]| ==> list[1..][i] == list[i + 1];
      } else {
        assert list[0] == list[0];
      }
    }
  }

  // ----- the store -----

  class ProviderTaskStore {
    const registry: Registry
    const owner: string
    var tables: Tables
    var fences: set<Fence>

    constructor (registry: Registry, workerId: string)
      ensures this.registry == registry && owner == Trim(workerId) + ":integration" && owner != ""
      ensures tables == Tables(map[], map[], map[]) && fences == {}
    {
      this.registry, owner := registry, Trim(workerId) + ":integration";
      tables, fences := Tables(map[], map[], map[]), {};
    }

    method ClaimProviderTask(c: Candidate, leaseExpiresAt: string) returns (claimed: bool)
      modifies this`tables
      ensures claimed <==> Claimable(old(tables).tasks, fences, c)
      ensures tables == if claimed then old(tables).(tasks := old(tables).tasks[c.id := Leased(old(tables).tasks[c.id], c, owner, leaseExpiresAt)]) else old(tables)
    {
      claimed := Claimable(tables.tasks, fences, c);
      if claimed {
        var row := tables.tasks[c.id];
        row := row.(status := Processing, leaseOwner := owner, leaseExpiresAt := leaseExpiresAt, token := c.seen.token + 1);
        tables := tables.(tasks := tables.tasks[c.id := row]);
      }
    }

    method FailProviderTask(c: Candidate, retryAt: string)
      modifies this`tables
      ensures tables == if Held(old(tables).tasks, fences, c, owner) then old(tables).(tasks := old(tables).tasks[c.id := Backed(old(tables).tasks[c.id], c, retryAt)]) else old(tables)
    {
      var attempt := c.seen.attempts + 1;
      var status, dueAt := Failed, retryAt;
      if attempt >= ATTEMPT_LIMIT {
        status, dueAt := DeadLetter, "";
      }
      if Held(tables.tasks, fences, c, owner) {
        var row := tables.tasks[c.id].(status := status, dueAt := dueAt, lastErrorCode := FAILURE_CODE, attempts := attempt, leaseOwner := "", leaseExpiresAt := "");
        tables := tables.(tasks := tables.tasks[c.id := row]);
      }
    }

    /** One transaction: the row updates work on copies, and only the last statement publishes them. */
    method CommitProviderTaskResult(c: Candidate, result: Result, defaultDueAt: string, now: string, fate: Fate) returns (ok: bool)
      modifies this`tables
      ensures var dueAt := if result.nextDueAt == "" then defaultDueAt else result.nextDueAt;
              var after := Committed(registry, old(tables), fences, c, owner, result, dueAt, now);
              && (ok <==> after.Some? && fate == Landed)
              && tables == if after.Some? && fate.Lands() then after.value else old(tables)
    {
      var dueAt := result.nextDueAt;
      if dueAt == "" {
        dueAt := defaultDueAt;
      }
      var tasks, events, commits := tables.tasks, tables.events, tables.commits;
      if !Held(tasks, fences, c, owner) {
        return false;
      }
      tasks := tasks[c.id := Advanced(tasks[c.id], result.state, dueAt)];
      var newEvents := StoreEvents(events, c, result.events);
      if newEvents.None? {
        return false;
      }
      var newCommits := StoreCommits(commits, c, result.commits, now);
      if newCommits.None? {
        return false;
      }
      tasks := WakeTasks(tasks, c, result.wakes, now);
      if fate == Lost {
        return false;
      }
      tables := Tables(tasks, newEvents.value, newCommits.value);
      ok := fate == Landed;
    }

    /** Known events are skipped, new ones inserted; None fails the transaction. */
    method StoreEvents(before: map<string, Event>, c: Candidate, list: seq<NewEvent>) returns (after: Option<map<string, Event>>)
      ensures after == InsertEvents(registry, before, c, list)
    {
      var events := before;
      for i := 0 to |list|
        invariant InsertEvents(registry, before, c, list) == InsertEvents(registry, events, c, list[i..])
      {
        var event := list[i];
        assert list[i..][0] == event && list[i..][1..] == list[i + 1..];
        var payload := registry.eventPayload(event.payload, c.seen.connectorKey, c.seen.connectionKey);
        if payload.None? {
          return None;
        }
        var id := EventId(registry, c.seen.workspaceId, c.seen.providerKey, event.externalId);
        if !HasEvent(events, c.seen.workspaceId, c.seen.providerKey, event.externalId) {
          if id in events {
            return None;
          }
          events := events[id := Event(c.seen.workspaceId, c.seen.providerKey, event.externalId, event.eventType, payload.value)];
        }
      }
      after := Some(events);
    }

    method StoreCommits(before: map<string, Commit>, c: Candidate, list: seq<NewCommit>, now: string) returns (after: Option<map<string, Commit>>)
      ensures after == InsertCommits(registry, before, c, list, 0, now)
    {
      var commits := before;
      for i := 0 to |list|
        invariant InsertCommits(registry, before, c, list, 0, now) == InsertCommits(registry, commits, c, list[i..], i, now)
      {
        var commit := list[i];
        assert list[i..][0] == commit && list[i..][1..] == list[i + 1..];
        if registry.contract(c.seen.connectorKey, c.seen.providerKey, commit.operationKey) != Some(commit.contractSha256) {
          return None;
        }
        var id := OutboxId(registry, c, i);
        if id in commits {
          return None;
        }
        commits := commits[id := OutboxRow(c, commit, now)];
      }
      after := Some(commits);
    }

    method WakeTasks(tasks: map<string, Task>, c: Candidate, keys: seq<string>, now: string) returns (woken: map<string, Task>)
      ensures woken == Woken(tasks, fences, c, keys, now)
    {
      woken := tasks;
      for i := 0 to |keys|
        invariant woken.Keys == tasks.Keys
        invariant forall id :: id in tasks ==> woken[id] == if Wakes(fences, c, keys[..i], id, tasks[id]) then tasks[id].(dueAt := now) else tasks[id]
      {
        var before := woken;
        woken := map id | id in before :: if Wakes(fences, c, [keys[i]], id, before[id]) then before[id].(dueAt := now) else before[id];
        assert keys[..i + 1] == keys[..i] + [keys[i]];
      }
      assert keys[..|keys|] == keys;
    }

    method FindProviderTask(workspaceId: string, connectionKey: string, taskKey: string) returns (found: Option<string>)
      ensures found.Some? ==> TaskNamed(tables.tasks, found.value, workspaceId, connectionKey, taskKey)
      ensures found.None? ==> forall id :: !TaskNamed(tables.tasks, id, workspaceId, connectionKey, taskKey)
    {
      if id :| id in tables.tasks && TaskNamed(tables.tasks, id, workspaceId, connectionKey, taskKey) {
        return Some(id);
      }
      found := None;
    }

    /** A task row is created once per connection and key, and reset when its state version changes. */
    method UpsertProviderTask(task: Task, now: string) returns (ok: bool)
      requires task == Task(task.workspaceId, task.connectorKey, task.providerKey, task.connectionKey, task.taskKey, task.stateVersion, "{}", Ready, now, "", 0, "", "", 0)
      modifies this`tables
      ensures (exists id :: TaskNamed(old(tables).tasks, id, task.workspaceId, task.connectionKey, task.taskKey))
        ==> ok && exists id :: TaskNamed(old(tables).tasks, id, task.workspaceId, task.connectionKey, task.taskKey)
                               && tables == old(tables).(tasks := Refreshed(old(tables).tasks, fences, id, task.stateVersion, now))
      ensures (forall id :: !TaskNamed(old(tables).tasks, id, task.workspaceId, task.connectionKey, task.taskKey))
        ==> var id := TaskId(registry, task); 
            && (ok <==> id !in old(tables).tasks)
            && tables == if ok then old(tables).(tasks := old(tables).tasks[id := task]) else old(tables)
    {
      var found := FindProviderTask(task.workspaceId, task.connectionKey, task.taskKey);
      if found.None? {
        var id := TaskId(registry, task);
        if id in tables.tasks {
          return false;
        }
        tables := tables.(tasks := tables.tasks[id := task]);
        return true;
      }
      var row := tables.tasks[found.value];
      if row.stateVersion == task.stateVersion {
        return true;
      }
      if RowWriteAllowed(fences, TABLE, row.workspaceId, found.value) {
        row := row.(stateVersion := task.stateVersion, payload := "{}", status := Ready, dueAt := now, lastErrorCode := "", attempts := 0, leaseOwner := "", leaseExpiresAt := "");
        tables := tables.(tasks := tables.tasks[found.value := row]);
      }
      ok := true;
    }
  }
}
