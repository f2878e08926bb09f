/** Account writes beside the rows that authorize them: accounts, connections and grants change
    between any two reads of a caller, and a call is made from what its reads saw.
    internal/infrastructure/persistence/database/integration/connection_account_write_executor.go
    internal/infrastructure/persistence/database/integration/connection_account_writes.go
    internal/application/integration/connection_account_writes.go */
module AccountWriteAuthority {
  import opened Basics
  import opened InvocationLedger
  import opened W = AccountWrites

  // ----- the authorizing rows and their writers -----

  datatype ConnectionRow = ConnectionRow(status: string, connectorKey: string, providerKey: string, updatedAt: string)

  datatype AccountRow = AccountRow(personal: bool, owner: string)

  /** Workspace and connection key. */
  type Place = (string, string)

  datatype Live = Live(connections: map<Place, ConnectionRow>, accounts: map<Place, AccountRow>, grants: map<Place, set<string>>)

  datatype Change =
    | Upsert(at: Place, connectorKey: string, providerKey: string, status: string, now: string)
    | SetStatus(at: Place, status: string, now: string)
    | Revoke(at: Place, expected: string, now: string)
    | Register(at: Place, account: AccountRow)
    | Delete(at: Place)
    | SaveGrant(at: Place, scopes: set<string>)
    | MarkErasing(at: Place)                 // prepare of an erasure keeps the revision
    | EraseRows(at: Place, now: string)

  function WriteConnection(live: Live, at: Place, row: ConnectionRow): Live {
    live.(connections := live.connections[at := row])
  }

  function Changed(live: Live, ch: Change): Live {
    match ch
    case Upsert(at, connector, provider, status, now) => WriteConnection(live, at, ConnectionRow(status, connector, provider, now))
    case SetStatus(at, status, now) =>
      if at in live.connections then WriteConnection(live, at, live.connections[at].(status := status, updatedAt := now)) else live
    case Revoke(at, expected, now) =>
      if at in live.accounts && at in live.connections && live.connections[at].status != "revoked" && live.connections[at].updatedAt == expected
      then WriteConnection(live, at, live.connections[at].(status := "revoked", updatedAt := now)) else live
    case Register(at, account) =>
      if at in live.connections && at !in live.accounts then live.(accounts := live.accounts[at := account]) else live
    case Delete(at) => live.(connections := live.connections - {at}, accounts := live.accounts - {at})
    case SaveGrant(at, scopes) => if at !in live.grants then live.(grants := live.grants[at := scopes]) else live
    case MarkErasing(at) => if at in live.connections then WriteConnection(live, at, live.connections[at].(status := "erasing")) else live
    case EraseRows(at, now) =>
      var erased := live.(grants := live.grants - {at});
      if at in live.connections then WriteConnection(erased, at, live.connections[at].(status := "revoked", updatedAt := now)) else erased
  }

  // ----- what the reads ask -----

  function PlaceOf(source: Source): Place {
    (source.workspaceId, source.connectionKey)
  }

  /** The executor's read: the active connection of the connector under this key. */
  function ConnectionRead(live: Live, source: Source): Option<ConnectionView> {
    if PlaceOf(source) in live.connections && live.connections[PlaceOf(source)].status == "active" && live.connections[PlaceOf(source)].connectorKey == source.connectorKey
    then Some(ConnectionView(live.connections[PlaceOf(source)].updatedAt, live.connections[PlaceOf(source)].providerKey))
    else None
  }

  /** The provider's scope alternatives for an operation, None when it declares none. */
  type Required = Source -> Option<seq<set<string>>>

  predicate ScopesReady(alternatives: seq<set<string>>, grant: Option<set<string>>) {
    exists i :: 0 <= i < |alternatives| && (alternatives[i] == {} || (grant.Some? && alternatives[i] <= grant.value))
  }

  predicate Granted(live: Live, required: Required, source: Source) {
    && required(source).Some?
    && ScopesReady(required(source).value, if PlaceOf(source) in live.grants then Some(live.grants[PlaceOf(source)]) else None)
  }

  /** Ownership, for the kinds of account the caller may use. */
  predicate AccountAllows(live: Live, claim: Claim, personal: bool, workspace: bool) {
    && PlaceOf(claim.source) in live.accounts
    && var a := live.accounts[PlaceOf(claim.source)];
       if a.personal then personal && a.owner == claim.actorId else workspace
  }

  /** The connection is active at the revision and provider that the claim froze. */
  predicate Current(live: Live, source: Source) {
    && PlaceOf(source) in live.connections
    && live.connections[PlaceOf(source)] == ConnectionRow("active", source.connectorKey, source.providerKey, source.accountUpdatedAt)
  }

  /** What authorization answers after three reads: account with connection, the connection
      again, and the grant. */
  function Access(past: seq<Live>, times: seq<nat>, required: Required, claim: Claim, personal: bool, workspace: bool, available: bool): Option<Source>
    requires |times| >= 3 && times[0] < |past| && times[1] < |past| && times[2] < |past|
  {
    var at := PlaceOf(claim.source);
    if !(AccountAllows(past[times[0]], claim, personal, workspace) && at in past[times[0]].connections) then None
    else
      var row := past[times[0]].connections[at];
      if row.status == "active" && row.updatedAt != "" && available
         && at in past[times[1]].connections && past[times[1]].connections[at].status == "active" && past[times[1]].connections[at].updatedAt == row.updatedAt
         && Granted(past[times[2]], required, claim.source)
      then Some(claim.source.(connectorKey := row.connectorKey, providerKey := row.providerKey, accountUpdatedAt := row.updatedAt))
      else None
  }

  // ----- the machine -----

  /** What the executor learns besides its reads. */
  datatype Surroundings = Surroundings(providerFound: bool, operationContract: Option<string>, modeCall: bool, effectWrite: bool, secretsResolved: bool, alive: bool)

  /** A call that was made: its claim, the times of its six reads and of the call. */
  datatype Made = Made(claim: Claim, times: seq<nat>, at: nat, personal: bool, workspace: bool)

  /** `past` holds the authorizing rows before every step; a read is its time. */
  datatype Scene = Scene(inner: W.World, live: Live, past: seq<Live>, times: map<nat, seq<nat>>, allowed: map<nat, (bool, bool)>, made: seq<Made>)

  datatype Action =
    | Inner(a: W.Action)
    | Alter(change: Change)
    | Read(c: nat)
    | RecheckNow(c: nat, alive: bool, personal: bool, workspace: bool, available: bool)
    | CallNow(c: nat, around: Surroundings, reply: Reply, secretsFailed: bool)

  const Start := Scene(W.Start, Live(map[], map[], map[]), [], map[], map[], [])

  predicate WriterAt(w: Scene, c: nat, pc: Pc) {
    At(w.inner, c, pc) && w.inner.callers[c].Writer?
  }

  function TimesOf(w: Scene, c: nat): seq<nat> {
    if c in w.times then w.times[c] else []
  }

  function View(w: Scene, required: Required, claim: Claim, times: seq<nat>, around: Surroundings): ExecutorView
    requires |times| == 6 && times[3] < |w.past| && times[4] < |w.past| && times[5] < |w.past|
  {
    ExecutorView(ConnectionRead(w.past[times[3]], claim.source), around.providerFound,
                 around.operationContract, around.modeCall, around.effectWrite,
                 around.secretsResolved, ConnectionRead(w.past[times[4]], claim.source),
                 required(claim.source).Some?, Granted(w.past[times[5]], required, claim.source), around.alive)
  }

  predicate Readable(w: Scene, c: nat) {
    || (WriterAt(w, c, Acquired) && |TimesOf(w, c)| < 3)
    || (WriterAt(w, c, Permitted) && 3 <= |TimesOf(w, c)| < 6)
  }

  predicate TimesInPast(times: seq<nat>, past: seq<Live>) {
    forall i :: 0 <= i < |times| ==> times[i] < |past|
  }

  /** The inner action of a step, None when it concerns the authorizing rows only. */
  function InnerOf(k: Contracts, required: Required, w: Scene, a: Action): Option<W.Action> {
    match a
    case Inner(b) =>
      if b.Recheck? || (b.Execute? && b.c in w.inner.callers && w.inner.callers[b.c].Writer?) then None else Some(b)
    case RecheckNow(c, alive, personal, workspace, available) =>
      if WriterAt(w, c, Acquired) && |TimesOf(w, c)| == 3 && TimesInPast(TimesOf(w, c), w.past)
      then Some(Recheck(c, alive, Access(w.past, TimesOf(w, c), required, w.inner.callers[c].claim, personal, workspace, available)))
      else None
    case CallNow(c, around, reply, secretsFailed) =>
      if WriterAt(w, c, Permitted) && |TimesOf(w, c)| == 6 && TimesInPast(TimesOf(w, c), w.past)
      then Some(Execute(c, View(w, required, w.inner.callers[c].claim, TimesOf(w, c), around), reply, secretsFailed))
      else None
    case _ => None
  }

  function MadeBy(k: Contracts, required: Required, w: Scene, a: Action): seq<Made> {
    if a.CallNow? && InnerOf(k, required, w, a).Some? && a.c in w.inner.callers && w.inner.callers[a.c].Writer? && a.c in w.allowed
       && CallPermitted(InnerOf(k, required, w, a).value.view, w.inner.callers[a.c].claim.source)
    then [Made(w.inner.callers[a.c].claim, TimesOf(w, a.c), |w.past|, w.allowed[a.c].0, w.allowed[a.c].1)]
    else []
  }

  function Apply(k: Contracts, required: Required, w: Scene, a: Action): Scene {
    var inner := InnerOf(k, required, w, a);
    Scene(if inner.Some? then W.Apply(k, w.inner, inner.value) else w.inner,
          if a.Alter? then Changed(w.live, a.change) else w.live,
          w.past + [w.live],
          if a.Read? && Readable(w, a.c) then w.times[a.c := TimesOf(w, a.c) + [|w.past|]] else w.times,
          if a.RecheckNow? && inner.Some? then w.allowed[a.c := (a.personal, a.workspace)] else w.allowed,
          w.made + MadeBy(k, required, w, a))
  }

  function Run(k: Contracts, required: Required, w: Scene, actions: seq<Action>): Scene
    decreases |actions|
  {
    if actions == [] then w else Run(k, required, Apply(k, required, w, actions[0]), actions[1..])
  }

  // ----- a run here is a run of the account-write machine -----

  function Projected(k: Contracts, required: Required, w: Scene, actions: seq<Action>): seq<W.Action>
    decreases |actions|
  {
    if actions == [] then []
    else
      var inner := InnerOf(k, required, w, actions[0]);
      (if inner.Some? then [inner.value] else []) + Projected(k, required, Apply(k, required, w, actions[0]), actions[1..])
  }

  /** Whatever the ledger machine promises holds beside the authorizing rows too. */
  lemma {:induction false} RunProjects(k: Contracts, required: Required, w: Scene, actions: seq<Action>)
    ensures Run(k, required, w, actions).inner == W.Run(k, w.inner, Projected(k, required, w, actions))
    decreases |actions|
  {
    if actions != [] {
      var v, inner := Apply(k, required, w, actions[0]), InnerOf(k, required, w, actions[0]);
      RunProjects(k, required, v, actions[1..]);
      var rest := Projected(k, required, v, actions[1..]);
      if inner.Some? {
        assert ([inner.value] + rest)[1..] == rest;
      } else {
        assert [] + rest == rest;
      }
    }
  }

  // ----- what the calls saw -----

  predicate Increasing(times: seq<nat>) {
    forall i, j :: 0 <= i < j < |times| ==> times[i] < times[j]
  }

  /** Active at this revision, as authorization compares it the second time. */
  predicate SameRevision(live: Live, source: Source) {
    && PlaceOf(source) in live.connections
    && live.connections[PlaceOf(source)].status == "active" && live.connections[PlaceOf(source)].updatedAt == source.accountUpdatedAt
  }

  /** The reads of an authorization that answered with the frozen source. */
  predicate SawAuthority(past: seq<Live>, required: Required, claim: Claim, times: seq<nat>, personal: bool, workspace: bool)
    requires |times| >= 3 && TimesInPast(times, past)
  {
    && AccountAllows(past[times[0]], claim, personal, workspace) && Current(past[times[0]], claim.source)
    && SameRevision(past[times[1]], claim.source) && Granted(past[times[2]], required, claim.source)
  }

  /** All six reads of a call saw rows that allow it, one after the other and before the call. */
  predicate SawLiveRows(past: seq<Live>, required: Required, m: Made) {
    && |m.times| == 6 && TimesInPast(m.times, past) && Increasing(m.times) && m.times[5] < m.at < |past|
    && SawAuthority(past, required, m.claim, m.times, m.personal, m.workspace)
    && Current(past[m.times[3]], m.claim.source) && Current(past[m.times[4]], m.claim.source)
    && Granted(past[m.times[5]], required, m.claim.source)
  }

  ghost predicate CallerInv(required: Required, w: Scene, c: nat) {
    && TimesInPast(TimesOf(w, c), w.past) && Increasing(TimesOf(w, c))
    && (c in w.inner.callers && w.inner.callers[c].Writer? && w.inner.callers[c].pc == Permitted ==>
          && c in w.allowed && |TimesOf(w, c)| >= 3
          && SawAuthority(w.past, required, w.inner.callers[c].claim, TimesOf(w, c), w.allowed[c].0, w.allowed[c].1))
  }

  ghost predicate CallBacked(required: Required, w: Scene, call: Call) {
    call.WriteCall? ==> exists j :: 0 <= j < |w.made| && w.made[j].claim == call.claim && SawLiveRows(w.past, required, w.made[j])
  }

  ghost predicate Inv(required: Required, w: Scene) {
    && (forall c :: CallerInv(required, w, c))
    && (forall i :: 0 <= i < |w.inner.calls| ==> CallBacked(required, w, w.inner.calls[i]))
  }

  /** Only the recheck takes a writer to the point before its call. */
  lemma OnlyRecheckPermits(k: Contracts, w: W.World, b: W.Action, c: nat, v: W.World)
    requires v == W.Apply(k, w, b) && c in v.callers && v.callers[c].pc == Permitted
    ensures c in w.callers
    ensures w.callers[c] == v.callers[c]
         || (&& b.Recheck? && b.c == c && At(w, c, Acquired) && w.callers[c].Writer?
             && Authorized(b.access, w.callers[c].claim, w.callers[c].key) && v.callers[c] == Writer(w.callers[c].claim, w.callers[c].key, Permitted))
  {
    match b
    case Look(_, _) =>
    case Recheck(_, _, _) =>
    case Execute(_, _, _, _) =>
    case Finish(_, _) =>
    case _ =>
  }

  /** Only a permitted writer adds a write call. */
  lemma OnlyExecuteCalls(k: Contracts, w: W.World, b: W.Action)
    ensures var v := W.Apply(k, w, b);
            || v.calls == w.calls
            || (exists call :: v.calls == w.calls + [call] && !call.WriteCall?)
            || (&& b.Execute? && b.c in w.callers && w.callers[b.c].Writer? && w.callers[b.c].pc == Permitted && CallPermitted(b.view, w.callers[b.c].claim.source)
                && v.calls == w.calls + [WriteCall(w.callers[b.c].claim.invocationId, w.callers[b.c].claim, b.view, b.reply)])
  {
    var v := W.Apply(k, w, b);
    match b
    case Execute(c, view, reply, f) =>
      if c in w.callers && w.callers[c].Sensitive? && w.callers[c].pc == Acquired {
        assert v.calls == w.calls + [SensitiveCall(Id(k, w.callers[c]))];
      }
    case OtherCall(target) => if TargetEnabled(target) { assert v.calls == w.calls + [RetriableCall(TargetId(k, target))]; }
    case _ => assert v.calls == w.calls;
  }

  /** What a read or a fact of the past was stays what it was. */
  lemma PastStays(required: Required, past: seq<Live>, live: Live, m: Made)
    requires SawLiveRows(past, required, m)
    ensures SawLiveRows(past + [live], required, m)
  {
  }

  lemma AuthorityStays(past: seq<Live>, live: Live, required: Required, claim: Claim, times: seq<nat>, more: seq<nat>, personal: bool, workspace: bool)
    requires |times| >= 3 && TimesInPast(times, past) && SawAuthority(past, required, claim, times, personal, workspace)
    requires TimesInPast(times + more, past + [live])
    ensures SawAuthority(past + [live], required, claim, times + more, personal, workspace)
  {
    assert forall i :: 0 <= i < 3 ==> (times + more)[i] == times[i] && (past + [live])[times[i]] == past[times[i]];
  }

  /** An authorization that answered with the frozen source saw rows that allow it. */
  lemma AccessSaw(past: seq<Live>, times: seq<nat>, required: Required, claim: Claim, key: string, personal: bool, workspace: bool, available: bool)
    requires |times| >= 3 && TimesInPast(times, past)
    requires Authorized(Access(past, times, required, claim, personal, workspace, available), claim, key)
    ensures SawAuthority(past, required, claim, times, personal, workspace)
  {
  }

  /** A permitted view comes from reads that saw rows that allow the call. */
  lemma ViewSaw(w: Scene, required: Required, claim: Claim, times: seq<nat>, around: Surroundings)
    requires |times| == 6 && TimesInPast(times, w.past) && CallPermitted(View(w, required, claim, times, around), claim.source)
    ensures Current(w.past[times[3]], claim.source) && Current(w.past[times[4]], claim.source) && Granted(w.past[times[5]], required, claim.source)
  {
  }

  lemma StepKeepsTimes(k: Contracts, required: Required, w: Scene, a: Action, v: Scene, c: nat) returns (more: seq<nat>)
    requires v == Apply(k, required, w, a) && TimesInPast(TimesOf(w, c), w.past) && Increasing(TimesOf(w, c))
    ensures TimesOf(v, c) == TimesOf(w, c) + more && TimesInPast(TimesOf(v, c), v.past) && Increasing(TimesOf(v, c))
    ensures a.RecheckNow? ==> more == []
  {
    more := if a.Read? && a.c == c && Readable(w, c) then [|w.past|] else [];
    assert TimesOf(v, c) == TimesOf(w, c) + more;
  }

  /** A permitted writer was so before, or its recheck was answered from its three reads. */
  lemma PermittedStep(k: Contracts, required: Required, w: Scene, a: Action, v: Scene, c: nat)
    requires v == Apply(k, required, w, a) && c in v.inner.callers && v.inner.callers[c].Writer? && v.inner.callers[c].pc == Permitted
    ensures c in w.inner.callers && w.inner.callers[c].Writer? && w.inner.callers[c].claim == v.inner.callers[c].claim
    ensures (w.inner.callers[c].pc == Permitted && (c in w.allowed ==> c in v.allowed && v.allowed[c] == w.allowed[c]))
         || (&& a.RecheckNow? && |TimesOf(w, c)| == 3 && TimesInPast(TimesOf(w, c), w.past) && c in v.allowed && v.allowed[c] == (a.personal, a.workspace)
             && Authorized(Access(w.past, TimesOf(w, c), required, w.inner.callers[c].claim, a.personal, a.workspace, a.available), w.inner.callers[c].claim, w.inner.callers[c].key))
  {
    var inner := InnerOf(k, required, w, a);
    if inner.Some? {
      OnlyRecheckPermits(k, w.inner, inner.value, c, v.inner);
    }
  }

  lemma StepKeepsCaller(k: Contracts, required: Required, w: Scene, a: Action, v: Scene, c: nat)
    requires v == Apply(k, required, w, a) && CallerInv(required, w, c)
    ensures CallerInv(required, v, c)
  {
    var more := StepKeepsTimes(k, required, w, a, v, c);
    if c in v.inner.callers && v.inner.callers[c].Writer? && v.inner.callers[c].pc == Permitted {
      PermittedStep(k, required, w, a, v, c);
      var claim := v.inner.callers[c].claim;
      if w.inner.callers[c].pc != Permitted {
        AccessSaw(w.past, TimesOf(w, c), required, claim, w.inner.callers[c].key, a.personal, a.workspace, a.available);
      }
      AuthorityStays(w.past, w.live, required, claim, TimesOf(w, c), more, v.allowed[c].0, v.allowed[c].1);
    }
  }

  lemma BackedStays(required: Required, w: Scene, v: Scene, call: Call)
    requires CallBacked(required, w, call) && v.past == w.past + [w.live] && w.made <= v.made
    ensures CallBacked(required, v, call)
  {
    if call.WriteCall? {
      var j :| 0 <= j < |w.made| && w.made[j].claim == call.claim && SawLiveRows(w.past, required, w.made[j]);
      PastStays(required, w.past, w.live, w.made[j]);
      assert v.made[j] == w.made[j];
    }
  }

  lemma NewCallBacked(k: Contracts, required: Required, w: Scene, a: Action, v: Scene, c: nat, call: Call)
    requires v == Apply(k, required, w, a) && a.CallNow? && a.c == c && InnerOf(k, required, w, a).Some? && WriterAt(w, c, Permitted) && CallerInv(required, w, c)
    requires call.WriteCall? && call.claim == w.inner.callers[c].claim && CallPermitted(InnerOf(k, required, w, a).value.view, call.claim.source)
    ensures CallBacked(required, v, call)
  {
    var m := Made(call.claim, TimesOf(w, c), |w.past|, w.allowed[c].0, w.allowed[c].1);
    ViewSaw(w, required, call.claim, TimesOf(w, c), a.around);
    AuthorityStays(w.past, w.live, required, call.claim, TimesOf(w, c), [], w.allowed[c].0, w.allowed[c].1);
    assert TimesOf(w, c) + [] == TimesOf(w, c);
    assert v.made == w.made + [m];
    assert v.made[|w.made|] == m && SawLiveRows(v.past, required, m);
  }

  lemma StepKeepsCalls(k: Contracts, required: Required, w: Scene, a: Action, v: Scene, i: nat)
    requires Inv(required, w) && v == Apply(k, required, w, a) && i < |v.inner.calls|
    ensures CallBacked(required, v, v.inner.calls[i])
  {
    var inner := InnerOf(k, required, w, a);
    if i < |w.inner.calls| {
      if inner.Some? { OnlyExecuteCalls(k, w.inner, inner.value); }
      assert v.inner.calls[i] == w.inner.calls[i];
      BackedStays(required, w, v, w.inner.calls[i]);
    } else {
      OnlyExecuteCalls(k, w.inner, inner.value);
      if v.inner.calls[i].WriteCall? {
        assert CallerInv(required, w, inner.value.c);
        NewCallBacked(k, required, w, a, v, inner.value.c, v.inner.calls[i]);
      }
    }
  }

  lemma StepKeeps(k: Contracts, required: Required, w: Scene, a: Action)
    requires Inv(required, w)
    ensures Inv(required, Apply(k, required, w, a))
  {
    var v := Apply(k, required, w, a);
    forall c ensures CallerInv(required, v, c) {
      assert CallerInv(required, w, c);
      StepKeepsCaller(k, required, w, a, v, c);
    }
    forall i | 0 <= i < |v.inner.calls| ensures CallBacked(required, v, v.inner.calls[i]) { StepKeepsCalls(k, required, w, a, v, i); }
  }

  lemma {:induction false} RunKeeps(k: Contracts, required: Required, w: Scene, actions: seq<Action>)
    requires Inv(required, w)
    ensures Inv(required, Run(k, required, w, actions))
    decreases |actions|
  {
    if actions != [] {
      StepKeeps(k, required, w, actions[0]);
      RunKeeps(k, required, Apply(k, required, w, actions[0]), actions[1..]);
    }
  }
}
