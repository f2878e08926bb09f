/** A run in which a connection is revoked and restored between the reads of a call, and the
    call is made. */
module AccountWriteReturn {
  import opened Basics
  import opened Fences
  import opened InvocationLedger
  import W = AccountWrites
  import opened AccountWriteAuthority
  import opened AccountWriteRows

  /** The operation declares no scopes to be granted. */
  const NO_SCOPES: Required := (source: Source) => Some([{}])

  function Caller(claim: Claim, pc: W.Pc): W.Caller {
    W.Writer(claim, claim.source.connectionKey, pc)
  }

  predicate Claimable(k: Contracts, claim: Claim) {
    W.Frozen(k, Caller(claim, W.Fresh)) && claim.source.accountUpdatedAt != ""
  }

  /** The personal account of the claim's actor, with the connection that the claim froze. */
  function Connected(claim: Claim): Live {
    Live(map[PlaceOf(claim.source) := ConnectionRow("active", claim.source.connectorKey, claim.source.providerKey, claim.source.accountUpdatedAt)],
         map[PlaceOf(claim.source) := AccountRow(true, claim.actorId)], map[])
  }

  const READ: Action := AccountWriteAuthority.Read(0)
  const RECHECK: Action := RecheckNow(0, true, true, false, true)

  function Called(claim: Claim): Action {
    CallNow(0, Surroundings(true, Some(claim.source.contractSha256), true, true, true, true), W.Success(""), false)
  }

  /** Connection and account; the claim; three reads and the recheck; the first read of the call,
      a revocation and its restoration, two more reads, and the call. */
  function Returning(claim: Claim, later: string): (r: seq<Action>)
    ensures |r| == 17
  {
    var at, source := PlaceOf(claim.source), claim.source;
    [Alter(Upsert(at, source.connectorKey, source.providerKey, "active", source.accountUpdatedAt)), Alter(Register(at, AccountRow(true, claim.actorId))),
     Inner(W.Begin(0, Caller(claim, W.Fresh))), Inner(W.Guard(0)), Inner(W.Look(0, true)), Inner(W.GuardInsert(0)), Inner(W.Insert(0, Landed)),
     READ, READ, READ, RECHECK,
     READ, Alter(Revoke(at, source.accountUpdatedAt, later)), Alter(SetStatus(at, "active", source.accountUpdatedAt)), READ, READ,
     Called(claim)]
  }

  /** The scene after the first `n` steps of it. */
  function After(k: Contracts, claim: Claim, later: string, n: nat): Scene
    requires n <= 17
  {
    Run(k, NO_SCOPES, Start, Returning(claim, later)[..n])
  }

  lemma NextScene(k: Contracts, claim: Claim, later: string, n: nat)
    requires n < 17
    ensures After(k, claim, later, n + 1) == Apply(k, NO_SCOPES, After(k, claim, later, n), Returning(claim, later)[n])
  {
    var r := Returning(claim, later);
    RunSnoc(k, NO_SCOPES, Start, r[..n], r[n]);
    assert r[..n] + [r[n]] == r[..n + 1];
  }

  lemma NoFences(workspaceId: string, refs: seq<Reference>)
    ensures !SubjectErased({}, workspaceId, refs)
  {
  }

  function Ledger(claim: Claim, pc: W.Pc, rows: Rows): W.World {
    W.World(rows, {}, map[0 := Caller(claim, pc)], [])
  }

  lemma LedgerBegins(k: Contracts, claim: Claim)
    requires Claimable(k, claim)
    ensures W.Apply(k, W.Start, W.Begin(0, Caller(claim, W.Fresh))) == Ledger(claim, W.Fresh, map[])
    ensures W.Apply(k, Ledger(claim, W.Fresh, map[]), W.Guard(0)) == Ledger(claim, W.Guarded, map[])
  {
    NoFences(claim.workspaceId, W.SubjectReferences(Caller(claim, W.Fresh)));
  }

  lemma LedgerLooks(k: Contracts, claim: Claim)
    ensures W.Apply(k, Ledger(claim, W.Guarded, map[]), W.Look(0, true)) == Ledger(claim, W.Looked, map[])
    ensures W.Apply(k, Ledger(claim, W.Looked, map[]), W.GuardInsert(0)) == Ledger(claim, W.InsertGuarded, map[])
  {
    NoFences(claim.workspaceId, W.CallerInsertReferences(k, Caller(claim, W.Looked)));
  }

  lemma LedgerInserts(k: Contracts, claim: Claim)
    ensures W.Apply(k, Ledger(claim, W.InsertGuarded, map[]), W.Insert(0, Landed))
         == Ledger(claim, W.Acquired, map[claim.invocationId := W.ClaimRow(Caller(claim, W.Fresh))])
  {
  }

  // ----- the scenes -----

  lemma InnerStep(k: Contracts, w: Scene, b: W.Action)
    requires !b.Recheck? && !b.Execute?
    ensures Apply(k, NO_SCOPES, w, Inner(b)) == Scene(W.Apply(k, w.inner, b), w.live, w.past + [w.live], w.times, w.allowed, w.made)
  {
  }

  lemma ConnectedScene(k: Contracts, claim: Claim, later: string)
    ensures After(k, claim, later, 0) == Start
    ensures var w := After(k, claim, later, 2);
            w.inner == W.Start && w.live == Connected(claim) && |w.past| == 2 && w.times == map[] && w.made == []
  {
    NextScene(k, claim, later, 0);
    NextScene(k, claim, later, 1);
    assert Returning(claim, later)[..0] == [];
    var at, source := PlaceOf(claim.source), claim.source;
    assert After(k, claim, later, 1).live == Live(map[at := ConnectionRow("active", source.connectorKey, source.providerKey, source.accountUpdatedAt)], map[], map[]);
  }

  /** The writer at a program point, over the rows as they are connected. */
  predicate Stage(w: Scene, claim: Claim, pc: W.Pc, rows: Rows, n: nat, times: seq<nat>) {
    w.inner == Ledger(claim, pc, rows) && w.live == Connected(claim) && w.made == [] && |w.past| == n && TimesOf(w, 0) == times
  }

  function ClaimedRows(claim: Claim): Rows {
    map[claim.invocationId := W.ClaimRow(Caller(claim, W.Fresh))]
  }

  lemma InnerStage(k: Contracts, claim: Claim, later: string, n: nat, b: W.Action, pc: W.Pc, rows: Rows, next: W.Pc, after: Rows)
    requires n < 17 && Returning(claim, later)[n] == Inner(b) && !b.Recheck? && !b.Execute?
    requires Stage(After(k, claim, later, n), claim, pc, rows, n, []) && W.Apply(k, Ledger(claim, pc, rows), b) == Ledger(claim, next, after)
    ensures Stage(After(k, claim, later, n + 1), claim, next, after, n + 1, [])
  {
    InnerScene(k, claim, later, n, b);
  }

  lemma BegunScene(k: Contracts, claim: Claim, later: string)
    requires Claimable(k, claim)
    ensures Stage(After(k, claim, later, 3), claim, W.Fresh, map[], 3, [])
  {
    ConnectedScene(k, claim, later);
    LedgerBegins(k, claim);
    InnerScene(k, claim, later, 2, W.Begin(0, Caller(claim, W.Fresh)));
  }

  lemma LookedScene(k: Contracts, claim: Claim, later: string)
    requires Claimable(k, claim)
    ensures Stage(After(k, claim, later, 5), claim, W.Looked, map[], 5, [])
  {
    BegunScene(k, claim, later);
    LedgerBegins(k, claim);
    InnerStage(k, claim, later, 3, W.Guard(0), W.Fresh, map[], W.Guarded, map[]);
    LedgerLooks(k, claim);
    InnerStage(k, claim, later, 4, W.Look(0, true), W.Guarded, map[], W.Looked, map[]);
  }

  lemma ClaimedScene(k: Contracts, claim: Claim, later: string)
    requires Claimable(k, claim)
    ensures Stage(After(k, claim, later, 7), claim, W.Acquired, ClaimedRows(claim), 7, [])
  {
    LookedScene(k, claim, later);
    LedgerLooks(k, claim);
    InnerStage(k, claim, later, 5, W.GuardInsert(0), W.Looked, map[], W.InsertGuarded, map[]);
    LedgerInserts(k, claim);
    InnerStage(k, claim, later, 6, W.Insert(0, Landed), W.InsertGuarded, map[], W.Acquired, ClaimedRows(claim));
  }

  lemma InnerScene(k: Contracts, claim: Claim, later: string, n: nat, b: W.Action)
    requires n < 17 && Returning(claim, later)[n] == Inner(b) && !b.Recheck? && !b.Execute?
    ensures var w, v := After(k, claim, later, n), After(k, claim, later, n + 1);
            v.inner == W.Apply(k, w.inner, b) && v.live == w.live && |v.past| == |w.past| + 1 && v.times == w.times && v.made == w.made
  {
    NextScene(k, claim, later, n);
    InnerStep(k, After(k, claim, later, n), b);
  }

  lemma ReadScene(k: Contracts, claim: Claim, later: string, pc: W.Pc, n: nat, times: seq<nat>)
    requires n < 17 && Returning(claim, later)[n] == READ && Stage(After(k, claim, later, n), claim, pc, ClaimedRows(claim), n, times)
    requires (pc == W.Acquired && |times| < 3) || (pc == W.Permitted && 3 <= |times| < 6)
    ensures var w, v := After(k, claim, later, n), After(k, claim, later, n + 1);
            Stage(v, claim, pc, ClaimedRows(claim), n + 1, times + [n]) && v.allowed == w.allowed
  {
    NextScene(k, claim, later, n);
  }

  /** The rows at the reads, from the history of the run. */
  lemma PastScene(k: Contracts, claim: Claim, later: string, n: nat, t: nat)
    requires t < n <= 17
    ensures |After(k, claim, later, n).past| == n && After(k, claim, later, n).past[t] == After(k, claim, later, t).live
  {
    PastIsHistory(k, NO_SCOPES, Returning(claim, later)[..n]);
    assert Returning(claim, later)[..n][..t] == Returning(claim, later)[..t];
  }

  lemma ConnectedAllows(claim: Claim)
    ensures var live := Connected(claim);
            && Granted(live, NO_SCOPES, claim.source) && Current(live, claim.source) && AccountAllows(live, claim, true, false)
            && ConnectionRead(live, claim.source) == Some(W.ConnectionView(claim.source.accountUpdatedAt, claim.source.providerKey))
  {
    var alternatives: seq<set<string>> := [{}];
    assert alternatives[0] == {};
  }

  lemma RecheckStep(k: Contracts, claim: Claim, w: Scene, rows: Rows, n: nat, times: seq<nat>)
    requires claim.source.accountUpdatedAt != "" && claim.source.workspaceId == claim.workspaceId
    requires Stage(w, claim, W.Acquired, rows, n, times) && |times| == 3 && TimesInPast(times, w.past)
    requires w.past[times[0]] == Connected(claim) && w.past[times[1]] == Connected(claim) && w.past[times[2]] == Connected(claim)
    ensures var v := Apply(k, NO_SCOPES, w, RECHECK);
            Stage(v, claim, W.Permitted, rows, n + 1, times) && 0 in v.allowed && v.allowed[0] == (true, false)
  {
    ConnectedAllows(claim);
    assert Access(w.past, times, NO_SCOPES, claim, true, false, true) == Some(claim.source);
    assert W.Authorized(Some(claim.source), claim, claim.source.connectionKey);
  }

  lemma AuthorityScene(k: Contracts, claim: Claim, later: string)
    requires Claimable(k, claim)
    ensures Stage(After(k, claim, later, 10), claim, W.Acquired, ClaimedRows(claim), 10, [7, 8, 9])
    ensures forall t :: 7 <= t < 10 ==> After(k, claim, later, t).live == Connected(claim)
  {
    ClaimedScene(k, claim, later);
    ReadScene(k, claim, later, W.Acquired, 7, []);
    ReadScene(k, claim, later, W.Acquired, 8, [7]);
    ReadScene(k, claim, later, W.Acquired, 9, [7, 8]);
  }

  lemma PermittedScene(k: Contracts, claim: Claim, later: string)
    requires Claimable(k, claim)
    ensures var v := After(k, claim, later, 11); Stage(v, claim, W.Permitted, ClaimedRows(claim), 11, [7, 8, 9]) && 0 in v.allowed && v.allowed[0] == (true, false)
  {
    AuthorityScene(k, claim, later);
    PastScene(k, claim, later, 10, 7);
    PastScene(k, claim, later, 10, 8);
    PastScene(k, claim, later, 10, 9);
    RecheckStep(k, claim, After(k, claim, later, 10), ClaimedRows(claim), 10, [7, 8, 9]);
    NextScene(k, claim, later, 10);
  }

  lemma RevokedScene(k: Contracts, claim: Claim, later: string)
    requires Claimable(k, claim) && later != claim.source.accountUpdatedAt
    ensures Stage(After(k, claim, later, 14), claim, W.Permitted, ClaimedRows(claim), 14, [7, 8, 9, 11])
    ensures After(k, claim, later, 14).allowed == After(k, claim, later, 11).allowed && After(k, claim, later, 11).live == Connected(claim)
    ensures !Current(After(k, claim, later, 13).live, claim.source)
  {
    PermittedScene(k, claim, later);
    ReadScene(k, claim, later, W.Permitted, 11, [7, 8, 9]);
    NextScene(k, claim, later, 12);
    NextScene(k, claim, later, 13);
    ReturnsConnected(claim, later);
  }

  lemma ReturnsConnected(claim: Claim, later: string)
    requires later != claim.source.accountUpdatedAt
    ensures var at, source := PlaceOf(claim.source), claim.source;
            var gone := Changed(Connected(claim), Revoke(at, source.accountUpdatedAt, later));
            !Current(gone, source) && Changed(gone, SetStatus(at, "active", source.accountUpdatedAt)) == Connected(claim)
  {
  }

  lemma CallStep(k: Contracts, claim: Claim, w: Scene, rows: Rows, n: nat, times: seq<nat>)
    requires Stage(w, claim, W.Permitted, rows, n, times) && |times| == 6 && TimesInPast(times, w.past) && 0 in w.allowed && w.allowed[0] == (true, false)
    requires w.past[times[3]] == Connected(claim) && w.past[times[4]] == Connected(claim) && w.past[times[5]] == Connected(claim)
    ensures var v := Apply(k, NO_SCOPES, w, Called(claim));
            v.made == [Made(claim, times, n, true, false)] && |v.inner.calls| == 1 && v.inner.calls[0].WriteCall? && v.inner.calls[0].claim == claim
  {
    ConnectedAllows(claim);
    var around := Called(claim).around;
    assert W.CallPermitted(View(w, NO_SCOPES, claim, times, around), claim.source);
  }

  lemma CalledScene(k: Contracts, claim: Claim, later: string)
    requires Claimable(k, claim) && later != claim.source.accountUpdatedAt
    ensures var v := After(k, claim, later, 17);
            v.made == [Made(claim, [7, 8, 9, 11, 14, 15], 16, true, false)] && |v.inner.calls| == 1 && v.inner.calls[0].WriteCall? && v.inner.calls[0].claim == claim
  {
    RevokedScene(k, claim, later);
    ReadScene(k, claim, later, W.Permitted, 14, [7, 8, 9, 11]);
    ReadScene(k, claim, later, W.Permitted, 15, [7, 8, 9, 11, 14]);
    PastScene(k, claim, later, 16, 11);
    PastScene(k, claim, later, 16, 14);
    PastScene(k, claim, later, 16, 15);
    PermittedScene(k, claim, later);
    CallStep(k, claim, After(k, claim, later, 16), ClaimedRows(claim), 16, [7, 8, 9, 11, 14, 15]);
    NextScene(k, claim, later, 16);
  }

  /** For every claim: the connection is revoked after the first read of the call and restored
      under the same revision before the second, all reads allow the call, and it is made. */
  lemma RestoredConnectionIsCalled(k: Contracts, claim: Claim, later: string)
    requires Claimable(k, claim) && later != claim.source.accountUpdatedAt
    ensures var r := Returning(claim, later);
            var w, m := Run(k, NO_SCOPES, Start, r), Made(claim, [7, 8, 9, 11, 14, 15], 16, true, false);
            && |w.inner.calls| == 1 && w.inner.calls[0].WriteCall? && w.inner.calls[0].claim == claim && w.made == [m]
            && ReadsAllow(k, NO_SCOPES, r, m)
            && m.times[3] < 13 < m.times[4] && !Current(RowsAt(k, NO_SCOPES, r, 13), claim.source)
  {
    CalledScene(k, claim, later);
    RevokedScene(k, claim, later);
    assert Returning(claim, later)[..17] == Returning(claim, later);
    var m := CallsAreAuthorized(k, NO_SCOPES, Returning(claim, later), 0);
  }
}
