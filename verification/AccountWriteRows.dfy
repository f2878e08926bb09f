/** What the provider calls of any run owe to the rows that authorize them. */
module AccountWriteRows {
  import opened Basics
  import opened InvocationLedger
  import T = AccountWriteTheorems
  import opened AccountWriteAuthority

  // ----- the past is the history of the run -----

  lemma {:induction false} RunSnoc(k: Contracts, required: Required, w: Scene, actions: seq<Action>, a: Action)
    ensures Run(k, required, w, actions + [a]) == Apply(k, required, Run(k, required, w, actions), a)
    decreases |actions|
  {
    if actions == [] {
      assert ([] + [a])[1..] == [];
    } else {
      assert (actions + [a])[1..] == actions[1..] + [a];
      RunSnoc(k, required, Apply(k, required, w, actions[0]), actions[1..], a);
    }
  }

  /** The authorizing rows after the first `t` steps of a run. */
  function RowsAt(k: Contracts, required: Required, actions: seq<Action>, t: nat): Live
    requires t <= |actions|
  {
    Run(k, required, Start, actions[..t]).live
  }

  lemma {:induction false} PastIsHistory(k: Contracts, required: Required, actions: seq<Action>)
    ensures var w := Run(k, required, Start, actions);
            |w.past| == |actions| && forall t :: 0 <= t < |actions| ==> w.past[t] == RowsAt(k, required, actions, t)
    decreases |actions|
  {
    if actions != [] {
      var n := |actions| - 1;
      var before := actions[..n];
      PastIsHistory(k, required, before);
      RunSnoc(k, required, Start, before, actions[n]);
      assert before + [actions[n]] == actions;
      forall t | 0 <= t < |actions| ensures Run(k, required, Start, actions).past[t] == RowsAt(k, required, actions, t) {
        assert actions[..t] == before[..t];
        assert before[..n] == before;
      }
    }
  }

  lemma RowsStep(k: Contracts, required: Required, actions: seq<Action>, t: nat)
    requires t < |actions|
    ensures RowsAt(k, required, actions, t + 1) == if actions[t].Alter? then Changed(RowsAt(k, required, actions, t), actions[t].change) else RowsAt(k, required, actions, t)
  {
    RunSnoc(k, required, Start, actions[..t], actions[t]);
    assert actions[..t] + [actions[t]] == actions[..t + 1];
  }

  // ----- every call -----

  /** Six reads of the run, one after the other and before the call: the owner's account, the
      connection at the frozen revision four times and the grant twice, each as it was then. */
  predicate ReadsAllow(k: Contracts, required: Required, actions: seq<Action>, m: Made) {
    && |m.times| == 6 && (forall i :: 0 <= i < 6 ==> m.times[i] < |actions|) && Increasing(m.times) && m.times[5] < m.at < |actions|
    && var source := m.claim.source;
       && AccountAllows(RowsAt(k, required, actions, m.times[0]), m.claim, m.personal, m.workspace)
       && Current(RowsAt(k, required, actions, m.times[0]), source)
       && SameRevision(RowsAt(k, required, actions, m.times[1]), source)
       && Granted(RowsAt(k, required, actions, m.times[2]), required, source)
       && Current(RowsAt(k, required, actions, m.times[3]), source)
       && Current(RowsAt(k, required, actions, m.times[4]), source)
       && Granted(RowsAt(k, required, actions, m.times[5]), required, source)
  }

  /** Whatever changes the authorizing rows meanwhile, every call was made from reads that
      allowed it at their own times. */
  lemma CallsAreAuthorized(k: Contracts, required: Required, actions: seq<Action>, i: nat)
    returns (m: Made)
    requires i < |Run(k, required, Start, actions).inner.calls|
    requires Run(k, required, Start, actions).inner.calls[i].WriteCall?
    ensures m.claim == Run(k, required, Start, actions).inner.calls[i].claim
    ensures ReadsAllow(k, required, actions, m) && m in Run(k, required, Start, actions).made
  {
    var w := Run(k, required, Start, actions);
    RunKeeps(k, required, Start, actions);
    assert CallBacked(required, w, w.inner.calls[i]);
    var j :| 0 <= j < |w.made| && w.made[j].claim == w.inner.calls[i].claim && SawLiveRows(w.past, required, w.made[j]);
    m := w.made[j];
    PastIsHistory(k, required, actions);
  }

  /** Beside changing rows too, a request is called at most once. */
  lemma StillCalledAtMostOnce(k: Contracts, required: Required, actions: seq<Action>, i: nat, j: nat)
    requires var calls := Run(k, required, Start, actions).inner.calls;
             i < |calls| && j < |calls| && calls[i].WriteCall? && calls[j].WriteCall? && calls[i].id == calls[j].id
    ensures i == j
  {
    var calls := Run(k, required, Start, actions).inner.calls;
    RunProjects(k, required, Start, actions);
    T.WriteCallsAreOfRequests(k, Projected(k, required, Start, actions), i);
    var claim := calls[i].claim;
    T.RequestCalledAtMostOnce(k, Projected(k, required, Start, actions), i, j, claim.workspaceId, claim.actorId, claim.requestId);
  }

  // ----- what may have changed since -----

  predicate Touches(a: Action, at: Place) {
    a.Alter? && a.change.at == at
  }

  /** From one time to another nobody wrote the connection under this key. */
  predicate Untouched(actions: seq<Action>, at: Place, from: nat, until: nat) {
    forall t :: from <= t < until && t < |actions| ==> !Touches(actions[t], at)
  }

  predicate SamePlace(a: Live, b: Live, at: Place) {
    && (at in a.connections <==> at in b.connections) && (at in a.connections ==> b.connections[at] == a.connections[at])
    && (at in a.accounts <==> at in b.accounts) && (at in a.accounts ==> b.accounts[at] == a.accounts[at])
    && (at in a.grants <==> at in b.grants) && (at in a.grants ==> b.grants[at] == a.grants[at])
  }

  lemma OtherPlace(live: Live, ch: Change, at: Place)
    requires ch.at != at
    ensures SamePlace(live, Changed(live, ch), at)
  {
  }

  lemma {:induction false} UntouchedIsSame(k: Contracts, required: Required, actions: seq<Action>, at: Place, from: nat, until: nat)
    requires from <= until <= |actions| && Untouched(actions, at, from, until)
    ensures SamePlace(RowsAt(k, required, actions, from), RowsAt(k, required, actions, until), at)
    decreases until
  {
    if from < until {
      UntouchedIsSame(k, required, actions, at, from, until - 1);
      RowsStep(k, required, actions, until - 1);
      assert !Touches(actions[until - 1], at);
      if actions[until - 1].Alter? {
        OtherPlace(RowsAt(k, required, actions, until - 1), actions[until - 1].change, at);
      }
    }
  }

  /** Only a writer of this connection, after the executor's second read of it, can make the
      rows at the call differ from what that read saw; for the grant, after its read. */
  lemma OnlyLaterWritesAreMissed(k: Contracts, required: Required, actions: seq<Action>, m: Made)
    requires ReadsAllow(k, required, actions, m)
    ensures var at, now := PlaceOf(m.claim.source), RowsAt(k, required, actions, m.at);
            && (Untouched(actions, at, m.times[4], m.at) ==> Current(now, m.claim.source))
            && (Untouched(actions, at, m.times[5], m.at) ==> Granted(now, required, m.claim.source))
  {
    var at := PlaceOf(m.claim.source);
    if Untouched(actions, at, m.times[4], m.at) { UntouchedIsSame(k, required, actions, at, m.times[4], m.at); }
    if Untouched(actions, at, m.times[5], m.at) { UntouchedIsSame(k, required, actions, at, m.times[5], m.at); }
  }

  // ----- between the reads -----

  /** The change, made to these rows, writes the connection active at the frozen revision,
      connector and provider: an upsert with all of them, or a status on a row that has the
      connector and the provider. */
  predicate Freezes(live: Live, ch: Change, source: Source) {
    match ch
    case Upsert(at, connector, provider, status, now) =>
      at == PlaceOf(source) && connector == source.connectorKey && provider == source.providerKey && status == "active" && now == source.accountUpdatedAt
    case SetStatus(at, status, now) =>
      && at == PlaceOf(source) && status == "active" && now == source.accountUpdatedAt && at in live.connections
      && live.connections[at].connectorKey == source.connectorKey && live.connections[at].providerKey == source.providerKey
    case _ => false
  }

  /** A write that restores the frozen connection after something else was there. */
  predicate Restores(live: Live, a: Action, source: Source) {
    a.Alter? && Freezes(live, a.change, source) && !Current(live, source)
  }

  /** The connection becomes current by such writes only, and by every one of them. */
  lemma OnlyRestoringMakesCurrent(live: Live, a: Action, source: Source, after: Live)
    requires after == (if a.Alter? then Changed(live, a.change) else live) && !Current(live, source)
    ensures Current(after, source) <==> Restores(live, a, source)
  {
  }

  lemma {:induction false} NeverRestored(k: Contracts, required: Required, actions: seq<Action>, source: Source, t: nat, until: nat)
    requires t <= until <= |actions| && Current(RowsAt(k, required, actions, until), source)
    requires forall i :: t <= i < until ==> !Restores(RowsAt(k, required, actions, i), actions[i], source)
    ensures Current(RowsAt(k, required, actions, t), source)
    decreases until
  {
    if t < until {
      var live := RowsAt(k, required, actions, until - 1);
      RowsStep(k, required, actions, until - 1);
      if !Current(live, source) {
        OnlyRestoringMakesCurrent(live, actions[until - 1], source, RowsAt(k, required, actions, until));
      }
      NeverRestored(k, required, actions, source, t, until - 1);
    }
  }

  /** The connection of a call was current at every moment from its authorization through its
      last read, so that no revocation, reconfiguration or erasure took effect in between,
      exactly when no write in between restored it. */
  lemma ConnectionStoodStillIff(k: Contracts, required: Required, actions: seq<Action>, m: Made)
    requires ReadsAllow(k, required, actions, m)
    ensures (forall t :: m.times[0] <= t <= m.times[4] ==> Current(RowsAt(k, required, actions, t), m.claim.source))
       <==> (forall t :: m.times[0] <= t < m.times[4] ==> !Restores(RowsAt(k, required, actions, t), actions[t], m.claim.source))
  {
    if forall t :: m.times[0] <= t < m.times[4] ==> !Restores(RowsAt(k, required, actions, t), actions[t], m.claim.source) {
      forall t | m.times[0] <= t <= m.times[4] ensures Current(RowsAt(k, required, actions, t), m.claim.source) {
        NeverRestored(k, required, actions, m.claim.source, t, m.times[4]);
      }
    }
  }

  /** The revision a change stamps on the connection under this key. */
  function Stamp(a: Action, at: Place): Option<string> {
    if !Touches(a, at) then None
    else match a.change
         case Upsert(_, _, _, _, now) => Some(now)
         case SetStatus(_, _, now) => Some(now)
         case Revoke(_, _, now) => Some(now)
         case EraseRows(_, now) => Some(now)
         case _ => None
  }

  /** In particular it stood still when no write of it stamped the frozen revision again. */
  lemma NewStampsKeepStill(k: Contracts, required: Required, actions: seq<Action>, m: Made)
    requires ReadsAllow(k, required, actions, m)
    requires forall t :: m.times[0] <= t < m.times[4] ==> Stamp(actions[t], PlaceOf(m.claim.source)) != Some(m.claim.source.accountUpdatedAt)
    ensures forall t :: m.times[0] <= t <= m.times[4] ==> Current(RowsAt(k, required, actions, t), m.claim.source)
  {
    forall t | m.times[0] <= t < m.times[4] ensures !Restores(RowsAt(k, required, actions, t), actions[t], m.claim.source) {
      assert Stamp(actions[t], PlaceOf(m.claim.source)) != Some(m.claim.source.accountUpdatedAt);
    }
    ConnectionStoodStillIff(k, required, actions, m);
  }
}
