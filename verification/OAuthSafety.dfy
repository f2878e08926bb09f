/** What every interleaving of OAuth callers keeps. */
module OAuthSafety {
  import opened Basics
  import opened OAuthSessions
  import C = Credentials
  import CT = CredentialTheorems

  ghost predicate Exchanged(w: World, id: string) {
    exists i :: 0 <= i < |w.exchanges| && w.exchanges[i].session == id
  }

  ghost predicate Answering(w: World, id: string, reply: Reply) {
    exists i :: 0 <= i < |w.exchanges| && w.exchanges[i].session == id && w.exchanges[i].reply == reply
  }

  ghost predicate ExchangeSucceeded(w: World, id: string) {
    exists i :: 0 <= i < |w.exchanges| && w.exchanges[i].session == id && Succeeded(w.exchanges[i].reply)
  }

  predicate NotPending(w: World, id: string) {
    id in w.started && (id in w.sessions ==> w.sessions[id].status != Pending)
  }

  predicate OwnVerifier(w: World, r: Session) {
    r.id in w.started && (r.verifier.Some? ==> r.verifier == Some(Sealed(r.id, w.started[r.id])))
  }

  ghost predicate SessionInv(w: World, id: string) {
    id in w.sessions ==>
      var r := w.sessions[id];
      && r.id == id && OwnVerifier(w, r)
      && (r.verifier.Some? ==> r.status == Pending || r.status == Erasing)
      && (r.status == Pending ==> r.verifier.Some?)
      && (r.status == Erasing ==> id in w.fenced)
      && (r.status == Connected ==> r.account == Some(AccountKey(id)) && ExchangeSucceeded(w, id))
      && (id !in w.fenced && r.status != Connected ==> AccountKey(id) !in w.grants)
  }

  ghost predicate PcInv(w: World, pc: Pc) {
    match pc
    case Found(first) => OwnVerifier(w, first)
    case Checked(first) => OwnVerifier(w, first)
    case Cleared(first, _) => OwnVerifier(w, first)
    case Polled(record, next) =>
      OwnVerifier(w, record) && ((record.status == Pending && next == Expired) || (record.status == Exchanging && next == NeedsReauthorization))
    case Claimed(record, _, verifier) =>
      OwnVerifier(w, record) && verifier == w.started[record.id] && NotPending(w, record.id) && !Exchanged(w, record.id)
    case Answered(record, _, reply) => OwnVerifier(w, record) && NotPending(w, record.id) && Answering(w, record.id, reply)
    case _ => true
  }

  ghost predicate CallerInv(w: World, c: nat) {
    c in w.callers ==> PcInv(w, w.callers[c].pc)
  }

  predicate Claims(w: World, c: nat, id: string) {
    c in w.callers && w.callers[c].pc.Claimed? && w.callers[c].pc.record.id == id
  }

  ghost predicate OneClaim(w: World) {
    forall c, d, id :: Claims(w, c, id) && Claims(w, d, id) ==> c == d
  }

  predicate EntryInv(w: World, e: Exchange) {
    e.session in w.started && e.verifier == w.started[e.session] && NotPending(w, e.session)
  }

  ghost predicate HistoryInv(w: World) {
    && (forall i :: 0 <= i < |w.exchanges| ==> EntryInv(w, w.exchanges[i]))
    && (forall i, j :: 0 <= i < j < |w.exchanges| ==> w.exchanges[i].session != w.exchanges[j].session)
  }

  /** A key that was never started has no grant yet. */
  ghost predicate Inv(w: World) {
    && (forall id :: SessionInv(w, id)) && (forall c :: CallerInv(w, c)) && OneClaim(w) && HistoryInv(w)
    && (forall id :: id !in w.started ==> AccountKey(id) !in w.grants)
  }

  // ----- what a caller may plan -----

  ghost predicate Advances(previous: Status, next: Status) {
    (previous == Pending && next in {Expired, Rejected, Exchanging}) || (previous == Exchanging && next in {Rejected, NeedsReauthorization})
  }

  ghost predicate EffectInv(w: World, pc: Pc, effect: Effect) {
    match effect
    case Stay(next) => PcInv(w, next) && (next.Claimed? ==> next == pc)
    case Store(record, previous, fate, next) =>
      && OwnVerifier(w, record) && Advances(previous, record.status)
      && (next == Done || (next.Claimed? && next.record == record && next.verifier == w.started[record.id]
                           && Updates(w, record, previous) && previous == Pending && fate.Lands()))
    case Send(entry, next) =>
      && pc.Claimed? && entry.session == pc.record.id && entry.verifier == pc.verifier
      && next == Answered(pc.record, pc.app, entry.reply)
    case Transact(record, app, tokens, _, _) =>
      OwnVerifier(w, record) && NotPending(w, record.id) && Answering(w, record.id, Granted(tokens)) && Usable(tokens)
  }

  lemma PlanKeeps(hash: string -> string, w: World, caller: Caller, move: Move)
    requires PcInv(w, caller.pc) && forall id :: SessionInv(w, id)
    ensures EffectInv(w, caller.pc, PlanMove(hash, w, caller, move))
  {
    var pc := caller.pc;
    match move
    case FindByState(id) => assert SessionInv(w, id);
    case Get(now) =>
      var id := if pc.Found? then pc.first.id else if caller.request.Poll? then caller.request.id else "";
      assert SessionInv(w, id);
    case _ =>
  }

  // ----- the rows -----

  /** What one step does to one session row. */
  ghost predicate RowStep(w: World, v: World, id: string) {
    || (id in w.sessions && id in v.sessions && v.sessions[id] == w.sessions[id])
    || id !in v.sessions
    || Begun(w, v, id)
    || Advanced(w, v, id)
    || (id in w.sessions && id in v.fenced && w.sessions[id].status != Exchanging && v.sessions[id] == w.sessions[id].(status := Erasing))
  }

  ghost predicate Begun(w: World, v: World, id: string)
    requires id in v.sessions
  {
    var r := v.sessions[id];
    id !in w.started && id in v.started && r.status == Pending && r.id == id && r.verifier == Some(Sealed(id, v.started[id]))
  }

  ghost predicate Advanced(w: World, v: World, id: string)
    requires id in v.sessions
  {
    var r := v.sessions[id];
    && id in w.sessions && id !in w.fenced && r.verifier.None? && r.id == id && id in w.started
    && (Advances(w.sessions[id].status, r.status)
        || (w.sessions[id].status == Exchanging && r.status == Connected && r.account == Some(AccountKey(id)) && ExchangeSucceeded(w, id)))
  }

  lemma EffectRow(w: World, pc: Pc, effect: Effect, v: World, id: string)
    requires SessionInv(w, id) && EffectInv(w, pc, effect) && v == Perform(w, effect)
    ensures RowStep(w, v, id)
  {
    if effect.Transact? && v != w && id == effect.record.id {
      var i :| 0 <= i < |w.exchanges| && w.exchanges[i].session == id && w.exchanges[i].reply == Granted(effect.tokens);
      assert Succeeded(w.exchanges[i].reply);
    }
  }

  /** A grant appears only together with the connected session. */
  predicate GrantStep(w: World, v: World, id: string) {
    AccountKey(id) in v.grants ==> AccountKey(id) in w.grants || (id in v.sessions && v.sessions[id].status == Connected)
  }

  lemma AccountKeyInjective(a: string, b: string)
    requires AccountKey(a) == AccountKey(b)
    ensures a == b
  {
    assert a == AccountKey(a)[8..] && b == AccountKey(b)[8..];
  }

  lemma EffectGrant(w: World, effect: Effect, v: World, id: string)
    requires v == Perform(w, effect)
    ensures GrantStep(w, v, id)
  {
    if effect.Transact? && AccountKey(id) == AccountKey(effect.record.id) {
      AccountKeyInjective(id, effect.record.id);
    }
  }

  /** The rest of the world only accumulates. */
  ghost predicate Grows(w: World, v: World) {
    && (forall id :: id in w.started ==> id in v.started && v.started[id] == w.started[id])
    && w.fenced <= v.fenced && w.exchanges <= v.exchanges
  }

  lemma EffectShape(w: World, effect: Effect, v: World)
    requires v == Perform(w, effect)
    ensures v.started == w.started && v.fenced == w.fenced && v.callers == w.callers
    ensures v.exchanges == if effect.Send? then w.exchanges + [effect.entry] else w.exchanges
  {
  }

  lemma RowKeepsSession(w: World, v: World, id: string)
    requires SessionInv(w, id) && RowStep(w, v, id) && Grows(w, v) && GrantStep(w, v, id)
    requires id !in w.started ==> AccountKey(id) !in w.grants
    ensures SessionInv(v, id)
    ensures id !in v.started ==> AccountKey(id) !in v.grants
    ensures NotPending(w, id) ==> NotPending(v, id)
  {
    if ExchangeSucceeded(w, id) {
      var i :| 0 <= i < |w.exchanges| && w.exchanges[i].session == id && Succeeded(w.exchanges[i].reply);
      assert v.exchanges[i] == w.exchanges[i];
    }
  }

  // ----- the callers -----

  /** A caller keeps its facts, as long as nobody sends the request it is about to send. */
  lemma PcStays(w: World, v: World, pc: Pc)
    requires PcInv(w, pc) && Grows(w, v)
    requires forall id :: NotPending(w, id) ==> NotPending(v, id)
    requires pc.Claimed? ==> !Exchanged(v, pc.record.id)
    ensures PcInv(v, pc)
  {
    if pc.Answered? {
      var i :| 0 <= i < |w.exchanges| && w.exchanges[i].session == pc.record.id && w.exchanges[i].reply == pc.reply;
      assert v.exchanges[i] == w.exchanges[i];
    }
  }

  lemma NoClaimOnPending(w: World, c: nat, id: string)
    requires CallerInv(w, c) && Claims(w, c, id)
    ensures NotPending(w, id) && !Exchanged(w, id)
  {
  }

  lemma ExchangedIsNotPending(w: World, id: string)
    requires HistoryInv(w)
    ensures Exchanged(w, id) ==> NotPending(w, id)
  {
    if Exchanged(w, id) {
      var i :| 0 <= i < |w.exchanges| && w.exchanges[i].session == id;
      assert EntryInv(w, w.exchanges[i]);
    }
  }

  lemma MoverKeeps(w: World, pc: Pc, effect: Effect, v: World)
    requires PcInv(w, pc) && HistoryInv(w) && EffectInv(w, pc, effect) && v == Perform(w, effect)
    requires forall id :: NotPending(w, id) ==> NotPending(v, id)
    ensures PcInv(v, After(effect))
  {
    EffectShape(w, effect, v);
    match effect
    case Stay(next) => PcStays(w, v, next);
    case Store(record, previous, fate, next) => ExchangedIsNotPending(w, record.id);
    case Send(entry, next) => assert v.exchanges[|w.exchanges|] == entry;
    case Transact(_, _, _, _, _) =>
  }

  lemma HistoryKeeps(w: World, pc: Pc, effect: Effect, v: World)
    requires PcInv(w, pc) && HistoryInv(w) && EffectInv(w, pc, effect) && v == Perform(w, effect)
    requires forall id :: NotPending(w, id) ==> NotPending(v, id)
    ensures HistoryInv(v)
  {
    EffectShape(w, effect, v);
    forall i | 0 <= i < |v.exchanges| ensures EntryInv(v, v.exchanges[i]) {
      if i < |w.exchanges| { assert EntryInv(w, w.exchanges[i]); }
    }
  }

  lemma ClaimKeeps(hash: string -> string, w: World, c: nat, effect: Effect, v: World)
    requires c in w.callers && OneClaim(w) && (forall d :: CallerInv(w, d)) && EffectInv(w, w.callers[c].pc, effect)
    requires v.callers == w.callers[c := w.callers[c].(pc := After(effect))]
    ensures OneClaim(v)
  {
    forall d, e, id | Claims(v, d, id) && Claims(v, e, id) ensures d == e {
      if d != c { assert Claims(w, d, id); NoClaimOnPending(w, d, id); }
      if e != c { assert Claims(w, e, id); NoClaimOnPending(w, e, id); }
      if effect.Stay? && (d == c || e == c) { assert Claims(w, c, id); }
    }
  }

  lemma MoveKeeps(hash: string -> string, w: World, c: nat, move: Move, v: World)
    requires Inv(w) && At(w, c) && v == ApplyMove(hash, w, c, move)
    ensures Inv(v)
  {
    var pc, effect := w.callers[c].pc, PlanMove(hash, w, w.callers[c], move);
    var t := Perform(w, effect);
    assert CallerInv(w, c);
    PlanKeeps(hash, w, w.callers[c], move);
    EffectShape(w, effect, t);
    forall id ensures SessionInv(t, id) && (id !in t.started ==> AccountKey(id) !in t.grants) && (NotPending(w, id) ==> NotPending(t, id)) {
      assert SessionInv(w, id);
      EffectRow(w, pc, effect, t, id);
      EffectGrant(w, effect, t, id);
      RowKeepsSession(w, t, id);
    }
    MoverKeeps(w, pc, effect, t);
    HistoryKeeps(w, pc, effect, t);
    ClaimKeeps(hash, w, c, effect, v);
    OthersKeep(w, c, effect, t);
    Recombine(w, c, effect, t, v);
  }

  lemma OthersKeep(w: World, c: nat, effect: Effect, t: World)
    requires c in w.callers && OneClaim(w) && (forall d :: CallerInv(w, d)) && EffectInv(w, w.callers[c].pc, effect) && t == Perform(w, effect)
    requires forall id :: NotPending(w, id) ==> NotPending(t, id)
    ensures forall d :: d in w.callers && d != c ==> PcInv(t, w.callers[d].pc)
  {
    EffectShape(w, effect, t);
    forall d | d in w.callers && d != c ensures PcInv(t, w.callers[d].pc) {
      var pc := w.callers[d].pc;
      assert CallerInv(w, d);
      if pc.Claimed? && effect.Send? {
        assert Claims(w, d, pc.record.id) && Claims(w, c, effect.entry.session);
      }
      PcStays(w, t, pc);
    }
  }

  ghost predicate RowsInv(w: World) {
    (forall id :: SessionInv(w, id)) && HistoryInv(w) && (forall id :: id !in w.started ==> AccountKey(id) !in w.grants)
  }

  /** The facts about rows and history do not read the callers. */
  lemma Recombine(w: World, c: nat, effect: Effect, t: World, v: World)
    requires RowsInv(t) && c in w.callers && t.callers == w.callers && v == t.(callers := w.callers[c := w.callers[c].(pc := After(effect))])
    requires PcInv(t, After(effect)) && OneClaim(v)
    requires forall d :: d in w.callers && d != c ==> PcInv(t, w.callers[d].pc)
    ensures Inv(v)
  {
    forall id ensures SessionInv(v, id) { assert SessionInv(t, id); }
    forall i | 0 <= i < |v.exchanges| ensures EntryInv(v, v.exchanges[i]) { assert EntryInv(t, t.exchanges[i]); }
    forall d ensures CallerInv(v, d) {
      if d in v.callers {
        PcStays(t, v, v.callers[d].pc);
      }
    }
  }

  /** The steps of everybody else: they send nothing and move nobody. */
  lemma OtherRow(hash: string -> string, w: World, a: Action, v: World, id: string)
    requires SessionInv(w, id) && !a.Step? && v == Apply(hash, w, a)
    ensures RowStep(w, v, id) && GrantStep(w, v, id) && Grows(w, v) && v.exchanges == w.exchanges
  {
    match a
    case Start(session, text) => StartRow(w, session, text, v, id);
    case PrepareUser(user) => if !UserBusy(w, user) { PrepareRow(w, user, v, id); }
    case EraseSessions(ids) =>
    case EraseGrants(keys) =>
    case _ =>
  }

  lemma StartRow(w: World, session: Session, text: string, v: World, id: string)
    requires SessionInv(w, id)
    requires v == if CanStart(w, session, text) then w.(sessions := w.sessions[session.id := session], started := w.started[session.id := text]) else w
    ensures RowStep(w, v, id) && Grows(w, v)
  {
  }

  lemma PrepareRow(w: World, user: string, v: World, id: string)
    requires SessionInv(w, id) && !UserBusy(w, user)
    requires v.sessions == ErasingSessions(w, user) && v.fenced == w.fenced + UserSessions(w, user)
    ensures RowStep(w, v, id)
  {
  }

  ghost predicate CallersStay(w: World, v: World) {
    forall c :: c in v.callers ==> (c in w.callers && v.callers[c] == w.callers[c]) || v.callers[c].pc == Fresh
  }

  lemma OtherCallers(hash: string -> string, w: World, a: Action, v: World)
    requires !a.Step? && v == Apply(hash, w, a)
    ensures CallersStay(w, v)
  {
  }

  lemma OtherPartsKeep(w: World, v: World)
    requires Inv(w) && CallersStay(w, v) && Grows(w, v) && v.exchanges == w.exchanges
    requires forall id :: RowStep(w, v, id) && GrantStep(w, v, id)
    ensures Inv(v)
  {
    forall id ensures SessionInv(v, id) && (id !in v.started ==> AccountKey(id) !in v.grants) && (NotPending(w, id) ==> NotPending(v, id)) {
      assert SessionInv(w, id) && RowStep(w, v, id) && GrantStep(w, v, id);
      RowKeepsSession(w, v, id);
    }
    forall i | 0 <= i < |v.exchanges| ensures EntryInv(v, v.exchanges[i]) { assert EntryInv(w, w.exchanges[i]); }
    forall c ensures CallerInv(v, c) {
      assert CallerInv(w, c);
      if c in w.callers { PcStays(w, v, w.callers[c].pc); }
    }
    forall c, d, id | Claims(v, c, id) && Claims(v, d, id) ensures c == d {
      assert Claims(w, c, id) && Claims(w, d, id);
    }
  }

  lemma OtherKeeps(hash: string -> string, w: World, a: Action, v: World)
    requires Inv(w) && !a.Step? && v == Apply(hash, w, a)
    ensures Inv(v)
  {
    forall id ensures RowStep(w, v, id) && GrantStep(w, v, id) {
      assert SessionInv(w, id);
      OtherRow(hash, w, a, v, id);
    }
    assert SessionInv(w, "");
    OtherRow(hash, w, a, v, "");
    OtherCallers(hash, w, a, v);
    OtherPartsKeep(w, v);
  }

  lemma StepKeeps(hash: string -> string, w: World, a: Action)
    requires Inv(w)
    ensures Inv(Apply(hash, w, a))
  {
    if a.Step? {
      if At(w, a.c) {
        MoveKeeps(hash, w, a.c, a.move, Apply(hash, w, a));
      }
    } else {
      OtherKeeps(hash, w, a, Apply(hash, w, a));
    }
  }

  lemma {:induction false} RunKeeps(hash: string -> string, w: World, actions: seq<Action>)
    requires Inv(w)
    ensures Inv(Run(hash, w, actions))
    decreases |actions|
  {
    if actions != [] {
      StepKeeps(hash, w, actions[0]);
      RunKeeps(hash, Apply(hash, w, actions[0]), actions[1..]);
    }
  }
}
