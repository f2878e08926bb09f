/** The OAuth session store statement by statement. One uninterrupted execution is one run
    of the machine.
    internal/infrastructure/persistence/database/integration/oauth_session_store.go */
module OAuthStore {
  import opened Basics
  import opened OAuthSessions
  import C = Credentials
  import opened CredentialStore

  /** What the host and the provider answer along the way. */
  datatype Environment = Environment(
    now: int, writeFate: Fate, rejectFate: Fate, ready: bool, claimFate: Fate,
    reply: Reply, settleFate: Fate, moment: nat, commitFate: Fate)

  predicate OwnSteps(trace: seq<Action>, c: nat) {
    forall i :: 0 <= i < |trace| ==> (trace[i].Begin? || trace[i].Step?) && trace[i].c == c
  }

  lemma {:induction false} RunSnoc(hash: string -> string, w: World, actions: seq<Action>, a: Action)
    ensures Run(hash, w, actions + [a]) == Apply(hash, Run(hash, w, actions), a)
    decreases |actions|
  {
    if actions == [] {
      assert [a][1..] == [];
    } else {
      assert (actions + [a])[1..] == actions[1..] + [a];
      RunSnoc(hash, Apply(hash, w, actions[0]), actions[1..], a);
    }
  }

  class OAuthSessionStore {
    const hash: string -> string
    const credentials: CredentialStore
    var sessions: map<string, Session>
    var fenced: set<string>
    var apps: map<string, App>
    var grants: map<string, seq<string>>
    ghost var callers: map<nat, Caller>
    ghost var started: map<string, string>
    ghost var exchanges: seq<Exchange>

    constructor (hash: string -> string)
      ensures this.hash == hash && View() == Empty && fresh(credentials)
    {
      this.hash := hash;
      credentials := new CredentialStore();
      sessions, fenced, apps, grants := map[], {}, map[], map[];
      callers, started, exchanges := map[], map[], [];
    }

    ghost function View(): World
      reads this, credentials
    {
      World(sessions, fenced, apps, credentials.View(), grants, callers, started, exchanges)
    }

    ghost predicate Traced(start: World, trace: seq<Action>, c: nat)
      reads this, credentials
    {
      View() == Run(hash, start, trace) && OwnSteps(trace, c)
    }

    ghost predicate At(c: nat, subject: Subject, request: Request, pc: Pc)
      reads this
    {
      c in callers && callers[c] == Caller(subject, request, pc)
    }

    /** Record a move of caller `c`; the tables already are as its effect leaves them. */
    ghost method Advance(start: World, trace: seq<Action>, before: World, c: nat, move: Move, effect: Effect) returns (extended: seq<Action>)
      requires before == Run(hash, start, trace) && OwnSteps(trace, c)
      requires before.callers == callers && before.started == started && before.exchanges == exchanges && before.fenced == fenced && before.apps == apps
      requires OAuthSessions.At(before, c) && PlanMove(hash, before, before.callers[c], move) == effect
      requires var after := Perform(before, effect); after.sessions == sessions && after.grants == grants && after.credentials == credentials.View()
      modifies this`callers, this`exchanges
      ensures View() == Perform(before, effect).(callers := before.callers[c := before.callers[c].(pc := After(effect))])
      ensures Traced(start, extended, c)
    {
      OnlyThese(before, effect);
      callers, exchanges := before.callers[c := before.callers[c].(pc := After(effect))], Perform(before, effect).exchanges;
      RunSnoc(hash, start, trace, Step(c, move));
      extended := trace + [Step(c, move)];
    }

    lemma OnlyThese(w: World, effect: Effect)
      ensures Perform(w, effect).started == w.started && Perform(w, effect).fenced == w.fenced && Perform(w, effect).apps == w.apps
    {
    }

    /** The conditional update as a move of caller `c`. */
    method StoreSession(ghost c: nat, record: Session, previous: Status, fate: Fate, ghost move: Move, ghost pc: Pc, ghost start: World, ghost past: seq<Action>)
      returns (ok: bool, ghost trace: seq<Action>)
      requires Traced(start, past, c) && OAuthSessions.At(View(), c)
      requires PlanMove(hash, View(), callers[c], move) == Store(record, previous, fate, pc)
      modifies this`sessions, this`callers, this`exchanges
      ensures Traced(start, trace, c) && exchanges == old(exchanges)
      ensures callers == old(callers)[c := old(callers)[c].(pc := pc)]
      ensures ok <==> fate == Landed && Updates(old(View()), record, previous)
    {
      ghost var before := View();
      ok := UpdateOAuthSession(record, previous, fate);
      trace := Advance(start, past, before, c, move, Store(record, previous, fate, pc));
    }

    predicate MayStart(subject: Subject, session: Session)
      reads this, credentials
    {
      && subject.userId !in credentials.fencedSubjects && ScopeAllowed(subject, session.personal)
      && session.applicationKey in apps && apps[session.applicationKey].enabled && apps[session.applicationKey].revision == session.revision
    }

    /** Insert a pending session after the guard, the scope and the application were checked.
        `ready` stands for the requested scopes, the provider's authorization URL and the encryption. */
    method StartOAuthAuthorization(subject: Subject, session: Session, text: string, ready: bool) returns (ok: bool)
      requires CanStart(View(), session, text) && session.userId == subject.userId
      modifies this`sessions, this`started
      ensures ok <==> ready && old(MayStart(subject, session))
      ensures View() == if ok then Apply(hash, old(View()), Start(session, text)) else old(View())
    {
      if subject.userId in credentials.fencedSubjects || !ScopeAllowed(subject, session.personal) {
        return false;
      }
      if session.applicationKey !in apps || !apps[session.applicationKey].enabled || apps[session.applicationKey].revision != session.revision {
        return false;
      }
      if !ready {
        return false;
      }
      sessions := sessions[session.id := session];
      started := started[session.id := text];
      ok := true;
    }

    method UpdateOAuthSession(record: Session, previous: Status, fate: Fate) returns (ok: bool)
      modifies this`sessions
      ensures ok <==> fate == Landed && Updates(old(View()), record, previous)
      ensures sessions == if fate.Lands() then Update(old(View()), record, previous).sessions else old(sessions)
    {
      ok := false;
      if fate.Lands() && record.id in sessions && sessions[record.id].userId == record.userId
         && sessions[record.id].status == previous && record.id !in fenced {
        sessions := sessions[record.id := record.(verifier := None)];
        ok := fate == Landed;
      }
    }

    /** Poll: expire a pending session, give up on an exchange past its deadline. */
    method GetOAuthAuthorization(ghost c: nat, subject: Subject, id: string, env: Environment) returns (reply: Option<Session>, ghost trace: seq<Action>)
      requires c !in callers
      modifies this`sessions, this`callers, this`exchanges
      ensures Traced(old(View()), trace, c) && At(c, subject, Poll(id), Done) && exchanges == old(exchanges)
      ensures reply.Some? ==> NextStatus(reply.value, env.now) == reply.value.status
    {
      ghost var start := View();
      trace := Register(c, subject, Poll(id));
      reply, trace := Refresh(c, subject, Poll(id), Fresh, id, env, start, trace);
    }

    ghost method Register(c: nat, subject: Subject, request: Request) returns (trace: seq<Action>)
      requires c !in callers && (request.Complete? ==> ValidCallback(request.callback))
      modifies this`callers
      ensures Traced(old(View()), trace, c) && At(c, subject, request, Fresh)
      ensures callers == old(callers)[c := Caller(subject, request, Fresh)]
    {
      ghost var start := View();
      callers := callers[c := Caller(subject, request, Fresh)];
      RunSnoc(hash, start, [], Begin(c, subject, request));
      trace := [] + [Begin(c, subject, request)];
    }

    /** Where a poll stands after its read. */
    ghost function AfterGet(pc: Pc, record: Option<Session>, now: int): Pc {
      if record.None? then Done
      else if NextStatus(record.value, now) != record.value.status then Polled(record.value, NextStatus(record.value, now))
      else if pc.Found? && record.value.status == Pending then Checked(pc.first) else Done
    }

    ghost function Visible(subject: Subject, id: string): Option<Session>
      reads this
    {
      if id in sessions && sessions[id].userId == subject.userId && ScopeAllowed(subject, sessions[id].personal) then Some(sessions[id]) else None
    }

    method ReadSession(ghost c: nat, subject: Subject, ghost request: Request, ghost pc: Pc, id: string, now: int, ghost start: World, ghost past: seq<Action>)
      returns (record: Option<Session>, ghost trace: seq<Action>)
      requires Traced(start, past, c) && At(c, subject, request, pc)
      requires (pc == Fresh && request == Poll(id)) || (pc.Found? && pc.first.id == id)
      modifies this`callers, this`exchanges
      ensures Traced(start, trace, c) && exchanges == old(exchanges) && At(c, subject, request, AfterGet(pc, record, now))
    {
      ghost var before := View();
      trace := Advance(start, past, before, c, Get(now), Stay(AfterGet(pc, Visible(subject, id), now)));
      record := None;
      if id in sessions && sessions[id].userId == subject.userId && ScopeAllowed(subject, sessions[id].personal) {
        record := Some(sessions[id]);
      }
    }

    method WriteSession(ghost c: nat, subject: Subject, ghost request: Request, record: Session, next: Status, fate: Fate, ghost start: World, ghost past: seq<Action>)
      returns (ok: bool, ghost trace: seq<Action>)
      requires Traced(start, past, c) && At(c, subject, request, Polled(record, next))
      modifies this`sessions, this`callers, this`exchanges
      ensures Traced(start, trace, c) && exchanges == old(exchanges) && At(c, subject, request, Done)
      ensures ok <==> fate == Landed && Updates(old(View()), record, record.status)
    {
      ok, trace := StoreSession(c, record.(status := next), record.status, fate, WriteBack(fate), Done, start, past);
    }

    /** The read and the conditional write of a poll. */
    method Refresh(ghost c: nat, subject: Subject, ghost request: Request, ghost pc: Pc, id: string, env: Environment, ghost start: World, ghost past: seq<Action>)
      returns (reply: Option<Session>, ghost trace: seq<Action>)
      requires Traced(start, past, c) && At(c, subject, request, pc)
      requires (pc == Fresh && request == Poll(id)) || (pc.Found? && pc.first.id == id)
      modifies this`sessions, this`callers, this`exchanges
      ensures Traced(start, trace, c) && exchanges == old(exchanges)
      ensures At(c, subject, request, if pc.Found? && reply.Some? && reply.value.status == Pending then Checked(pc.first) else Done)
      ensures reply.Some? ==> NextStatus(reply.value, env.now) == reply.value.status
    {
      reply, trace := ReadSession(c, subject, request, pc, id, env.now, start, past);
      if reply.None? {
        return;
      }
      var record := reply.value;
      var next := record.status;
      if record.status == Pending && record.expiresAt <= env.now {
        next := Expired;
      }
      if record.status == Exchanging && record.deadline <= env.now {
        next := NeedsReauthorization;
      }
      if next != record.status {
        var ok;
        ok, trace := WriteSession(c, subject, request, record, next, env.writeFate, start, trace);
        reply := if ok then Some(record.(status := next)) else None;
      }
    }

    /** One transaction: four secrets, the connection, its account, the grant, the session. */
    method Provision(record: Session, app: App, tokens: Tokens, moment: nat, fate: Fate) returns (ok: bool)
      modifies this`sessions, this`grants, credentials
      ensures View() == Perform(old(View()), Transact(record, app, tokens, moment, fate))
      ensures ok <==> fate == Landed && OAuthSessions.Provision(old(View()), record, app, tokens, moment).Some?
    {
      ok := false;
      if fate.Lands() {
        ok := ProvisionRows(record, app, tokens, moment);
        ok := ok && fate == Landed;
      }
    }

    method ProvisionRows(record: Session, app: App, tokens: Tokens, moment: nat) returns (ok: bool)
      modifies this`sessions, this`grants, credentials
      ensures ok <==> OAuthSessions.Provision(old(View()), record, app, tokens, moment).Some?
      ensures View() == if ok then OAuthSessions.Provision(old(View()), record, app, tokens, moment).value else old(View())
    {
      ok := false;
      if record.id !in sessions || sessions[record.id].status != Exchanging {
        return;
      }
      if record.applicationKey !in apps || !apps[record.applicationKey].enabled || apps[record.applicationKey].revision != record.revision {
        return;
      }
      var snapshot := credentials.Snapshot();
      var stored := ProvisionAccount(record, app, tokens, moment);
      if !stored || AccountKey(record.id) in grants || sessions[record.id].userId != record.userId || record.id in fenced {
        credentials.Restore(snapshot);
        return;
      }
      grants := grants[AccountKey(record.id) := tokens.granted];
      sessions := sessions[record.id := ConnectedRecord(record, tokens).(verifier := None)];
      ok := true;
    }

    method ProvisionAccount(record: Session, app: App, tokens: Tokens, moment: nat) returns (ok: bool)
      modifies credentials
      ensures ok <==> ProvisionCredentials(old(credentials.View()), record, app, tokens, moment).Some?
      ensures ok ==> Some(credentials.View()) == ProvisionCredentials(old(credentials.View()), record, app, tokens, moment)
    {
      var fields := Fields(tokens, app);
      ghost var before := credentials.View();
      var i := 0;
      while i < |fields|
        invariant 0 <= i <= |fields|
        invariant PutSecrets(credentials.View(), record.id, record.userId, fields[i..], moment) == PutSecrets(before, record.id, record.userId, fields, moment)
      {
        var (field, value) := fields[i];
        ok := credentials.UpsertSecret(SecretKey(record.id, field), record.userId, value, moment);
        if !ok {
          return;
        }
        assert fields[i..][1..] == fields[i + 1..];
        i := i + 1;
      }
      ok := credentials.UpsertConnection(AccountKey(record.id), record.userId, C.Connection(C.OwnerRow(AccountKey(record.id)), C.ConnectionActive, References(record.id, fields), moment));
      if ok {
        ok := credentials.RegisterConnectionAccount(AccountKey(record.id), NewAccount(record));
      }
    }

    /** The callback: find the session by its state, poll it, check the application, then
        reject it or claim and perform its one exchange. */
    method CompleteOAuthAuthorization(ghost c: nat, subject: Subject, callback: Callback, env: Environment) returns (reply: Option<Status>, ghost trace: seq<Action>)
      requires c !in callers
      modifies this`sessions, this`grants, this`callers, this`exchanges, credentials
      ensures ValidCallback(callback) ==> Traced(old(View()), trace, c) && At(c, subject, Complete(callback), Done)
      ensures !ValidCallback(callback) ==> View() == old(View()) && reply == None
      ensures |old(exchanges)| <= |exchanges| <= |old(exchanges)| + 1
    {
      trace := [];
      if !ValidCallback(callback) {
        return None, trace;
      }
      ghost var start := View();
      trace := Register(c, subject, Complete(callback));
      var found;
      found, trace := FindSession(c, subject, callback, start, trace);
      if found.None? {
        return None, trace;
      }
      var polled;
      polled, trace := Refresh(c, subject, Complete(callback), Found(found.value), found.value.id, env, start, trace);
      if polled.None? || polled.value.status != Pending {
        return if polled.Some? then Some(polled.value.status) else None, trace;
      }
      var app;
      app, trace := LoadApplication(c, subject, callback, found.value, start, trace);
      if app.None? {
        return None, trace;
      }
      if callback.error != "" {
        reply, trace := Reject(c, subject, callback, found.value, app.value, env.rejectFate, start, trace);
      } else {
        reply, trace := ExchangeOnce(c, subject, callback, found.value, app.value, env, start, trace);
      }
    }

    method FindSession(ghost c: nat, subject: Subject, callback: Callback, ghost start: World, ghost past: seq<Action>)
      returns (found: Option<Session>, ghost trace: seq<Action>)
      requires Traced(start, past, c) && At(c, subject, Complete(callback), Fresh)
      modifies this`callers, this`exchanges
      ensures Traced(start, trace, c) && exchanges == old(exchanges)
      ensures At(c, subject, Complete(callback), if found.Some? then Found(found.value) else Done)
    {
      ghost var before := View();
      if id :| id in sessions && sessions[id].userId == subject.userId && ScopeAllowed(subject, sessions[id].personal) && sessions[id].stateHash == hash(callback.state) {
        trace := Advance(start, past, before, c, FindByState(id), Stay(Found(sessions[id])));
        found := Some(sessions[id]);
      } else {
        trace := Advance(start, past, before, c, Crash, Stay(Done));
        found := None;
      }
    }

    method LoadApplication(ghost c: nat, subject: Subject, callback: Callback, first: Session, ghost start: World, ghost past: seq<Action>)
      returns (app: Option<App>, ghost trace: seq<Action>)
      requires Traced(start, past, c) && At(c, subject, Complete(callback), Checked(first))
      modifies this`callers, this`exchanges
      ensures Traced(start, trace, c) && exchanges == old(exchanges)
      ensures At(c, subject, Complete(callback), if app.Some? then Cleared(first, app.value) else Done)
      ensures app.Some? <==> AppUnchanged(old(View()), first.applicationKey, first.revision)
    {
      ghost var before := View();
      trace := Advance(start, past, before, c, Move.LoadApplication, Stay(if AppUnchanged(before, first.applicationKey, first.revision) then Cleared(first, apps[first.applicationKey]) else Done));
      app := None;
      if first.applicationKey in apps && apps[first.applicationKey].enabled && apps[first.applicationKey].revision == first.revision {
        app := Some(apps[first.applicationKey]);
      }
    }

    method Reject(ghost c: nat, subject: Subject, callback: Callback, first: Session, app: App, fate: Fate, ghost start: World, ghost past: seq<Action>)
      returns (reply: Option<Status>, ghost trace: seq<Action>)
      requires Traced(start, past, c) && At(c, subject, Complete(callback), Cleared(first, app)) && callback.error != ""
      modifies this`sessions, this`callers, this`exchanges
      ensures Traced(start, trace, c) && exchanges == old(exchanges) && At(c, subject, Complete(callback), Done)
      ensures reply == if fate == Landed && Updates(old(View()), first, Pending) then Some(Rejected) else None
    {
      var ok;
      ok, trace := StoreSession(c, first.(status := Rejected), Pending, fate, RejectCallback(fate), Done, start, past);
      reply := if ok then Some(Rejected) else None;
    }

    /** Claim, then send the one request of this session; without the claim nothing is sent. */
    method ExchangeOnce(ghost c: nat, subject: Subject, callback: Callback, first: Session, app: App, env: Environment, ghost start: World, ghost past: seq<Action>)
      returns (reply: Option<Status>, ghost trace: seq<Action>)
      requires Traced(start, past, c) && At(c, subject, Complete(callback), Cleared(first, app)) && callback.error == ""
      modifies this`sessions, this`grants, this`callers, this`exchanges, credentials
      ensures Traced(start, trace, c) && At(c, subject, Complete(callback), Done)
      ensures |old(exchanges)| <= |exchanges| <= |old(exchanges)| + 1
    {
      var verifier;
      verifier, trace := ClaimSession(c, subject, callback, first, app, env, start, past);
      if verifier.None? {
        return None, trace;
      }
      var record := first.(status := Exchanging, deadline := env.now + 60);
      ghost var before := View();
      trace := Advance(start, trace, before, c, ExchangeCode(env.reply),
                       Send(Exchange(record.id, app.clientId, callback.code, verifier.value, env.reply), Answered(record, app, env.reply)));
      if env.reply.Granted? && Usable(env.reply.tokens) {
        reply, trace := CommitTokens(c, subject, callback, record, app, env, start, trace);
      } else {
        reply, trace := SettleFailed(c, subject, callback, record, app, env.reply, env.settleFate, start, trace);
      }
    }

    method ClaimSession(ghost c: nat, subject: Subject, callback: Callback, first: Session, app: App, env: Environment, ghost start: World, ghost past: seq<Action>)
      returns (verifier: Option<string>, ghost trace: seq<Action>)
      requires Traced(start, past, c) && At(c, subject, Complete(callback), Cleared(first, app)) && callback.error == ""
      modifies this`sessions, this`callers, this`exchanges
      ensures Traced(start, trace, c) && exchanges == old(exchanges)
      ensures At(c, subject, Complete(callback), if verifier.Some? then Claimed(first.(status := Exchanging, deadline := env.now + 60), app, verifier.value) else Done)
    {
      ghost var before := View();
      verifier := Open(first.verifier, first.id);
      if !env.ready || verifier.None? {
        verifier := None;
        trace := Advance(start, past, before, c, Claim(env.now, env.ready, env.claimFate), Stay(Done));
        return;
      }
      var record := first.(status := Exchanging, deadline := env.now + 60);
      ghost var pc := if env.claimFate == Landed && Updates(before, record, Pending) then Claimed(record, app, verifier.value) else Done;
      var ok;
      ok, trace := StoreSession(c, record, Pending, env.claimFate, Claim(env.now, env.ready, env.claimFate), pc, start, past);
      if !ok {
        verifier := None;
      }
    }

    method SettleFailed(ghost c: nat, subject: Subject, callback: Callback, record: Session, app: App, answer: Reply, fate: Fate, ghost start: World, ghost past: seq<Action>)
      returns (reply: Option<Status>, ghost trace: seq<Action>)
      requires Traced(start, past, c) && At(c, subject, Complete(callback), Answered(record, app, answer)) && !Succeeded(answer)
      modifies this`sessions, this`callers, this`exchanges
      ensures Traced(start, trace, c) && exchanges == old(exchanges) && At(c, subject, Complete(callback), Done)
    {
      var status := NeedsReauthorization;
      if answer.ExchangeFailed? && answer.permanent {
        status := Rejected;
      }
      var ok;
      ok, trace := StoreSession(c, record.(status := status), Exchanging, fate, SettleFailure(fate), Done, start, past);
      reply := if ok then Some(status) else None;
    }

    method CommitTokens(ghost c: nat, subject: Subject, callback: Callback, record: Session, app: App, env: Environment, ghost start: World, ghost past: seq<Action>)
      returns (reply: Option<Status>, ghost trace: seq<Action>)
      requires Traced(start, past, c) && At(c, subject, Complete(callback), Answered(record, app, env.reply)) && Succeeded(env.reply)
      modifies this`sessions, this`grants, this`callers, this`exchanges, credentials
      ensures Traced(start, trace, c) && exchanges == old(exchanges) && At(c, subject, Complete(callback), Done)
      ensures reply.Some? ==> record.id in sessions && sessions[record.id].status == Connected
    {
      ghost var before := View();
      var ok := Provision(record, app, env.reply.tokens, env.moment, env.commitFate);
      trace := Advance(start, past, before, c, Commit(env.moment, env.commitFate),
                       Transact(record, app, env.reply.tokens, env.moment, env.commitFate));
      reply := if ok then Some(Connected) else None;
    }
  }
}
