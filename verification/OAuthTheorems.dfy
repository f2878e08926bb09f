/** What the OAuth session protocol promises, over every run. */
module OAuthTheorems {
  import opened Basics
  import opened Text
  import opened OAuthSessions
  import opened OAuthSafety
  import C = Credentials
  import CT = CredentialTheorems

  /** A code is exchanged at most once per session, with the verifier made for that session
      (single use: section 4.1.2 of RFC 6749; verifier: section 4.1 of RFC 7636). */
  lemma CodeIsExchangedAtMostOnce(hash: string -> string, actions: seq<Action>, i: nat, j: nat)
    requires i < |Run(hash, Empty, actions).exchanges| && j < |Run(hash, Empty, actions).exchanges|
    ensures var w := Run(hash, Empty, actions);
            && (w.exchanges[i].session == w.exchanges[j].session ==> i == j)
            && w.exchanges[i].session in w.started && w.exchanges[i].verifier == w.started[w.exchanges[i].session]
  {
    RunKeeps(hash, Empty, actions);
    var w := Run(hash, Empty, actions);
    assert EntryInv(w, w.exchanges[i]);
  }

  /** Outside erasure the verifier is stored exactly while the session is pending. */
  lemma VerifierIsStoredWhilePending(hash: string -> string, actions: seq<Action>, id: string)
    requires id in Run(hash, Empty, actions).sessions && Run(hash, Empty, actions).sessions[id].status != Erasing
    ensures var r := Run(hash, Empty, actions).sessions[id]; r.verifier.Some? <==> r.status == Pending
  {
    RunKeeps(hash, Empty, actions);
    assert SessionInv(Run(hash, Empty, actions), id);
  }

  // ----- terminal statuses -----

  /** The row as it was, or marked for erasure, or gone. */
  ghost predicate EndsAs(v: World, id: string, last: Session) {
    && id in v.started
    && (id in v.sessions ==> v.sessions[id] == last || (v.sessions[id] == last.(status := Erasing) && id in v.fenced))
  }

  lemma StepEnds(hash: string -> string, w: World, a: Action, id: string, last: Session)
    requires Inv(w) && EndsAs(w, id, last) && Terminal(last.status)
    ensures EndsAs(Apply(hash, w, a), id, last)
  {
    var v := Apply(hash, w, a);
    StepRowOf(hash, w, a, v, id);
  }

  lemma StepRowOf(hash: string -> string, w: World, a: Action, v: World, id: string)
    requires Inv(w) && v == Apply(hash, w, a)
    ensures RowStep(w, v, id) && Grows(w, v)
  {
    assert SessionInv(w, id);
    if !a.Step? {
      OtherRow(hash, w, a, v, id);
    } else if At(w, a.c) {
      assert CallerInv(w, a.c);
      var effect := PlanMove(hash, w, w.callers[a.c], a.move);
      PlanKeeps(hash, w, w.callers[a.c], a.move);
      EffectRow(w, w.callers[a.c].pc, effect, Perform(w, effect), id);
      EffectShape(w, effect, Perform(w, effect));
    }
  }

  lemma {:induction false} RunEnds(hash: string -> string, w: World, actions: seq<Action>, id: string, last: Session)
    requires Inv(w) && EndsAs(w, id, last) && Terminal(last.status)
    ensures EndsAs(Run(hash, w, actions), id, last)
    decreases |actions|
  {
    if actions != [] {
      StepEnds(hash, w, actions[0], id, last);
      StepKeeps(hash, w, actions[0]);
      RunEnds(hash, Apply(hash, w, actions[0]), actions[1..], id, last);
    }
  }

  /** No terminal status is left, and no part of the row changes, except by erasure. */
  lemma TerminalIsFinal(hash: string -> string, before: seq<Action>, later: seq<Action>, id: string)
    requires id in Run(hash, Empty, before).sessions && Terminal(Run(hash, Empty, before).sessions[id].status)
    ensures EndsAs(Run(hash, Run(hash, Empty, before), later), id, Run(hash, Empty, before).sessions[id])
  {
    var w := Run(hash, Empty, before);
    RunKeeps(hash, Empty, before);
    assert SessionInv(w, id);
    RunEnds(hash, w, later, id, w.sessions[id]);
  }

  // ----- provisioning -----

  predicate DistinctFields(fields: seq<(string, string)>) {
    forall i, j :: 0 <= i < j < |fields| ==> fields[i].0 != fields[j].0
  }

  predicate SecretHolds(s: C.State, key: string, value: string) {
    key in s.secrets && s.secrets[key].status == C.Active && (value != "" ==> s.secrets[key].material == Some(value))
  }

  lemma SecretKeyInjective(session: string, f: string, g: string)
    requires SecretKey(session, f) == SecretKey(session, g)
    ensures f == g
  {
    assert f == SecretKey(session, f)[|session| + 1..] && g == SecretKey(session, g)[|session| + 1..];
  }

  lemma {:induction false} PutSecretsHold(s: C.State, session: string, actor: string, fields: seq<(string, string)>, now: nat)
    requires DistinctFields(fields) && PutSecrets(s, session, actor, fields, now).Some?
    ensures var t := PutSecrets(s, session, actor, fields, now).value;
            && t == s.(secrets := t.secrets)
            && (forall i :: 0 <= i < |fields| ==> SecretHolds(t, SecretKey(session, fields[i].0), fields[i].1))
            && (forall k :: (forall i :: 0 <= i < |fields| ==> k != SecretKey(session, fields[i].0)) ==>
                  (k in t.secrets <==> k in s.secrets) && (k in s.secrets ==> t.secrets[k] == s.secrets[k]))
    decreases |fields|
  {
    if fields != [] {
      var key := SecretKey(session, fields[0].0);
      var u := C.UpsertSecret(s, key, actor, fields[0].1, now).value;
      var t := PutSecrets(s, session, actor, fields, now).value;
      PutSecretsHold(u, session, actor, fields[1..], now);
      forall i | 0 <= i < |fields| - 1 ensures key != SecretKey(session, fields[1..][i].0) {
        if key == SecretKey(session, fields[1..][i].0) { SecretKeyInjective(session, fields[0].0, fields[1..][i].0); }
      }
      forall i | 0 <= i < |fields| ensures SecretHolds(t, SecretKey(session, fields[i].0), fields[i].1) {
        if i > 0 { assert fields[1..][i - 1] == fields[i]; }
      }
      forall k | forall i :: 0 <= i < |fields| ==> k != SecretKey(session, fields[i].0)
        ensures (k in t.secrets <==> k in s.secrets) && (k in s.secrets ==> t.secrets[k] == s.secrets[k])
      {
        assert k != SecretKey(session, fields[0].0);
        forall i | 0 <= i < |fields[1..]| ensures k != SecretKey(session, fields[1..][i].0) { assert fields[1..][i] == fields[i + 1]; }
      }
    }
  }

  /** Connection, account, reservations and the four secrets of a session, all there. */
  ghost predicate CredentialsOf(s: C.State, record: Session, fields: seq<(string, string)>) {
    var key := AccountKey(record.id);
    && key in s.connections && s.connections[key].status == C.ConnectionActive && s.connections[key].refs == References(record.id, fields)
    && key in s.accounts && s.accounts[key] == NewAccount(record)
    && forall i :: 0 <= i < |fields| ==> FieldHolds(s, record, fields[i])
  }

  ghost predicate FieldHolds(s: C.State, record: Session, field: (string, string)) {
    var key := SecretKey(record.id, field.0);
    SecretHolds(s, key, field.1) && key in s.reservations && s.reservations[key] == AccountKey(record.id)
  }

  lemma FieldsAreDistinct(tokens: Tokens, app: App)
    ensures DistinctFields(Fields(tokens, app))
  {
    assert "access_token"[0] != "refresh_token"[0] && "access_token"[0] != "client_id"[0] && "refresh_token"[0] != "client_id"[0];
    assert |"client_id"| != |"client_secret"|;
  }

  lemma ReferencesCover(session: string, fields: seq<(string, string)>, i: nat)
    requires i < |fields|
    ensures SecretKey(session, fields[i].0) in C.ManagedKeys(References(session, fields))
  {
    assert References(session, fields)[fields[i].0] == C.Managed(SecretKey(session, fields[i].0));
  }

  lemma UpsertThenRegister(s: C.State, key: string, actor: string, value: C.Connection, account: C.Account, t: C.State, v: C.State)
    requires C.Upsert(s, key, actor, value) == Some(t) && C.Register(t, key, account) == Some(v)
    ensures v.secrets == s.secrets
    ensures key in v.connections && v.connections[key].status == value.status && v.connections[key].refs == value.refs
    ensures key in v.accounts && v.accounts[key] == account
    ensures forall k :: k in C.ManagedKeys(value.refs) ==> k in v.reservations && v.reservations[k] == key
  {
  }

  lemma ProvisionedCredentials(s: C.State, record: Session, app: App, tokens: Tokens, now: nat)
    requires ProvisionCredentials(s, record, app, tokens, now).Some?
    ensures CredentialsOf(ProvisionCredentials(s, record, app, tokens, now).value, record, Fields(tokens, app))
  {
    var fields := Fields(tokens, app);
    FieldsAreDistinct(tokens, app);
    PutSecretsHold(s, record.id, record.userId, fields, now);
    var put := PutSecrets(s, record.id, record.userId, fields, now).value;
    var value := C.Connection(C.OwnerRow(AccountKey(record.id)), C.ConnectionActive, References(record.id, fields), now);
    var done := ProvisionCredentials(s, record, app, tokens, now).value;
    UpsertThenRegister(put, AccountKey(record.id), record.userId, value, NewAccount(record), C.Upsert(put, AccountKey(record.id), record.userId, value).value, done);
    FieldsHold(put, done, record, fields);
  }

  lemma FieldsHold(put: C.State, done: C.State, record: Session, fields: seq<(string, string)>)
    requires done.secrets == put.secrets
    requires forall i :: 0 <= i < |fields| ==> SecretHolds(put, SecretKey(record.id, fields[i].0), fields[i].1)
    requires forall k :: k in C.ManagedKeys(References(record.id, fields)) ==> k in done.reservations && done.reservations[k] == AccountKey(record.id)
    ensures forall i :: 0 <= i < |fields| ==> FieldHolds(done, record, fields[i])
  {
    forall i | 0 <= i < |fields| ensures FieldHolds(done, record, fields[i]) {
      ReferencesCover(record.id, fields, i);
      assert SecretHolds(put, SecretKey(record.id, fields[i].0), fields[i].1);
    }
  }

  /** The session, its grant and its credentials, committed together. */
  ghost predicate Provisioned(v: World, record: Session, app: App, tokens: Tokens) {
    && record.id in v.sessions && v.sessions[record.id] == ConnectedRecord(record, tokens).(verifier := None)
    && AccountKey(record.id) in v.grants && v.grants[AccountKey(record.id)] == tokens.granted
    && CredentialsOf(v.credentials, record, Fields(tokens, app))
  }

  /** All or nothing: a commit either leaves every table alone or provisions everything. */
  lemma CommitIsAllOrNothing(w: World, record: Session, app: App, tokens: Tokens, moment: nat, fate: Fate)
    ensures var v := Perform(w, Transact(record, app, tokens, moment, fate));
            v == w || Provisioned(v, record, app, tokens)
  {
    if Provision(w, record, app, tokens, moment).Some? {
      ProvisionedCredentials(w.credentials, record, app, tokens, moment);
    }
  }

  /** `connected` is entered by the provisioning transaction only, with everything committed,
      after the one exchange of the session had succeeded. */
  lemma ConnectedMeansProvisioned(hash: string -> string, actions: seq<Action>, a: Action, id: string)
    requires var w := Run(hash, Empty, actions);
             id in w.sessions && w.sessions[id].status != Connected
    requires var v := Apply(hash, Run(hash, Empty, actions), a);
             id in v.sessions && v.sessions[id].status == Connected
    ensures var w, v := Run(hash, Empty, actions), Apply(hash, Run(hash, Empty, actions), a);
            && a.Step? && At(w, a.c) && w.callers[a.c].pc.Answered? && Succeeded(w.callers[a.c].pc.reply)
            && var pc := w.callers[a.c].pc;
               pc.record.id == id && Answering(w, id, pc.reply) && Provisioned(v, pc.record, pc.app, pc.reply.tokens)
  {
    var w, v := Run(hash, Empty, actions), Apply(hash, Run(hash, Empty, actions), a);
    RunKeeps(hash, Empty, actions);
    assert SessionInv(w, id);
    ConnectingStep(hash, w, a, v, id);
  }

  lemma ConnectingStep(hash: string -> string, w: World, a: Action, v: World, id: string)
    requires Inv(w) && v == Apply(hash, w, a)
    requires id in w.sessions && w.sessions[id].status != Connected && id in v.sessions && v.sessions[id].status == Connected
    ensures a.Step? && At(w, a.c) && w.callers[a.c].pc.Answered? && Succeeded(w.callers[a.c].pc.reply)
    ensures var pc := w.callers[a.c].pc;
            pc.record.id == id && Answering(w, id, pc.reply) && Provisioned(v, pc.record, pc.app, pc.reply.tokens)
  {
    if a.Step? && At(w, a.c) {
      assert CallerInv(w, a.c);
      var effect := PlanMove(hash, w, w.callers[a.c], a.move);
      PlanKeeps(hash, w, w.callers[a.c], a.move);
      OnlyTransactConnects(w, w.callers[a.c].pc, effect, id);
      PlannedTransact(hash, w, w.callers[a.c], a.move);
      CommitIsAllOrNothing(w, effect.record, effect.app, effect.tokens, effect.moment, effect.fate);
    } else {
      OtherNeverConnects(hash, w, a, v, id);
    }
  }

  lemma OnlyTransactConnects(w: World, pc: Pc, effect: Effect, id: string)
    requires EffectInv(w, pc, effect) && id in w.sessions && w.sessions[id].status != Connected
    requires id in Perform(w, effect).sessions && Perform(w, effect).sessions[id].status == Connected
    ensures effect.Transact? && effect.record.id == id && Perform(w, effect) != w
  {
  }

  lemma PlannedTransact(hash: string -> string, w: World, caller: Caller, move: Move)
    requires PlanMove(hash, w, caller, move).Transact?
    ensures var effect := PlanMove(hash, w, caller, move);
            caller.pc == Answered(effect.record, effect.app, Granted(effect.tokens)) && Succeeded(caller.pc.reply)
  {
  }

  lemma OtherNeverConnects(hash: string -> string, w: World, a: Action, v: World, id: string)
    requires (a.Step? ==> !At(w, a.c)) && v == Apply(hash, w, a)
    requires id in w.sessions && id in v.sessions
    ensures v.sessions[id].status == Connected ==> w.sessions[id].status == Connected
  {
  }

  /** In every reachable state a connected session names its account and its exchange
      succeeded; a session that is neither connected nor under erasure has no grant. */
  lemma GrantMeansConnected(hash: string -> string, actions: seq<Action>, id: string)
    requires id in Run(hash, Empty, actions).sessions
    ensures var w := Run(hash, Empty, actions);
            && (w.sessions[id].status == Connected ==> w.sessions[id].account == Some(AccountKey(id)) && ExchangeSucceeded(w, id))
            && (AccountKey(id) in w.grants ==> w.sessions[id].status == Connected || id in w.fenced)
  {
    RunKeeps(hash, Empty, actions);
    assert SessionInv(Run(hash, Empty, actions), id);
  }

  // ----- provisioning keeps credentials exclusive -----

  lemma {:induction false} PutSecretsKeepExclusive(s: C.State, session: string, actor: string, fields: seq<(string, string)>, now: nat)
    requires C.Exclusive(s) && PutSecrets(s, session, actor, fields, now).Some?
    ensures C.Exclusive(PutSecrets(s, session, actor, fields, now).value)
    decreases |fields|
  {
    if fields != [] {
      var key := SecretKey(session, fields[0].0);
      var secret := C.Written(s, key, fields[0].1, now);
      CT.WriteSecretKeeps(s, key, secret, C.WriteSecret(s, key, secret));
      PutSecretsKeepExclusive(C.WriteSecret(s, key, secret), session, actor, fields[1..], now);
    }
  }

  lemma ProvisionKeepsExclusive(s: C.State, record: Session, app: App, tokens: Tokens, now: nat)
    requires C.Exclusive(s) && ProvisionCredentials(s, record, app, tokens, now).Some?
    ensures C.Exclusive(ProvisionCredentials(s, record, app, tokens, now).value)
  {
    var fields := Fields(tokens, app);
    PutSecretsKeepExclusive(s, record.id, record.userId, fields, now);
    var put := PutSecrets(s, record.id, record.userId, fields, now).value;
    var value := C.Connection(C.OwnerRow(AccountKey(record.id)), C.ConnectionActive, References(record.id, fields), now);
    C.UpsertKeeps(put, AccountKey(record.id), record.userId, value);
    C.RegisterKeeps(C.Upsert(put, AccountKey(record.id), record.userId, value).value, AccountKey(record.id), NewAccount(record));
  }

  predicate Slips(w: World, a: Action) {
    a.Administer? && CT.SlipStep(w.credentials, a.action)
  }

  lemma StepKeepsExclusiveIff(hash: string -> string, w: World, a: Action)
    requires C.Exclusive(w.credentials)
    ensures C.Exclusive(Apply(hash, w, a).credentials) <==> !Slips(w, a)
  {
    match a
    case Administer(action) => CT.StepKeepsIff(w.credentials, action);
    case PrepareUser(user) => C.PrepareKeeps(w.credentials, user);
    case Step(c, move) => if At(w, c) { PerformKeepsExclusive(w, PlanMove(hash, w, w.callers[c], move)); }
    case _ =>
  }

  lemma PerformKeepsExclusive(w: World, effect: Effect)
    requires C.Exclusive(w.credentials)
    ensures C.Exclusive(Perform(w, effect).credentials)
  {
    if effect.Transact? && Provision(w, effect.record, effect.app, effect.tokens, effect.moment).Some? {
      ProvisionKeepsExclusive(w.credentials, effect.record, effect.app, effect.tokens, effect.moment);
    }
  }

  ghost predicate NeverSlips(hash: string -> string, w: World, actions: seq<Action>)
    decreases |actions|
  {
    actions != [] ==> !Slips(w, actions[0]) && NeverSlips(hash, Apply(hash, w, actions[0]), actions[1..])
  }

  ghost predicate ExclusiveThroughout(hash: string -> string, w: World, actions: seq<Action>)
    decreases |actions|
  {
    C.Exclusive(w.credentials) && (actions != [] ==> ExclusiveThroughout(hash, Apply(hash, w, actions[0]), actions[1..]))
  }

  /** Sessions provision accounts among all other credential transactions, and credentials stay
      exclusive throughout a run exactly when no upsert slips past the fence of an erased account. */
  lemma {:induction false} RunKeepsExclusiveIff(hash: string -> string, w: World, actions: seq<Action>)
    requires C.Exclusive(w.credentials)
    ensures ExclusiveThroughout(hash, w, actions) <==> NeverSlips(hash, w, actions)
    ensures NeverSlips(hash, w, actions) ==> C.Exclusive(Run(hash, w, actions).credentials)
    decreases |actions|
  {
    if actions != [] {
      StepKeepsExclusiveIff(hash, w, actions[0]);
      if !Slips(w, actions[0]) {
        RunKeepsExclusiveIff(hash, Apply(hash, w, actions[0]), actions[1..]);
      }
    }
  }

  /** Provisioning upserts the connection as any caller that spells workspace and key as stored. */
  lemma ProvisionUpsertIsSpelled(s: C.State, record: Session, workspaceId: string, value: C.Connection)
    requires C.Exclusive(s) && Trim(workspaceId) == workspaceId != "" && Trimmed(AccountKey(record.id))
    ensures C.Upsert(s, AccountKey(record.id), record.userId, value) == C.UpsertSpelled(s, workspaceId, AccountKey(record.id), record.userId, value)
  {
    TrimmedIsFixed(AccountKey(record.id));
    C.TrimmedUpsertIsSpelled(s, workspaceId, AccountKey(record.id), record.userId, value);
  }
}
