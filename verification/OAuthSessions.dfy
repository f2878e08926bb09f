/** OAuth authorization sessions of one workspace: start, poll, callback, exchange and
    provisioning, each caller stopping between any two statements.
    internal/infrastructure/persistence/database/integration/oauth_session_store.go */
module OAuthSessions {
  import opened Basics
  import C = Credentials
  import CT = CredentialTheorems

  datatype Status = Pending | Exchanging | Connected | Rejected | NeedsReauthorization | Expired | Erasing

  predicate Terminal(s: Status) {
    s == Connected || s == Rejected || s == NeedsReauthorization || s == Expired
  }

  /** Encrypted text; it opens only for the identity it was sealed for. */
  datatype Sealed = Sealed(identity: string, text: string)

  function Open(cipher: Option<Sealed>, identity: string): Option<string> {
    if cipher.Some? && cipher.value.identity == identity then Some(cipher.value.text) else None
  }

  datatype Session = Session(
    id: string, userId: string, applicationKey: string, revision: string, stateHash: string, personal: bool, expiresAt: int,
    status: Status, verifier: Option<Sealed>, deadline: int, account: Option<string>, granted: seq<string>)

  datatype App = App(enabled: bool, revision: string, clientId: string, clientSecret: string)

  datatype Subject = Subject(userId: string, personal: bool, workspace: bool)

  predicate ScopeAllowed(subject: Subject, personal: bool) {
    if personal then subject.personal else subject.workspace
  }

  datatype Callback = Callback(state: string, code: string, error: string)

  predicate ValidCallback(b: Callback) {
    32 <= |b.state| <= 512 && (b.code == "" <==> b.error != "")
  }

  datatype Tokens = Tokens(accessToken: string, refreshToken: string, tokenType: string, granted: seq<string>)

  datatype Reply = Granted(tokens: Tokens) | ExchangeFailed(permanent: bool)

  predicate Usable(t: Tokens) {
    t.accessToken != "" && t.refreshToken != "" && t.tokenType == "Bearer"
  }

  /** One request to the token endpoint. */
  datatype Exchange = Exchange(session: string, clientId: string, code: string, verifier: string, reply: Reply)

  datatype Pc =
    | Fresh
    | Found(first: Session)                                    // the callback's read by state
    | Polled(record: Session, next: Status)                    // a poll is about to write `next`
    | Checked(first: Session)                                  // the poll said pending
    | Cleared(first: Session, app: App)                        // the application is unchanged
    | Claimed(record: Session, app: App, verifier: string)     // the session is exchanging: one request follows
    | Answered(record: Session, app: App, reply: Reply)
    | Done

  /** A poll of one session, or a callback. */
  datatype Request = Poll(id: string) | Complete(callback: Callback)

  datatype Caller = Caller(subject: Subject, request: Request, pc: Pc)

  /** `started` remembers the verifier of every session ever started. */
  datatype World = World(
    sessions: map<string, Session>, fenced: set<string>, apps: map<string, App>,
    credentials: C.State, grants: map<string, seq<string>>,
    callers: map<nat, Caller>, started: map<string, string>, exchanges: seq<Exchange>)

  // ----- single statements -----

  predicate Readable(w: World, subject: Subject, id: string) {
    id in w.sessions && w.sessions[id].userId == subject.userId && ScopeAllowed(subject, w.sessions[id].personal)
  }

  /** The compare-and-set update of a session. It always clears the verifier. */
  predicate Updates(w: World, record: Session, previous: Status) {
    && record.id in w.sessions && w.sessions[record.id].userId == record.userId
    && w.sessions[record.id].status == previous && record.id !in w.fenced
  }

  function Update(w: World, record: Session, previous: Status): World {
    if Updates(w, record, previous) then w.(sessions := w.sessions[record.id := record.(verifier := None)]) else w
  }

  function NextStatus(record: Session, now: int): Status {
    if record.status == Pending && record.expiresAt <= now then Expired
    else if record.status == Exchanging && record.deadline <= now then NeedsReauthorization
    else record.status
  }

  predicate AppUnchanged(w: World, key: string, revision: string) {
    key in w.apps && w.apps[key].enabled && w.apps[key].revision == revision
  }

  // ----- provisioning: one transaction -----

  function SecretKey(session: string, field: string): string {
    session + "_" + field
  }

  function AccountKey(session: string): string {
    "account_" + session
  }

  function Fields(tokens: Tokens, app: App): seq<(string, string)> {
    [("access_token", tokens.accessToken), ("refresh_token", tokens.refreshToken), ("client_id", app.clientId), ("client_secret", app.clientSecret)]
  }

  function PutSecrets(s: C.State, session: string, actor: string, fields: seq<(string, string)>, now: nat): Option<C.State>
    decreases |fields|
  {
    if fields == [] then Some(s)
    else
      var put := C.UpsertSecret(s, SecretKey(session, fields[0].0), actor, fields[0].1, now);
      if put.None? then None else PutSecrets(put.value, session, actor, fields[1..], now)
  }

  function References(session: string, fields: seq<(string, string)>): C.Refs {
    map i | 0 <= i < |fields| :: fields[i].0 := C.Managed(SecretKey(session, fields[i].0))
  }

  function NewAccount(record: Session): C.Account {
    C.Account(record.personal, if record.personal then record.userId else "")
  }

  function ProvisionCredentials(s: C.State, record: Session, app: App, tokens: Tokens, now: nat): Option<C.State> {
    var fields := Fields(tokens, app);
    var put := PutSecrets(s, record.id, record.userId, fields, now);
    if put.None? then None
    else
      var connection := C.Upsert(put.value, AccountKey(record.id), record.userId,
                                 C.Connection(C.OwnerRow(AccountKey(record.id)), C.ConnectionActive, References(record.id, fields), now));
      if connection.None? then None else C.Register(connection.value, AccountKey(record.id), NewAccount(record))
  }

  function ConnectedRecord(record: Session, tokens: Tokens): Session {
    record.(status := Connected, granted := tokens.granted, account := Some(AccountKey(record.id)))
  }

  /** None is a rollback: the session moved on, the application changed, or a write failed. */
  function Provision(w: World, record: Session, app: App, tokens: Tokens, now: nat): Option<World> {
    var credentials := ProvisionCredentials(w.credentials, record, app, tokens, now);
    if record.id !in w.sessions || w.sessions[record.id].status != Exchanging || !AppUnchanged(w, record.applicationKey, record.revision)
       || credentials.None? || AccountKey(record.id) in w.grants || !Updates(w, record, Exchanging) then None
    else Some(Update(w.(credentials := credentials.value, grants := w.grants[AccountKey(record.id) := tokens.granted]),
                     ConnectedRecord(record, tokens), Exchanging))
  }

  // ----- the machine -----

  datatype Action =
    | Start(session: Session, text: string)
    | SetApp(key: string, app: App)
    | Administer(action: CT.Action)
    | PrepareUser(user: string)
    | EraseSessions(ids: set<string>)
    | EraseGrants(keys: set<string>)
    | Begin(c: nat, subject: Subject, request: Request)
    | Step(c: nat, move: Move)

  datatype Move =
    | FindByState(id: string)
    | Get(now: int)
    | WriteBack(fate: Fate)
    | LoadApplication
    | RejectCallback(fate: Fate)
    | Claim(now: int, ready: bool, fate: Fate)
    | ExchangeCode(reply: Reply)
    | SettleFailure(fate: Fate)
    | Commit(moment: nat, fate: Fate)
    | Crash

  /** What a move does: nothing stored, one compare-and-set, one request to the provider, or
      the provisioning transaction. A statement may land, land and report an error, or be lost. */
  datatype Effect =
    | Stay(pc: Pc)
    | Store(record: Session, previous: Status, fate: Fate, pc: Pc)
    | Send(entry: Exchange, pc: Pc)
    | Transact(record: Session, app: App, tokens: Tokens, moment: nat, fate: Fate)

  predicate CanStart(w: World, session: Session, text: string) {
    && session.id !in w.started && session.id !in w.sessions
    && session.status == Pending && session.verifier == Some(Sealed(session.id, text)) && session.account.None? && session.granted == []
  }

  predicate UserBusy(w: World, user: string) {
    exists id :: id in w.sessions && w.sessions[id].userId == user && w.sessions[id].status == Exchanging
  }

  function UserSessions(w: World, user: string): set<string> {
    set id | id in w.sessions && w.sessions[id].userId == user
  }

  function ErasingSessions(w: World, user: string): map<string, Session> {
    map id | id in w.sessions :: if w.sessions[id].userId == user then w.sessions[id].(status := Erasing) else w.sessions[id]
  }

  function FindPlan(hash: string -> string, w: World, caller: Caller, id: string): Effect {
    if caller.request.Complete? && caller.pc == Fresh && Readable(w, caller.subject, id) && w.sessions[id].stateHash == hash(caller.request.callback.state)
    then Stay(Found(w.sessions[id])) else Stay(Done)
  }

  function GetPlan(w: World, caller: Caller, now: int): Effect {
    var id := if caller.pc.Found? then caller.pc.first.id else if caller.request.Poll? then caller.request.id else "";
    if !(caller.pc.Found? || (caller.pc == Fresh && caller.request.Poll?)) || !Readable(w, caller.subject, id) then Stay(Done)
    else
      var record := w.sessions[id];
      if NextStatus(record, now) != record.status then Stay(Polled(record, NextStatus(record, now)))
      else if caller.pc.Found? && record.status == Pending then Stay(Checked(caller.pc.first))
      else Stay(Done)
  }

  /** Claim the one exchange of this session. */
  function ClaimPlan(w: World, first: Session, app: App, now: int, ready: bool, fate: Fate): Effect {
    var verifier := Open(first.verifier, first.id);
    var record := first.(status := Exchanging, deadline := now + 60);
    if !ready || verifier.None? then Stay(Done)
    else Store(record, Pending, fate, if fate == Landed && Updates(w, record, Pending) then Claimed(record, app, verifier.value) else Done)
  }

  predicate At(w: World, c: nat) {
    c in w.callers && w.callers[c].pc != Done
  }

  predicate IsCallback(caller: Caller, failed: bool) {
    caller.request.Complete? && (caller.request.callback.error != "" <==> failed)
  }

  function FailureStatus(reply: Reply): Status {
    if reply.ExchangeFailed? && reply.permanent then Rejected else NeedsReauthorization
  }

  predicate Succeeded(reply: Reply) {
    reply.Granted? && Usable(reply.tokens)
  }

  function PlanMove(hash: string -> string, w: World, caller: Caller, move: Move): Effect {
    var pc := caller.pc;
    match move
    case FindByState(id) => FindPlan(hash, w, caller, id)
    case Get(now) => GetPlan(w, caller, now)
    case WriteBack(fate) => if pc.Polled? then Store(pc.record.(status := pc.next), pc.record.status, fate, Done) else Stay(pc)
    case LoadApplication =>
      if !pc.Checked? then Stay(pc)
      else if AppUnchanged(w, pc.first.applicationKey, pc.first.revision) then Stay(Cleared(pc.first, w.apps[pc.first.applicationKey]))
      else Stay(Done)
    case RejectCallback(fate) =>
      if pc.Cleared? && IsCallback(caller, true) then Store(pc.first.(status := Rejected), Pending, fate, Done) else Stay(pc)
    case Claim(now, ready, fate) => if pc.Cleared? && IsCallback(caller, false) then ClaimPlan(w, pc.first, pc.app, now, ready, fate) else Stay(pc)
    case ExchangeCode(reply) =>
      if pc.Claimed? && IsCallback(caller, false)
      then Send(Exchange(pc.record.id, pc.app.clientId, caller.request.callback.code, pc.verifier, reply), Answered(pc.record, pc.app, reply))
      else Stay(pc)
    case SettleFailure(fate) =>
      if pc.Answered? && !Succeeded(pc.reply) then Store(pc.record.(status := FailureStatus(pc.reply)), Exchanging, fate, Done) else Stay(pc)
    case Commit(moment, fate) =>
      if pc.Answered? && Succeeded(pc.reply) then Transact(pc.record, pc.app, pc.reply.tokens, moment, fate) else Stay(pc)
    case Crash => Stay(Done)
  }

  function After(effect: Effect): Pc {
    if effect.Transact? then Done else effect.pc
  }

  function Perform(w: World, effect: Effect): World {
    match effect
    case Stay(_) => w
    case Store(record, previous, fate, _) => if fate.Lands() then Update(w, record, previous) else w
    case Send(entry, _) => w.(exchanges := w.exchanges + [entry])
    case Transact(record, app, tokens, moment, fate) =>
      var v := Provision(w, record, app, tokens, moment);
      if fate.Lands() && v.Some? then v.value else w
  }

  function ApplyMove(hash: string -> string, w: World, c: nat, move: Move): World
    requires At(w, c)
  {
    var effect := PlanMove(hash, w, w.callers[c], move);
    Perform(w, effect).(callers := w.callers[c := w.callers[c].(pc := After(effect))])
  }

  function Apply(hash: string -> string, w: World, a: Action): World {
    match a
    case Start(session, text) =>
      if CanStart(w, session, text) then w.(sessions := w.sessions[session.id := session], started := w.started[session.id := text]) else w
    case SetApp(key, app) => w.(apps := w.apps[key := app])
    case Administer(action) => w.(credentials := CT.Apply(w.credentials, action))
    case PrepareUser(user) =>
      if UserBusy(w, user) then w
      else w.(sessions := ErasingSessions(w, user), fenced := w.fenced + UserSessions(w, user), credentials := C.Prepare(w.credentials, user))
    case EraseSessions(ids) => w.(sessions := map id | id in w.sessions && !(id in ids && id in w.fenced) :: w.sessions[id])
    case EraseGrants(keys) => w.(grants := w.grants - keys)
    case Begin(c, subject, request) =>
      if c !in w.callers && (request.Complete? ==> ValidCallback(request.callback)) then w.(callers := w.callers[c := Caller(subject, request, Fresh)]) else w
    case Step(c, move) => if At(w, c) then ApplyMove(hash, w, c, move) else w
  }

  const Empty := World(map[], {}, map[], CT.Start, map[], map[], map[], [])

  function Run(hash: string -> string, w: World, actions: seq<Action>): World
    decreases |actions|
  {
    if actions == [] then w else Run(hash, Apply(hash, w, actions[0]), actions[1..])
  }
}
