/** Resolving a reference: metadata and material are two reads, and any writer may come between.
    internal/infrastructure/persistence/database/integration/secret_resolver.go:200-256 */
module SecretResolution {
  import opened Basics
  import opened Text
  import R = SecretRotation

  datatype Reference = Environment(name: string) | Secret(key: string) | Malformed(text: string)

  /** A variable that is unset or blank is unavailable. */
  function EnvironmentSecret(environment: string -> string, name: string): Option<string> {
    var value := Trim(environment(Trim(name)));
    if Trim(name) == "" || value == "" then None else Some(value)
  }

  datatype Pc =
    | Fresh(reference: Reference)
    | Seen(key: string, version: R.Version)                       // metadata read; the material comes next
    | Resolved(value: string, readAt: Option<R.Version>)
    | Failed

  function FromEnvironment(environment: string -> string, name: string): Pc {
    var value := EnvironmentSecret(environment, name);
    if value.None? then Failed else Resolved(value.value, None)
  }

  function ReadMetadata(s: R.State, environment: string -> string, reference: Reference, now: nat): Pc {
    match reference
    case Environment(name) => FromEnvironment(environment, name)
    case Malformed(_) => Failed
    case Secret(key) =>
      if key !in s.secrets || s.secrets[key].status != R.Active then Failed
      else if s.secrets[key].expiresAt.Some? && s.secrets[key].expiresAt.value <= now then Failed
      else match s.secrets[key].ref
        case InEnvironment(name) => FromEnvironment(environment, name)
        case Elsewhere(_) => Failed
        case Material => Seen(key, R.VersionOf(s, key))
  }

  function ReadMaterial(s: R.State, key: string, version: R.Version): Pc {
    if key in s.materials && s.materials[key].cipher.key == key then Resolved(s.materials[key].cipher.text, Some(version)) else Failed
  }

  // ----- the machine -----

  datatype World = World(db: R.State, callers: map<nat, Pc>)

  datatype Action =
    | Write(action: R.Action)
    | Begin(c: nat, reference: Reference)
    | First(c: nat, now: nat)
    | Second(c: nat)

  function Apply(hash: string -> string, environment: string -> string, w: World, a: Action): World {
    match a
    case Write(action) => w.(db := R.Apply(hash, w.db, action))
    case Begin(c, reference) => if c !in w.callers then w.(callers := w.callers[c := Fresh(reference)]) else w
    case First(c, now) =>
      if c in w.callers && w.callers[c].Fresh? then w.(callers := w.callers[c := ReadMetadata(w.db, environment, w.callers[c].reference, now)]) else w
    case Second(c) =>
      if c in w.callers && w.callers[c].Seen? then w.(callers := w.callers[c := ReadMaterial(w.db, w.callers[c].key, w.callers[c].version)]) else w
  }

  const Start := World(R.Start, map[])

  function Run(hash: string -> string, environment: string -> string, w: World, actions: seq<Action>): World
    decreases |actions|
  {
    if actions == [] then w else Run(hash, environment, Apply(hash, environment, w, actions[0]), actions[1..])
  }

  ghost predicate Inv(hash: string -> string, w: World) {
    R.Faithful(hash, w.db) && R.Paired(w.db)
  }

  lemma {:induction false} RunKeeps(hash: string -> string, environment: string -> string, w: World, actions: seq<Action>)
    requires Inv(hash, w)
    ensures Inv(hash, Run(hash, environment, w, actions))
    decreases |actions|
  {
    if actions != [] {
      if actions[0].Write? {
        R.StepFaithful(hash, w.db, actions[0].action);
        R.StepPaired(hash, w.db, actions[0].action);
      }
      RunKeeps(hash, environment, Apply(hash, environment, w, actions[0]), actions[1..]);
    }
  }

  /** Steps that leave caller `c` where it is. */
  predicate Elsewhere(actions: seq<Action>, c: nat) {
    forall i :: 0 <= i < |actions| ==> actions[i].Write? || actions[i].c != c
  }

  lemma {:induction false} CallerWaits(hash: string -> string, environment: string -> string, w: World, actions: seq<Action>, c: nat)
    requires c in w.callers && Elsewhere(actions, c)
    ensures c in Run(hash, environment, w, actions).callers && Run(hash, environment, w, actions).callers[c] == w.callers[c]
    decreases |actions|
  {
    if actions != [] {
      CallerWaits(hash, environment, Apply(hash, environment, w, actions[0]), actions[1..], c);
    }
  }

  /** What a caller learns in any run: value and version agree exactly when the fingerprint
      stored at the second read is the one stored at the first. */
  lemma ValueMatchesVersionIff(hash: string -> string, environment: string -> string, before: seq<Action>, between: seq<Action>, c: nat, now: nat, w: World, v: World)
    requires w == Run(hash, environment, Start, before) && c in w.callers && w.callers[c].Fresh?
    requires Elsewhere(between, c) && v == Run(hash, environment, Apply(hash, environment, w, First(c, now)), between)
    requires c in v.callers && v.callers[c].Seen? && Apply(hash, environment, v, Second(c)).callers[c].Resolved?
    ensures var done := Apply(hash, environment, v, Second(c)).callers[c];
            var key := v.callers[c].key;
            && w.callers[c].reference == Secret(key) && key in w.db.secrets && key in v.db.secrets
            && done.readAt == Some(R.VersionOf(w.db, key))
            && (hash(done.value) == done.readAt.value.fingerprint <==> v.db.secrets[key].fingerprint == w.db.secrets[key].fingerprint)
  {
    RunKeeps(hash, environment, Start, before);
    var first := Apply(hash, environment, w, First(c, now));
    RunKeeps(hash, environment, first, between);
    CallerWaits(hash, environment, first, between, c);
  }

  /** No upsert, rotation or batch gives this key another content. */
  predicate LeavesContent(hash: string -> string, a: R.Action, key: string, fingerprint: string) {
    match a
    case Put(k, value, _, _, _) => k == key ==> value == "" || hash(value) == fingerprint
    case Replace(k, value, _, _, _) => k == key ==> value == "" || hash(value) == fingerprint
    case Batch(items, _) => forall i :: 0 <= i < |items| && items[i].key == key ==> hash(items[i].value) == fingerprint
    case _ => true
  }

  /** The key has this fingerprint, or it was erased and cannot come back. */
  predicate KeepsFingerprint(s: R.State, key: string, fingerprint: string) {
    if key in s.secrets then s.secrets[key].fingerprint == fingerprint else key in s.fenced
  }

  lemma {:induction false} BatchKeepsFingerprint(hash: string -> string, read: R.State, s: R.State, items: seq<R.Item>, stamp: nat, key: string, fingerprint: string)
    requires R.AllCurrent(read, items) && KeepsFingerprint(s, key, fingerprint)
    requires forall i :: 0 <= i < |items| && items[i].key == key ==> hash(items[i].value) == fingerprint
    ensures R.StoreAll(hash, read, s, items, stamp).Some? ==> KeepsFingerprint(R.StoreAll(hash, read, s, items, stamp).value, key, fingerprint)
    decreases |items|
  {
    if items != [] && R.Unchanged(s, items[0].key, read.secrets[items[0].key], read.materials[items[0].key].id) {
      assert forall i :: 0 <= i < |items| - 1 ==> items[1..][i] == items[i + 1];
      BatchKeepsFingerprint(hash, read, R.Store(hash, s, items[0], stamp), items[1..], stamp, key, fingerprint);
    }
  }

  lemma WriteKeepsFingerprint(hash: string -> string, s: R.State, a: R.Action, key: string, fingerprint: string)
    requires KeepsFingerprint(s, key, fingerprint) && LeavesContent(hash, a, key, fingerprint)
    ensures KeepsFingerprint(R.Apply(hash, s, a), key, fingerprint)
  {
    match a
    case Batch(items, now) =>
      if R.AllCurrent(s, items) { BatchKeepsFingerprint(hash, s, s, items, R.Bump(R.Stamps(s, items), now), key, fingerprint); }
    case _ =>
  }

  predicate AllLeaveContent(hash: string -> string, actions: seq<Action>, key: string, fingerprint: string) {
    forall i :: 0 <= i < |actions| && actions[i].Write? ==> LeavesContent(hash, actions[i].action, key, fingerprint)
  }

  lemma {:induction false} RunKeepsFingerprint(hash: string -> string, environment: string -> string, w: World, actions: seq<Action>, key: string, fingerprint: string)
    requires KeepsFingerprint(w.db, key, fingerprint) && AllLeaveContent(hash, actions, key, fingerprint)
    ensures KeepsFingerprint(Run(hash, environment, w, actions).db, key, fingerprint)
    decreases |actions|
  {
    if actions != [] {
      if actions[0].Write? {
        WriteKeepsFingerprint(hash, w.db, actions[0].action, key, fingerprint);
      }
      RunKeepsFingerprint(hash, environment, Apply(hash, environment, w, actions[0]), actions[1..], key, fingerprint);
    }
  }

  /** So value and version agree when no upsert, rotation or batch between the reads gives the
      key another content. */
  lemma UndisturbedVersionIsTruthful(hash: string -> string, environment: string -> string, before: seq<Action>, between: seq<Action>, c: nat, now: nat, w: World, v: World)
    requires w == Run(hash, environment, Start, before) && c in w.callers && w.callers[c].Fresh?
    requires Elsewhere(between, c) && v == Run(hash, environment, Apply(hash, environment, w, First(c, now)), between)
    requires c in v.callers && v.callers[c].Seen? && Apply(hash, environment, v, Second(c)).callers[c].Resolved?
    requires AllLeaveContent(hash, between, v.callers[c].key, v.callers[c].version.fingerprint)
    ensures var done := Apply(hash, environment, v, Second(c)).callers[c]; done.readAt.Some? && hash(done.value) == done.readAt.value.fingerprint
  {
    ValueMatchesVersionIff(hash, environment, before, between, c, now, w, v);
    RunKeepsFingerprint(hash, environment, Apply(hash, environment, w, First(c, now)), between, v.callers[c].key, v.callers[c].version.fingerprint);
  }

  /** The two reads can be torn: metadata of one value, material of the next. */
  lemma TornRead(hash: string -> string, environment: string -> string)
    requires hash("old") != hash("new")
    ensures var w := Run(hash, environment, Start,
              [Write(R.Put("k", "old", None, "m", 1)), Begin(0, Secret("k")), First(0, 2), Write(R.Put("k", "new", None, "m", 3)), Second(0)]);
            && 0 in w.callers && w.callers[0] == Resolved("new", Some(R.Version("k", hash("old"), 1))) && hash("new") != hash("old")
  {
    var a, b, c, d, e := Write(R.Put("k", "old", None, "m", 1)), Begin(0, Secret("k")), First(0, 2), Write(R.Put("k", "new", None, "m", 3)), Second(0);
    var w1 := Apply(hash, environment, Start, a);
    var w2 := Apply(hash, environment, w1, b);
    var w3 := Apply(hash, environment, w2, c);
    var w4 := Apply(hash, environment, w3, d);
    var w5 := Apply(hash, environment, w4, e);
    RunFive(hash, environment, Start, a, b, c, d, e);
    assert w3.callers[0] == Seen("k", R.Version("k", hash("old"), 1));
    assert w4.db.materials["k"].cipher == R.Cipher("k", "new");
  }

  lemma RunFive(hash: string -> string, environment: string -> string, w: World, a: Action, b: Action, c: Action, d: Action, e: Action)
    ensures var w1 := Apply(hash, environment, w, a);
            var w2 := Apply(hash, environment, w1, b);
            var w3 := Apply(hash, environment, w2, c);
            var w4 := Apply(hash, environment, w3, d);
            Run(hash, environment, w, [a, b, c, d, e]) == Apply(hash, environment, w4, e)
  {
    var w1 := Apply(hash, environment, w, a);
    var w2 := Apply(hash, environment, w1, b);
    var w3 := Apply(hash, environment, w2, c);
    var w4 := Apply(hash, environment, w3, d);
    assert [a, b, c, d, e][1..] == [b, c, d, e] && [b, c, d, e][1..] == [c, d, e] && [c, d, e][1..] == [d, e] && [d, e][1..] == [e] && [e][1..] == [];
    assert Run(hash, environment, w4, [e]) == Apply(hash, environment, w4, e);
    assert Run(hash, environment, w3, [d, e]) == Run(hash, environment, w4, [e]);
    assert Run(hash, environment, w2, [c, d, e]) == Run(hash, environment, w3, [d, e]);
    assert Run(hash, environment, w1, [b, c, d, e]) == Run(hash, environment, w2, [c, d, e]);
  }

  // ----- what protects a rotation from a torn read -----

  /** The stored metadata is the one the version names. */
  predicate Carries(s: R.State, version: R.Version) {
    version.key in s.secrets && s.secrets[version.key].fingerprint == version.fingerprint && s.secrets[version.key].updatedAt == version.updatedAt
  }

  /** The steps `later[i]` that put back both fingerprint and stamp of a version. */
  predicate PutsBack(hash: string -> string, s: R.State, later: seq<R.Action>, i: nat, version: R.Version)
    requires i < |later|
  {
    !Carries(R.Run(hash, s, later[..i]), version) && Carries(R.Run(hash, s, later[..i + 1]), version)
  }

  /** A version that was torn at the second read is refused by every later batch, unless some
      write in between stored the old fingerprint again under the very same stamp. */
  lemma {:induction false} TornVersionIsRefused(hash: string -> string, s: R.State, later: seq<R.Action>, items: seq<R.Item>, j: nat, version: R.Version, now: nat)
    requires !Carries(s, version)
    requires j < |items| && items[j].key == version.key && items[j].expected == Some(version)
    requires forall i :: 0 <= i < |later| ==> !PutsBack(hash, s, later, i, version)
    ensures R.ApplyItems(hash, R.Run(hash, s, later), items, now).None?
  {
    NeverCarries(hash, s, later, |later|, version);
    assert later[..|later|] == later;
    assert !R.Current(R.Run(hash, s, later), items[j]);
  }

  lemma {:induction false} NeverCarries(hash: string -> string, s: R.State, later: seq<R.Action>, n: nat, version: R.Version)
    requires n <= |later| && !Carries(s, version) && forall i :: 0 <= i < |later| ==> !PutsBack(hash, s, later, i, version)
    ensures !Carries(R.Run(hash, s, later[..n]), version)
  {
    if n > 0 {
      NeverCarries(hash, s, later, n - 1, version);
      assert !PutsBack(hash, s, later, n - 1, version);
    } else {
      assert later[..0] == [];
    }
  }

  /** From the run of a caller: a torn resolution never rotates anything, unless some later
      write put back both the fingerprint and the stamp it had read. */
  lemma TornReadRotatesNothing(hash: string -> string, environment: string -> string, before: seq<Action>, between: seq<Action>, c: nat, now: nat, w: World, v: World,
                               later: seq<R.Action>, items: seq<R.Item>, j: nat, at: nat)
    requires w == Run(hash, environment, Start, before) && c in w.callers && w.callers[c].Fresh?
    requires Elsewhere(between, c) && v == Run(hash, environment, Apply(hash, environment, w, First(c, now)), between)
    requires c in v.callers && v.callers[c].Seen? && Apply(hash, environment, v, Second(c)).callers[c].Resolved?
    requires var done := Apply(hash, environment, v, Second(c)).callers[c];
             && done.readAt.Some? && hash(done.value) != done.readAt.value.fingerprint
             && j < |items| && items[j].key == done.readAt.value.key && items[j].expected == done.readAt
             && forall i :: 0 <= i < |later| ==> !PutsBack(hash, v.db, later, i, done.readAt.value)
    ensures R.ApplyItems(hash, R.Run(hash, v.db, later), items, at).None?
  {
    ValueMatchesVersionIff(hash, environment, before, between, c, now, w, v);
    var version := Apply(hash, environment, v, Second(c)).callers[c].readAt.value;
    assert !Carries(v.db, version);
    TornVersionIsRefused(hash, v.db, later, items, j, version, at);
  }
}
