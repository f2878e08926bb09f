/** The credential machine sees of a secret its status, its material and its revision. Every
    writer of the two secret tables, seen that way, is a run of that machine's secret writes,
    so what holds over all its runs holds with rotations, transitions and upserts in between. */
module SecretRefinement {
  import opened Basics
  import R = SecretRotation
  import C = Credentials
  import CT = CredentialTheorems

  function StatusOf(s: R.Status): C.SecretStatus {
    match s
    case Active => C.Active
    case Disabled => C.Disabled
    case Expired => C.Expired
    case Revoked => C.Revoked
    case Erasing => C.SecretErasing
  }

  function Seen(s: R.State, key: string): C.Secret
    requires key in s.secrets
  {
    var row := s.secrets[key];
    C.Secret(StatusOf(row.status), if row.ref == R.Material && key in s.materials then Some(s.materials[key].cipher.text) else None, row.updatedAt)
  }

  function Shadow(s: R.State): map<string, C.Secret> {
    map k | k in s.secrets :: Seen(s, k)
  }

  predicate Writes(a: R.Action) {
    !a.PrepareErasure? && !a.EraseKeys?
  }

  /** A writer removes no secret and leaves fenced ones alone. */
  lemma WritesUnfencedOnly(hash: string -> string, s: R.State, a: R.Action)
    requires Writes(a)
    ensures var v := R.Apply(hash, s, a);
            && v.fenced == s.fenced && s.secrets.Keys <= v.secrets.Keys
            && forall k :: k in v.secrets && k in s.fenced ==> k in s.secrets && Seen(v, k) == Seen(s, k)
  {
    match a
    case Batch(items, now) => if R.ApplyItems(hash, s, items, now).Some? { BatchWritesUnfencedOnly(hash, s, items, now); }
    case _ =>
  }

  lemma BatchWritesUnfencedOnly(hash: string -> string, s: R.State, items: seq<R.Item>, now: nat)
    requires R.ApplyItems(hash, s, items, now).Some?
    ensures var v := R.ApplyItems(hash, s, items, now).value;
            && v.fenced == s.fenced && s.secrets.Keys <= v.secrets.Keys
            && forall k :: k in v.secrets && k in s.fenced ==> k in s.secrets && Seen(v, k) == Seen(s, k)
  {
    var stamp := R.Bump(R.Stamps(s, items), now);
    R.BatchIsAtomic(hash, s, items, now);
    R.StoredTargets(hash, s, s, items, stamp);
    var v := R.ApplyItems(hash, s, items, now).value;
    SameKeys(hash, s, s, items, stamp);
    forall k | k in v.secrets && k in s.fenced ensures k in s.secrets && Seen(v, k) == Seen(s, k) {
      assert R.SameSecret(s, v, k);
    }
  }

  lemma {:induction false} SameKeys(hash: string -> string, read: R.State, s: R.State, items: seq<R.Item>, stamp: nat)
    requires R.AllCurrent(read, items) && R.StoreAll(hash, read, s, items, stamp).Some?
    ensures R.StoreAll(hash, read, s, items, stamp).value.secrets.Keys == s.secrets.Keys
    decreases |items|
  {
    if items != [] {
      assert forall i :: 0 <= i < |items| - 1 ==> items[1..][i] == items[i + 1];
      SameKeys(hash, read, R.Store(hash, s, items[0], stamp), items[1..], stamp);
    }
  }

  /** Any change of unfenced secrets is a run of single secret writes. */
  lemma {:induction false} PutsReach(t: C.State, target: map<string, C.Secret>, keys: set<string>) returns (puts: seq<CT.Action>)
    requires keys !! t.fencedSecrets && keys <= target.Keys
    requires target.Keys == t.secrets.Keys + keys
    requires forall k :: k in t.secrets && k !in keys ==> target[k] == t.secrets[k]
    ensures CT.Run(t, puts) == t.(secrets := target) && CT.KeysTrimmed(puts)
    decreases keys
  {
    if keys == {} {
      puts := [];
      assert t.secrets == target;
    } else {
      var key :| key in keys;
      var first := CT.PutSecret(key, target[key]);
      var rest := PutsReach(CT.Apply(t, first), target, keys - {key});
      puts := [first] + rest;
      assert puts[1..] == rest;
    }
  }

  /** Refinement: each writer's step, seen by the credential machine, is one of its runs. */
  lemma WriterIsCredentialRun(hash: string -> string, s: R.State, t: C.State, a: R.Action) returns (puts: seq<CT.Action>)
    requires Writes(a) && t.secrets == Shadow(s) && t.fencedSecrets == s.fenced
    ensures CT.Run(t, puts) == t.(secrets := Shadow(R.Apply(hash, s, a))) && CT.KeysTrimmed(puts)
  {
    var v := R.Apply(hash, s, a);
    WritesUnfencedOnly(hash, s, a);
    var target := Shadow(v);
    puts := PutsReach(t, target, set k | k in target && k !in s.fenced);
  }

  /** So credential exclusivity survives every writer of the secret tables. */
  lemma WriterKeepsExclusive(hash: string -> string, s: R.State, t: C.State, a: R.Action)
    requires Writes(a) && t.secrets == Shadow(s) && t.fencedSecrets == s.fenced && C.Exclusive(t)
    ensures C.Exclusive(t.(secrets := Shadow(R.Apply(hash, s, a))))
  {
    var puts := WriterIsCredentialRun(hash, s, t, a);
    CT.TrimmedKeysNeverSlip(t, puts);
    CT.RunKeepsIff(t, puts);
  }

  // ----- each writer's own effect -----

  function Put(t: map<string, C.Secret>, key: string, value: string, now: nat): map<string, C.Secret> {
    t[key := C.Secret(C.Active, if value != "" then Some(value) else if key in t then t[key].material else None, now)]
  }

  function Swept(t: map<string, C.Secret>, fenced: set<string>, keys: set<string>, status: C.SecretStatus, now: nat): map<string, C.Secret> {
    map k | k in t :: if k in keys && k !in fenced && t[k].status == C.Active then t[k].(status := status, updatedAt := now) else t[k]
  }

  /** Target after target: active, the new value, the batch's stamp. */
  function Rotated(t: map<string, C.Secret>, items: seq<R.Item>, stamp: nat): map<string, C.Secret>
    decreases |items|
  {
    if items == [] then t else Rotated(t[items[0].key := C.Secret(C.Active, Some(items[0].value), stamp)], items[1..], stamp)
  }

  /** What a writer does to the secrets as the credential machine sees them. Whether a batch
      commits, and its stamp, are decided by the full tables. */
  function Effect(hash: string -> string, s: R.State, t: map<string, C.Secret>, a: R.Action): map<string, C.Secret>
    requires Writes(a)
  {
    match a
    case Put(key, value, _, _, now) => if key in s.fenced then t else Put(t, key, value, now)
    case Replace(key, value, _, _, now) => if key in s.fenced then t else Put(t, key, value, now)
    case Move(key, transition, now) =>
      if key !in t || key in s.fenced then t else t[key := t[key].(status := StatusOf(R.After(transition)), updatedAt := now)]
    case RevokeOwned(keys, now) => Swept(t, s.fenced, keys, C.Revoked, now)
    case ExpireDue(keys, now) => Swept(t, s.fenced, keys, C.Expired, now)
    case Batch(items, now) => if R.ApplyItems(hash, s, items, now).None? then t else Rotated(t, items, R.Bump(R.Stamps(s, items), now))
  }

  lemma {:induction false} StoreAllShadow(hash: string -> string, read: R.State, s: R.State, items: seq<R.Item>, stamp: nat)
    requires R.AllCurrent(read, items) && R.StoreAll(hash, read, s, items, stamp).Some?
    ensures Shadow(R.StoreAll(hash, read, s, items, stamp).value) == Rotated(Shadow(s), items, stamp)
    decreases |items|
  {
    if items != [] {
      assert forall i :: 0 <= i < |items| - 1 ==> items[1..][i] == items[i + 1];
      var t := R.Store(hash, s, items[0], stamp);
      assert Shadow(t) == Shadow(s)[items[0].key := C.Secret(C.Active, Some(items[0].value), stamp)];
      StoreAllShadow(hash, read, t, items[1..], stamp);
    }
  }

  lemma PutShadow(hash: string -> string, s: R.State, key: string, value: string, expiresAt: Option<nat>, materialId: string, now: nat)
    requires R.Faithful(hash, s) && key !in s.fenced
    ensures Shadow(R.UpsertSecret(hash, s, key, value, expiresAt, materialId, now).value) == Put(Shadow(s), key, value, now)
  {
  }

  /** Each writer's step is exactly its own effect on status, material and revision. */
  lemma WriterEffectIsExact(hash: string -> string, s: R.State, a: R.Action)
    requires Writes(a) && R.Faithful(hash, s)
    ensures Shadow(R.Apply(hash, s, a)) == Effect(hash, s, Shadow(s), a)
  {
    match a
    case Put(key, value, expiresAt, materialId, now) => if key !in s.fenced { PutShadow(hash, s, key, value, expiresAt, materialId, now); }
    case Replace(key, value, expiresAt, materialId, now) =>
      if key !in s.fenced {
        PutShadow(hash, s, key, value, expiresAt, materialId, now);
        RotateShadow(R.UpsertSecret(hash, s, key, value, expiresAt, materialId, now).value, key, now);
      }
    case Move(key, transition, now) => MoveShadow(s, key, transition, now);
    case Batch(items, now) => if R.ApplyItems(hash, s, items, now).Some? { StoreAllShadow(hash, s, s, items, R.Bump(R.Stamps(s, items), now)); }
    case _ =>
  }

  lemma MoveShadow(s: R.State, key: string, transition: R.Transition, now: nat)
    ensures R.TransitionSecret(s, key, transition, now).Some? ==>
      Shadow(R.TransitionSecret(s, key, transition, now).value) == Shadow(s)[key := Shadow(s)[key].(status := StatusOf(R.After(transition)), updatedAt := now)]
  {
  }

  lemma RotateShadow(s: R.State, key: string, now: nat)
    requires key in s.secrets && key !in s.fenced && s.secrets[key].status == R.Active && s.secrets[key].updatedAt == now
    ensures Shadow(R.TransitionSecret(s, key, R.Rotate, now).value) == Shadow(s)
  {
    MoveShadow(s, key, R.Rotate, now);
  }

  /** The upsert of both models is one operation: its shadow is the credential machine's upsert. */
  lemma UpsertsAgree(hash: string -> string, s: R.State, t: C.State, key: string, actor: string, value: string, expiresAt: Option<nat>, materialId: string, now: nat)
    requires R.Faithful(hash, s) && t.secrets == Shadow(s) && t.fencedSecrets == s.fenced && actor !in t.fencedSubjects
    ensures var after := R.UpsertSecret(hash, s, key, value, expiresAt, materialId, now);
            var seen := C.UpsertSecret(t, key, actor, value, now);
            (after.Some? <==> seen.Some?) && (after.Some? ==> seen.value == t.(secrets := Shadow(after.value)))
  {
    var after := R.UpsertSecret(hash, s, key, value, expiresAt, materialId, now);
    if after.Some? {
      assert Shadow(after.value) == t.secrets[key := C.Written(t, key, value, now)];
    }
  }
}
