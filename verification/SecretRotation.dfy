/** Managed secrets of one workspace: two tables, and the batch that rotates several of them.
    internal/infrastructure/persistence/database/integration/secret_resolver.go
    internal/infrastructure/persistence/database/integration/management_secret_store.go */
module SecretRotation {
  import opened Basics
  import opened Text
  import opened Sorting
  import Credentials

  datatype Status = Active | Disabled | Expired | Revoked | Erasing

  /** Where the value lives: in the material table, in the host's environment, or nowhere usable. */
  datatype ValueRef = Material | InEnvironment(name: string) | Elsewhere(text: string)

  datatype SecretRow = SecretRow(status: Status, ref: ValueRef, fingerprint: string, expiresAt: Option<nat>, updatedAt: nat)

  /** Encrypted material; it opens only under the key it was sealed for. */
  datatype Cipher = Cipher(key: string, text: string)

  datatype MaterialRow = MaterialRow(id: string, cipher: Cipher, updatedAt: nat)

  datatype State = State(secrets: map<string, SecretRow>, materials: map<string, MaterialRow>, fenced: set<string>)

  /** What a resolution remembers of a secret. */
  datatype Version = Version(key: string, fingerprint: string, updatedAt: nat)

  type Ref = Credentials.Ref

  function VersionOf(s: State, key: string): Version
    requires key in s.secrets
  {
    Version(key, s.secrets[key].fingerprint, s.secrets[key].updatedAt)
  }

  // ----- the other writers -----

  function UpsertSecret(hash: string -> string, s: State, key: string, value: string, expiresAt: Option<nat>, materialId: string, now: nat): Option<State> {
    if key in s.fenced then None
    else if value != "" then
      var id := if key in s.materials then s.materials[key].id else materialId;
      Some(s.(secrets := s.secrets[key := SecretRow(Active, Material, hash(value), expiresAt, now)],
              materials := s.materials[key := MaterialRow(id, Cipher(key, value), now)]))
    else
      var previous := if key in s.secrets then s.secrets[key] else SecretRow(Active, Elsewhere(""), "", None, now);
      Some(s.(secrets := s.secrets[key := previous.(status := Active, expiresAt := expiresAt, updatedAt := now)]))
  }

  datatype Transition = Disable | Expire | Revoke | Rotate

  function After(t: Transition): Status {
    match t case Disable => Disabled case Expire => Expired case Revoke => Revoked case Rotate => Active
  }

  function TransitionSecret(s: State, key: string, t: Transition, now: nat): Option<State> {
    if key !in s.secrets || key in s.fenced then None
    else Some(s.(secrets := s.secrets[key := s.secrets[key].(status := After(t), updatedAt := now,
                              expiresAt := if t.Expire? then Some(now) else s.secrets[key].expiresAt)]))
  }

  /** Replace the material and mark the rotation, together. */
  function RotateSecret(hash: string -> string, s: State, key: string, value: string, expiresAt: Option<nat>, materialId: string, now: nat): Option<State> {
    var put := UpsertSecret(hash, s, key, value, expiresAt, materialId, now);
    if put.None? then None else TransitionSecret(put.value, key, Rotate, now)
  }

  // ----- the batch -----

  datatype Item = Item(field: string, key: string, value: string, expected: Option<Version>)

  /** One field of an update; None refuses the whole batch. */
  function PrepareItem(references: map<string, Ref>, versions: Option<map<string, Version>>, updates: map<string, string>, field: string): Option<Item>
    requires field in updates
  {
    if field !in references || !references[field].Managed? || references[field].key == "" then None
    else
      var key := references[field].key;
      if versions.None? then Some(Item(field, key, updates[field], None))
      else if field !in versions.value || versions.value[field].key != key then None
      else Some(Item(field, key, updates[field], Some(versions.value[field])))
  }

  function PrepareItems(references: map<string, Ref>, versions: Option<map<string, Version>>, updates: map<string, string>, fields: seq<string>): Option<seq<Item>>
    requires forall f :: f in fields ==> f in updates
  {
    if fields == [] then Some([])
    else
      var first := PrepareItem(references, versions, updates, fields[0]);
      var rest := PrepareItems(references, versions, updates, fields[1..]);
      if first.None? || rest.None? then None else Some([first.value] + rest.value)
  }

  predicate Current(s: State, item: Item) {
    && item.key in s.secrets && s.secrets[item.key].status == Active && s.secrets[item.key].ref == Material
    && (item.expected.Some? ==> item.expected.value.fingerprint == s.secrets[item.key].fingerprint && item.expected.value.updatedAt == s.secrets[item.key].updatedAt)
    && item.key in s.materials
  }

  predicate AllCurrent(s: State, items: seq<Item>) {
    forall i :: 0 <= i < |items| ==> Current(s, items[i])
  }

  function Stamps(s: State, items: seq<Item>): (r: seq<nat>)
    requires AllCurrent(s, items)
    ensures |r| == |items| && forall i :: 0 <= i < |r| ==> r[i] == s.secrets[items[i].key].updatedAt
  {
    seq(|items|, i requires 0 <= i < |items| => s.secrets[items[i].key].updatedAt)
  }

  /** One pass in slice order: step over the reading whenever it equals a stored stamp. */
  function Bump(stamps: seq<nat>, now: nat): nat
    decreases |stamps|
  {
    if stamps == [] then now else Bump(stamps[1..], if stamps[0] == now then now + 1 else now)
  }

  /** The conditional update of one secret and of its material. `seen` is the row as read. */
  predicate Unchanged(s: State, key: string, seen: SecretRow, materialId: string) {
    && key !in s.fenced && key in s.secrets && s.secrets[key].status == Active && s.secrets[key].ref == Material
    && s.secrets[key].fingerprint == seen.fingerprint && s.secrets[key].updatedAt == seen.updatedAt
    && key in s.materials && s.materials[key].id == materialId
  }

  function Store(hash: string -> string, s: State, item: Item, stamp: nat): State
    requires item.key in s.secrets && item.key in s.materials
  {
    s.(secrets := s.secrets[item.key := s.secrets[item.key].(fingerprint := hash(item.value), updatedAt := stamp)],
       materials := s.materials[item.key := s.materials[item.key].(cipher := Cipher(item.key, item.value), updatedAt := stamp)])
  }

  /** `read` is the state every target was read in; None rolls everything back. */
  function StoreAll(hash: string -> string, read: State, s: State, items: seq<Item>, stamp: nat): Option<State>
    requires AllCurrent(read, items)
    decreases |items|
  {
    if items == [] then Some(s)
    else if !Unchanged(s, items[0].key, read.secrets[items[0].key], read.materials[items[0].key].id) then None
    else
      assert forall i :: 0 <= i < |items| - 1 ==> items[1..][i] == items[i + 1];
      StoreAll(hash, read, Store(hash, s, items[0], stamp), items[1..], stamp)
  }

  function ApplyItems(hash: string -> string, s: State, items: seq<Item>, now: nat): Option<State> {
    if !AllCurrent(s, items) then None else StoreAll(hash, s, s, items, Bump(Stamps(s, items), now))
  }

  /** The fields of an update, each once, in text order. */
  ghost predicate FieldList(fields: seq<string>, updates: map<string, string>) {
    Ascending(fields, Less) && forall f :: f in fields <==> f in updates
  }

  // ----- runs -----

  datatype Action =
    | Put(key: string, value: string, expiresAt: Option<nat>, materialId: string, now: nat)
    | Move(key: string, transition: Transition, now: nat)
    | Replace(key: string, value: string, expiresAt: Option<nat>, materialId: string, now: nat)
    | RevokeOwned(keys: set<string>, now: nat)
    | ExpireDue(keys: set<string>, now: nat)
    | Batch(items: seq<Item>, now: nat)
    | PrepareErasure(keys: set<string>)
    | EraseKeys(keys: set<string>)

  /** Account revocation and the worker's expiry: active secrets get a new status and revision. */
  function Swept(s: State, keys: set<string>, status: Status, now: nat): map<string, SecretRow> {
    map k | k in s.secrets :: if k in keys && k !in s.fenced && s.secrets[k].status == Active
                              then s.secrets[k].(status := status, updatedAt := now) else s.secrets[k]
  }

  function OrElse(after: Option<State>, before: State): State {
    if after.Some? then after.value else before
  }

  function Apply(hash: string -> string, s: State, a: Action): State {
    match a
    case Put(key, value, expiresAt, materialId, now) => OrElse(UpsertSecret(hash, s, key, value, expiresAt, materialId, now), s)
    case Move(key, transition, now) => OrElse(TransitionSecret(s, key, transition, now), s)
    case Replace(key, value, expiresAt, materialId, now) => OrElse(RotateSecret(hash, s, key, value, expiresAt, materialId, now), s)
    case RevokeOwned(keys, now) => s.(secrets := Swept(s, keys, Revoked, now))
    case ExpireDue(keys, now) => s.(secrets := Swept(s, keys, Expired, now))
    case Batch(items, now) => OrElse(ApplyItems(hash, s, items, now), s)
    case PrepareErasure(keys) =>
      s.(fenced := s.fenced + keys, secrets := map k | k in s.secrets :: if k in keys then s.secrets[k].(status := Erasing) else s.secrets[k])
    case EraseKeys(keys) => s.(secrets := s.secrets - (keys * s.fenced), materials := s.materials - (keys * s.fenced))
  }

  const Start := State(map[], map[], {})

  function Run(hash: string -> string, s: State, actions: seq<Action>): State
    decreases |actions|
  {
    if actions == [] then s else Run(hash, Apply(hash, s, actions[0]), actions[1..])
  }

  // ----- what a commit does -----

  lemma {:induction false} StoredTargets(hash: string -> string, read: State, s: State, items: seq<Item>, stamp: nat)
    requires AllCurrent(read, items) && StoreAll(hash, read, s, items, stamp).Some?
    ensures var v := StoreAll(hash, read, s, items, stamp).value;
            && v.fenced == s.fenced
            && (forall k :: (forall i :: 0 <= i < |items| ==> items[i].key != k) ==> SameSecret(s, v, k))
            && (forall i :: 0 <= i < |items| && LastOfKey(items, i) ==> Holds(hash, v, items[i], stamp))
    decreases |items|
  {
    if items != [] {
      var rest := items[1..];
      assert forall i :: 0 <= i < |rest| ==> rest[i] == items[i + 1];
      var t := Store(hash, s, items[0], stamp);
      StoredTargets(hash, read, t, rest, stamp);
      var v := StoreAll(hash, read, s, items, stamp).value;
      forall k | forall i :: 0 <= i < |items| ==> items[i].key != k ensures SameSecret(s, v, k) {
        assert items[0].key != k && SameSecret(t, v, k);
      }
      forall i | 0 <= i < |items| && LastOfKey(items, i) ensures Holds(hash, v, items[i], stamp) {
        if i == 0 {
          forall j | 0 <= j < |rest| ensures rest[j].key != items[0].key { assert items[j + 1].key != items[0].key; }
          assert SameSecret(t, v, items[0].key);
        } else {
          assert LastOfKey(rest, i - 1) by {
            forall j | i - 1 < j < |rest| ensures rest[j].key != rest[i - 1].key { assert items[j + 1].key != items[i].key; }
          }
        }
      }
    }
  }

  predicate LastOfKey(items: seq<Item>, i: nat)
    requires i < |items|
  {
    forall j :: i < j < |items| ==> items[j].key != items[i].key
  }

  predicate SameSecret(s: State, v: State, k: string) {
    && (k in v.secrets <==> k in s.secrets) && (k in s.secrets ==> v.secrets[k] == s.secrets[k])
    && (k in v.materials <==> k in s.materials) && (k in s.materials ==> v.materials[k] == s.materials[k])
  }

  /** Metadata and material both carry the new value. */
  predicate Holds(hash: string -> string, v: State, item: Item, stamp: nat) {
    && item.key in v.secrets && v.secrets[item.key].status == Active && v.secrets[item.key].ref == Material
    && v.secrets[item.key].fingerprint == hash(item.value) && v.secrets[item.key].updatedAt == stamp
    && item.key in v.materials && v.materials[item.key].cipher == Cipher(item.key, item.value) && v.materials[item.key].updatedAt == stamp
  }

  /** A batch commits only if every target is active material at the expected version; then all
      targets carry their new value under one stamp, in both tables, and nothing else moved. */
  lemma BatchIsAtomic(hash: string -> string, s: State, items: seq<Item>, now: nat)
    requires ApplyItems(hash, s, items, now).Some?
    ensures var v := ApplyItems(hash, s, items, now).value;
            && AllCurrent(s, items)
            && (forall i :: 0 <= i < |items| ==> items[i].key !in s.fenced)
            && (forall k :: (forall i :: 0 <= i < |items| ==> items[i].key != k) ==> SameSecret(s, v, k))
            && (forall i :: 0 <= i < |items| && LastOfKey(items, i) ==> Holds(hash, v, items[i], Bump(Stamps(s, items), now)))
  {
    var stamp := Bump(Stamps(s, items), now);
    StoredTargets(hash, s, s, items, stamp);
    NoneFenced(hash, s, s, items, stamp);
  }

  lemma {:induction false} NoneFenced(hash: string -> string, read: State, s: State, items: seq<Item>, stamp: nat)
    requires AllCurrent(read, items) && StoreAll(hash, read, s, items, stamp).Some?
    ensures forall i :: 0 <= i < |items| ==> items[i].key !in s.fenced
    decreases |items|
  {
    if items != [] {
      assert forall i :: 0 <= i < |items| - 1 ==> items[1..][i] == items[i + 1];
      NoneFenced(hash, read, Store(hash, s, items[0], stamp), items[1..], stamp);
      forall i | 0 <= i < |items| ensures items[i].key !in s.fenced {
        if i > 0 { assert items[1..][i - 1] == items[i]; }
      }
    }
  }

  // ----- aliases -----

  /** The second of two fields that name one secret finds the first one's write. */
  lemma {:induction false} SecondFindsFirst(hash: string -> string, read: State, s: State, items: seq<Item>, stamp: nat, i: nat, j: nat)
    requires AllCurrent(read, items) && StoreAll(hash, read, s, items, stamp).Some?
    requires i < j < |items| && items[i].key == items[j].key && (forall k :: i < k < j ==> items[k].key != items[i].key)
    ensures read.secrets[items[i].key].fingerprint == hash(items[i].value) && read.secrets[items[i].key].updatedAt == stamp
    decreases |items|
  {
    var t := Store(hash, s, items[0], stamp);
    assert forall k :: 0 <= k < |items| - 1 ==> items[1..][k] == items[k + 1];
    if i > 0 {
      forall k | i - 1 < k < j - 1 ensures items[1..][k].key != items[1..][i - 1].key { assert items[k + 1].key != items[i].key; }
      SecondFindsFirst(hash, read, t, items[1..], stamp, i - 1, j - 1);
    } else {
      forall k | 0 <= k < j - 1 ensures items[1..][k].key != items[0].key { assert items[k + 1].key != items[0].key; }
      FoundAt(hash, read, t, items[1..], stamp, j - 1, items[0].key);
    }
  }

  lemma {:induction false} FoundAt(hash: string -> string, read: State, t: State, items: seq<Item>, stamp: nat, j: nat, key: string)
    requires AllCurrent(read, items) && StoreAll(hash, read, t, items, stamp).Some?
    requires j < |items| && items[j].key == key && (forall k :: 0 <= k < j ==> items[k].key != key) && key in t.secrets
    ensures t.secrets[key].fingerprint == read.secrets[key].fingerprint && t.secrets[key].updatedAt == read.secrets[key].updatedAt
    decreases |items|
  {
    if j > 0 {
      assert forall k :: 0 <= k < |items| - 1 ==> items[1..][k] == items[k + 1];
      forall k | 0 <= k < j - 1 ensures items[1..][k].key != key { assert items[k + 1].key != key; }
      assert items[0].key != key;
      FoundAt(hash, read, Store(hash, t, items[0], stamp), items[1..], stamp, j - 1, key);
    }
  }

  /** Two fields name one secret and no field between them does. */
  predicate Neighbours(items: seq<Item>, i: int, j: int) {
    0 <= i < j < |items| && items[i].key == items[j].key && forall k :: i < k < j ==> items[k].key != items[i].key
  }

  /** Storing the item leaves the fingerprint and the stamp that were there before. */
  predicate StoresTheSame(hash: string -> string, read: State, item: Item, stamp: nat) {
    item.key in read.secrets && read.secrets[item.key].fingerprint == hash(item.value) && read.secrets[item.key].updatedAt == stamp
  }

  predicate FirstOfKey(items: seq<Item>, i: nat)
    requires i < |items|
  {
    forall j :: 0 <= j < i ==> items[j].key != items[i].key
  }

  predicate AsRead(read: State, s: State, item: Item) {
    Current(read, item) && Unchanged(s, item.key, read.secrets[item.key], read.materials[item.key].id)
  }

  lemma {:induction false} StoreAllSucceeds(hash: string -> string, read: State, s: State, items: seq<Item>, stamp: nat)
    requires AllCurrent(read, items)
    requires forall i :: 0 <= i < |items| && FirstOfKey(items, i) ==> AsRead(read, s, items[i])
    requires forall i, j :: Neighbours(items, i, j) ==> StoresTheSame(hash, read, items[i], stamp)
    ensures StoreAll(hash, read, s, items, stamp).Some?
    decreases |items|
  {
    if items != [] {
      var rest := items[1..];
      assert AsRead(read, s, items[0]);
      assert forall i :: 0 <= i < |rest| ==> rest[i] == items[i + 1];
      var t := Store(hash, s, items[0], stamp);
      forall i | 0 <= i < |rest| && FirstOfKey(rest, i) ensures AsRead(read, t, rest[i]) {
        assert forall k :: 1 <= k < i + 1 ==> items[k] == rest[k - 1];
        if rest[i].key == items[0].key {
          assert Neighbours(items, 0, i + 1);
        } else {
          assert FirstOfKey(items, i + 1);
        }
      }
      forall i, j | Neighbours(rest, i, j) ensures StoresTheSame(hash, read, rest[i], stamp) {
        assert forall k :: i + 1 < k < j + 1 ==> items[k] == rest[k - 1];
        assert Neighbours(items, i + 1, j + 1);
      }
      StoreAllSucceeds(hash, read, t, rest, stamp);
    }
  }

  /** A batch commits exactly when all targets are current, none is fenced, and every field
      aliased by a later one stores exactly the fingerprint and the stamp already there. */
  lemma BatchCommitsIff(hash: string -> string, s: State, items: seq<Item>, now: nat)
    ensures ApplyItems(hash, s, items, now).Some? <==>
      && AllCurrent(s, items) && (forall i :: 0 <= i < |items| ==> items[i].key !in s.fenced)
      && (forall i, j :: Neighbours(items, i, j) ==> StoresTheSame(hash, s, items[i], Bump(Stamps(s, items), now)))
  {
    if AllCurrent(s, items) {
      var stamp := Bump(Stamps(s, items), now);
      if ApplyItems(hash, s, items, now).Some? {
        NoneFenced(hash, s, s, items, stamp);
        forall i, j | Neighbours(items, i, j) ensures StoresTheSame(hash, s, items[i], stamp) {
          SecondFindsFirst(hash, s, s, items, stamp, i, j);
        }
      } else if (forall i :: 0 <= i < |items| ==> items[i].key !in s.fenced) && forall i, j :: Neighbours(items, i, j) ==> StoresTheSame(hash, s, items[i], stamp) {
        forall i | 0 <= i < |items| && FirstOfKey(items, i) ensures AsRead(s, s, items[i]) { assert Current(s, items[i]); }
        StoreAllSucceeds(hash, s, s, items, stamp);
      }
    }
  }

  /** A pair of aliasing fields alone never commits, whatever the values: the stamp is new to it. */
  lemma AliasPairNeverCommits(hash: string -> string, s: State, a: Item, b: Item, now: nat)
    requires a.key == b.key
    ensures ApplyItems(hash, s, [a, b], now).None?
  {
    var items := [a, b];
    if AllCurrent(s, items) {
      assert Current(s, items[0]);
      var t := s.secrets[a.key].updatedAt;
      assert Stamps(s, items) == [t, t];
      assert Bump([t, t], now) != t by {
        assert [t, t][1..] == [t] && [t][1..] == [];
        assert Bump([t, t], now) == Bump([t], if t == now then now + 1 else now);
        assert Bump([t], now) == Bump([], if t == now then now + 1 else now);
      }
      assert Neighbours(items, 0, 1);
      BatchCommitsIff(hash, s, items, now);
    }
  }

  /** Two batches from one snapshot: the second is refused once the first moved the version. */
  lemma SecondWriterIsRefused(hash: string -> string, s: State, first: seq<Item>, second: seq<Item>, now: nat, later: nat, i: nat, j: nat)
    requires ApplyItems(hash, s, first, now).Some? && i < |first| && LastOfKey(first, i)
    requires j < |second| && second[j].key == first[i].key && second[j].expected == Some(VersionOf(s, first[i].key))
    requires VersionOf(s, first[i].key) != Version(first[i].key, hash(first[i].value), Bump(Stamps(s, first), now))
    ensures ApplyItems(hash, ApplyItems(hash, s, first, now).value, second, later).None?
  {
    BatchIsAtomic(hash, s, first, now);
    var v := ApplyItems(hash, s, first, now).value;
    assert Holds(hash, v, first[i], Bump(Stamps(s, first), now));
    assert !Current(v, second[j]);
  }

  // ----- the stamp -----

  /** `stamps` lists now, now + 1, ... now + n - 1 in this order, possibly with others between. */
  predicate Lists(stamps: seq<nat>, now: nat, n: nat)
    decreases |stamps|
  {
    n == 0 || (stamps != [] && (if stamps[0] == now then Lists(stamps[1..], now + 1, n - 1) else Lists(stamps[1..], now, n)))
  }

  lemma {:induction false} BumpIsLongestList(stamps: seq<nat>, now: nat, n: nat)
    ensures now <= Bump(stamps, now)
    ensures Lists(stamps, now, n) <==> now + n <= Bump(stamps, now)
    decreases |stamps|
  {
    if stamps != [] {
      if stamps[0] == now {
        BumpIsLongestList(stamps[1..], now + 1, if n == 0 then 0 else n - 1);
      } else {
        BumpIsLongestList(stamps[1..], now, n);
      }
    }
  }

  lemma {:induction false} ListedAreMembers(stamps: seq<nat>, now: nat, n: nat, k: nat)
    requires Lists(stamps, now, n) && k < n
    ensures now + k in stamps
    decreases |stamps|
  {
    if stamps[0] != now {
      ListedAreMembers(stamps[1..], now, n, k);
    } else if k > 0 {
      ListedAreMembers(stamps[1..], now + 1, n - 1, k - 1);
    }
  }

  predicate Consecutive(stamps: seq<nat>, now: nat, n: nat) {
    forall t :: now <= t < now + n ==> t in stamps
  }

  /** The stamp is new to every target exactly when every unbroken run of stored stamps from the
      clock reading on is listed in slice order. */
  lemma StampIsNewIff(stamps: seq<nat>, now: nat)
    ensures Bump(stamps, now) !in stamps <==> forall n: nat :: Consecutive(stamps, now, n) ==> Lists(stamps, now, n)
  {
    BumpIsLongestList(stamps, now, 0);
    var m := Bump(stamps, now) - now;
    BumpIsLongestList(stamps, now, m);
    BumpIsLongestList(stamps, now, m + 1);
    forall t | now <= t < now + m ensures t in stamps { ListedAreMembers(stamps, now, m, t - now); }
    if Bump(stamps, now) in stamps {
      assert Consecutive(stamps, now, m + 1) && !Lists(stamps, now, m + 1);
    } else {
      forall n: nat | Consecutive(stamps, now, n) ensures Lists(stamps, now, n) {
        if n > m { assert false; }
        BumpIsLongestList(stamps, now, n);
      }
    }
  }

  /** A clock behind the stored stamps can hand a target the stamp it already has. */
  lemma StampMayRepeat()
    ensures Bump([8, 7], 7) == 8 && Bump([8, 7], 7) in [8, 7]
  {
    assert [8, 7][1..] == [7] && [7][1..] == [];
    assert Bump([8, 7], 7) == Bump([7], 7) && Bump([7], 7) == Bump([], 8);
  }

  // ----- fingerprints -----

  /** A managed secret's fingerprint is the hash of its material. */
  ghost predicate Faithful(hash: string -> string, s: State) {
    forall k :: k in s.secrets && s.secrets[k].ref == Material ==>
      k in s.materials && s.materials[k].cipher.key == k && s.secrets[k].fingerprint == hash(s.materials[k].cipher.text)
  }

  lemma {:induction false} StoreAllFaithful(hash: string -> string, read: State, s: State, items: seq<Item>, stamp: nat)
    requires AllCurrent(read, items) && Faithful(hash, s)
    ensures StoreAll(hash, read, s, items, stamp).Some? ==> Faithful(hash, StoreAll(hash, read, s, items, stamp).value)
    decreases |items|
  {
    if items != [] && Unchanged(s, items[0].key, read.secrets[items[0].key], read.materials[items[0].key].id) {
      assert forall i :: 0 <= i < |items| - 1 ==> items[1..][i] == items[i + 1];
      StoreAllFaithful(hash, read, Store(hash, s, items[0], stamp), items[1..], stamp);
    }
  }

  lemma StepFaithful(hash: string -> string, s: State, a: Action)
    requires Faithful(hash, s)
    ensures Faithful(hash, Apply(hash, s, a))
  {
    match a
    case Batch(items, now) => if AllCurrent(s, items) { StoreAllFaithful(hash, s, s, items, Bump(Stamps(s, items), now)); }
    case _ =>
  }

  lemma {:induction false} RunFaithful(hash: string -> string, s: State, actions: seq<Action>)
    requires Faithful(hash, s)
    ensures Faithful(hash, Run(hash, s, actions))
    decreases |actions|
  {
    if actions != [] {
      StepFaithful(hash, s, actions[0]);
      RunFaithful(hash, Apply(hash, s, actions[0]), actions[1..]);
    }
  }

  /** Material is stored for managed secrets only. */
  ghost predicate Paired(s: State) {
    forall k :: k in s.materials ==> k in s.secrets && s.secrets[k].ref == Material
  }

  lemma {:induction false} StoreAllPaired(hash: string -> string, read: State, s: State, items: seq<Item>, stamp: nat)
    requires AllCurrent(read, items) && Paired(s)
    ensures StoreAll(hash, read, s, items, stamp).Some? ==> Paired(StoreAll(hash, read, s, items, stamp).value)
    decreases |items|
  {
    if items != [] && Unchanged(s, items[0].key, read.secrets[items[0].key], read.materials[items[0].key].id) {
      assert forall i :: 0 <= i < |items| - 1 ==> items[1..][i] == items[i + 1];
      StoreAllPaired(hash, read, Store(hash, s, items[0], stamp), items[1..], stamp);
    }
  }

  lemma StepPaired(hash: string -> string, s: State, a: Action)
    requires Paired(s)
    ensures Paired(Apply(hash, s, a))
  {
    match a
    case Batch(items, now) => if AllCurrent(s, items) { StoreAllPaired(hash, s, s, items, Bump(Stamps(s, items), now)); }
    case _ =>
  }
}
