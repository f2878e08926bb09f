/** The secret tables and their writers, statement by statement.
    internal/infrastructure/persistence/database/integration/secret_resolver.go
    internal/infrastructure/persistence/database/integration/management_secret_store.go */
module SecretStore {
  import opened Basics
  import opened Text
  import opened Sorting
  import opened SecretRotation
  import opened SecretResolution

  lemma {:induction false} PreparedOneByOne(references: map<string, Ref>, versions: Option<map<string, Version>>, updates: map<string, string>, fields: seq<string>, items: seq<Item>)
    requires (forall f :: f in fields ==> f in updates) && |items| == |fields|
    requires forall i :: 0 <= i < |fields| ==> PrepareItem(references, versions, updates, fields[i]) == Some(items[i])
    ensures PrepareItems(references, versions, updates, fields) == Some(items)
    decreases |fields|
  {
    if fields != [] {
      PreparedOneByOne(references, versions, updates, fields[1..], items[1..]);
      assert items == [items[0]] + items[1..];
    }
  }

  lemma {:induction false} PreparationFails(references: map<string, Ref>, versions: Option<map<string, Version>>, updates: map<string, string>, fields: seq<string>, i: nat)
    requires (forall f :: f in fields ==> f in updates) && i < |fields|
    requires PrepareItem(references, versions, updates, fields[i]).None?
    ensures PrepareItems(references, versions, updates, fields).None?
    decreases |fields|
  {
    if i > 0 {
      assert fields[1..][i - 1] == fields[i];
      PreparationFails(references, versions, updates, fields[1..], i - 1);
    }
  }

  class SecretTables {
    const hash: string -> string
    var secrets: map<string, SecretRow>
    var materials: map<string, MaterialRow>
    var fenced: set<string>

    constructor (hash: string -> string)
      ensures this.hash == hash && View() == SecretRotation.Start
    {
      this.hash, secrets, materials, fenced := hash, map[], map[], {};
    }

    ghost function View(): State
      reads this
    {
      State(secrets, materials, fenced)
    }

    method ReadMetadata(reference: Reference, environment: string -> string, now: nat) returns (pc: Pc)
      ensures pc == SecretResolution.ReadMetadata(View(), environment, reference, now)
    {
      if reference.Environment? {
        return FromEnvironment(environment, reference.name);
      }
      if !reference.Secret? {
        return Failed;
      }
      var key := reference.key;
      if key !in secrets || secrets[key].status != Active {
        return Failed;
      }
      if secrets[key].expiresAt.Some? && secrets[key].expiresAt.value <= now {
        return Failed;
      }
      if secrets[key].ref.InEnvironment? {
        return FromEnvironment(environment, secrets[key].ref.name);
      }
      if secrets[key].ref != Material {
        return Failed;
      }
      pc := Seen(key, Version(key, secrets[key].fingerprint, secrets[key].updatedAt));
    }

    method ReadMaterial(key: string, version: Version) returns (pc: Pc)
      ensures pc == SecretResolution.ReadMaterial(View(), key, version)
    {
      if key !in materials || materials[key].cipher.key != key {
        return Failed;
      }
      pc := Resolved(materials[key].cipher.text, Some(version));
    }

    /** Both reads, when nobody comes between. */
    method ResolveReferenceSnapshot(reference: Reference, environment: string -> string, now: nat) returns (pc: Pc)
      ensures pc.Resolved? || pc.Failed?
      ensures var first := SecretResolution.ReadMetadata(View(), environment, reference, now);
              pc == if first.Seen? then SecretResolution.ReadMaterial(View(), first.key, first.version) else first
      ensures Faithful(hash, View()) && pc.Resolved? && pc.readAt.Some? ==> hash(pc.value) == pc.readAt.value.fingerprint
    {
      pc := ReadMetadata(reference, environment, now);
      if pc.Seen? {
        pc := ReadMaterial(pc.key, pc.version);
      }
    }

    method UpsertSecretMaterial(key: string, cipher: Cipher, materialId: string, now: nat)
      requires key !in fenced
      modifies this`materials
      ensures materials == old(materials)[key := MaterialRow(if key in old(materials) then old(materials)[key].id else materialId, cipher, now)]
    {
      if key in materials {
        materials := materials[key := materials[key].(cipher := cipher, updatedAt := now)];
      } else {
        materials := materials[key := MaterialRow(materialId, cipher, now)];
      }
    }

    method UpsertSecret(key: string, value: string, expiresAt: Option<nat>, materialId: string, now: nat) returns (ok: bool)
      modifies this`secrets, this`materials
      ensures ok <==> SecretRotation.UpsertSecret(hash, old(View()), key, value, expiresAt, materialId, now).Some?
      ensures View() == if ok then SecretRotation.UpsertSecret(hash, old(View()), key, value, expiresAt, materialId, now).value else old(View())
    {
      if key in fenced {
        return false;
      }
      var ref, fingerprint := Elsewhere(""), "";
      if value != "" {
        ref, fingerprint := Material, hash(value);
        UpsertSecretMaterial(key, Cipher(key, value), materialId, now);
      } else if key in secrets {
        ref, fingerprint := secrets[key].ref, secrets[key].fingerprint;
      }
      secrets := secrets[key := SecretRow(Active, ref, fingerprint, expiresAt, now)];
      ok := true;
    }

    method TransitionSecret(key: string, transition: Transition, now: nat) returns (ok: bool)
      modifies this`secrets
      ensures ok <==> SecretRotation.TransitionSecret(old(View()), key, transition, now).Some?
      ensures View() == if ok then SecretRotation.TransitionSecret(old(View()), key, transition, now).value else old(View())
    {
      ok := key in secrets && key !in fenced;
      if ok {
        var row := secrets[key].(updatedAt := now);
        match transition {
          case Disable => row := row.(status := Disabled);
          case Expire => row := row.(status := Expired, expiresAt := Some(now));
          case Revoke => row := row.(status := Revoked);
          case Rotate => row := row.(status := Active);
        }
        secrets := secrets[key := row];
      }
    }

    method RotateSecret(key: string, value: string, expiresAt: Option<nat>, materialId: string, now: nat) returns (ok: bool)
      modifies this`secrets, this`materials
      ensures ok <==> SecretRotation.RotateSecret(hash, old(View()), key, value, expiresAt, materialId, now).Some?
      ensures View() == if ok then SecretRotation.RotateSecret(hash, old(View()), key, value, expiresAt, materialId, now).value else old(View())
    {
      var savedSecrets, savedMaterials := secrets, materials;
      ok := UpsertSecret(key, value, expiresAt, materialId, now);
      if ok {
        ok := TransitionSecret(key, Rotate, now);
        if !ok {
          secrets, materials := savedSecrets, savedMaterials;
        }
      }
    }

    /** Encrypt and address every field in text order; the first unusable one ends it. */
    method PrepareUpdates(references: map<string, Ref>, versions: Option<map<string, Version>>, updates: map<string, string>)
      returns (prepared: Option<seq<Item>>, ghost fields: seq<string>)
      ensures FieldList(fields, updates) && prepared == PrepareItems(references, versions, updates, fields)
    {
      var sorted := SortedFields(updates);
      fields := sorted;
      var items: seq<Item> := [];
      for i := 0 to |sorted|
        invariant |items| == i && forall j :: 0 <= j < i ==> PrepareItem(references, versions, updates, sorted[j]) == Some(items[j])
      {
        var item := PrepareItem(references, versions, updates, sorted[i]);
        if item.None? {
          PreparationFails(references, versions, updates, sorted, i);
          return None, fields;
        }
        items := items + [item.value];
      }
      PreparedOneByOne(references, versions, updates, sorted, items);
      prepared := Some(items);
    }

    method SortedFields(updates: map<string, string>) returns (fields: seq<string>)
      ensures FieldList(fields, updates)
    {
      fields := [];
      var todo := updates.Keys;
      while todo != {}
        invariant todo <= updates.Keys
        invariant forall f :: f in fields <==> f in updates && f !in todo
        invariant Distinct(fields)
        decreases |todo|
      {
        var field :| field in todo;
        fields := fields + [field];
        todo := todo - {field};
      }
      TextOrder();
      SortedDistinctIsListing(fields, fields, Less);
      ListingAscends(fields, Less);
      fields := Sort(fields, Less);
    }

    method ApplySecretUpdates(references: map<string, Ref>, versions: Option<map<string, Version>>, updates: map<string, string>, now: nat)
      returns (ok: bool, ghost fields: seq<string>)
      modifies this`secrets, this`materials
      ensures FieldList(fields, updates)
      ensures var items := PrepareItems(references, versions, updates, fields);
              && (ok <==> items.Some? && ApplyItems(hash, old(View()), items.value, now).Some?)
              && View() == if ok then ApplyItems(hash, old(View()), items.value, now).value else old(View())
    {
      var prepared;
      prepared, fields := PrepareUpdates(references, versions, updates);
      if prepared.None? {
        return false, fields;
      }
      if |prepared.value| == 0 {
        return true, fields;
      }
      ok := ApplyPreparedSecretUpdates(prepared.value, now);
    }

    /** One transaction: read every target, choose the stamp, update target by target. */
    method ApplyPreparedSecretUpdates(items: seq<Item>, now: nat) returns (ok: bool)
      modifies this`secrets, this`materials
      ensures ok <==> ApplyItems(hash, old(View()), items, now).Some?
      ensures View() == if ok then ApplyItems(hash, old(View()), items, now).value else old(View())
    {
      ok := ReadTargets(items);
      if !ok {
        return;
      }
      var stamp := ChooseStamp(items, now);
      ghost var read := View();
      var savedSecrets, savedMaterials := secrets, materials;
      ok := true;
      var i := 0;
      while i < |items|
        invariant 0 <= i <= |items| && fenced == old(fenced)
        invariant StoreAll(hash, read, View(), items[i..], stamp) == StoreAll(hash, read, read, items, stamp)
      {
        assert items[i..][1..] == items[i + 1..] && items[i..][0] == items[i];
        assert Current(read, items[i]);
        ok := UpdateTarget(items[i], savedSecrets[items[i].key], savedMaterials[items[i].key].id, stamp);
        if !ok {
          secrets, materials := savedSecrets, savedMaterials;
          return;
        }
        i := i + 1;
      }
    }

    method UpdateTarget(item: Item, seen: SecretRow, materialId: string, stamp: nat) returns (ok: bool)
      modifies this`secrets, this`materials
      ensures ok <==> Unchanged(old(View()), item.key, seen, materialId)
      ensures ok ==> View() == Store(hash, old(View()), item, stamp)
    {
      var key := item.key;
      ok := key !in fenced && key in secrets && secrets[key].status == Active && secrets[key].ref == Material
            && secrets[key].fingerprint == seen.fingerprint && secrets[key].updatedAt == seen.updatedAt;
      if ok {
        secrets := secrets[key := secrets[key].(fingerprint := hash(item.value), updatedAt := stamp)];
        ok := key in materials && materials[key].id == materialId;
        if ok {
          materials := materials[key := materials[key].(cipher := Cipher(key, item.value), updatedAt := stamp)];
        }
      }
    }

    method ReadTargets(items: seq<Item>) returns (ok: bool)
      ensures ok <==> AllCurrent(View(), items)
    {
      for i := 0 to |items|
        invariant forall j :: 0 <= j < i ==> Current(View(), items[j])
      {
        var key, expected := items[i].key, items[i].expected;
        if key !in secrets || secrets[key].status != Active || secrets[key].ref != Material {
          return false;
        }
        if expected.Some? && (expected.value.fingerprint != secrets[key].fingerprint || expected.value.updatedAt != secrets[key].updatedAt) {
          return false;
        }
        if key !in materials {
          return false;
        }
      }
      ok := true;
    }

    method ChooseStamp(items: seq<Item>, now: nat) returns (stamp: nat)
      requires AllCurrent(View(), items)
      ensures stamp == Bump(Stamps(View(), items), now)
    {
      ghost var stamps := Stamps(View(), items);
      stamp := now;
      for i := 0 to |items|
        invariant Bump(stamps[i..], stamp) == Bump(stamps, now)
      {
        assert stamps[i..][1..] == stamps[i + 1..];
        assert Current(View(), items[i]);
        if secrets[items[i].key].updatedAt == stamp {
          stamp := stamp + 1;
        }
      }
    }
  }
}
