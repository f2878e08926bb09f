/** The credential transactions as they are executed: reads and writes of four tables, a
    failure anywhere restores them. */
module CredentialStore {
  import opened Basics
  import opened Text
  import opened Credentials

  class CredentialStore {
    var connections: map<string, Connection>
    var accounts: map<string, Account>
    var reservations: map<string, string>
    var secrets: map<string, Secret>
    var fencedConnections: set<string>
    var fencedRows: set<RowId>
    var fencedSecrets: set<string>
    var fencedSubjects: set<string>
    var plans: set<Plan>

    ghost function View(): State
      reads this
    {
      State(connections, accounts, reservations, secrets, fencedConnections, fencedRows, fencedSecrets, fencedSubjects, plans)
    }

    constructor ()
      ensures View() == State(map[], map[], map[], map[], {}, {}, {}, {}, {})
    {
      connections, accounts, reservations, secrets := map[], map[], map[], map[];
      fencedConnections, fencedRows, fencedSecrets, fencedSubjects, plans := {}, {}, {}, {}, {};
    }

    /** Every reference of an account must be managed material; each key is kept once. */
    method MaterialSecretKeys(refs: Refs) returns (keys: Option<set<string>>)
      ensures keys == if AllManaged(refs) then Some(ManagedKeys(refs)) else None
    {
      var values: set<string> := {};
      var todo := refs.Keys;
      while todo != {}
        invariant todo <= refs.Keys
        invariant forall f :: f in refs && f !in todo ==> refs[f].Managed? && refs[f].key != ""
        invariant values == set f | f in refs && f !in todo && refs[f].Managed? :: refs[f].key
        decreases |todo|
      {
        var field :| field in todo;
        if !refs[field].Managed? || refs[field].key == "" {
          return None;
        }
        values := values + {refs[field].key};
        todo := todo - {field};
      }
      assert values == ManagedKeys(refs);
      keys := Some(values);
    }

    method RejectReservedAccountSecrets(connection: string, refs: Refs) returns (ok: bool)
      ensures ok <==> FreeFor(View(), connection, refs)
    {
      var todo := refs.Keys;
      while todo != {}
        invariant todo <= refs.Keys
        invariant forall f :: f in refs && f !in todo && refs[f].Managed? && refs[f].key in reservations ==> reservations[refs[f].key] == connection
        decreases |todo|
      {
        var field :| field in todo;
        if refs[field].Managed? && refs[field].key in reservations && reservations[refs[field].key] != connection {
          assert refs[field].key in ManagedKeys(refs);
          return false;
        }
        todo := todo - {field};
      }
      ok := true;
    }

    method RejectExistingCredentialAliases(connection: string, keys: set<string>) returns (ok: bool)
      ensures ok <==> NotAliased(View(), connection, keys)
    {
      if keys == {} {
        return true;
      }
      var todo := connections.Keys;
      while todo != {}
        invariant todo <= connections.Keys
        invariant forall c :: c in connections && c !in todo && c != connection ==> ManagedKeys(connections[c].refs) !! keys
        decreases |todo|
      {
        var other :| other in todo;
        if other != connection {
          var aliased := Uses(connections[other].refs, keys);
          if aliased {
            return false;
          }
        }
        todo := todo - {other};
      }
      ok := true;
    }

    method Uses(refs: Refs, keys: set<string>) returns (found: bool)
      ensures found <==> !(ManagedKeys(refs) !! keys)
    {
      var todo := refs.Keys;
      while todo != {}
        invariant todo <= refs.Keys
        invariant forall f :: f in refs && f !in todo && refs[f].Managed? ==> refs[f].key !in keys
        decreases |todo|
      {
        var field :| field in todo;
        if refs[field].Managed? && refs[field].key in keys {
          assert refs[field].key in ManagedKeys(refs) * keys;
          return true;
        }
        todo := todo - {field};
      }
      found := false;
    }

    method RequireActiveMaterial(keys: set<string>) returns (ok: bool)
      ensures ok <==> AllActive(View(), keys)
    {
      var todo := keys;
      while todo != {}
        invariant todo <= keys
        invariant forall k :: k in keys && k !in todo ==> k in secrets && secrets[k].status == Active && secrets[k].material.Some?
        decreases |todo|
      {
        var key :| key in todo;
        if key !in secrets || secrets[key].status != Active || secrets[key].material.None? {
          return false;
        }
        todo := todo - {key};
      }
      ok := true;
    }

    /** Delete the account's reservations and insert the current ones; an insert would fail
        on a key that is still reserved, which cannot happen here. */
    method ReplaceReservations(connection: string, keys: set<string>)
      requires forall k :: k in keys && k in reservations ==> reservations[k] == connection
      modifies this`reservations
      ensures reservations == (map k | k in old(reservations) && old(reservations)[k] != connection :: old(reservations)[k]) + map k | k in keys :: connection
    {
      reservations := map k | k in reservations && reservations[k] != connection :: reservations[k];
      ghost var kept := reservations;
      var todo := keys;
      while todo != {}
        invariant todo <= keys
        invariant reservations == kept + map k | k in keys && k !in todo :: connection
        decreases |todo|
      {
        var key :| key in todo;
        assert key !in reservations;
        reservations := reservations[key := connection];
        todo := todo - {key};
      }
    }

    method SyncConnectionAccountSecrets(connection: string, refs: Refs) returns (ok: bool)
      modifies this`reservations
      ensures ok <==> SyncAllowed(old(View()), connection, refs)
      ensures ok ==> reservations == SyncedReservations(old(View()), connection, refs)
      ensures !ok ==> reservations == old(reservations)
    {
      ok := RejectReservedAccountSecrets(connection, refs);
      if !ok || connection !in accounts {
        return;
      }
      var found := MaterialSecretKeys(refs);
      if found.None? {
        return false;
      }
      var keys := found.value;
      ok := RejectExistingCredentialAliases(connection, keys);
      if !ok {
        return;
      }
      ok := RequireActiveMaterial(keys);
      if !ok {
        return;
      }
      ReplaceReservations(connection, keys);
    }

    method UpsertSecret(key: string, actor: string, value: string, now: nat) returns (ok: bool)
      modifies this`secrets
      ensures ok <==> Credentials.UpsertSecret(old(View()), key, actor, value, now).Some?
      ensures View() == if ok then Credentials.UpsertSecret(old(View()), key, actor, value, now).value else old(View())
    {
      if key in fencedSecrets || actor in fencedSubjects {
        return false;
      }
      var material := if value != "" then Some(value) else if key in secrets then secrets[key].material else None;
      secrets := secrets[key := Secret(Active, material, now)];
      ok := true;
    }

    /** Workspace and key as the caller spells them; the trimmed ones are checked only with a value. */
    method UpsertSpelledSecret(workspaceId: string, raw: string, actor: string, value: string, now: nat) returns (ok: bool)
      modifies this`secrets
      ensures ok <==> UpsertSecretSpelled(old(View()), workspaceId, raw, actor, value, now).Some?
      ensures View() == if ok then UpsertSecretSpelled(old(View()), workspaceId, raw, actor, value, now).value else old(View())
    {
      if FencesFound(workspaceId) && (raw in fencedSecrets || actor in fencedSubjects) {
        return false;
      }
      var key := Trim(raw);
      if Trim(workspaceId) == "" || key == "" || (value != "" && key in fencedSecrets) {
        return false;
      }
      if key !in secrets {
        secrets := secrets[key := Secret(Active, if value != "" then Some(value) else None, now)];
      } else if key !in fencedSecrets {
        secrets := secrets[key := Secret(Active, if value != "" then Some(value) else secrets[key].material, now)];
      }
      ok := true;
    }

    /** The tables as a transaction finds them. */
    method Snapshot() returns (saved: State)
      ensures saved == View()
    {
      saved := State(connections, accounts, reservations, secrets, fencedConnections, fencedRows, fencedSecrets, fencedSubjects, plans);
    }

    /** Roll back to the tables as they were when the transaction began. */
    method Restore(saved: State)
      modifies this
      ensures View() == saved
    {
      connections, accounts, reservations, secrets := saved.connections, saved.accounts, saved.reservations, saved.secrets;
      fencedConnections, fencedRows, fencedSecrets, fencedSubjects, plans := saved.fencedConnections, saved.fencedRows, saved.fencedSecrets, saved.fencedSubjects, saved.plans;
    }

    /** The upsert of a workspace and key that arrive trimmed. */
    method UpsertConnection(key: string, actor: string, value: Connection) returns (ok: bool)
      modifies this`connections, this`reservations
      ensures ok <==> Upsert(old(View()), key, actor, value).Some?
      ensures View() == if ok then Upsert(old(View()), key, actor, value).value else old(View())
    {
      if key in fencedConnections || actor in fencedSubjects {
        return false;
      }
      var saved := connections;
      connections := connections[key := value.(id := if key in connections then connections[key].id else OwnerRow(key))];
      ok := SyncConnectionAccountSecrets(key, value.refs);
      if !ok {
        connections := saved;
      }
    }

    /** Workspace and key as the caller spells them: the fences are read first, the row write
        carries the row fence and may change nothing, the references are synchronised in either
        case. */
    method UpsertSpelledConnection(workspaceId: string, raw: string, actor: string, value: Connection) returns (ok: bool)
      modifies this`connections, this`reservations
      ensures ok <==> UpsertSpelled(old(View()), workspaceId, raw, actor, value).Some?
      ensures View() == if ok then UpsertSpelled(old(View()), workspaceId, raw, actor, value).value else old(View())
    {
      if FencesFound(workspaceId) && (raw in fencedConnections || actor in fencedSubjects) {
        return false;
      }
      var key := Trim(raw);
      if Trim(workspaceId) == "" || key == "" {
        return false;
      }
      var saved := connections;
      if key !in connections {
        connections := connections[key := value.(id := OwnerRow(key))];
      } else if connections[key].id !in fencedRows {
        connections := connections[key := value.(id := connections[key].id)];
      }
      ok := SyncConnectionAccountSecrets(key, value.refs);
      if !ok {
        connections := saved;
      }
    }

    method RegisterConnectionAccount(key: string, account: Account) returns (ok: bool)
      modifies this`accounts, this`reservations
      ensures ok <==> Register(old(View()), key, account).Some?
      ensures View() == if ok then Register(old(View()), key, account).value else old(View())
    {
      if account.owner in fencedSubjects || key in fencedConnections || key !in connections {
        return false;
      }
      if key in accounts {
        return accounts[key] == account;
      }
      var saved := accounts;
      accounts := accounts[key := account];
      ok := SyncConnectionAccountSecrets(key, connections[key].refs);
      if !ok {
        accounts := saved;
      }
    }

    method DeleteConnection(key: string) returns (ok: bool)
      modifies this`connections, this`accounts, this`reservations
      ensures ok <==> Delete(old(View()), key).Some?
      ensures View() == if ok then Delete(old(View()), key).value else old(View())
    {
      if key !in connections {
        return false;
      }
      reservations := map k | k in reservations && reservations[k] != key :: reservations[k];
      accounts := accounts - {key};
      connections := connections - {key};
      ok := true;
    }

    method RevokeOwned(owned: set<string>, now: nat)
      modifies this`secrets
      ensures secrets == RevokedSecrets(old(View()), owned, now)
    {
      var todo := owned;
      while todo != {}
        invariant todo <= owned
        invariant secrets == RevokedSecrets(old(View()), owned - todo, now)
        decreases |todo|
      {
        var secret :| secret in todo;
        if secret in secrets && secrets[secret].status == Active && secret !in fencedSecrets {
          secrets := secrets[secret := secrets[secret].(status := Revoked, updatedAt := now)];
        }
        todo := todo - {secret};
      }
      assert owned - todo == owned;
    }

    method RevokeConnectionAccount(key: string, expected: nat, now: nat) returns (outcome: RevokeResult)
      modifies this`connections, this`secrets
      ensures outcome == RevokeOutcome(old(View()), key, expected)
      ensures View() == Revoke(old(View()), key, expected, now)
    {
      if key !in accounts || key !in connections {
        return Missing;
      }
      if connections[key].status == ConnectionRevoked {
        return Unchanged;
      }
      if connections[key].updatedAt != expected {
        return Changed;
      }
      if connections[key].id in fencedRows {
        return Changed;
      }
      connections := connections[key := connections[key].(status := ConnectionRevoked, updatedAt := now)];
      RevokeOwned((set k | k in reservations && reservations[k] == key), now);
      outcome := Performed;
    }

    /** The inventory of a subject's connections and the credentials nobody else references. */
    method CollectCredentials(subject: string) returns (plan: Plan)
      ensures plan == Collect(View(), subject)
    {
      var own := set c | c in accounts && accounts[c].personal && accounts[c].owner == subject;
      var owned, shared: set<string> := {}, {};
      var todo := connections.Keys;
      while todo != {}
        invariant todo <= connections.Keys
        invariant owned == set c, k | c in connections && c !in todo && c in own && k in ManagedKeys(connections[c].refs) :: k
        invariant shared == set c, k | c in connections && c !in todo && c !in own && k in ManagedKeys(connections[c].refs) :: k
        decreases |todo|
      {
        var key :| key in todo;
        if key in own {
          owned := owned + ManagedKeys(connections[key].refs);
        } else {
          shared := shared + ManagedKeys(connections[key].refs);
        }
        todo := todo - {key};
      }
      var reserved := set k | k in reservations && reservations[k] in own;
      owned := owned + reserved;
      plan := Plan((map c | c in connections && c in own :: connections[c].id), reserved, owned - shared);
    }
  }
}
