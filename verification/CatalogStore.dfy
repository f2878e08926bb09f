/** The startup synchronisation as two loops over the definitions table.
    internal/infrastructure/persistence/database/integration/builtin_catalog_sync.go:21-50, 117-145
    internal/infrastructure/persistence/database/integration/provider_catalog_sync.go:30-115 */
module CatalogStore {
  import opened Basics
  import opened Catalog
  import Text

  function RowOf(rows: map<string, Row>, key: string): Option<Row> {
    if key in rows then Some(rows[key]) else None
  }

  predicate Mentions(definitions: seq<Definition>, key: string) {
    exists i :: 0 <= i < |definitions| && definitions[i].key == key
  }

  /** A definition that is not stored yet is listed twice. */
  predicate InsertsTwice(existing: map<string, Row>, definitions: seq<Definition>) {
    exists i, j :: 0 <= i < j < |definitions| && definitions[i].key == definitions[j].key && definitions[i].key !in existing
  }

  /** The definition is written: the row it was compared with is missing or not current. */
  predicate Writes(codec: Codec, existing: map<string, Row>, definition: Definition) {
    definition.key in existing ==> !IsCurrent(codec, existing[definition.key], definition)
  }

  /** The row of a key comes from its last definition that is written, if any: each is compared
      with the row as it was when the synchronisation began. */
  ghost predicate SyncedRow(codec: Codec, existing: map<string, Row>, row: Option<Row>, definitions: seq<Definition>, key: string) {
    if exists i :: LastWriter(codec, existing, definitions, key, i) then
      exists i :: LastWriter(codec, existing, definitions, key, i) && row == Some(Builtin(codec, RowOf(existing, key), definitions[i]))
    else row == RowOf(existing, key)
  }

  ghost predicate LastWriter(codec: Codec, existing: map<string, Row>, definitions: seq<Definition>, key: string, i: int) {
    && 0 <= i < |definitions| && definitions[i].key == key && Writes(codec, existing, definitions[i])
    && forall j :: i < j < |definitions| && definitions[j].key == key ==> !Writes(codec, existing, definitions[j])
  }

  ghost predicate Synced(codec: Codec, existing: map<string, Row>, rows: map<string, Row>, definitions: seq<Definition>) {
    forall key :: SyncedRow(codec, existing, RowOf(rows, key), definitions, key)
  }

  /** One more definition: it is the last to write its own key, if it writes; nothing else changes. */
  lemma LastWriterNext(codec: Codec, existing: map<string, Row>, definitions: seq<Definition>, n: nat, key: string, i: int)
    requires n < |definitions|
    ensures LastWriter(codec, existing, definitions[..n + 1], key, i)
       <==> if definitions[n].key == key && Writes(codec, existing, definitions[n]) then i == n else LastWriter(codec, existing, definitions[..n], key, i)
  {
    assert forall j :: 0 <= j < n ==> definitions[..n + 1][j] == definitions[..n][j];
    assert definitions[..n + 1][n] == definitions[n];
  }

  lemma SyncedRowNext(codec: Codec, existing: map<string, Row>, before: Option<Row>, row: Option<Row>, definitions: seq<Definition>, n: nat, key: string)
    requires n < |definitions| && SyncedRow(codec, existing, before, definitions[..n], key)
    requires row == if definitions[n].key == key && Writes(codec, existing, definitions[n]) then Some(Builtin(codec, RowOf(existing, key), definitions[n])) else before
    ensures SyncedRow(codec, existing, row, definitions[..n + 1], key)
  {
    var defs, next := definitions[..n], definitions[..n + 1];
    forall i ensures LastWriter(codec, existing, next, key, i)
                <==> if definitions[n].key == key && Writes(codec, existing, definitions[n]) then i == n else LastWriter(codec, existing, defs, key, i)
    {
      LastWriterNext(codec, existing, definitions, n, key, i);
    }
    if definitions[n].key == key && Writes(codec, existing, definitions[n]) {
      assert LastWriter(codec, existing, next, key, n) && next[n] == definitions[n];
    } else if exists i :: LastWriter(codec, existing, defs, key, i) {
      var i :| LastWriter(codec, existing, defs, key, i) && before == Some(Builtin(codec, RowOf(existing, key), defs[i]));
      assert LastWriter(codec, existing, next, key, i) && next[i] == defs[i];
    } else {
      assert row == RowOf(existing, key);
    }
  }

  lemma SyncedNext(codec: Codec, existing: map<string, Row>, before: map<string, Row>, rows: map<string, Row>, definitions: seq<Definition>, n: nat)
    requires n < |definitions| && Synced(codec, existing, before, definitions[..n])
    requires rows == if Writes(codec, existing, definitions[n])
                     then before[definitions[n].key := Builtin(codec, RowOf(existing, definitions[n].key), definitions[n])] else before
    ensures Synced(codec, existing, rows, definitions[..n + 1])
  {
    forall key ensures SyncedRow(codec, existing, RowOf(rows, key), definitions[..n + 1], key) {
      assert SyncedRow(codec, existing, RowOf(before, key), definitions[..n], key);
      SyncedRowNext(codec, existing, RowOf(before, key), RowOf(rows, key), definitions, n, key);
    }
  }

  lemma NothingSynced(codec: Codec, existing: map<string, Row>)
    ensures Synced(codec, existing, existing, [])
  {
    forall key ensures SyncedRow(codec, existing, RowOf(existing, key), [], key) {
      assert forall i :: !LastWriter(codec, existing, [], key, i);
    }
  }

  lemma MentionsNext(existing: map<string, Row>, definitions: seq<Definition>, n: nat)
    requires n < |definitions|
    ensures forall key :: Mentions(definitions[..n + 1], key) <==> Mentions(definitions[..n], key) || key == definitions[n].key
    ensures InsertsTwice(existing, definitions[..n + 1])
       <==> InsertsTwice(existing, definitions[..n]) || (definitions[n].key !in existing && Mentions(definitions[..n], definitions[n].key))
    ensures InsertsTwice(existing, definitions[..n + 1]) ==> InsertsTwice(existing, definitions)
  {
    assert forall j :: 0 <= j < n ==> definitions[..n + 1][j] == definitions[..n][j];
    assert definitions[..n + 1][n] == definitions[n];
  }

  /** A definition without a repeat of its key ends current or was current before. */
  lemma SingleDefinition(codec: Codec, existing: map<string, Row>, rows: map<string, Row>, definitions: seq<Definition>, i: nat)
    requires i < |definitions| && Synced(codec, existing, rows, definitions)
    requires forall j :: 0 <= j < |definitions| && definitions[j].key == definitions[i].key ==> j == i
    ensures RowOf(rows, definitions[i].key) == Some(Builtin(codec, RowOf(existing, definitions[i].key), definitions[i]))
  {
    var key := definitions[i].key;
    assert SyncedRow(codec, existing, RowOf(rows, key), definitions, key);
    if Writes(codec, existing, definitions[i]) {
      assert LastWriter(codec, existing, definitions, key, i);
    } else {
      assert forall j :: !LastWriter(codec, existing, definitions, key, j);
    }
  }

  class DefinitionTable {
    const codec: Codec
    var rows: map<string, Row>
    ghost var writes: nat

    constructor (codec: Codec)
      ensures this.codec == codec && rows == map[] && writes == 0
    {
      this.codec, rows, writes := codec, map[], 0;
    }

    /** `existing` is the row as it was when the synchronisation began. */
    method SyncBuiltinConnector(definition: Definition, existing: Option<Row>) returns (ok: bool)
      modifies this
      ensures ok <==> !(existing.None? && definition.key in old(rows))
      ensures rows == if ok && !(existing.Some? && IsCurrent(codec, existing.value, definition))
                      then old(rows)[definition.key := Builtin(codec, existing, definition)] else old(rows)
      ensures existing.Some? && IsCurrent(codec, existing.value, definition) ==> writes == old(writes)
      ensures writes <= old(writes) + 1
    {
      if existing.None? {
        if definition.key in rows {
          return false;
        }
        rows := rows[definition.key := Row(RowId(definition.key), definition.name, definition.payload, codec.hash(definition.payload), Connectors, "connectors")];
        writes := writes + 1;
        return true;
      }
      if IsCurrent(codec, existing.value, definition) {
        return true;
      }
      var updated := existing.value.(name := definition.name, payload := definition.payload, hash := codec.hash(definition.payload), kind := Connectors, sourceId := "connectors");
      writes := writes + 1;
      rows := rows[definition.key := updated];
      ok := true;
    }

    /** A definition listed twice and not stored yet fails at its second insert; what was
        written before stays. */
    method SyncBuiltinCatalog(definitions: seq<Definition>) returns (ok: bool)
      modifies this
      ensures ok <==> !InsertsTwice(old(rows), definitions)
      ensures ok ==> Synced(codec, old(rows), rows, definitions)
      ensures !ok ==> exists n :: 0 <= n < |definitions| && !InsertsTwice(old(rows), definitions[..n]) && InsertsTwice(old(rows), definitions[..n + 1])
                                  && Synced(codec, old(rows), rows, definitions[..n])
      ensures (forall i :: 0 <= i < |definitions| ==> !Writes(codec, old(rows), definitions[i])) ==> ok && writes == old(writes) && rows == old(rows)
    {
      var existing := rows;
      NothingSynced(codec, existing);
      for i := 0 to |definitions|
        invariant Synced(codec, existing, rows, definitions[..i])
        invariant !InsertsTwice(existing, definitions[..i])
        invariant forall key :: key in rows <==> key in existing || Mentions(definitions[..i], key)
        invariant (forall j :: 0 <= j < i ==> !Writes(codec, existing, definitions[j])) ==> writes == old(writes) && rows == existing
      {
        var key := definitions[i].key;
        ghost var before := rows;
        assert definitions[..i + 1] == definitions[..i] + [definitions[i]];
        var done := SyncBuiltinConnector(definitions[i], RowOf(existing, key));
        assert Mentions(definitions[..i + 1], key) by { assert definitions[..i + 1][i].key == key; }
        MentionsNext(existing, definitions, i);
        if !done {
          return false;
        }
        SyncedNext(codec, existing, before, rows, definitions, i);
      }
      assert definitions[..|definitions|] == definitions;
      ok := true;
    }

    method SyncProviderConnector(key: string, o: Overlay) returns (ok: bool)
      modifies this
      ensures ok <==> Provide(codec, RowOf(old(rows), key), key, o).Some?
      ensures rows == if ok then old(rows)[key := Provide(codec, RowOf(old(rows), key), key, o).value] else old(rows)
    {
      var definition := Defaults(key);
      if key in rows && Text.Trim(rows[key].payload) != "" {
        var stored := codec.decode(rows[key].payload);
        if stored.None? {
          return false;
        }
        definition := definition + stored.value;
      }
      definition := definition["providers" := o.providers];
      definition := definition["operations" := o.operations];
      var payload := codec.encode(definition);
      writes := writes + 1;
      ok := true;
      if key !in rows {
        rows := rows[key := Row(RowId(key), key, payload, codec.hash(payload), FromProvider, o.revisions)];
        return;
      }
      var kind := FromProvider;
      if rows[key].kind != FromProvider {
        kind := Overlaid;
      }
      rows := rows[key := rows[key].(name := NameOf(definition, key), payload := payload, hash := codec.hash(payload), kind := kind, sourceId := o.revisions)];
    }

    /** Connector by connector; an unreadable document stops the loop where it is. */
    method SyncProviderCatalog(overlays: map<string, Overlay>) returns (ok: bool)
      modifies this
      ensures ok <==> forall key :: key in overlays ==> Provide(codec, RowOf(old(rows), key), key, overlays[key]).Some?
      ensures forall key :: key !in overlays ==> RowOf(rows, key) == RowOf(old(rows), key)
      ensures forall key :: key in overlays ==>
        RowOf(rows, key) == RowOf(old(rows), key) || RowOf(rows, key) == Provide(codec, RowOf(old(rows), key), key, overlays[key])
      ensures ok ==> forall key :: key in overlays ==> RowOf(rows, key) == Provide(codec, RowOf(old(rows), key), key, overlays[key])
    {
      var todo := overlays.Keys;
      while todo != {}
        invariant todo <= overlays.Keys
        invariant forall key :: key !in overlays || key in todo ==> RowOf(rows, key) == RowOf(old(rows), key)
        invariant forall key :: key in overlays && key !in todo ==>
          Provide(codec, RowOf(old(rows), key), key, overlays[key]).Some? && RowOf(rows, key) == Provide(codec, RowOf(old(rows), key), key, overlays[key])
        decreases |todo|
      {
        var key :| key in todo;
        ghost var before := rows;
        assert RowOf(rows, key) == RowOf(old(rows), key);
        ok := SyncProviderConnector(key, overlays[key]);
        if !ok {
          return;
        }
        assert forall k :: k != key ==> RowOf(rows, k) == RowOf(before, k);
        todo := todo - {key};
      }
      ok := true;
    }
  }
}
