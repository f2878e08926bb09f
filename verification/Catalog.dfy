/** Connector definitions at startup: the built-in document, then the provider overlay.
    internal/infrastructure/persistence/database/integration/builtin_catalog_sync.go
    internal/infrastructure/persistence/database/integration/provider_catalog_sync.go */
module Catalog {
  import opened Basics
  import opened Text

  /** A field of a JSON document; any other value than a text has a printed form, `<nil>` for null. */
  datatype Json = TextField(text: string) | OtherField(raw: string, printed: string)

  type Document = map<string, Json>

  /** Stored text: its hash, and JSON in both directions. */
  datatype Codec = Codec(hash: string -> string, decode: string -> Option<Document>, encode: Document -> string)

  /** Encoding can be undone and does not produce blank text; the hash identifies a text. */
  ghost predicate Sound(c: Codec) {
    && (forall d :: c.decode(c.encode(d)) == Some(d) && Trim(c.encode(d)) != "")
    && (forall a, b :: c.hash(a) == c.hash(b) ==> a == b)
  }

  datatype Kind = Connectors | Overlaid | FromProvider

  datatype Row = Row(id: string, name: string, payload: string, hash: string, kind: Kind, sourceId: string)

  datatype Definition = Definition(key: string, name: string, payload: string)

  /** What the registered providers of one connector contribute. */
  datatype Overlay = Overlay(providers: Json, operations: Json, revisions: string)

  const DEFAULTED := ["type", "source", "lifecycle_status"]

  // ----- the built-in step -----

  function Without(d: Document, keys: set<string>): Document {
    d - keys
  }

  /** The fields the provider step may have added on its own. */
  function Added(desired: Document): set<string> {
    {"providers", "operations"} + (set k | k in DEFAULTED && k !in desired)
  }

  predicate IsCurrent(c: Codec, row: Row, definition: Definition) {
    match row.kind
    case Connectors => row.hash == c.hash(definition.payload)
    case Overlaid =>
      && c.decode(row.payload).Some? && c.decode(definition.payload).Some?
      && var desired := c.decode(definition.payload).value;
         Without(c.decode(row.payload).value, Added(desired)) == Without(desired, {"providers", "operations"})
    case FromProvider => false
  }

  function RowId(key: string): string {
    "connector:" + key
  }

  function Builtin(c: Codec, row: Option<Row>, definition: Definition): Row {
    if row.None? then Row(RowId(definition.key), definition.name, definition.payload, c.hash(definition.payload), Connectors, "connectors")
    else if IsCurrent(c, row.value, definition) then row.value
    else row.value.(name := definition.name, payload := definition.payload, hash := c.hash(definition.payload), kind := Connectors, sourceId := "connectors")
  }

  // ----- the provider step -----

  function Defaults(key: string): Document {
    map["key" := TextField(key), "type" := TextField("connector"), "name" := TextField(key),
        "source" := TextField("integration-provider"), "lifecycle_status" := TextField("active")]
  }

  function Overlaying(base: Document, o: Overlay): Document {
    base["providers" := o.providers]["operations" := o.operations]
  }

  function Printed(value: Json): string {
    match value
    case TextField(text) => text
    case OtherField(_, printed) => printed
  }

  function NameOf(d: Document, key: string): string {
    var name := Trim(if "name" in d then Printed(d["name"]) else "<nil>");
    if name == "" || name == "<nil>" then key else name
  }

  /** None: the stored document cannot be decoded. */
  function Base(c: Codec, row: Option<Row>, key: string): Option<Document> {
    if row.None? || Trim(row.value.payload) == "" then Some(Defaults(key))
    else if c.decode(row.value.payload).None? then None
    else Some(Defaults(key) + c.decode(row.value.payload).value)
  }

  function Provide(c: Codec, row: Option<Row>, key: string, o: Overlay): Option<Row> {
    var base := Base(c, row, key);
    if base.None? then None
    else
      var document := Overlaying(base.value, o);
      var payload := c.encode(document);
      if row.None? then Some(Row(RowId(key), key, payload, c.hash(payload), FromProvider, o.revisions))
      else Some(row.value.(name := NameOf(document, key), payload := payload, hash := c.hash(payload),
                           kind := if row.value.kind == FromProvider then FromProvider else Overlaid, sourceId := o.revisions))
  }

  /** One startup of one connector: its definition if it has one, then its providers if any. */
  function Startup(c: Codec, row: Option<Row>, key: string, definition: Option<Definition>, overlay: Option<Overlay>): Option<Option<Row>> {
    var builtin := if definition.Some? then Some(Builtin(c, row, definition.value)) else row;
    if overlay.None? then Some(builtin)
    else
      var provided := Provide(c, builtin, key, overlay.value);
      if provided.None? then None else Some(provided)
  }

  // ----- what holds of every stored row -----

  ghost predicate RowInv(c: Codec, row: Row) {
    && row.hash == c.hash(row.payload)
    && (row.kind == Overlaid ==> Trim(row.payload) != "" && c.decode(row.payload).Some? && Defaults("").Keys <= c.decode(row.payload).value.Keys)
  }

  lemma BuiltinKeeps(c: Codec, row: Option<Row>, definition: Definition)
    requires row.Some? ==> RowInv(c, row.value)
    ensures RowInv(c, Builtin(c, row, definition))
  {
  }

  lemma ProvideKeeps(c: Codec, row: Option<Row>, key: string, o: Overlay)
    requires Sound(c) && (row.Some? ==> RowInv(c, row.value)) && Provide(c, row, key, o).Some?
    ensures RowInv(c, Provide(c, row, key, o).value)
  {
    assert Defaults("").Keys == Defaults(key).Keys;
  }

  lemma StartupKeeps(c: Codec, row: Option<Row>, key: string, definition: Option<Definition>, overlay: Option<Overlay>)
    requires Sound(c) && (row.Some? ==> RowInv(c, row.value)) && Startup(c, row, key, definition, overlay).Some?
    ensures var v := Startup(c, row, key, definition, overlay).value; v.Some? ==> RowInv(c, v.value)
  {
    if definition.Some? { BuiltinKeeps(c, row, definition.value); }
    var builtin := if definition.Some? then Some(Builtin(c, row, definition.value)) else row;
    if overlay.Some? { ProvideKeeps(c, builtin, key, overlay.value); }
  }

  /** After any startups whatsoever, from nothing, the stored row satisfies the invariant. */
  lemma {:induction false} StartupsKeep(c: Codec, row: Option<Row>, key: string, inputs: seq<(Option<Definition>, Option<Overlay>)>)
    requires Sound(c) && (row.Some? ==> RowInv(c, row.value)) && Startups(c, row, key, inputs).Some?
    ensures var v := Startups(c, row, key, inputs).value; v.Some? ==> RowInv(c, v.value)
    decreases |inputs|
  {
    if inputs != [] {
      StartupKeeps(c, row, key, inputs[0].0, inputs[0].1);
      StartupsKeep(c, Startup(c, row, key, inputs[0].0, inputs[0].1).value, key, inputs[1..]);
    }
  }

  function Startups(c: Codec, row: Option<Row>, key: string, inputs: seq<(Option<Definition>, Option<Overlay>)>): Option<Option<Row>>
    decreases |inputs|
  {
    if inputs == [] then Some(row)
    else
      var next := Startup(c, row, key, inputs[0].0, inputs[0].1);
      if next.None? then None else Startups(c, next.value, key, inputs[1..])
  }

  // ----- the overlay -----

  const PROJECTIONS := {"providers", "operations"}

  /** `d` has every field of `desired` other than the two projections. */
  ghost predicate Includes(d: Document, desired: Document) {
    forall f :: f in desired && f !in PROJECTIONS ==> f in d && d[f] == desired[f]
  }

  lemma StrippedIncludes(d: Document, desired: Document)
    requires Without(d, Added(desired)) == Without(desired, PROJECTIONS)
    ensures Includes(d, desired)
  {
    forall f | f in desired && f !in PROJECTIONS ensures f in d && d[f] == desired[f] {
      assert f in Without(desired, PROJECTIONS);
      assert f in Without(d, Added(desired));
      assert Without(d, Added(desired))[f] == d[f] && Without(desired, PROJECTIONS)[f] == desired[f];
    }
  }

  /** After the built-in step the stored document includes the definition. */
  lemma BuiltinIncludes(c: Codec, row: Option<Row>, definition: Definition)
    requires Sound(c) && (row.Some? ==> RowInv(c, row.value))
    requires c.decode(definition.payload).Some? && Trim(definition.payload) != ""
    ensures var v := Builtin(c, row, definition);
            && Trim(v.payload) != "" && c.decode(v.payload).Some? && v.kind != FromProvider
            && Includes(c.decode(v.payload).value, c.decode(definition.payload).value)
            && (v.kind == Connectors ==> v.payload == definition.payload)
            && (v.kind == Overlaid ==> row == Some(v) && IsCurrent(c, v, definition))
  {
    if row.Some? && row.value.kind == Overlaid && IsCurrent(c, row.value, definition) {
      StrippedIncludes(c.decode(row.value.payload).value, c.decode(definition.payload).value);
    }
  }

  /** What the provider step stores over a readable document. */
  lemma ProvidedDocument(c: Codec, row: Row, key: string, o: Overlay)
    requires Sound(c) && Trim(row.payload) != "" && c.decode(row.payload).Some?
    ensures Provide(c, Some(row), key, o).Some?
    ensures c.decode(Provide(c, Some(row), key, o).value.payload) == Some(Overlaying(Defaults(key) + c.decode(row.payload).value, o))
  {
  }

  /** Every field the definition has, other than the two projections, survives the overlay. */
  lemma OverlayPreservesDefinition(c: Codec, row: Option<Row>, key: string, definition: Definition, o: Overlay)
    requires Sound(c) && (row.Some? ==> RowInv(c, row.value))
    requires c.decode(definition.payload).Some? && Trim(definition.payload) != ""
    ensures var v := Startup(c, row, key, Some(definition), Some(o));
            && v.Some? && v.value.Some? && c.decode(v.value.value.payload).Some?
            && var d := c.decode(v.value.value.payload).value;
               Includes(d, c.decode(definition.payload).value)
               && "providers" in d && d["providers"] == o.providers && "operations" in d && d["operations"] == o.operations
  {
    BuiltinIncludes(c, row, definition);
    ProvidedDocument(c, Builtin(c, row, definition), key, o);
  }

  // ----- the second startup -----

  /** With the defaults overlaid, only `key` and `name` can tell the document from its definition. */
  lemma StrippedIff(desired: Document, key: string, o: Overlay)
    ensures var d := Overlaying(Defaults(key) + desired, o);
            Without(d, Added(desired)) == Without(desired, PROJECTIONS) <==> "key" in desired && "name" in desired
  {
    var d := Overlaying(Defaults(key) + desired, o);
    var left, right := Without(d, Added(desired)), Without(desired, PROJECTIONS);
    assert "key" in left && "name" in left;
    if "key" in desired && "name" in desired {
      forall f ensures f in left <==> f in right {
        SameField(desired, key, o, f);
      }
      forall f | f in left ensures left[f] == right[f] { SameField(desired, key, o, f); }
    }
  }

  lemma SameField(desired: Document, key: string, o: Overlay, f: string)
    requires "key" in desired && "name" in desired
    ensures var d := Overlaying(Defaults(key) + desired, o);
            && (f in Without(d, Added(desired)) <==> f in Without(desired, PROJECTIONS))
            && (f in Without(d, Added(desired)) ==> Without(d, Added(desired))[f] == Without(desired, PROJECTIONS)[f])
  {
    assert f in Defaults(key) <==> f == "key" || f == "name" || f in DEFAULTED;
  }

  /** The next startup leaves the built-in step nothing to write exactly when the definition
      itself has `key` and `name`. */
  lemma BuiltinIsCurrentIff(c: Codec, row: Option<Row>, key: string, definition: Definition, o: Overlay)
    requires Sound(c) && (row.Some? ==> RowInv(c, row.value))
    requires c.decode(definition.payload).Some? && Trim(definition.payload) != ""
    ensures var v := Startup(c, row, key, Some(definition), Some(o));
            && v.Some? && v.value.Some?
            && (IsCurrent(c, v.value.value, definition) <==>
                  "key" in c.decode(definition.payload).value && "name" in c.decode(definition.payload).value)
  {
    var builtin, desired := Builtin(c, row, definition), c.decode(definition.payload).value;
    BuiltinIncludes(c, row, definition);
    ProvidedDocument(c, builtin, key, o);
    if builtin.kind == Connectors {
      StrippedIff(desired, key, o);
    } else {
      StillStripped(c.decode(builtin.payload).value, desired, key, o);
    }
  }

  lemma StillStripped(stored: Document, desired: Document, key: string, o: Overlay)
    requires Defaults("").Keys <= stored.Keys && Without(stored, Added(desired)) == Without(desired, PROJECTIONS)
    ensures var d := Overlaying(Defaults(key) + stored, o);
            Without(d, Added(desired)) == Without(desired, PROJECTIONS) && "key" in desired && "name" in desired
  {
    assert Defaults(key) + stored == stored by { assert Defaults(key).Keys == Defaults("").Keys; }
    assert Without(Overlaying(stored, o), Added(desired)) == Without(stored, Added(desired));
    assert "key" in Without(stored, Added(desired)) && "name" in Without(stored, Added(desired)) by {
      assert "key" in Defaults("") && "name" in Defaults("");
    }
  }

  /** The provider step only reads the payload, and repeating it stores the same row. */
  lemma ProvideTwice(c: Codec, row: Row, key: string, o: Overlay)
    requires Sound(c) && Trim(row.payload) != "" && c.decode(row.payload).Some?
    ensures var first := Provide(c, Some(row), key, o); first.Some? && Provide(c, first, key, o) == first
  {
    var base := Defaults(key) + c.decode(row.payload).value;
    assert Defaults(key) + Overlaying(base, o) == Overlaying(base, o);
    assert Overlaying(Overlaying(base, o), o) == Overlaying(base, o);
  }

  /** A startup is a fixpoint: repeating it stores the same row, whatever the definition holds. */
  lemma StartupIsFixpoint(c: Codec, row: Option<Row>, key: string, definition: Definition, o: Overlay)
    requires Sound(c) && (row.Some? ==> RowInv(c, row.value))
    requires c.decode(definition.payload).Some? && Trim(definition.payload) != ""
    ensures var v := Startup(c, row, key, Some(definition), Some(o));
            v.Some? && v.value.Some? && Startup(c, v.value, key, Some(definition), Some(o)) == v
  {
    var builtin := Builtin(c, row, definition);
    BuiltinIncludes(c, row, definition);
    ProvideTwice(c, builtin, key, o);
    var first := Provide(c, Some(builtin), key, o).value;
    if !IsCurrent(c, first, definition) {
      if builtin.kind == Overlaid {
        StillStripped(c.decode(builtin.payload).value, c.decode(definition.payload).value, key, o);
        ProvidedDocument(c, builtin, key, o);
        assert false;
      }
    }
  }

  /** For a connector without a definition the first startup stores the key as the name, and the
      next one the name that the stored document has, which is trimmed. */
  predicate NameIsStable(key: string) {
    Trim(key) in {key, "", "<nil>"}
  }

  lemma NewlyProvided(c: Codec, key: string, o: Overlay)
    requires Sound(c)
    ensures var first := Provide(c, None, key, o);
            && first.Some? && c.decode(first.value.payload) == Some(Overlaying(Defaults(key), o)) && first.value.name == key
            && Provide(c, first, key, o) == Some(first.value.(name := NameOf(Defaults(key), key)))
  {
    var d := Overlaying(Defaults(key), o);
    assert Defaults(key) + d == d && Overlaying(d, o) == d;
    assert NameOf(d, key) == NameOf(Defaults(key), key);
  }

  /** Repeating a startup of such a connector stores the same row exactly when the row was there
      before or the key is a stable name. */
  lemma ProviderStartupIsFixpointIff(c: Codec, row: Option<Row>, key: string, o: Overlay)
    requires Sound(c) && (row.Some? ==> RowInv(c, row.value)) && Startup(c, row, key, None, Some(o)).Some?
    ensures var v := Startup(c, row, key, None, Some(o)).value;
            v.Some? && (Startup(c, v, key, None, Some(o)) == Some(v) <==> row.Some? || NameIsStable(key))
  {
    if row.None? {
      NewlyProvided(c, key, o);
    } else if Trim(row.value.payload) == "" {
      BlankIsProvided(c, row.value, key, o);
    } else {
      ProvideTwice(c, row.value, key, o);
    }
  }

  lemma BlankIsProvided(c: Codec, row: Row, key: string, o: Overlay)
    requires Sound(c) && Trim(row.payload) == ""
    ensures var first := Provide(c, Some(row), key, o); first.Some? && Provide(c, first, key, o) == first
  {
    var d := Overlaying(Defaults(key), o);
    assert Defaults(key) + d == d && Overlaying(d, o) == d;
  }

  /** The second startup is a fixpoint in every case. */
  lemma SecondProviderStartupIsFixpoint(c: Codec, row: Option<Row>, key: string, o: Overlay)
    requires Sound(c) && (row.Some? ==> RowInv(c, row.value)) && Startup(c, row, key, None, Some(o)).Some?
    ensures var v := Startup(c, Startup(c, row, key, None, Some(o)).value, key, None, Some(o));
            v.Some? && Startup(c, v.value, key, None, Some(o)) == v
  {
    var first := Startup(c, row, key, None, Some(o)).value;
    StartupKeeps(c, row, key, None, Some(o));
    ProviderStartupIsFixpointIff(c, row, key, o);
    ReadableIsProvided(c, row, key, o);
    ProvidedDocument(c, first.value, key, o);
    ProviderStartupIsFixpointIff(c, first, key, o);
  }

  lemma ReadableIsProvided(c: Codec, row: Option<Row>, key: string, o: Overlay)
    requires Sound(c) && Provide(c, row, key, o).Some?
    ensures var v := Provide(c, row, key, o).value; Trim(v.payload) != "" && c.decode(v.payload).Some?
  {
  }

  /** A key with a space: the name is stored with it at first and without it from then on. */
  lemma SpacedKeyIsRenamed(c: Codec, o: Overlay)
    requires Sound(c)
    ensures var first := Startup(c, None, " k", None, Some(o));
            && first.Some? && first.value.Some? && first.value.value.name == " k"
            && Startup(c, first.value, " k", None, Some(o)) == Some(Some(first.value.value.(name := "k")))
  {
    NewlyProvided(c, " k", o);
    assert (" k")[1..] == "k" && Trim(" k") == "k";
  }

  /** A definition without `name` is rewritten at every startup and ends the same every time. */
  lemma NamelessDefinitionIsRewritten(c: Codec, key: string, definition: Definition, o: Overlay)
    requires Sound(c) && Trim(definition.payload) != "" && c.decode(definition.payload) == Some(map["key" := TextField(key)])
    ensures var v := Startup(c, None, key, Some(definition), Some(o));
            && v.Some? && v.value.Some? && !IsCurrent(c, v.value.value, definition)
            && Builtin(c, v.value, definition) != v.value.value && Startup(c, v.value, key, Some(definition), Some(o)) == v
  {
    BuiltinIsCurrentIff(c, None, key, definition, o);
    StartupIsFixpoint(c, None, key, definition, o);
  }
}
