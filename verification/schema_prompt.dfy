/** `zodSchemaToPromptDescription` (game-recommendation/utils.ts) over an abstract
    schema: one line per leaf of the schema, each naming the dot-joined path of
    object keys that leads to it, between a fixed header and a fixed footer. */
module SchemaPrompt {
  import opened Wrappers
  import opened Seqs
  import opened Strings

  /** The schema kinds the description distinguishes.  An array carries the type
      name of its element schema; any other kind carries its type name, if any. */
  datatype Schema =
    | ZObject(fields: seq<Field>)
    | ZString
    | ZNumber
    | ZBoolean
    | ZEnum(values: seq<string>)
    | ZArray(elementTypeName: string)
    | ZOptional(inner: Schema)
    | ZNullable(inner: Schema)
    | ZOther(typeName: Option<string>)

  datatype Field = Field(key: string, schema: Schema)

  /** One described leaf: the key path and the type text after the colon. */
  datatype Entry = Entry(path: seq<string>, kind: string)

  /** `"${v}"` for each value, joined by ` | `. */
  function EnumText(values: seq<string>): string
  {
    Join(MapSeq(values, (v: string) => "\"" + v + "\""), " | ")
  }

  /** The type text of a leaf schema. */
  function LeafKind(s: Schema): string
    requires !s.ZObject? && !s.ZOptional? && !s.ZNullable?
  {
    match s
    case ZString => "string"
    case ZNumber => "number"
    case ZBoolean => "boolean"
    case ZEnum(values) => "one of " + EnumText(values)
    case ZArray(elementTypeName) => "array of " + elementTypeName
    case ZOther(typeName) =>
      if typeName.Some? && typeName.value != "" then typeName.value else "unknown"
  }

  predicate PathPrefix(p: seq<string>, q: seq<string>)
  {
    |p| <= |q| && q[..|p|] == p
  }

  /** `parseShape`: the leaves in order, objects walked field by field in the order of
      their field list (the order `Object.entries` yields), optional and nullable
      wrappers looked through.  Every entry's path extends the path of the enclosing
      keys. */
  function Entries(s: Schema, path: seq<string>): (r: seq<Entry>)
    ensures forall i :: 0 <= i < |r| ==> PathPrefix(path, r[i].path)
    decreases s, 1
  {
    match s
    case ZObject(fields) => FieldEntries(fields, path)
    case ZOptional(inner) => Entries(inner, path)
    case ZNullable(inner) => Entries(inner, path)
    case _ => [Entry(path, LeafKind(s))]
  }

  /** The entries of an object's fields, each under the path extended by its key. */
  function FieldEntries(fields: seq<Field>, path: seq<string>): (r: seq<Entry>)
    ensures forall i :: 0 <= i < |r| ==> PathPrefix(path, r[i].path)
    decreases fields, 0
  {
    if |fields| == 0 then []
    else
      var p := path + [fields[0].key];
      var head := Entries(fields[0].schema, p);
      var tail := FieldEntries(fields[1..], path);
      ExtendedPrefix(path, p, head, tail);
      head + tail
  }

  /** Entries under a one-key extension of `path`, followed by entries under `path`,
      all extend `path`. */
  lemma ExtendedPrefix(path: seq<string>, p: seq<string>, head: seq<Entry>, tail: seq<Entry>)
    requires PathPrefix(path, p)
    requires forall i :: 0 <= i < |head| ==> PathPrefix(p, head[i].path)
    requires forall i :: 0 <= i < |tail| ==> PathPrefix(path, tail[i].path)
    ensures forall i :: 0 <= i < |head + tail| ==> PathPrefix(path, (head + tail)[i].path)
  {
    forall i | 0 <= i < |head + tail|
      ensures PathPrefix(path, (head + tail)[i].path)
    {
      if i < |head| {
        assert (head + tail)[i] == head[i];
        assert head[i].path[..|path|] == p[..|path|];
      } else {
        assert (head + tail)[i] == tail[i - |head|];
      }
    }
  }

  /** `- ${path.join('.')}: ${kind}`. */
  function Line(e: Entry): string
  {
    "- " + Join(e.path, ".") + ": " + e.kind
  }

  function Lines(s: Schema): seq<string>
  {
    MapSeq(Entries(s, []), Line)
  }

  const Footer: string :=
    "IMPORTANT: You MUST respond with valid JSON only. Do not include any explanation or text outside the JSON structure."

  /** `options?.rootName || 'object'`. */
  function RootName(rootName: Option<string>): (r: string)
    ensures rootName.Some? && rootName.value != "" ==> r == rootName.value
    ensures rootName.None? || rootName.value == "" ==> r == "object"
  {
    if rootName.Some? && rootName.value != "" then rootName.value else "object"
  }

  function Header(rootName: Option<string>): string
  {
    "Return a JSON " + RootName(rootName) + " with the following structure:"
  }

  /** The whole description: with at least one line, the header, the lines and the
      footer, one per line. */
  function Describe(s: Schema, rootName: Option<string>): (r: string)
    ensures |Lines(s)| > 0 ==> r == Join([Header(rootName)] + Lines(s) + [Footer], "\n")
  {
    if |Lines(s)| > 0 then
      JoinFramed(Header(rootName), Lines(s), Footer, "\n");
      Header(rootName) + "\n" + (Join(Lines(s), "\n") + "\n" + Footer)
    else Header(rootName) + "\n" + (Join(Lines(s), "\n") + "\n" + Footer)
  }

  /** Optional and nullable wrappers are transparent. */
  lemma WrappersTransparent(s: Schema, path: seq<string>)
    ensures Entries(ZOptional(s), path) == Entries(s, path)
    ensures Entries(ZNullable(s), path) == Entries(s, path)
    ensures Entries(ZOptional(ZNullable(s)), path) == Entries(s, path)
  {
  }

  /** Appending a field appends its lines, after those of the earlier fields. */
  lemma {:induction false} FieldEntriesAppend(fields: seq<Field>, f: Field, path: seq<string>)
    ensures FieldEntries(fields + [f], path) == FieldEntries(fields, path) + Entries(f.schema, path + [f.key])
    decreases |fields|
  {
    if |fields| == 0 {
      assert fields + [f] == [f];
      assert [f][1..] == [];
    } else {
      assert (fields + [f])[0] == fields[0];
      assert (fields + [f])[1..] == fields[1..] + [f];
      FieldEntriesAppend(fields[1..], f, path);
    }
  }

  lemma ObjectFieldOrder(fields: seq<Field>, f: Field, path: seq<string>)
    ensures Entries(ZObject(fields + [f]), path)
            == Entries(ZObject(fields), path) + Entries(f.schema, path + [f.key])
  {
    FieldEntriesAppend(fields, f, path);
  }

  /** A flat object of leaf fields: one entry per field, each named by its key. */
  lemma {:induction false} FlatObject(fields: seq<Field>)
    requires forall i :: 0 <= i < |fields| ==>
               var s := fields[i].schema; !s.ZObject? && !s.ZOptional? && !s.ZNullable?
    ensures |Entries(ZObject(fields), [])| == |fields|
    ensures forall i :: 0 <= i < |fields| ==>
              Entries(ZObject(fields), [])[i] == Entry([fields[i].key], LeafKind(fields[i].schema))
    decreases |fields|
  {
    if |fields| > 0 {
      var init := fields[..|fields| - 1];
      var last := fields[|fields| - 1];
      assert fields == init + [last];
      FlatObject(init);
      FieldEntriesAppend(init, last, []);
      assert [] + [last.key] == [last.key];
    }
  }

  /** The schema of the name-extraction answer has one leaf, at key `gameNames`. */
  lemma GameNamesSchemaEntries()
    ensures Entries(ZObject([Field("gameNames", ZArray("ZodString"))]), [])
            == [Entry(["gameNames"], "array of ZodString")]
  {
    var f := Field("gameNames", ZArray("ZodString"));
    assert [f][1..] == [];
    assert [] + [f.key] == ["gameNames"];
    assert LeafKind(f.schema) == "array of ZodString";
  }

  /** The same schema, as an example: a single line. */
  lemma GameNamesSchemaLines()
    ensures Lines(ZObject([Field("gameNames", ZArray("ZodString"))])) == ["- gameNames: array of ZodString"]
  {
    GameNamesSchemaEntries();
    GameNamesLine();
  }

  lemma GameNamesLine()
    ensures Line(Entry(["gameNames"], "array of ZodString")) == "- gameNames: array of ZodString"
  {
    assert Join(["gameNames"], ".") == "gameNames";
  }
}
