/**
 * The field-renaming engine of the PatternRename transformation: rebuild a
 * struct schema with renamed top-level fields and move the values across, or
 * rename the keys of a schema-less map; and the Key/Value entry points that
 * apply it to one side of a record.
 */
module PatternRename {
  import opened Wrappers
  import opened ConnectData
  import opened LinkedMaps

  /**
   * The configured rule. `find(n)` says whether the compiled pattern occurs
   * anywhere in `n`; `replaceAll(n)` is `n` with every occurrence replaced by
   * the replacement template. The regular-expression engine behind both is
   * not modelled.
   */
  datatype Rule = Rule(find: string -> bool, replaceAll: string -> string)

  /** Why a record cannot be transformed. */
  datatype Error =
    | DuplicateField(name: string)  // two fields renamed to the same struct field name
    | UnsupportedInput              // neither a struct with its schema nor a schema-less map

  /** The output name of one field: rewritten when the pattern matches, kept otherwise. */
  function Rename(rule: Rule, name: string): string {
    if rule.find(name) then rule.replaceAll(name) else name
  }

  /** No two of the fields are renamed to the same name. */
  predicate RenamesDistinct<V>(rule: Rule, fields: seq<Field<V>>) {
    forall j, k :: 0 <= j < k < |fields| ==> Rename(rule, fields[j].name) != Rename(rule, fields[k].name)
  }

  // ---------------------------------------------------------------------------
  // Struct path
  // ---------------------------------------------------------------------------

  /**
   * `o` is the schema the struct path builds from `schema`: a struct schema with the
   * input's name, doc, default and optional flag, its parameters only when they are
   * present and non-empty, no version, and one field per input field in declaration
   * order, renamed, with the field's own schema untouched.
   */
  ghost predicate SchemaRenamed<V>(rule: Rule, schema: Schema<V>, o: Schema<V>) {
    && HeaderCopied(schema, o)
    && |o.fields| == |schema.fields|
    && (forall i :: 0 <= i < |schema.fields| ==>
          o.fields[i] == Field(Rename(rule, schema.fields[i].name), schema.fields[i].schema))
  }

  /**
   * `o` is a struct schema carrying over the top-level attributes of `schema`
   * as the struct path copies them.
   */
  ghost predicate HeaderCopied<V>(schema: Schema<V>, o: Schema<V>) {
    && o.kind == StructType
    && o.name == schema.name
    && o.doc == schema.doc
    && o.defaultValue == schema.defaultValue
    && o.parameters == (if schema.parameters.Some? && schema.parameters.value != map[] then schema.parameters else None)
    && o.optional == schema.optional
    && o.version == None
  }

  /**
   * `out` is a struct of schema `o` that holds, under the renamed name of each field
   * of `schema`, the value `struct` holds under the original name.
   */
  ghost predicate ValuesRenamed<V>(rule: Rule, schema: Schema<V>, struct: Struct<V>, o: Schema<V>, out: Struct<V>) {
    && out.schema == o
    && out.values.Keys == NameSet(o.fields)
    && (forall i :: 0 <= i < |schema.fields| ==>
          && schema.fields[i].name in struct.values
          && Rename(rule, schema.fields[i].name) in out.values
          && out.values[Rename(rule, schema.fields[i].name)] == struct.values[schema.fields[i].name])
  }

  /** `out` is the struct path's result for `schema` and `struct`. */
  ghost predicate StructRenamed<V>(rule: Rule, schema: Schema<V>, struct: Struct<V>, out: SchemaAndValue<V>) {
    && out.schema.Some?
    && SchemaRenamed(rule, schema, out.schema.value)
    && out.value.StructData?
    && ValuesRenamed(rule, schema, struct, out.schema.value, out.value.struct)
  }

  /** The fields with their names renamed, in the same order. */
  function RenamedFields<V>(rule: Rule, fields: seq<Field<V>>): (r: seq<Field<V>>)
    ensures |r| == |fields|
    ensures forall i :: 0 <= i < |fields| ==> r[i] == Field(Rename(rule, fields[i].name), fields[i].schema)
  {
    if |fields| == 0 then []
    else
      var last := fields[|fields| - 1];
      RenamedFields(rule, fields[..|fields| - 1]) + [Field(Rename(rule, last.name), last.schema)]
  }

  /** The original-to-renamed table of the fields' names. */
  function RenameTable<V>(rule: Rule, fields: seq<Field<V>>): map<string, string> {
    map n | n in NameSet(fields) :: Rename(rule, n)
  }

  /** The names of a prefix grow by the next field's name. */
  lemma NameSetStep<V>(fields: seq<Field<V>>, i: nat)
    requires i < |fields|
    ensures NameSet(fields[..i + 1]) == NameSet(fields[..i]) + {fields[i].name}
  {
    var p, q := fields[..i], fields[..i + 1];
    forall n | n in NameSet(q) ensures n in NameSet(p) + {fields[i].name} {
      var k :| 0 <= k < |q| && q[k].name == n;
      if k < i { assert p[k] == q[k]; }
    }
    forall n | n in NameSet(p) + {fields[i].name} ensures n in NameSet(q) {
      if n in NameSet(p) {
        var k :| 0 <= k < |p| && p[k].name == n;
        assert q[k] == p[k];
      } else {
        assert q[i].name == n;
      }
    }
  }

  /** How the facts the field loop keeps grow by one field. */
  lemma PrefixStep<V>(rule: Rule, fields: seq<Field<V>>, i: nat)
    requires i < |fields|
    ensures RenamedFields(rule, fields[..i + 1]) == RenamedFields(rule, fields[..i]) + [Field(Rename(rule, fields[i].name), fields[i].schema)]
    ensures RenameTable(rule, fields[..i + 1]) == RenameTable(rule, fields[..i])[fields[i].name := Rename(rule, fields[i].name)]
  {
    assert fields[..i + 1][..i] == fields[..i];
    NameSetStep(fields, i);
  }

  /** A field whose renaming is new keeps the renamings of a prefix distinct. */
  lemma DistinctStep<V>(rule: Rule, fields: seq<Field<V>>, i: nat)
    requires i < |fields|
    requires RenamesDistinct(rule, fields[..i])
    requires Rename(rule, fields[i].name) !in NameSet(RenamedFields(rule, fields[..i]))
    ensures RenamesDistinct(rule, fields[..i + 1])
  {
    var p, q := fields[..i], fields[..i + 1];
    forall j, k | 0 <= j < k < |q| ensures Rename(rule, q[j].name) != Rename(rule, q[k].name) {
      assert q[j] == p[j];
      if k == i {
        assert RenamedFields(rule, p)[j].name == Rename(rule, q[j].name);
      } else {
        assert q[k] == p[k];
      }
    }
  }

  /** The table covers every field and maps into the renamed fields' names. */
  lemma RenameTableCovers<V>(rule: Rule, fields: seq<Field<V>>)
    ensures forall i :: 0 <= i < |fields| ==> fields[i].name in RenameTable(rule, fields)
    ensures forall n :: n in RenameTable(rule, fields) ==> RenameTable(rule, fields)[n] in NameSet(RenamedFields(rule, fields))
  {
    var t := RenameTable(rule, fields);
    forall i | 0 <= i < |fields| ensures fields[i].name in t {
      assert fields[i].name in NameSet(fields);
    }
    forall n | n in t ensures t[n] in NameSet(RenamedFields(rule, fields)) {
      var j :| 0 <= j < |fields| && fields[j].name == n;
      assert RenamedFields(rule, fields)[j].name == t[n];
    }
  }

  /** The table of fields whose renamings are distinct is one-to-one. */
  lemma RenameTableOneToOne<V>(rule: Rule, fields: seq<Field<V>>)
    requires RenamesDistinct(rule, fields)
    ensures forall a, b :: a in RenameTable(rule, fields) && b in RenameTable(rule, fields) && a != b ==>
      RenameTable(rule, fields)[a] != RenameTable(rule, fields)[b]
  {
    var t := RenameTable(rule, fields);
    forall a, b | a in t && b in t && a != b ensures t[a] != t[b] {
      var ja :| 0 <= ja < |fields| && fields[ja].name == a;
      var jb :| 0 <= jb < |fields| && fields[jb].name == b;
      assert ja != jb;
    }
  }

  /**
   * When the builder refuses the i-th renamed name, an earlier field was renamed
   * to it too.
   */
  lemma RenamedBefore<V>(rule: Rule, fields: seq<Field<V>>, i: nat) returns (j: nat)
    requires i < |fields|
    requires Rename(rule, fields[i].name) in NameSet(RenamedFields(rule, fields[..i]))
    ensures j < i && Rename(rule, fields[j].name) == Rename(rule, fields[i].name)
    ensures !RenamesDistinct(rule, fields)
  {
    var r := RenamedFields(rule, fields[..i]);
    var k :| 0 <= k < |r| && r[k].name == Rename(rule, fields[i].name);
    j := k;
    assert fields[..i][j] == fields[j];
  }

  /**
   * The opening of `processStruct`: a struct builder whose name, doc, default,
   * parameters and optional flag are set from the input schema, with no fields yet.
   */
  method HeaderBuilder<V>(inputSchema: Schema<V>) returns (builder: SchemaBuilder<V>)
    ensures fresh(builder)
    ensures builder.fields == []
    ensures HeaderCopied(inputSchema, builder.Build())
  {
    builder := new SchemaBuilder<V>.Struct();
    builder.SetName(inputSchema.name);
    builder.SetDoc(inputSchema.doc);
    if inputSchema.defaultValue.Some? {
      builder.SetDefaultValue(inputSchema.defaultValue.value);
    }
    if inputSchema.parameters.Some? && inputSchema.parameters.value != map[] {
      builder.SetParameters(inputSchema.parameters.value);
    }
    if inputSchema.optional {
      builder.SetOptional();
    }
  }

  /**
   * The first half of `processStruct`: set the builder's header from the input
   * schema, then for each field in order record the original-to-renamed pair and
   * append the renamed field. The builder refuses a repeated field name, so this
   * fails exactly when two fields are renamed alike.
   */
  method BuildSchema<V>(rule: Rule, inputSchema: Schema<V>)
    returns (r: Result<(Schema<V>, map<string, string>), Error>)
    ensures r.Success? <==> RenamesDistinct(rule, inputSchema.fields)
    ensures r.Failure? ==>
      && r.error.DuplicateField?
      && exists j, k :: 0 <= j < k < |inputSchema.fields| &&
           Rename(rule, inputSchema.fields[j].name) == r.error.name == Rename(rule, inputSchema.fields[k].name)
    ensures r.Success? ==>
      && SchemaRenamed(rule, inputSchema, r.value.0)
      && r.value.0.fields == RenamedFields(rule, inputSchema.fields)
      && r.value.1 == RenameTable(rule, inputSchema.fields)
  {
    var fields := inputSchema.fields;
    var builder: SchemaBuilder<V> := HeaderBuilder(inputSchema);

    var fieldMappings: map<string, string> := map[];
    for i := 0 to |fields|
      modifies builder`fields
      invariant builder.fields == RenamedFields(rule, fields[..i])
      invariant RenamesDistinct(rule, fields[..i])
      invariant fieldMappings == RenameTable(rule, fields[..i])
      invariant HeaderCopied(inputSchema, builder.Build())
    {
      var inputField := fields[i];
      var outputFieldName;
      if rule.find(inputField.name) {
        outputFieldName := rule.replaceAll(inputField.name);
      } else {
        outputFieldName := inputField.name;
      }
      PrefixStep(rule, fields, i);
      fieldMappings := fieldMappings[inputField.name := outputFieldName];
      var ok := builder.AddField(outputFieldName, inputField.schema);
      if !ok {
        var j := RenamedBefore(rule, fields, i);
        return Failure(DuplicateField(outputFieldName));
      }
      DistinctStep(rule, fields, i);
    }
    assert fields[..|fields|] == fields;
    r := Success((builder.Build(), fieldMappings));
  }

  /**
   * The second half of `processStruct`: a fresh struct of the output schema, filled
   * by copying each original field's value to its renamed field, visiting the
   * original-to-renamed pairs in any order.
   */
  method CopyValues<V>(fieldMappings: map<string, string>, inputStruct: Struct<V>, outputSchema: Schema<V>)
    returns (outputStruct: Struct<V>)
    requires fieldMappings.Keys <= inputStruct.values.Keys
    requires forall n :: n in fieldMappings ==> fieldMappings[n] in NameSet(outputSchema.fields)
    requires forall a, b :: a in fieldMappings && b in fieldMappings && a != b ==> fieldMappings[a] != fieldMappings[b]
    ensures outputStruct.schema == outputSchema
    ensures outputStruct.values.Keys == NameSet(outputSchema.fields)
    ensures forall n :: n in fieldMappings ==> outputStruct.values[fieldMappings[n]] == inputStruct.values[n]
    ensures forall o :: o in outputStruct.values && o !in fieldMappings.Values ==> outputStruct.values[o] == None
  {
    outputStruct := NewStruct(outputSchema);
    var remaining := fieldMappings.Keys;
    while remaining != {}
      invariant remaining <= fieldMappings.Keys
      invariant outputStruct.schema == outputSchema
      invariant outputStruct.values.Keys == NameSet(outputSchema.fields)
      invariant forall n :: n in fieldMappings && n !in remaining ==>
        outputStruct.values[fieldMappings[n]] == inputStruct.values[n]
      invariant forall o :: o in outputStruct.values && o !in fieldMappings.Values ==> outputStruct.values[o] == None
      decreases remaining
    {
      var inputField :| inputField in remaining;
      var outputField := fieldMappings[inputField];
      var value := inputStruct.Get(inputField);
      outputStruct := outputStruct.Put(outputField, value);
      remaining := remaining - {inputField};
    }
  }

  /**
   * `processStruct`: the output schema and struct for a struct input; fails exactly
   * when two fields are renamed to the same name.
   */
  method ProcessStruct<V>(rule: Rule, inputSchema: Schema<V>, inputStruct: Struct<V>)
    returns (r: Result<SchemaAndValue<V>, Error>)
    requires Conforms(inputStruct, inputSchema)
    ensures r.Success? <==> RenamesDistinct(rule, inputSchema.fields)
    ensures r.Failure? ==>
      && r.error.DuplicateField?
      && exists j, k :: 0 <= j < k < |inputSchema.fields| &&
           Rename(rule, inputSchema.fields[j].name) == r.error.name == Rename(rule, inputSchema.fields[k].name)
    ensures r.Success? ==> StructRenamed(rule, inputSchema, inputStruct, r.value)
  {
    var built := BuildSchema(rule, inputSchema);
    if built.Failure? {
      return Failure(built.error);
    }
    var (outputSchema, fieldMappings) := built.value;
    RenameTableCovers(rule, inputSchema.fields);
    RenameTableOneToOne(rule, inputSchema.fields);
    var outputStruct := CopyValues(fieldMappings, inputStruct, outputSchema);
    r := Success(SchemaAndValue(Some(outputSchema), StructData(outputStruct)));
  }

  /**
   * The struct path's result is determined by its input: two results that both
   * meet `StructRenamed` are equal, so the order in which the value copy visits the
   * original-to-renamed pairs cannot show in the output.
   */
  lemma {:induction false} StructRenamedUnique<V>(rule: Rule, schema: Schema<V>, struct: Struct<V>, a: SchemaAndValue<V>, b: SchemaAndValue<V>)
    requires StructRenamed(rule, schema, struct, a)
    requires StructRenamed(rule, schema, struct, b)
    ensures a == b
  {
    var oa, ob := a.schema.value, b.schema.value;
    assert oa.fields == ob.fields;
    assert oa == ob;
    var va, vb := a.value.struct.values, b.value.struct.values;
    forall n | n in va ensures n in vb && va[n] == vb[n] {
      var j :| 0 <= j < |oa.fields| && oa.fields[j].name == n;
      assert Rename(rule, schema.fields[j].name) == n;
    }
    assert va == vb;
  }

  /**
   * A struct none of whose field names the pattern matches keeps its fields, in
   * order, and its values.
   */
  lemma {:induction false} StructNoMatchKeepsFields<V>(rule: Rule, schema: Schema<V>, struct: Struct<V>, out: SchemaAndValue<V>)
    requires forall i :: 0 <= i < |schema.fields| ==> !rule.find(schema.fields[i].name)
    requires struct.values.Keys == NameSet(schema.fields)
    requires StructRenamed(rule, schema, struct, out)
    ensures out.schema.value.fields == schema.fields
    ensures out.value.struct.values == struct.values
  {
    var o := out.schema.value;
    assert o.fields == schema.fields;
    var v := out.value.struct.values;
    forall n | n in v ensures n in struct.values && v[n] == struct.values[n] {
      var j :| 0 <= j < |o.fields| && o.fields[j].name == n;
      assert Rename(rule, schema.fields[j].name) == n;
    }
    assert v == struct.values;
  }

  // ---------------------------------------------------------------------------
  // Schema-less map path
  // ---------------------------------------------------------------------------

  /** The renamed key of every entry, in iteration order. */
  function RenamedKeys<V>(rule: Rule, m: Entries<V>): seq<string> {
    seq(|m|, i requires 0 <= i < |m| => Rename(rule, m[i].0))
  }

  /** The elements of `s` in order of first occurrence, each once. */
  function Dedup(s: seq<string>): seq<string> {
    if |s| == 0 then []
    else
      var d := Dedup(s[..|s| - 1]);
      if s[|s| - 1] in d then d else d + [s[|s| - 1]]
  }

  /** The value of the last entry of `m`, in iteration order, whose key renames to `k`. */
  function LastValue<V>(rule: Rule, m: Entries<V>, k: string): Option<V> {
    if |m| == 0 then None
    else if Rename(rule, m[|m| - 1].0) == k then Some(m[|m| - 1].1)
    else LastValue(rule, m[..|m| - 1], k)
  }

  /** The linked map obtained by putting every entry of `m`, in order, under its renamed key. */
  function RenameEntries<V>(rule: Rule, m: Entries<V>): Entries<V> {
    if |m| == 0 then []
    else
      var last := m[|m| - 1];
      Put(RenameEntries(rule, m[..|m| - 1]), Rename(rule, last.0), last.1)
  }

  /**
   * `processMap`: a fresh linked map filled by visiting the input's keys in
   * iteration order and putting each key's value under its renamed key; the
   * result carries no schema.
   */
  method ProcessMap<V>(rule: Rule, input: Entries<V>) returns (r: SchemaAndValue<V>)
    requires DistinctKeys(input)
    ensures r.schema == None
    ensures r.value == MapData(RenameEntries(rule, input))
  {
    var outputMap: Entries<V> := [];
    for i := 0 to |input|
      invariant outputMap == RenameEntries(rule, input[..i])
    {
      var inputFieldName := input[i].0;
      var outputFieldName;
      if rule.find(inputFieldName) {
        outputFieldName := rule.replaceAll(inputFieldName);
      } else {
        outputFieldName := inputFieldName;
      }
      LookupAt(input, i);
      var value := Lookup(input, inputFieldName).value;
      assert input[..i + 1][..i] == input[..i];
      outputMap := Put(outputMap, outputFieldName, value);
    }
    assert input[..|input|] == input;
    r := SchemaAndValue(None, MapData(outputMap));
  }

  lemma RenamedKeysPrefix<V>(rule: Rule, m: Entries<V>)
    requires |m| > 0
    ensures RenamedKeys(rule, m[..|m| - 1]) == RenamedKeys(rule, m)[..|m| - 1]
    ensures RenamedKeys(rule, m) == RenamedKeys(rule, m[..|m| - 1]) + [Rename(rule, m[|m| - 1].0)]
  {
  }

  /**
   * `Dedup` keeps each element once and loses none, so it is never longer than its
   * input, and it changes nothing in a sequence without repeats.
   */
  lemma {:induction false} DedupFacts(s: seq<string>)
    ensures Distinct(Dedup(s))
    ensures forall x :: x in Dedup(s) <==> x in s
    ensures |Dedup(s)| <= |s|
    ensures Distinct(s) ==> Dedup(s) == s
  {
    if |s| > 0 {
      var p := s[..|s| - 1];
      assert s == p + [s[|s| - 1]];
      DedupFacts(p);
      if Distinct(s) {
        assert Distinct(p) by {
          forall i, j | 0 <= i < j < |p| ensures p[i] != p[j] {
            assert p[i] == s[i] && p[j] == s[j];
          }
        }
        assert s[|s| - 1] !in p by {
          forall i | 0 <= i < |p| ensures p[i] != s[|s| - 1] {
            assert p[i] == s[i];
          }
        }
      }
    }
  }

  /**
   * The keys of the renamed map are the renamed input keys in order of first
   * occurrence, each once.
   */
  lemma {:induction false} RenameEntriesKeys<V>(rule: Rule, m: Entries<V>)
    ensures Keys(RenameEntries(rule, m)) == Dedup(RenamedKeys(rule, m))
  {
    if |m| > 0 {
      var p, last := m[..|m| - 1], m[|m| - 1];
      RenameEntriesKeys(rule, p);
      RenamedKeysPrefix(rule, m);
      PutKeys(RenameEntries(rule, p), Rename(rule, last.0), last.1);
    }
  }

  /**
   * Under each key, the renamed map holds the value of the last input entry, in
   * iteration order, whose key renames to it; a key nothing renames to is absent.
   */
  lemma {:induction false} RenameEntriesLookup<V>(rule: Rule, m: Entries<V>, k: string)
    ensures Lookup(RenameEntries(rule, m), k) == LastValue(rule, m, k)
  {
    if |m| > 0 {
      var p, last := m[..|m| - 1], m[|m| - 1];
      RenameEntriesLookup(rule, p, k);
      PutLookup(RenameEntries(rule, p), Rename(rule, last.0), last.1, k);
    }
  }

  /** Some input entry supplies the value under `k` exactly when some input key renames to `k`. */
  lemma {:induction false} LastValuePresent<V>(rule: Rule, m: Entries<V>, k: string)
    ensures LastValue(rule, m, k).Some? <==> k in RenamedKeys(rule, m)
  {
    if |m| > 0 {
      RenamedKeysPrefix(rule, m);
      LastValuePresent(rule, m[..|m| - 1], k);
    }
  }

  /**
   * The renamed map holds each key once and every renamed input key; it is never
   * larger than the input, and exactly as large when no two keys rename alike.
   */
  lemma RenameEntriesSize<V>(rule: Rule, m: Entries<V>)
    ensures DistinctKeys(RenameEntries(rule, m))
    ensures forall i :: 0 <= i < |m| ==> Rename(rule, m[i].0) in Keys(RenameEntries(rule, m))
    ensures |RenameEntries(rule, m)| <= |m|
    ensures Distinct(RenamedKeys(rule, m)) ==> |RenameEntries(rule, m)| == |m|
  {
    RenameEntriesKeys(rule, m);
    DedupFacts(RenamedKeys(rule, m));
    assert |Keys(RenameEntries(rule, m))| == |RenameEntries(rule, m)|;
    forall i | 0 <= i < |m| ensures Rename(rule, m[i].0) in Keys(RenameEntries(rule, m)) {
      assert RenamedKeys(rule, m)[i] == Rename(rule, m[i].0);
    }
  }

  /** A map none of whose keys the pattern matches comes out unchanged, order included. */
  lemma {:induction false} RenameEntriesNoMatch<V>(rule: Rule, m: Entries<V>)
    requires DistinctKeys(m)
    requires forall i :: 0 <= i < |m| ==> !rule.find(m[i].0)
    ensures RenameEntries(rule, m) == m
  {
    if |m| > 0 {
      var p, last := m[..|m| - 1], m[|m| - 1];
      assert Keys(p) == Keys(m)[..|m| - 1];
      RenameEntriesNoMatch(rule, p);
      assert last.0 !in Keys(p) by {
        forall i | 0 <= i < |p| ensures Keys(p)[i] != last.0 {
          assert Keys(m)[i] == Keys(p)[i] && Keys(m)[|m| - 1] == last.0;
        }
      }
      PutAbsent(p, last.0, last.1);
      assert p + [last] == m;
    }
  }

  // ---------------------------------------------------------------------------
  // Dispatch and the Key / Value entry points
  // ---------------------------------------------------------------------------

  /** The struct path applies: a struct schema with a struct value. */
  predicate IsStructInput<V>(schema: Option<Schema<V>>, input: Data<V>) {
    schema.Some? && schema.value.kind == StructType && input.StructData?
  }

  /** The map path applies: a map value without a schema. */
  predicate IsMapInput<V>(schema: Option<Schema<V>>, input: Data<V>) {
    schema.None? && input.MapData?
  }

  /**
   * What the engine relies on of its input, as Kafka Connect guarantees it: a
   * schema's field names are distinct, a struct has a slot for each of them, and a
   * map holds each key once.
   */
  predicate WellFormedInput<V>(schema: Option<Schema<V>>, input: Data<V>) {
    && (IsStructInput(schema, input) ==>
          Conforms(input.struct, schema.value))
    && (IsMapInput(schema, input) ==> DistinctKeys(input.entries))
  }

  /**
   * The input is refused with error `e`: a struct whose fields two rename to
   * `e.name`, or any shape neither path takes, as `UnsupportedInput`.
   */
  ghost predicate RejectedWith<V>(rule: Rule, schema: Option<Schema<V>>, input: Data<V>, e: Error) {
    if IsStructInput(schema, input) then
      && e.DuplicateField?
      && exists j, k :: 0 <= j < k < |schema.value.fields| &&
           Rename(rule, schema.value.fields[j].name) == e.name == Rename(rule, schema.value.fields[k].name)
    else e == UnsupportedInput
  }

  /** The input cannot be transformed. */
  ghost predicate Rejects<V>(rule: Rule, schema: Option<Schema<V>>, input: Data<V>) {
    if IsStructInput(schema, input) then !RenamesDistinct(rule, schema.value.fields)
    else !IsMapInput(schema, input)
  }

  /** `out` is what the engine makes of `schema` and `input`. */
  ghost predicate Processed<V>(rule: Rule, schema: Option<Schema<V>>, input: Data<V>, out: SchemaAndValue<V>) {
    if IsStructInput(schema, input) then StructRenamed(rule, schema.value, input.struct, out)
    else IsMapInput(schema, input) && out == SchemaAndValue(None, MapData(RenameEntries(rule, input.entries)))
  }

  /**
   * `process`: a struct with a struct schema goes to the struct path, a map without
   * a schema to the map path, anything else is refused.
   */
  method Process<V>(rule: Rule, schema: Option<Schema<V>>, input: Data<V>)
    returns (r: Result<SchemaAndValue<V>, Error>)
    requires WellFormedInput(schema, input)
    ensures r.Failure? <==> Rejects(rule, schema, input)
    ensures r.Failure? ==> RejectedWith(rule, schema, input, r.error)
    ensures r.Success? ==> Processed(rule, schema, input, r.value)
  {
    if IsStructInput(schema, input) {
      r := ProcessStruct(rule, schema.value, input.struct);
    } else if IsMapInput(schema, input) {
      var out := ProcessMap(rule, input.entries);
      r := Success(out);
    } else {
      r := Failure(UnsupportedInput);
    }
  }

  /**
   * `Key.apply`: the record with its key schema and key transformed; topic,
   * partition, value schema, value and timestamp are carried over.
   */
  method ApplyKey<V>(rule: Rule, record: Record<V>) returns (r: Result<Record<V>, Error>)
    requires WellFormedInput(record.keySchema, record.key)
    ensures r.Failure? <==> Rejects(rule, record.keySchema, record.key)
    ensures r.Failure? ==> RejectedWith(rule, record.keySchema, record.key, r.error)
    ensures r.Success? ==>
      && r.value.topic == record.topic
      && r.value.kafkaPartition == record.kafkaPartition
      && r.value.valueSchema == record.valueSchema
      && r.value.value == record.value
      && r.value.timestamp == record.timestamp
      && Processed(rule, record.keySchema, record.key, SchemaAndValue(r.value.keySchema, r.value.key))
  {
    var transformed :- Process(rule, record.keySchema, record.key);
    r := Success(Record(
      record.topic,
      record.kafkaPartition,
      transformed.schema,
      transformed.value,
      record.valueSchema,
      record.value,
      record.timestamp));
  }

  /**
   * `Value.apply`: the record with its value schema and value transformed; topic,
   * partition, key schema, key and timestamp are carried over.
   */
  method ApplyValue<V>(rule: Rule, record: Record<V>) returns (r: Result<Record<V>, Error>)
    requires WellFormedInput(record.valueSchema, record.value)
    ensures r.Failure? <==> Rejects(rule, record.valueSchema, record.value)
    ensures r.Failure? ==> RejectedWith(rule, record.valueSchema, record.value, r.error)
    ensures r.Success? ==>
      && r.value.topic == record.topic
      && r.value.kafkaPartition == record.kafkaPartition
      && r.value.keySchema == record.keySchema
      && r.value.key == record.key
      && r.value.timestamp == record.timestamp
      && Processed(rule, record.valueSchema, record.value, SchemaAndValue(r.value.valueSchema, r.value.value))
  {
    var transformed :- Process(rule, record.valueSchema, record.value);
    r := Success(Record(
      record.topic,
      record.kafkaPartition,
      record.keySchema,
      record.key,
      transformed.schema,
      transformed.value,
      record.timestamp));
  }
}
