# PatternRename field-renaming engine

A Dafny model of the `PatternRename` single-message transformation for Kafka Connect.
It renames the top-level fields of a record's key or value with a regular-expression
find/replace-all rule, and covers both of its input shapes:

- **Struct path** (`processStruct`). It builds a new struct schema with a `SchemaBuilder`. The
  schema's name, doc, default value (when set), parameters (when present and non-empty) and
  optional flag are copied. Then each field, in declaration order, is appended under its new
  name with its own schema unchanged, and an original-to-renamed table is recorded. Last, a
  fresh `Struct` of the new schema is filled by copying each value from the original name to
  the renamed one, walking the table in hash-map order.
- **Map path** (`processMap`). For a schema-less map, it fills an insertion-ordered
  `LinkedHashMap`, putting each input value under the renamed key. The result carries no
  schema.
- **`Key.apply` / `Value.apply`** rebuild the record with only the key side, or only the
  value side, replaced. Topic, partition, timestamp and the other side are carried over.

Files:

- `wrappers.dfy`: `Option` (a Java `null` is `None`) and `Result` (a thrown exception is `Failure`).
- `linked_maps.dfy`: a `LinkedHashMap<String, V>` as a sequence of entries in iteration order.
  It has `Put`, which replaces in place or appends, and `Lookup`, with their lemmas.
- `connect_data.dfy`: the Kafka Connect types the engine touches. These are `Schema`/`Field`,
  `Struct`, `SchemaAndValue` and `Record` as datatypes, and `SchemaBuilder` as a class whose
  setters update its fields in place.
- `pattern_rename.dfy`: the engine. The struct path is split into `BuildSchema` (header and
  field loop) and `CopyValues` (value loop), which `ProcessStruct` composes. It also holds
  `ProcessMap`, the dispatch `Process`, and `ApplyKey`/`ApplyValue`.

The rule is a pair of opaque total functions: `find` (does the pattern occur in the name?)
and `replaceAll` (the name after replacing every occurrence). A name is rewritten only when
`find` holds and is kept unchanged otherwise, exactly as the source's two `if` statements do.
The value copy loop picks the next original name from the remaining ones with `:|`, so no
particular visiting order is assumed. `StructRenamedUnique` shows that the result does not
depend on that order.

Helpers without contracts of their own model single source steps: `PatternRename.Rename` is
the per-name `find`/`replaceAll`-or-keep choice (PatternRename.java lines 73-79 and 101-107).
`ConnectData.SchemaBuilder.Build` is `build()` (line 84), and `ConnectData.NewStruct` is
`new Struct(outputSchema)` (line 85). `ConnectData.Struct.Get` and `ConnectData.Struct.Put` are
`inputStruct.get` and `outputStruct.put` (lines 89-90), and `LinkedMaps.Lookup` and
`LinkedMaps.Put` are the map's `get` and `put` (lines 108-109). What they do is stated by the
contracts of the members in the table that use them.

On a struct whose fields rename to the same name, the model follows the code. The second
`field(...)` call on the builder is refused, so the record fails with `DuplicateField`
naming the clashing output name. It is not silently overwritten. The map path instead keeps
the last value, in the position the key first took.

Inputs are values, so no processing path can change its input.

## Model

| member | source | states |
|---|---|---|
| `ConnectData.SchemaBuilder.Struct` | src/main/java/com/github/jcustenborder/kafka/connect/transform/common/PatternRename.java:58 | a fresh struct builder: required, with no name, doc, default, parameters, version or fields |
| `ConnectData.SchemaBuilder.SetName` | src/main/java/com/github/jcustenborder/kafka/connect/transform/common/PatternRename.java:59 | sets the name (possibly null) and nothing else |
| `ConnectData.SchemaBuilder.SetDoc` | src/main/java/com/github/jcustenborder/kafka/connect/transform/common/PatternRename.java:60 | sets the doc (possibly null) and nothing else |
| `ConnectData.SchemaBuilder.SetDefaultValue` | src/main/java/com/github/jcustenborder/kafka/connect/transform/common/PatternRename.java:61-63 | sets the default value and nothing else |
| `ConnectData.SchemaBuilder.SetParameters` | src/main/java/com/github/jcustenborder/kafka/connect/transform/common/PatternRename.java:64-66 | sets the parameters and nothing else |
| `ConnectData.SchemaBuilder.SetOptional` | src/main/java/com/github/jcustenborder/kafka/connect/transform/common/PatternRename.java:67-69 | marks the schema optional and nothing else |
| `ConnectData.SchemaBuilder.AddField` | src/main/java/com/github/jcustenborder/kafka/connect/transform/common/PatternRename.java:82 | appends the field exactly when its name is not yet taken, and otherwise refuses and leaves the fields unchanged |
| `LinkedMaps.LookupAt` | src/main/java/com/github/jcustenborder/kafka/connect/transform/common/PatternRename.java:108 | in a map with distinct keys, `get` of the i-th key in iteration order yields the i-th value |
| `LinkedMaps.PutKeys` | src/main/java/com/github/jcustenborder/kafka/connect/transform/common/PatternRename.java:109 | `put` of a present key keeps the key order; `put` of a new key appends it at the end |
| `LinkedMaps.PutLookup` | src/main/java/com/github/jcustenborder/kafka/connect/transform/common/PatternRename.java:109 | after `put(k, v)`, `get(k)` is `v` and every other key keeps its value |
| `LinkedMaps.PutAbsent` | src/main/java/com/github/jcustenborder/kafka/connect/transform/common/PatternRename.java:109 | `put` of an absent key adds exactly that one entry at the end |
| `PatternRename.HeaderBuilder` | src/main/java/com/github/jcustenborder/kafka/connect/transform/common/PatternRename.java:58-69 | the builder is a struct that copies name, doc and default; it has parameters only when the input's are present and non-empty, is optional exactly when the input is, and has no version and no fields |
| `PatternRename.RenamedFields` | src/main/java/com/github/jcustenborder/kafka/connect/transform/common/PatternRename.java:71-83 | the renamed field list has as many fields as the input; the i-th is the i-th input field's renamed name with its own schema |
| `PatternRename.BuildSchema` | src/main/java/com/github/jcustenborder/kafka/connect/transform/common/PatternRename.java:58-84 | succeeds exactly when no two fields rename alike, and otherwise names a clashing output name that two fields share; on success the schema keeps the header and holds the renamed fields in order, and the table maps each field name to its renaming |
| `PatternRename.RenamedBefore` | src/main/java/com/github/jcustenborder/kafka/connect/transform/common/PatternRename.java:82 | when the builder refuses the i-th renamed name, an earlier field has the same renaming |
| `PatternRename.RenameTableCovers` | src/main/java/com/github/jcustenborder/kafka/connect/transform/common/PatternRename.java:70-83 | every field name is in the table, and the table maps only to names of the output schema |
| `PatternRename.RenameTableOneToOne` | src/main/java/com/github/jcustenborder/kafka/connect/transform/common/PatternRename.java:70-83 | when no two fields rename alike, no two names in the table map to the same output name |
| `PatternRename.CopyValues` | src/main/java/com/github/jcustenborder/kafka/connect/transform/common/PatternRename.java:85-91 | visiting the table in any order, the new struct has the output schema, one slot per output field, and under each renamed name the input's value at the original name; a slot that no table entry targets stays null |
| `PatternRename.ProcessStruct` | src/main/java/com/github/jcustenborder/kafka/connect/transform/common/PatternRename.java:57-93 | fails exactly on a rename collision; otherwise returns the renamed schema (same name, doc, default, optional flag, parameters only when non-empty, same field count and order, untouched sub-schemas) and a struct holding the value of f under the renamed name of f, for every field f |
| `PatternRename.StructRenamedUnique` | src/main/java/com/github/jcustenborder/kafka/connect/transform/common/PatternRename.java:86-91 | any two results meeting the struct path's contract are equal, so the hash-map iteration order of the copy does not affect the output |
| `PatternRename.StructNoMatchKeepsFields` | src/main/java/com/github/jcustenborder/kafka/connect/transform/common/PatternRename.java:75-79 | when the pattern matches no field name, the output fields equal the input fields in order, and the struct's values are unchanged |
| `PatternRename.ProcessMap` | src/main/java/com/github/jcustenborder/kafka/connect/transform/common/PatternRename.java:96-112 | returns no schema, and the map obtained by putting each input entry, in iteration order, under its renamed key |
| `PatternRename.DedupFacts` | src/main/java/com/github/jcustenborder/kafka/connect/transform/common/PatternRename.java:97-110 | first-occurrence order holds each element once, loses none, is never longer than its input, and is the identity on a sequence without repeats |
| `PatternRename.RenameEntriesKeys` | src/main/java/com/github/jcustenborder/kafka/connect/transform/common/PatternRename.java:97-110 | the output keys are the renamed input keys in first-occurrence order |
| `PatternRename.RenameEntriesLookup` | src/main/java/com/github/jcustenborder/kafka/connect/transform/common/PatternRename.java:99-110 | under every key, the output holds the value of the last input entry, in iteration order, whose key renames to it (last write wins) |
| `PatternRename.LastValuePresent` | src/main/java/com/github/jcustenborder/kafka/connect/transform/common/PatternRename.java:99-110 | a value exists for a key exactly when some input key renames to it |
| `PatternRename.RenameEntriesSize` | src/main/java/com/github/jcustenborder/kafka/connect/transform/common/PatternRename.java:97-110 | the output has distinct keys and contains every renamed input key; its size is at most the input's, and equal when no two keys rename alike |
| `PatternRename.RenameEntriesNoMatch` | src/main/java/com/github/jcustenborder/kafka/connect/transform/common/PatternRename.java:103-107 | when the pattern matches no key, the output map equals the input map, order included |
| `PatternRename.Process` | src/main/java/com/github/jcustenborder/kafka/connect/transform/common/PatternRename.java:56-112 | a struct with a struct schema takes the struct path and a schema-less map takes the map path; it fails exactly on a struct rename collision or any other input shape; a failure names its cause: `DuplicateField` with a name two fields rename to, or `UnsupportedInput` |
| `PatternRename.ApplyKey` | src/main/java/com/github/jcustenborder/kafka/connect/transform/common/PatternRename.java:120-131 | only the key schema and key are replaced, by the engine's result for them; topic, partition, value schema, value and timestamp are unchanged; a failure carries the engine's typed error for the key side |
| `PatternRename.ApplyValue` | src/main/java/com/github/jcustenborder/kafka/connect/transform/common/PatternRename.java:139-150 | only the value schema and value are replaced, by the engine's result for them; topic, partition, key schema, key and timestamp are unchanged; a failure carries the engine's typed error for the value side |

## Left out

- The regular-expression engine (`Matcher.find` and `Matcher.replaceAll`) is not modelled. It appears only as the two opaque functions of `Rule`, so nothing is claimed about match semantics or back-references.
- `config`, `configure`, `close` and the parsing in `PatternRenameConfig` are not modelled; they are configuration plumbing. `PatternRenameConfig` is not part of this model, and the compiled rule is passed in as a parameter.
- The `process` dispatch of `BaseTransformation` is not part of this model. `Process` states it as an assumption: a struct with a struct schema goes to the struct path, a map without a schema goes to the map path, and anything else fails with `UnsupportedInput`.
- Kafka's own validation is not modelled. The only check kept is the builder's refusal of a repeated field name. Left out are the refusal of an empty field name, checking a default or a put value against its schema, and the builder's "already set" checks. Which Java exception is thrown is not modelled either.
- `Struct.get` returning a field schema's default for an unset slot is not modelled; the model reads the slot itself.
- `ConnectRecord.newRecord` also carries attributes the model's `Record` does not have (headers, offsets, timestamp type). They are left to that method and are not part of this model.
- Logging (`log.trace`) is left out because it has no functional effect.
- The struct path requires that the input struct has a slot for every declared field, and the map path requires that each key occurs once. Kafka Connect guarantees both for its inputs. A schema that declared a field name twice needs no requirement: it fails with `DuplicateField`, as the builder's second `field(...)` call would.
