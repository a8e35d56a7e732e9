/**
 * The Kafka Connect data types the rename engine reads and builds: schemas and
 * their fields, structs, the mutable schema builder, schema/value pairs and
 * connect records. Only the parts the engine touches are modelled.
 */
module ConnectData {
  import opened Wrappers
  import opened LinkedMaps

  /** The kind of a schema. The engine only tells structs from the rest. */
  datatype SchemaType = StructType | ArrayType | MapType | PrimitiveType(typeName: string)

  /**
   * A schema. `name`, `doc`, `defaultValue`, `parameters` and `version` are
   * nullable in Kafka Connect; `fields` is the declaration order of a struct's fields.
   */
  datatype Schema<V> = Schema(
    kind: SchemaType,
    name: Option<string>,
    doc: Option<string>,
    defaultValue: Option<V>,
    parameters: Option<map<string, string>>,
    optional: bool,
    version: Option<int>,
    fields: seq<Field<V>>)

  /** A struct field: its name and its own schema, which the engine never looks into. */
  datatype Field<V> = Field(name: string, schema: Schema<V>)

  function NameSet<V>(fields: seq<Field<V>>): set<string> {
    set i | 0 <= i < |fields| :: fields[i].name
  }

  /** A struct value: its schema and one slot per field name (`None` is an unset, null slot). */
  datatype Struct<V> = Struct(schema: Schema<V>, values: map<string, Option<V>>) {

    /** `get(name)`. */
    function Get(name: string): Option<V>
      requires name in values
    {
      values[name]
    }

    /** `put(name, value)`. */
    function Put(name: string, value: Option<V>): Struct<V>
      requires name in values
    {
      this.(values := values[name := value])
    }
  }

  /** `struct` holds a slot for every field that `schema` declares. */
  predicate Conforms<V>(struct: Struct<V>, schema: Schema<V>) {
    NameSet(schema.fields) <= struct.values.Keys
  }

  /** `new Struct(schema)`: one null slot per declared field. */
  function NewStruct<V>(schema: Schema<V>): Struct<V> {
    Struct(schema, map n | n in NameSet(schema.fields) :: None)
  }

  /** The object carried on one side of a record. */
  datatype Data<V> =
    | Null
    | StructData(struct: Struct<V>)
    | MapData(entries: Entries<V>)
    | Opaque(value: V)

  /** A schema (null for schema-less data) together with the data it describes. */
  datatype SchemaAndValue<V> = SchemaAndValue(schema: Option<Schema<V>>, value: Data<V>)

  /** A connect record: routing metadata plus a key side and a value side. */
  datatype Record<V> = Record(
    topic: string,
    kafkaPartition: Option<int>,
    keySchema: Option<Schema<V>>,
    key: Data<V>,
    valueSchema: Option<Schema<V>>,
    value: Data<V>,
    timestamp: Option<int>)

  /**
   * `SchemaBuilder`: a schema under construction, updated one setter call at a time
   * and frozen into a `Schema` by `Build`.
   */
  class SchemaBuilder<V> {
    var kind: SchemaType
    var name: Option<string>
    var doc: Option<string>
    var defaultValue: Option<V>
    var parameters: Option<map<string, string>>
    var optional: bool
    var version: Option<int>
    var fields: seq<Field<V>>

    /** `SchemaBuilder.struct()`: a required struct schema with nothing set and no fields. */
    constructor Struct()
      ensures kind == StructType && !optional && fields == []
      ensures name == None && doc == None && defaultValue == None
      ensures parameters == None && version == None
    {
      kind := StructType;
      name, doc, defaultValue := None, None, None;
      parameters, optional, version := None, false, None;
      fields := [];
    }

    method SetName(n: Option<string>)
      modifies this`name
      ensures name == n
    {
      name := n;
    }

    method SetDoc(d: Option<string>)
      modifies this`doc
      ensures doc == d
    {
      doc := d;
    }

    method SetDefaultValue(v: V)
      modifies this`defaultValue
      ensures defaultValue == Some(v)
    {
      defaultValue := Some(v);
    }

    method SetParameters(p: map<string, string>)
      modifies this`parameters
      ensures parameters == Some(p)
    {
      parameters := Some(p);
    }

    method SetOptional()
      modifies this`optional
      ensures optional
    {
      optional := true;
    }

    /**
     * `field(name, schema)`: appends a field; refuses (returns false, adding
     * nothing) a name the builder already holds.
     */
    method AddField(fieldName: string, fieldSchema: Schema<V>) returns (ok: bool)
      modifies this`fields
      ensures ok <==> fieldName !in NameSet(old(fields))
      ensures fields == if ok then old(fields) + [Field(fieldName, fieldSchema)] else old(fields)
    {
      ok := fieldName !in NameSet(fields);
      if ok {
        fields := fields + [Field(fieldName, fieldSchema)];
      }
    }

    /** `build()`: the schema as set so far. */
    function Build(): Schema<V>
      reads this
    {
      Schema(kind, name, doc, defaultValue, parameters, optional, version, fields)
    }
  }
}
