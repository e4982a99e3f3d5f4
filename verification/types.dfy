/** The type and value model: Arrow-style scalar types, fields, schemas,
    column vectors and record batches (querypy/types_/__init__.py). */
module Types {
  import opened Errors

  /** The members of `ArrowTypes`, each a distinct object. */
  datatype ArrowType =
    | BooleanType
    | Int8Type | Int16Type | Int32Type | Int64Type
    | UInt8Type | UInt16Type | UInt32Type | UInt64Type
    | FloatType | DoubleType
    | StringType

  /** The `name` the NamedParameters metaclass gives each member: the name of
      the class attribute it is bound to. It is also the member's `repr`. */
  function TypeName(t: ArrowType): string {
    match t
    case BooleanType => "BooleanType"
    case Int8Type => "Int8Type"
    case Int16Type => "Int16Type"
    case Int32Type => "Int32Type"
    case Int64Type => "Int64Type"
    case UInt8Type => "UInt8Type"
    case UInt16Type => "UInt16Type"
    case UInt32Type => "UInt32Type"
    case UInt64Type => "UInt64Type"
    case FloatType => "FloatType"
    case DoubleType => "DoubleType"
    case StringType => "StringType"
  }

  /** No two members share a name, so the name identifies the member. */
  lemma TypeNameInjective(a: ArrowType, b: ArrowType)
    requires TypeName(a) == TypeName(b)
    ensures a == b
  {
  }

  /** The constructor arguments of an `IntType`: `maxsize` and `some`. */
  datatype IntParams = IntParams(maxsize: nat, some: bool)

  /** The `IntType` arguments of a member, or None for a non-integer member. */
  function IntTypeParams(t: ArrowType): (p: Option<IntParams>)
    ensures p.Some? ==> p.value.maxsize in {8, 16, 32, 64} && p.value.some
  {
    match t
    case Int8Type | UInt8Type => Some(IntParams(8, true))
    case Int16Type | UInt16Type => Some(IntParams(16, true))
    case Int32Type | UInt32Type => Some(IntParams(32, true))
    case Int64Type | UInt64Type => Some(IntParams(64, true))
    case _ => None
  }

  datatype Precision = Single | Double

  /** The precision of a `FloatingPoint` member, or None for the others. */
  function FloatPrecision(t: ArrowType): Option<Precision> {
    match t
    case FloatType => Some(Single)
    case DoubleType => Some(Double)
    case _ => None
  }

  /** The integer members have widths 8/16/32/64 in that order; the unsigned
      members are built with the very same arguments as the signed ones. */
  lemma IntTypeWidths()
    ensures IntTypeParams(Int8Type) == Some(IntParams(8, true))
    ensures IntTypeParams(Int16Type) == Some(IntParams(16, true))
    ensures IntTypeParams(Int32Type) == Some(IntParams(32, true))
    ensures IntTypeParams(Int64Type) == Some(IntParams(64, true))
    ensures forall t :: IntTypeParams(t).Some? <==>
      t in {Int8Type, Int16Type, Int32Type, Int64Type, UInt8Type, UInt16Type, UInt32Type, UInt64Type}
    ensures IntTypeParams(UInt8Type) == IntTypeParams(Int8Type)
    ensures IntTypeParams(UInt64Type) == IntTypeParams(Int64Type)
  {
  }

  /** A runtime value held in a column: Python's None, bool, int, float and
      str. Floating point is modelled by exact reals. */
  datatype Value = Null | Bool(b: bool) | Int(i: int) | Float(r: real) | Str(s: string)

  /** Python truthiness of a value (`if b`). */
  predicate Truthy(v: Value) {
    match v
    case Null => false
    case Bool(b) => b
    case Int(i) => i != 0
    case Float(r) => r != 0.0
    case Str(s) => s != ""
  }

  datatype Field = Field(name: string, typ: ArrowType)

  datatype Schema = Schema(fields: seq<Field>)

  function Names(fields: seq<Field>): (r: seq<string>)
    ensures |r| == |fields|
    ensures forall k :: 0 <= k < |fields| ==> r[k] == fields[k].name
  {
    if fields == [] then [] else [fields[0].name] + Names(fields[1..])
  }

  /** The fields whose name is among `names`, in the fields' own order. */
  function FieldsNamed(fields: seq<Field>, names: seq<string>): (r: seq<Field>)
    ensures |r| <= |fields|
    ensures forall f :: f in r <==> f in fields && f.name in names
  {
    if fields == [] then []
    else if fields[0].name in names then [fields[0]] + FieldsNamed(fields[1..], names)
    else FieldsNamed(fields[1..], names)
  }

  /** `Schema.select(names)`: the sub-schema of the named fields, in schema
      order; an empty name list selects the whole schema. */
  function Select(schema: Schema, names: seq<string>): (r: Schema)
    ensures names == [] ==> r == schema
    ensures names != [] ==> forall f :: f in r.fields <==> f in schema.fields && f.name in names
    ensures |r.fields| <= |schema.fields|
  {
    if names == [] then schema else Schema(FieldsNamed(schema.fields, names))
  }

  lemma {:induction false} FieldsNamedIdempotent(fields: seq<Field>, names: seq<string>)
    ensures FieldsNamed(FieldsNamed(fields, names), names) == FieldsNamed(fields, names)
  {
    if fields != [] {
      FieldsNamedIdempotent(fields[1..], names);
    }
  }

  /** Selection distributes over concatenation and keeps or drops a single
      field by its name alone: the selected fields keep their order and their
      multiplicity. */
  lemma {:induction false} FieldsNamedAppend(a: seq<Field>, b: seq<Field>, names: seq<string>)
    ensures FieldsNamed(a + b, names) == FieldsNamed(a, names) + FieldsNamed(b, names)
    decreases |a|
  {
    if a != [] {
      assert (a + b)[1..] == a[1..] + b;
      FieldsNamedAppend(a[1..], b, names);
    } else {
      assert a + b == b;
    }
  }

  lemma FieldsNamedSingle(f: Field, names: seq<string>)
    ensures FieldsNamed([f], names) == if f.name in names then [f] else []
  {
  }

  /** `select` of a schema split in two is the selections of the halves, one
      after the other. */
  lemma SelectAppend(a: seq<Field>, b: seq<Field>, names: seq<string>)
    ensures Select(Schema(a + b), names).fields ==
            Select(Schema(a), names).fields + Select(Schema(b), names).fields
  {
    if names != [] {
      FieldsNamedAppend(a, b, names);
    }
  }

  /** Selecting the same names twice selects nothing more. */
  lemma SelectIdempotent(schema: Schema, names: seq<string>)
    ensures Select(Select(schema, names), names) == Select(schema, names)
  {
    if names != [] {
      FieldsNamedIdempotent(schema.fields, names);
    }
  }

  /** `Schema.get_index_by_name(name)`: the index of the first field with that
      name, or -1 when there is none. */
  function IndexOf(schema: Schema, name: string): (i: int)
    ensures -1 <= i < |schema.fields|
    ensures i == -1 <==> forall k :: 0 <= k < |schema.fields| ==> schema.fields[k].name != name
    ensures i >= 0 ==> schema.fields[i].name == name &&
                       forall k :: 0 <= k < i ==> schema.fields[k].name != name
  {
    IndexFrom(schema.fields, name, 0)
  }

  function IndexFrom(fields: seq<Field>, name: string, from: nat): (i: int)
    requires from <= |fields|
    ensures -1 <= i < |fields|
    ensures i == -1 <==> forall k :: from <= k < |fields| ==> fields[k].name != name
    ensures i >= 0 ==> from <= i && fields[i].name == name &&
                       forall k :: from <= k < i ==> fields[k].name != name
    decreases |fields| - from
  {
    if from == |fields| then -1
    else if fields[from].name == name then from
    else IndexFrom(fields, name, from + 1)
  }

  /** A column of values. `Vector` is a materialised column; `LiteralVector`
      (LiteralValueVector) stands for one value repeated over `size` rows.
      The size is a `nat`: `len()` of a vector with a negative `__len__`
      raises ValueError, so no vector the code can use has one. */
  datatype ColumnVector =
    | Vector(typ: ArrowType, values: seq<Value>, size: nat)
    | LiteralVector(typ: ArrowType, value: Value, size: nat)

  /** `len(vector)`: the declared size, whatever is stored. */
  function Len(v: ColumnVector): nat {
    v.size
  }

  /** `vector.get_value(i)`. A literal vector answers None at every index. */
  function GetValue(v: ColumnVector, i: int): (r: Result<Value>)
    ensures v.LiteralVector? ==> r == Ok(Null)
    ensures v.Vector? && 0 <= i < |v.values| ==> r == Ok(v.values[i])
    ensures v.Vector? && !(0 <= i < |v.values|) ==> r.Fail?
  {
    match v
    case LiteralVector(_, _, _) => Ok(Null)
    case Vector(_, values, _) =>
      if 0 <= i < |values| then Ok(values[i]) else Fail(IndexOutOfRange(i))
  }

  /** A set of same-length columns with the schema that describes them. */
  datatype RecordBatch = RecordBatch(schema: Schema, columns: seq<ColumnVector>)

  /** `row_count`: 0 for a batch without columns, else the first column's length. */
  function RowCount(b: RecordBatch): nat {
    if b.columns == [] then 0 else Len(b.columns[0])
  }

  /** `column_count`: the number of columns. */
  function ColumnCount(b: RecordBatch): nat {
    |b.columns|
  }

  /** `get_field(i)`: the i-th column, with Python's negative indexing from the end. */
  function GetField(b: RecordBatch, i: int): (r: Result<ColumnVector>)
    ensures 0 <= i < |b.columns| ==> r == Ok(b.columns[i])
    ensures -|b.columns| <= i < 0 ==> r == Ok(b.columns[|b.columns| + i])
    ensures r.Ok? <==> -|b.columns| <= i < |b.columns|
  {
    if 0 <= i < |b.columns| then Ok(b.columns[i])
    else if -|b.columns| <= i < 0 then Ok(b.columns[|b.columns| + i])
    else Fail(IndexOutOfRange(i))
  }

  /** The documented batch invariant: one column per field, every materialised
      column holding exactly `row_count` values. */
  predicate WellFormedBatch(b: RecordBatch) {
    && |b.columns| == |b.schema.fields|
    && forall k :: 0 <= k < |b.columns| ==>
         b.columns[k].size == RowCount(b) &&
         (b.columns[k].Vector? ==> |b.columns[k].values| == b.columns[k].size)
  }

  /** In a well-formed batch `column_count` is the number of schema fields and
      every cell below `row_count` in every column can be read. */
  lemma BatchGrid(b: RecordBatch)
    requires WellFormedBatch(b)
    ensures ColumnCount(b) == |b.schema.fields|
    ensures forall k :: 0 <= k < ColumnCount(b) ==>
      Len(b.columns[k]) == RowCount(b) && GetField(b, k) == Ok(b.columns[k])
    ensures forall k, i :: 0 <= k < ColumnCount(b) && 0 <= i < RowCount(b) ==>
      GetValue(b.columns[k], i).Ok?
  {
  }
}
