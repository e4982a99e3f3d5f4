/** Logical expressions and the field each one derives against the schema of
    its input plan (querypy/planner/expressions/logical.py). */
module LogicalExprs {
  import opened Errors
  import opened Types
  import opened Text

  /** The logical expression classes. `Boolean` and `MathExpr` are the two
      `Binary` subclasses; `Alias` wraps an expression under a new name. */
  datatype LogicalExpr =
    | Column(name: string)
    | LiteralString(s: string)
    | LiteralInteger(n: int)
    | LiteralFloat(f: real, text: string)   // text is `str(value)`
    | Boolean(name: string, op: string, l: LogicalExpr, r: LogicalExpr)
    | MathExpr(name: string, op: string, l: LogicalExpr, r: LogicalExpr)
    | AggregateExpr(name: string, expr: LogicalExpr)
    | Alias(name: string, expr: LogicalExpr)

  /** Number of nodes of an expression tree. */
  function Size(e: LogicalExpr): (n: nat)
    ensures n >= 1
  {
    match e
    case Boolean(_, _, l, r) => 1 + Size(l) + Size(r)
    case MathExpr(_, _, l, r) => 1 + Size(l) + Size(r)
    case AggregateExpr(_, inner) => 1 + Size(inner)
    case Alias(_, inner) => 1 + Size(inner)
    case _ => 1
  }

  /** The Python attribute `expr.name`, which literals do not have. */
  function NameAttr(e: LogicalExpr): (r: Option<string>)
    ensures r.None? <==> e.LiteralString? || e.LiteralInteger? || e.LiteralFloat?
  {
    match e
    case Column(name) => Some(name)
    case Boolean(name, _, _, _) => Some(name)
    case MathExpr(name, _, _, _) => Some(name)
    case AggregateExpr(name, _) => Some(name)
    case Alias(name, _) => Some(name)
    case _ => None
  }

  // ---------------------------------------------------------------------------
  // to_field

  /** The loop of `Column.to_field`: the first field with the wanted name. */
  function FindField(fields: seq<Field>, name: string): (r: Result<Field>)
    ensures r.Ok? <==> IndexOf(Schema(fields), name) >= 0
    ensures r.Ok? ==> r.value == fields[IndexOf(Schema(fields), name)]
    ensures r.Fail? ==> r.error == UnknownColumn(name)
  {
    if fields == [] then Fail(UnknownColumn(name))
    else if fields[0].name == name then Ok(fields[0])
    else
      var r := FindField(fields[1..], name);
      assert forall k :: 0 < k < |fields| ==> fields[k] == fields[1..][k - 1];
      r
  }

  /** `expr.to_field(input)`. The input plan is represented by the result of
      its `get_schema()`, which only the expressions that look up a column
      ever consult: a failing input does not affect the other kinds. */
  function ToField(e: LogicalExpr, input: Result<Schema>): (r: Result<Field>)
  {
    match e
    case Column(name) =>
      var schema :- input;
      FindField(schema.fields, name)
    case LiteralString(_) => Fail(LiteralNotField)
    case LiteralInteger(n) => Ok(Field(IntToString(n), Int64Type))
    case LiteralFloat(_, text) => Ok(Field(text, FloatType))
    case Boolean(name, _, _, _) => Ok(Field(name, BooleanType))
    case MathExpr(name, _, l, _) =>
      var f :- ToField(l, input);
      Ok(Field(name, f.typ))
    case AggregateExpr(name, inner) =>
      var f :- ToField(inner, input);
      Ok(Field(name, f.typ))
    case Alias(name, inner) =>
      var f :- ToField(inner, input);
      var schema :- input;
      var i := IndexOf(schema, name);
      if i >= 0 && schema.fields[i] != f then Fail(AlreadyExistsColumn(name))
      else Ok(Field(name, f.typ))
  }

  /** A column's field is, unchanged, the first field of the input schema with
      the column's name; without one (an empty schema included) it is an
      UnknownColumnError naming the column. */
  lemma ColumnToField(name: string, schema: Schema)
    ensures var r := ToField(Column(name), Ok(schema));
      && (r.Ok? <==> exists k :: 0 <= k < |schema.fields| && schema.fields[k].name == name)
      && (r.Ok? ==> exists k :: 0 <= k < |schema.fields| && r.value == schema.fields[k] &&
                      r.value.name == name && forall j :: 0 <= j < k ==> schema.fields[j].name != name)
      && (r.Fail? ==> r.error == UnknownColumn(name))
    ensures schema.fields == [] ==> ToField(Column(name), Ok(schema)) == Fail(UnknownColumn(name))
  {
    var i := IndexOf(schema, name);
    if i >= 0 {
      assert schema.fields[i].name == name;
    }
  }

  /** Literal fields never read the input: an integer is named by its decimal
      text and typed Int64Type, a float by its text and typed FloatType; a
      string literal never has a field. */
  lemma LiteralFields(n: int, f: real, text: string, s: string, input: Result<Schema>)
    ensures ToField(LiteralInteger(n), input) == Ok(Field(IntToString(n), Int64Type))
    ensures ToField(LiteralFloat(f, text), input) == Ok(Field(text, FloatType))
    ensures ToField(LiteralString(s), input) == Fail(LiteralNotField)
  {
  }

  /** A boolean expression's field is named after its operator and typed
      BooleanType, whatever its operands and its input. */
  lemma BooleanField(name: string, op: string, l: LogicalExpr, r: LogicalExpr, input: Result<Schema>)
    ensures ToField(Boolean(name, op, l, r), input) == Ok(Field(name, BooleanType))
  {
  }

  /** A math expression's field is named after its operation and takes the
      left operand's type; the right operand is never resolved. */
  lemma MathExprField(name: string, op: string, l: LogicalExpr, r: LogicalExpr, r': LogicalExpr,
                      input: Result<Schema>)
    ensures var res := ToField(MathExpr(name, op, l, r), input);
      && (res.Ok? <==> ToField(l, input).Ok?)
      && (res.Ok? ==> res.value == Field(name, ToField(l, input).value.typ))
      && res == ToField(MathExpr(name, op, l, r'), input)
  {
  }

  /** An aggregate's field is named after the aggregate and takes the inner
      expression's type. */
  lemma AggregateField(name: string, inner: LogicalExpr, input: Result<Schema>)
    ensures var res := ToField(AggregateExpr(name, inner), input);
      && (res.Ok? <==> ToField(inner, input).Ok?)
      && (res.Ok? ==> res.value == Field(name, ToField(inner, input).value.typ))
  {
  }

  // ---------------------------------------------------------------------------
  // Constructors

  function Eq(l: LogicalExpr, r: LogicalExpr): LogicalExpr { Boolean("eq", "=", l, r) }
  function Neq(l: LogicalExpr, r: LogicalExpr): LogicalExpr { Boolean("neq", "!=", l, r) }
  function Gt(l: LogicalExpr, r: LogicalExpr): LogicalExpr { Boolean("gt", ">", l, r) }
  function GtEq(l: LogicalExpr, r: LogicalExpr): LogicalExpr { Boolean("gteq", ">=", l, r) }
  function Lt(l: LogicalExpr, r: LogicalExpr): LogicalExpr { Boolean("lt", "<", l, r) }
  function LtEq(l: LogicalExpr, r: LogicalExpr): LogicalExpr { Boolean("lteq", "<=", l, r) }
  function And(l: LogicalExpr, r: LogicalExpr): LogicalExpr { Boolean("and", "AND", l, r) }
  function Or(l: LogicalExpr, r: LogicalExpr): LogicalExpr { Boolean("or", "OR", l, r) }

  function Add(l: LogicalExpr, r: LogicalExpr): LogicalExpr { MathExpr("add", "+", l, r) }
  function Subtract(l: LogicalExpr, r: LogicalExpr): LogicalExpr { MathExpr("subtract", "-", l, r) }
  function Mult(l: LogicalExpr, r: LogicalExpr): LogicalExpr { MathExpr("multiply", "*", l, r) }
  function Div(l: LogicalExpr, r: LogicalExpr): LogicalExpr { MathExpr("divide", "/", l, r) }

  /** Note: `Max` builds an aggregate named "SUM". */
  function Max(e: LogicalExpr): LogicalExpr { AggregateExpr("SUM", e) }
  function Min(e: LogicalExpr): LogicalExpr { AggregateExpr("MIN", e) }

  // ---------------------------------------------------------------------------
  // repr

  /** `repr(expr)`. A float literal has no `__repr__` of its own and prints as
      Python's default object text, modelled without its address; the alias
      class's text is not part of this model. */
  function Repr(e: LogicalExpr): string {
    match e
    case Column(name) => "#" + name
    case LiteralString(s) => QuotedRepr(s)
    case LiteralInteger(n) => IntToString(n)
    case LiteralFloat(_, _) => "<LiteralFloat object>"
    case Boolean(_, op, l, r) => Repr(l) + " " + op + " " + Repr(r)
    case MathExpr(_, op, l, r) => Repr(l) + " " + op + " " + Repr(r)
    case AggregateExpr(name, inner) => name + "(" + Repr(inner) + ")"
    case Alias(_, _) => "<Alias object>"
  }

  /** A leaf's repr gives it back: a column's name follows the `#`, a string
      literal's text decodes from between the quotes, and an integer
      literal's text reads back as its value. */
  lemma LeafReprsReadBack(name: string, s: string, n: int)
    ensures var c := Repr(Column(name)); c[0] == '#' && c[1..] == name
    ensures var q := Repr(LiteralString(s)); Unescape(q[1..|q| - 1]) == s
    ensures IntValue(Repr(LiteralInteger(n))) == n
  {
    QuotedReprRoundTrip(s);
    IntToStringValue(n);
  }

  /** Each boolean constructor fixes its (name, op) pair, keeps both operands
      as given, prints as "l op r" and derives a field named after it. */
  lemma BooleanConstructors(l: LogicalExpr, r: LogicalExpr, input: Result<Schema>)
    ensures Eq(l, r) == Boolean("eq", "=", l, r) && Neq(l, r) == Boolean("neq", "!=", l, r)
    ensures Gt(l, r) == Boolean("gt", ">", l, r) && GtEq(l, r) == Boolean("gteq", ">=", l, r)
    ensures Lt(l, r) == Boolean("lt", "<", l, r) && LtEq(l, r) == Boolean("lteq", "<=", l, r)
    ensures And(l, r) == Boolean("and", "AND", l, r) && Or(l, r) == Boolean("or", "OR", l, r)
    ensures forall e :: e in [Eq(l, r), Neq(l, r), Gt(l, r), GtEq(l, r), Lt(l, r), LtEq(l, r), And(l, r), Or(l, r)] ==>
      && e.l == l && e.r == r
      && Repr(e) == Repr(l) + " " + e.op + " " + Repr(r)
      && ToField(e, input) == Ok(Field(e.name, BooleanType))
  {
    forall e | e in [Eq(l, r), Neq(l, r), Gt(l, r), GtEq(l, r), Lt(l, r), LtEq(l, r), And(l, r), Or(l, r)]
      ensures e.Boolean? && e.l == l && e.r == r
    {
    }
    forall e: LogicalExpr | e.Boolean?
      ensures Repr(e) == Repr(e.l) + " " + e.op + " " + Repr(e.r)
      ensures ToField(e, input) == Ok(Field(e.name, BooleanType))
    {
      BooleanField(e.name, e.op, e.l, e.r, input);
    }
  }

  /** The math constructors fix (name, op) the same way; `Max` and `Min` wrap
      their argument in an aggregate named "SUM" and "MIN". */
  lemma MathAndAggregateConstructors(l: LogicalExpr, r: LogicalExpr)
    ensures Add(l, r) == MathExpr("add", "+", l, r) && Subtract(l, r) == MathExpr("subtract", "-", l, r)
    ensures Mult(l, r) == MathExpr("multiply", "*", l, r) && Div(l, r) == MathExpr("divide", "/", l, r)
    ensures Max(l) == AggregateExpr("SUM", l) && Min(l) == AggregateExpr("MIN", l)
    ensures Repr(Max(l)) == "SUM(" + Repr(l) + ")"
  {
  }
}
