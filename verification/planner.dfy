/** The logical-to-physical compiler (querypy/planner/planner.py): column
    names are resolved to indices against the input plan's schema, and
    operators and aggregates are dispatched by name. */
module Planner {
  import opened Errors
  import opened Types
  import opened Text
  import opened LogicalExprs
  import opened LogicalPlans
  import opened PhysicalExprs
  import opened PhysicalPlans

  /** The comparison a Boolean's name selects: only "eq", "gt" and "lt" have one. */
  function BooleanOpNamed(name: string): (r: Option<BinaryOp>)
    ensures r.Some? ==> IsComparison(r.value)
  {
    if name == "eq" then Some(EqOp)
    else if name == "gt" then Some(GtOp)
    else if name == "lt" then Some(LtOp)
    else None
  }

  /** The arithmetic a MathExpr's name selects. `MathOp` is not part of this
      model: its members' names are taken to be the names the logical
      constructors give ("subtract", "add", "multiply", "divide"). */
  function MathOpNamed(name: string): (r: Option<BinaryOp>)
    ensures r.Some? ==> !IsComparison(r.value)
  {
    if name == "subtract" then Some(SubtractOp)
    else if name == "add" then Some(AddOp)
    else if name == "multiply" then Some(MultiplyOp)
    else if name == "divide" then Some(DivideOp)
    else None
  }

  /** The aggregate an aggregate expression's name selects. */
  function AggregateKindNamed(name: string): Option<AggregateKind> {
    if name == "MAX" then Some(MaxAgg)
    else if name == "COUNT" then Some(CountAgg)
    else if name == "AVG" then Some(AvgAgg)
    else None
  }

  /** `get_index_by_name` on the input schema, refused when negative with an
      UnknownColumnError that names the index, not the column. */
  function ResolveColumn(schema: Schema, name: string): Result<PhysicalExpr> {
    var i := IndexOf(schema, name);
    if i < 0 then Fail(UnknownColumn(IntToString(i))) else Ok(ColumnIndex(i))
  }

  /** `create_physical_expr(expr, input)`, the input plan seen through its
      `get_schema()`. A Boolean or MathExpr whose name has no operator, and
      an aggregate expression, compile to None (`NoExpr`). */
  function CreatePhysicalExpr(e: LogicalExpr, input: Result<Schema>): Result<PhysicalExpr> {
    match e
    case Column(name) =>
      var schema :- input;
      ResolveColumn(schema, name)
    case Alias(_, inner) =>
      var schema :- input;
      (match NameAttr(inner)
       case None => Fail(NoAttribute("name"))
       case Some(name) => ResolveColumn(schema, name))
    case LiteralString(s) => Ok(StringLit(s))
    case LiteralInteger(n) => Ok(IntLit(n))
    case LiteralFloat(f, _) => Ok(FloatLit(f))
    case Boolean(name, _, l, r) =>
      var pl :- CreatePhysicalExpr(l, input);
      var pr :- CreatePhysicalExpr(r, input);
      Ok(match BooleanOpNamed(name) case Some(op) => Binary(op, pl, pr) case None => NoExpr)
    case MathExpr(name, _, l, r) =>
      var pl :- CreatePhysicalExpr(l, input);
      var pr :- CreatePhysicalExpr(r, input);
      Ok(match MathOpNamed(name) case Some(op) => Binary(op, pl, pr) case None => NoExpr)
    case AggregateExpr(_, _) => Ok(NoExpr)
  }

  function CompileWith(input: Result<Schema>): LogicalExpr -> Result<PhysicalExpr> {
    e => CreatePhysicalExpr(e, input)
  }

  /** One step of the aggregate loop of `create_physical_plan`: the name picks
      the physical aggregate, which wraps the compiled inner expression; any
      other name is NotImplementedError. */
  function CreateAggregate(e: LogicalExpr, input: Result<Schema>): Result<PhysicalAggregate> {
    match NameAttr(e)
    case None => Fail(NoAttribute("name"))
    case Some(name) =>
      match AggregateKindNamed(name)
      case None => Fail(NotImplemented(""))
      case Some(kind) =>
        if e.AggregateExpr? || e.Alias? then
          var inner :- CreatePhysicalExpr(e.expr, input);
          Ok(PhysicalAggregate(kind, inner))
        else Fail(NoAttribute("expr"))
  }

  function CreateAggregateWith(input: Result<Schema>): LogicalExpr -> Result<PhysicalAggregate> {
    e => CreateAggregate(e, input)
  }

  /** `create_physical_plan(plan)`: the input compiled first, then the node's
      own schema and expressions against the logical input. An OrderBy
      compiles to None (`NoPlan`). */
  function CreatePhysicalPlan(plan: LogicalPlan): Result<PhysicalPlan> {
    match plan
    case Scan(_, source, projection, _) => Ok(ScanExec(source, projection))
    case Projection(input, exprs) =>
      var child :- CreatePhysicalPlan(input);
      var fields :- ToFields(exprs, GetSchema(input));
      var pexprs :- MapResult(CompileWith(GetSchema(input)), exprs);
      Ok(ProjectionExec(child, Schema(fields), pexprs))
    case Filter(input, e) =>
      var child :- CreatePhysicalPlan(input);
      var pe :- CreatePhysicalExpr(e, GetSchema(input));
      Ok(FilterExec(child, pe))
    case Aggregate(input, groupBy, aggregates) =>
      var child :- CreatePhysicalPlan(input);
      var groupExprs :- MapResult(CompileWith(GetSchema(input)), groupBy);
      var aggrs :- MapResult(CreateAggregateWith(GetSchema(input)), aggregates);
      var schema :- GetSchema(plan);
      Ok(HashAggregate(child, groupExprs, aggrs, schema))
    case OrderBy(_, _) => Ok(NoPlan)
  }

  // ---------------------------------------------------------------------------
  // Expressions

  /** A column compiles to the index of the first field with its name; when
      there is none the error names the index -1, not the column. */
  lemma ColumnCompiles(name: string, schema: Schema)
    ensures var r := CreatePhysicalExpr(Column(name), Ok(schema));
      && (r.Ok? <==> exists k :: 0 <= k < |schema.fields| && schema.fields[k].name == name)
      && (r.Ok? ==> r.value.ColumnIndex? && 0 <= r.value.i < |schema.fields|
                    && schema.fields[r.value.i].name == name
                    && forall k :: 0 <= k < r.value.i ==> schema.fields[k].name != name)
      && (r.Fail? ==> r.error == UnknownColumn("-1"))
  {
    var i := IndexOf(schema, name);
    if i < 0 {
      assert IntToString(i) == "-" + NatToString(1) == "-1";
    } else {
      assert schema.fields[i].name == name;
    }
  }

  /** A compiled column, evaluated on a batch laid out as the schema it was
      resolved against, reads the batch's column at the name's position. */
  lemma CompiledColumnReads(name: string, schema: Schema, batch: RecordBatch)
    requires |batch.columns| == |schema.fields|
    requires CreatePhysicalExpr(Column(name), Ok(schema)).Ok?
    ensures var i := IndexOf(schema, name);
      && 0 <= i && schema.fields[i].name == name
      && Evaluate(CreatePhysicalExpr(Column(name), Ok(schema)).value, batch) == Ok(batch.columns[i])
  {
  }

  /** An alias compiles as the column it renames, looked up by the inner
      column's name and never by the alias; an alias of a literal has no name
      to look up. */
  lemma AliasCompilesAsInner(alias: string, name: string, input: Result<Schema>, n: int)
    ensures CreatePhysicalExpr(Alias(alias, Column(name)), input) == CreatePhysicalExpr(Column(name), input)
    ensures input.Ok? ==> CreatePhysicalExpr(Alias(alias, LiteralInteger(n)), input) == Fail(NoAttribute("name"))
  {
  }

  /** An alias to a new name over a one-field schema reads field 0; an alias
      of a column the schema lacks is UnknownColumnError. */
  lemma AliasExample()
    ensures var schema := Schema([Field("somefiled", StringType)]);
      && CreatePhysicalExpr(Alias("somenewname", Column("somefiled")), Ok(schema)) == Ok(ColumnIndex(0))
      && CreatePhysicalExpr(Alias("somenewname", Column("t")), Ok(schema)).error.UnknownColumn?
  {
    var schema := Schema([Field("somefiled", StringType)]);
    assert IndexOf(schema, "t") == -1 by {
      assert "t" != "somefiled";
    }
  }

  /** Literals compile to physical literals carrying the same value, without
      looking at the input. */
  lemma LiteralsCompile(s: string, n: int, f: real, text: string, input: Result<Schema>)
    ensures CreatePhysicalExpr(LiteralString(s), input) == Ok(StringLit(s))
    ensures CreatePhysicalExpr(LiteralInteger(n), input) == Ok(IntLit(n))
    ensures CreatePhysicalExpr(LiteralFloat(f, text), input) == Ok(FloatLit(f))
  {
  }

  /** A binary expression compiles both operands against the same input, left
      first; its name then picks the operator, and a name without one (neq,
      gteq, lteq, and, or) gives None. */
  lemma BinaryCompiles(name: string, op: string, l: LogicalExpr, r: LogicalExpr, input: Result<Schema>)
    ensures var b := CreatePhysicalExpr(Boolean(name, op, l, r), input);
      var m := CreatePhysicalExpr(MathExpr(name, op, l, r), input);
      var pl, pr := CreatePhysicalExpr(l, input), CreatePhysicalExpr(r, input);
      && (pl.Fail? ==> b == pl && m == pl)
      && (pl.Ok? && pr.Fail? ==> b == pr && m == pr)
      && (pl.Ok? && pr.Ok? ==>
            && (name == "eq" ==> b == Ok(Binary(EqOp, pl.value, pr.value)))
            && (name == "gt" ==> b == Ok(Binary(GtOp, pl.value, pr.value)))
            && (name == "lt" ==> b == Ok(Binary(LtOp, pl.value, pr.value)))
            && (name !in ["eq", "gt", "lt"] ==> b == Ok(NoExpr))
            && (name == "subtract" ==> m == Ok(Binary(SubtractOp, pl.value, pr.value)))
            && (name == "add" ==> m == Ok(Binary(AddOp, pl.value, pr.value)))
            && (name == "multiply" ==> m == Ok(Binary(MultiplyOp, pl.value, pr.value)))
            && (name == "divide" ==> m == Ok(Binary(DivideOp, pl.value, pr.value)))
            && (name !in ["subtract", "add", "multiply", "divide"] ==> m == Ok(NoExpr)))
  {
  }

  /** Every column index in a physical expression is below `n`. */
  predicate ColumnsBelow(pe: PhysicalExpr, n: nat) {
    match pe
    case ColumnIndex(i) => 0 <= i < n
    case Binary(_, l, r) => ColumnsBelow(l, n) && ColumnsBelow(r, n)
    case _ => true
  }

  /** Name resolution happens once, here: every index of a compiled
      expression is a valid position of the schema it was compiled against. */
  lemma {:induction false} CompiledColumnsInRange(e: LogicalExpr, schema: Schema)
    requires CreatePhysicalExpr(e, Ok(schema)).Ok?
    ensures ColumnsBelow(CreatePhysicalExpr(e, Ok(schema)).value, |schema.fields|)
  {
    match e
    case Boolean(_, _, l, r) =>
      CompiledColumnsInRange(l, schema);
      CompiledColumnsInRange(r, schema);
    case MathExpr(_, _, l, r) =>
      CompiledColumnsInRange(l, schema);
      CompiledColumnsInRange(r, schema);
    case _ =>
  }

  // ---------------------------------------------------------------------------
  // Plans

  /** A Scan keeps its data source and projection; a Filter wraps the
      compiled predicate over the compiled input; an OrderBy has no physical
      plan, so nothing above it can execute. */
  lemma ScanFilterOrderByCompile(path: string, source: DataSource, projection: seq<string>, schema: Schema,
                                 input: LogicalPlan, e: LogicalExpr, keys: seq<OrderKey>, rt: Runtime)
    ensures CreatePhysicalPlan(Scan(path, source, projection, schema)) == Ok(ScanExec(source, projection))
    ensures var f := CreatePhysicalPlan(Filter(input, e));
      && (f.Ok? <==> CreatePhysicalPlan(input).Ok? && CreatePhysicalExpr(e, GetSchema(input)).Ok?)
      && (f.Ok? ==> f.value == FilterExec(CreatePhysicalPlan(input).value,
                                          CreatePhysicalExpr(e, GetSchema(input)).value))
    ensures CreatePhysicalPlan(OrderBy(input, keys)) == Ok(NoPlan)
    ensures ExecuteSpec(NoPlan, rt).Fail?
    ensures var f := CreatePhysicalPlan(Filter(OrderBy(input, keys), e));
      f.Ok? ==> ExecuteSpec(f.value, rt) == Fail(NoAttribute("execute"))
  {
  }

  /** A Projection compiles to a physical Projection over the compiled input
      whose schema is the logical Projection's schema and whose expressions
      are the compiled expressions, in the same order and number. */
  lemma ProjectionCompiles(input: LogicalPlan, exprs: seq<LogicalExpr>)
    ensures var p := CreatePhysicalPlan(Projection(input, exprs));
      && (p.Ok? <==> && CreatePhysicalPlan(input).Ok?
                     && GetSchema(Projection(input, exprs)).Ok?
                     && forall k :: 0 <= k < |exprs| ==> CreatePhysicalExpr(exprs[k], GetSchema(input)).Ok?)
      && (p.Ok? ==> && p.value.ProjectionExec?
                    && p.value.input == CreatePhysicalPlan(input).value
                    && p.value.schema == GetSchema(Projection(input, exprs)).value
                    && |p.value.exprs| == |exprs|
                    && forall k :: 0 <= k < |exprs| ==>
                         p.value.exprs[k] == CreatePhysicalExpr(exprs[k], GetSchema(input)).value)
  {
  }

  /** An aggregate expression compiles by its name: MAX, COUNT and AVG wrap
      the compiled inner expression; every other name, SUM and MIN included,
      is NotImplementedError. */
  lemma AggregateDispatch(name: string, inner: LogicalExpr, input: Result<Schema>)
    ensures var a := CreateAggregate(AggregateExpr(name, inner), input);
      var pi := CreatePhysicalExpr(inner, input);
      && (name !in ["MAX", "COUNT", "AVG"] ==> a == Fail(NotImplemented("")))
      && (name in ["MAX", "COUNT", "AVG"] && pi.Fail? ==> a == Fail(pi.error))
      && (name == "MAX" && pi.Ok? ==> a == Ok(PhysicalAggregate(MaxAgg, pi.value)))
      && (name == "COUNT" && pi.Ok? ==> a == Ok(PhysicalAggregate(CountAgg, pi.value)))
      && (name == "AVG" && pi.Ok? ==> a == Ok(PhysicalAggregate(AvgAgg, pi.value)))
  {
  }

  /** An Aggregate compiles to a HashAggregate over the compiled input, with
      the compiled group expressions and aggregates in order, given the
      logical Aggregate's schema. */
  lemma AggregateCompiles(input: LogicalPlan, groupBy: seq<LogicalExpr>, aggregates: seq<LogicalExpr>)
    ensures var p := CreatePhysicalPlan(Aggregate(input, groupBy, aggregates));
      && (p.Ok? <==> && CreatePhysicalPlan(input).Ok?
                     && (forall k :: 0 <= k < |groupBy| ==> CreatePhysicalExpr(groupBy[k], GetSchema(input)).Ok?)
                     && (forall k :: 0 <= k < |aggregates| ==> CreateAggregate(aggregates[k], GetSchema(input)).Ok?)
                     && GetSchema(Aggregate(input, groupBy, aggregates)).Ok?)
      && (p.Ok? ==> && p.value.HashAggregate?
                    && p.value.input == CreatePhysicalPlan(input).value
                    && |p.value.groupExprs| == |groupBy|
                    && (forall k :: 0 <= k < |groupBy| ==>
                          p.value.groupExprs[k] == CreatePhysicalExpr(groupBy[k], GetSchema(input)).value)
                    && |p.value.aggregates| == |aggregates|
                    && (forall k :: 0 <= k < |aggregates| ==>
                          p.value.aggregates[k] == CreateAggregate(aggregates[k], GetSchema(input)).value)
                    && p.value.schema == GetSchema(Aggregate(input, groupBy, aggregates)).value)
  {
  }

  /** `Max` builds an aggregate named "SUM", which the planner does not know:
      an Aggregate using it never compiles. */
  lemma MaxNeverCompiles(input: LogicalPlan, groupBy: seq<LogicalExpr>, x: LogicalExpr)
    requires CreatePhysicalPlan(input).Ok?
    requires forall k :: 0 <= k < |groupBy| ==> CreatePhysicalExpr(groupBy[k], GetSchema(input)).Ok?
    ensures CreatePhysicalPlan(Aggregate(input, groupBy, [LogicalExprs.Max(x)])) == Fail(NotImplemented(""))
  {
    assert CreateAggregate(LogicalExprs.Max(x), GetSchema(input)) == Fail(NotImplemented(""));
  }

  /** The compiled HashAggregate is given the logical schema, whose first
      fields are the aggregates', while the columns it builds put the group
      keys first: with a group expression and an aggregate, field 0 of the
      schema describes the aggregate but column 0 holds the keys. */
  lemma HashAggregateLayoutMismatch(input: LogicalPlan, groupBy: seq<LogicalExpr>, aggregates: seq<LogicalExpr>,
                                    order: seq<seq<Value>>, traces: map<seq<Value>, seq<seq<Value>>>,
                                    finalValue: (AggregateKind, seq<Value>) -> Value)
    requires CreatePhysicalPlan(Aggregate(input, groupBy, aggregates)).Ok?
    requires |groupBy| >= 1 && |aggregates| >= 1
    requires forall k :: k in order ==> k in traces && |k| == |groupBy| && |traces[k]| == |aggregates|
    ensures var p := CreatePhysicalPlan(Aggregate(input, groupBy, aggregates)).value;
      && p.HashAggregate? && |p.aggregates| == |aggregates|
      && |p.schema.fields| == |aggregates| + |groupBy|
      && p.schema.fields[0] == ToField(aggregates[0], GetSchema(input)).value
      && p.schema.fields[|aggregates|] == ToField(groupBy[0], GetSchema(input)).value
      && var cols := OutputColumns(order, traces, |groupBy|, p.aggregates, finalValue);
         forall r :: 0 <= r < |order| ==> cols[0][r] == order[r][0]
  {
    AggregateCompiles(input, groupBy, aggregates);
    AggregateSchema(input, groupBy, aggregates);
    var p := CreatePhysicalPlan(Aggregate(input, groupBy, aggregates)).value;
    PhysicalPlans.OutputColumnsSpec(order, traces, |groupBy|, p.aggregates, finalValue);
  }
}
