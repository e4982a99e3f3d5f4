/** Logical plans: a tree of relational operators, each deriving its output
    schema from its input (querypy/planner/plans/logical.py). */
module LogicalPlans {
  import opened Errors
  import opened Types
  import opened Text
  import opened LogicalExprs

  /** A data source, seen through its `get_schema()`. Reading its batches is a
      parameter of execution (see PhysicalPlans). */
  datatype DataSource = DataSource(name: string, schema: Schema)

  /** One `(column, ascending)` pair of an OrderBy. */
  datatype OrderKey = OrderKey(col: LogicalExpr, ascending: bool)

  /** The logical plan classes. A Scan keeps the schema it computed once, at
      construction; build Scans with `MakeScan`. */
  datatype LogicalPlan =
    | Scan(path: string, source: DataSource, projection: seq<string>, schema: Schema)
    | Projection(input: LogicalPlan, exprs: seq<LogicalExpr>)
    | Filter(input: LogicalPlan, expr: LogicalExpr)
    | Aggregate(input: LogicalPlan, groupBy: seq<LogicalExpr>, aggregates: seq<LogicalExpr>)
    | OrderBy(input: LogicalPlan, orderBy: seq<OrderKey>)

  /** `Scan.derive_schema`: the source's schema, narrowed to the projection
      when the projection is not empty. */
  function DeriveSchema(source: DataSource, projection: seq<string>): Schema {
    if projection != [] then Select(source.schema, projection) else source.schema
  }

  /** `Scan(path, datasource, projection)`: the constructor, which stores the
      derived schema. */
  function MakeScan(path: string, source: DataSource, projection: seq<string>): (p: LogicalPlan)
    ensures p.Scan? && p.path == path && p.source == source && p.projection == projection
  {
    Scan(path, source, projection, DeriveSchema(source, projection))
  }

  /** Every Scan of the tree carries the schema its constructor derived. */
  predicate WellFormed(plan: LogicalPlan) {
    match plan
    case Scan(_, source, projection, schema) => schema == DeriveSchema(source, projection)
    case Projection(input, _) => WellFormed(input)
    case Filter(input, _) => WellFormed(input)
    case Aggregate(input, _, _) => WellFormed(input)
    case OrderBy(input, _) => WellFormed(input)
  }

  /** `[e.to_field(input) for e in exprs]`: the fields in expression order, or
      the error of the first expression that has none. */
  function ToFields(exprs: seq<LogicalExpr>, input: Result<Schema>): (r: Result<seq<Field>>)
    ensures r.Ok? <==> forall k :: 0 <= k < |exprs| ==> ToField(exprs[k], input).Ok?
    ensures r.Ok? ==> |r.value| == |exprs| &&
                      forall k :: 0 <= k < |exprs| ==> r.value[k] == ToField(exprs[k], input).value
    ensures r.Fail? ==> exists k :: 0 <= k < |exprs| && ToField(exprs[k], input) == Fail(r.error) &&
                          forall j :: 0 <= j < k ==> ToField(exprs[j], input).Ok?
  {
    if exprs == [] then Ok([])
    else
      var f :- ToField(exprs[0], input);
      var rest :- ToFields(exprs[1..], input);
      assert forall k :: 0 < k < |exprs| ==> exprs[k] == exprs[1..][k - 1];
      Ok([f] + rest)
  }

  /** `plan.get_schema()`. */
  function GetSchema(plan: LogicalPlan): Result<Schema> {
    match plan
    case Scan(_, _, _, schema) => Ok(schema)
    case Projection(input, exprs) =>
      var fields :- ToFields(exprs, GetSchema(input));
      Ok(Schema(fields))
    case Filter(input, _) => GetSchema(input)
    case Aggregate(input, groupBy, aggregates) =>
      var aggrFields :- ToFields(aggregates, GetSchema(input));
      var groupFields :- ToFields(groupBy, GetSchema(input));
      Ok(Schema(aggrFields + groupFields))
    case OrderBy(input, _) => GetSchema(input)
  }

  /** `plan.children()`. */
  function Children(plan: LogicalPlan): (cs: seq<LogicalPlan>)
    ensures plan.Scan? <==> cs == []
    ensures !plan.Scan? ==> cs == [plan.input]
  {
    if plan.Scan? then [] else [plan.input]
  }

  /** A Scan's schema is fixed at construction: the whole source schema for an
      empty projection, else the source schema narrowed to the projection. */
  lemma ScanSchema(path: string, source: DataSource, projection: seq<string>)
    ensures projection == [] ==> GetSchema(MakeScan(path, source, projection)) == Ok(source.schema)
    ensures projection != [] ==>
      GetSchema(MakeScan(path, source, projection)) == Ok(Select(source.schema, projection))
    ensures WellFormed(MakeScan(path, source, projection))
    ensures Children(MakeScan(path, source, projection)) == []
  {
  }

  /** A Projection's schema has one field per expression, in expression order,
      each the expression's field against the input; it fails exactly when one
      of them does. */
  lemma ProjectionSchema(input: LogicalPlan, exprs: seq<LogicalExpr>)
    ensures var s := GetSchema(Projection(input, exprs));
      && (s.Ok? <==> forall k :: 0 <= k < |exprs| ==> ToField(exprs[k], GetSchema(input)).Ok?)
      && (s.Ok? ==> |s.value.fields| == |exprs|)
      && (s.Ok? ==> forall k :: 0 <= k < |exprs| ==>
            s.value.fields[k] == ToField(exprs[k], GetSchema(input)).value)
  {
  }

  /** Filtering and ordering never change the shape: their schema is the input's. */
  lemma FilterAndOrderBySchema(input: LogicalPlan, e: LogicalExpr, keys: seq<OrderKey>)
    ensures GetSchema(Filter(input, e)) == GetSchema(input)
    ensures GetSchema(OrderBy(input, keys)) == GetSchema(input)
  {
  }

  /** An Aggregate's schema is the aggregate fields followed by the group-by
      fields: |aggregates| + |groupBy| fields, aggregates first. */
  lemma AggregateSchema(input: LogicalPlan, groupBy: seq<LogicalExpr>, aggregates: seq<LogicalExpr>)
    ensures var s := GetSchema(Aggregate(input, groupBy, aggregates));
      && (s.Ok? <==> ToFields(aggregates, GetSchema(input)).Ok? && ToFields(groupBy, GetSchema(input)).Ok?)
      && (s.Ok? ==>
            && |s.value.fields| == |aggregates| + |groupBy|
            && (forall k :: 0 <= k < |aggregates| ==>
                  s.value.fields[k] == ToField(aggregates[k], GetSchema(input)).value)
            && (forall k :: 0 <= k < |groupBy| ==>
                  s.value.fields[|aggregates| + k] == ToField(groupBy[k], GetSchema(input)).value))
  {
    var schema := GetSchema(input);
    var a, g := ToFields(aggregates, schema), ToFields(groupBy, schema);
    if a.Ok? && g.Ok? {
      assert GetSchema(Aggregate(input, groupBy, aggregates)) == Ok(Schema(a.value + g.value));
      FieldsAppend(aggregates, groupBy, schema);
    } else {
      assert GetSchema(Aggregate(input, groupBy, aggregates)).Fail?;
    }
  }

  /** The fields of two expression lists, one after the other. */
  lemma FieldsAppend(first: seq<LogicalExpr>, second: seq<LogicalExpr>, schema: Result<Schema>)
    requires ToFields(first, schema).Ok? && ToFields(second, schema).Ok?
    ensures var fields := ToFields(first, schema).value + ToFields(second, schema).value;
      && |fields| == |first| + |second|
      && (forall k :: 0 <= k < |first| ==> fields[k] == ToField(first[k], schema).value)
      && (forall k :: 0 <= k < |second| ==> fields[|first| + k] == ToField(second[k], schema).value)
  {
    var a, g := ToFields(first, schema).value, ToFields(second, schema).value;
    forall k | 0 <= k < |second|
      ensures (a + g)[|first| + k] == ToField(second[k], schema).value
    {
      assert (a + g)[|first| + k] == g[k];
    }
  }

  /** A column missing from the input schema makes a Projection's schema
      fail, with UnknownColumnError when no earlier expression failed first. */
  lemma ProjectionUnknownColumn(input: LogicalPlan, exprs: seq<LogicalExpr>, k: nat)
    requires k < |exprs| && exprs[k].Column? && GetSchema(input).Ok?
    requires IndexOf(GetSchema(input).value, exprs[k].name) < 0
    ensures GetSchema(Projection(input, exprs)).Fail?
    ensures (forall j :: 0 <= j < k ==> ToField(exprs[j], GetSchema(input)).Ok?) ==>
      GetSchema(Projection(input, exprs)) == Fail(UnknownColumn(exprs[k].name))
  {
    var s := GetSchema(Projection(input, exprs));
    assert ToField(exprs[k], GetSchema(input)).Fail?;
    if forall j :: 0 <= j < k ==> ToField(exprs[j], GetSchema(input)).Ok? {
      var fs := ToFields(exprs, GetSchema(input));
      var m :| 0 <= m < |exprs| && ToField(exprs[m], GetSchema(input)) == Fail(fs.error) &&
               forall j :: 0 <= j < m ==> ToField(exprs[j], GetSchema(input)).Ok?;
      assert m == k;
    }
  }

  /** The same for an Aggregate, whose aggregate fields are derived first. */
  lemma AggregateUnknownColumn(input: LogicalPlan, groupBy: seq<LogicalExpr>,
                               aggregates: seq<LogicalExpr>, k: nat)
    requires k < |groupBy| && groupBy[k].Column? && GetSchema(input).Ok?
    requires IndexOf(GetSchema(input).value, groupBy[k].name) < 0
    ensures GetSchema(Aggregate(input, groupBy, aggregates)).Fail?
  {
    assert ToField(groupBy[k], GetSchema(input)).Fail?;
  }

  // ---------------------------------------------------------------------------
  // repr

  /** The reprs of the expressions, in order. */
  function ExprReprs(exprs: seq<LogicalExpr>): (r: seq<string>)
    ensures |r| == |exprs|
    ensures forall k :: 0 <= k < |exprs| ==> r[k] == LogicalExprs.Repr(exprs[k])
  {
    if exprs == [] then [] else [LogicalExprs.Repr(exprs[0])] + ExprReprs(exprs[1..])
  }

  /** `repr` of one `(column, ascending)` tuple. */
  function OrderKeyRepr(k: OrderKey): string {
    "(" + LogicalExprs.Repr(k.col) + ", " + (if k.ascending then "True" else "False") + ")"
  }

  function OrderKeyReprs(keys: seq<OrderKey>): (r: seq<string>)
    ensures |r| == |keys|
    ensures forall k :: 0 <= k < |keys| ==> r[k] == OrderKeyRepr(keys[k])
  {
    if keys == [] then [] else [OrderKeyRepr(keys[0])] + OrderKeyReprs(keys[1..])
  }

  /** `repr(plan)`: one line describing the node (not its input). */
  function Repr(plan: LogicalPlan): string {
    match plan
    case Scan(path, _, projection, _) => "Scan: '" + path + "'; projection=" + StringListRepr(projection)
    case Projection(_, exprs) => "Projection(" + Join(", ", ExprReprs(exprs)) + ")"
    case Filter(_, e) => "Filter: " + LogicalExprs.Repr(e)
    case Aggregate(_, groupBy, aggregates) =>
      "Aggregate(group_by=[" + Join(", ", ExprReprs(groupBy)) + "], aggregate_by=["
        + Join(", ", ExprReprs(aggregates)) + "])"
    case OrderBy(_, keys) => "OrderBy([" + Join(", ", OrderKeyReprs(keys)) + "])"
  }

  /** The line names the node: plans of different kinds never print alike. */
  lemma ReprNamesKind(p: LogicalPlan, q: LogicalPlan)
    requires Repr(p) == Repr(q)
    ensures p.Scan? == q.Scan? && p.Projection? == q.Projection? && p.Filter? == q.Filter?
    ensures p.Aggregate? == q.Aggregate? && p.OrderBy? == q.OrderBy?
  {
    assert Repr(p)[0] == Repr(q)[0];
  }

  /** A Scan's line starts with its path in single quotes and ends with its
      projection as a Python list. */
  lemma ScanReprShowsPath(plan: LogicalPlan)
    requires plan.Scan?
    ensures var r, n := Repr(plan), |plan.path|;
      && |r| >= n + 8
      && r[..7] == "Scan: '" && r[7..7 + n] == plan.path && r[7 + n] == '\''
      && r[|r| - |StringListRepr(plan.projection)|..] == StringListRepr(plan.projection)
  {
  }

  /** Every expression or sort key of the node shows up in its line; inputs
      are not shown. */
  lemma ReprShowsExprs(plan: LogicalPlan)
    ensures plan.Projection? ==> forall k :: 0 <= k < |plan.exprs| ==>
      Contains(Repr(plan), LogicalExprs.Repr(plan.exprs[k]))
    ensures plan.Filter? ==> Contains(Repr(plan), LogicalExprs.Repr(plan.expr))
    ensures plan.Aggregate? ==> forall k :: 0 <= k < |plan.groupBy| ==>
      Contains(Repr(plan), LogicalExprs.Repr(plan.groupBy[k]))
    ensures plan.Aggregate? ==> forall k :: 0 <= k < |plan.aggregates| ==>
      Contains(Repr(plan), LogicalExprs.Repr(plan.aggregates[k]))
    ensures plan.OrderBy? ==> forall k :: 0 <= k < |plan.orderBy| ==>
      Contains(Repr(plan), OrderKeyRepr(plan.orderBy[k]))
    ensures !plan.Scan? ==> forall other :: Repr(plan.(input := other)) == Repr(plan)
  {
    match plan
    case Projection(_, exprs) =>
      forall k | 0 <= k < |exprs| ensures Contains(Repr(plan), LogicalExprs.Repr(exprs[k])) {
        JoinContainsParts(", ", ExprReprs(exprs), k);
        ContainsWithin("Projection(", Join(", ", ExprReprs(exprs)), ")", ExprReprs(exprs)[k]);
      }
    case Filter(_, e) =>
      assert ContainsAt(LogicalExprs.Repr(e), LogicalExprs.Repr(e), 0);
      ContainsWithin("Filter: ", LogicalExprs.Repr(e), "", LogicalExprs.Repr(e));
      assert Repr(plan) == "Filter: " + LogicalExprs.Repr(e) + "";
    case Aggregate(_, groupBy, aggregates) =>
      var g, a := Join(", ", ExprReprs(groupBy)), Join(", ", ExprReprs(aggregates));
      assert Repr(plan) == "Aggregate(group_by=[" + g + ("], aggregate_by=[" + a + "])");
      assert Repr(plan) == ("Aggregate(group_by=[" + g + "], aggregate_by=[") + a + "])";
      forall k | 0 <= k < |groupBy| ensures Contains(Repr(plan), LogicalExprs.Repr(groupBy[k])) {
        JoinContainsParts(", ", ExprReprs(groupBy), k);
        ContainsWithin("Aggregate(group_by=[", g, "], aggregate_by=[" + a + "])", ExprReprs(groupBy)[k]);
      }
      forall k | 0 <= k < |aggregates| ensures Contains(Repr(plan), LogicalExprs.Repr(aggregates[k])) {
        JoinContainsParts(", ", ExprReprs(aggregates), k);
        ContainsWithin("Aggregate(group_by=[" + g + "], aggregate_by=[", a, "])", ExprReprs(aggregates)[k]);
      }
    case OrderBy(_, keys) =>
      forall k | 0 <= k < |keys| ensures Contains(Repr(plan), OrderKeyRepr(keys[k])) {
        JoinContainsParts(", ", OrderKeyReprs(keys), k);
        ContainsWithin("OrderBy([", Join(", ", OrderKeyReprs(keys)), "])", OrderKeyReprs(keys)[k]);
      }
    case Scan(_, _, _, _) =>
  }
}
