/** A plan on which the projection push-down rule, as written in
    querypy/optimizer/__init__.py, narrows the Scan to too few columns.

    `extract_columns` replaces an empty `columns` list by a fresh one. The
    recursive calls it makes for the operands of a binary expression pass the
    caller's list, and their result is discarded, so while that list is still
    empty the operands' columns end up in a list nobody keeps. Here the first
    projected expression is `#a + #b`: its columns are lost, only `x` reaches
    the Scan, and the optimised plan no longer has the columns it reads. */
module PushDownFinding {
  import opened Errors
  import opened Types
  import opened Text
  import opened LogicalExprs
  import opened LogicalPlans
  import opened Optimizer
  import opened Planner

  const Source := DataSource("employees", Schema([Field("a", Int64Type), Field("b", Int64Type), Field("x", Int64Type)]))

  const Exprs := [LogicalExprs.Add(Column("a"), Column("b")), Column("x")]

  /** `Projection([#a + #b, #x])` over a Scan of the whole source. */
  const Plan := Projection(MakeScan("employees.csv", Source, []), Exprs)

  /** As written, the operands of `#a + #b` are extracted into a discarded
      list: only `x` is collected. */
  lemma AsWrittenCollectsOnlyX()
    ensures CollectAsWritten(Exprs, []) == Ok(["x"])
  {
    var add := LogicalExprs.Add(Column("a"), Column("b"));
    var none: seq<string> := [];
    assert Exprs[..1] == [add];
    assert [add][..0] == [];
    assert CallerViewAsWritten(Column("a"), none) == Ok(none);
    assert CallerViewAsWritten(Column("b"), none) == Ok(none);
    assert StepAsWritten(add, none) == Ok(none);
    assert CollectAsWritten([add], none) == Ok(none);
    assert |Exprs| == 2 && Exprs[1] == Column("x");
    assert CollectAsWritten(Exprs[..1], none) == Ok(none);
    assert StepAsWritten(Column("x"), none).value == none + ["x"] == ["x"];
  }

  /** Every column the projection references. */
  lemma AllReferences()
    ensures ColumnRefsAll(Exprs) == Ok(["a", "b", "x"])
  {
    var add := LogicalExprs.Add(Column("a"), Column("b"));
    var none: seq<string> := [];
    assert Exprs[..1] == [add];
    assert [add][..0] == [];
    assert ColumnRefs(add).value == ["a"] + ["b"] == ["a", "b"];
    assert [add][0] == add;
    assert ColumnRefsAll([add][..0]) == Ok(none);
    assert ColumnRefsAll([add]) == Ok(none + ["a", "b"]);
    assert none + ["a", "b"] == ["a", "b"];
    assert |Exprs| == 2 && Exprs[1] == Column("x");
    assert ColumnRefsAll(Exprs[..1]) == Ok(["a", "b"]);
    assert ["a", "b"] + ["x"] == ["a", "b", "x"];
  }

  lemma SortedNames()
    ensures SortUnique(["x"]) == ["x"]
    ensures SortUnique(["a", "b", "x"]) == ["a", "b", "x"]
  {
    assert LexLess("a", "b") && LexLess("b", "x") && LexLess("a", "x");
    SortedByElements(["a", "b", "x"], SortUnique(["a", "b", "x"]));
  }

  lemma NarrowSchema()
    ensures var narrow := Select(Source.schema, ["x"]);
      narrow == Schema([Field("x", Int64Type)]) && ToField(Column("a"), Ok(narrow)) == Fail(UnknownColumn("a"))
  {
    var fa, fb, fx := Field("a", Int64Type), Field("b", Int64Type), Field("x", Int64Type);
    assert [fa, fb, fx][1..] == [fb, fx] && [fb, fx][1..] == [fx] && [fx][1..] == [];
    assert FieldsNamed([fx], ["x"]) == [fx];
    assert FieldsNamed([fa, fb, fx], ["x"]) == FieldsNamed([fb, fx], ["x"]) == [fx];
    assert FindField([fx], "a") == Fail(UnknownColumn("a"));
  }

  lemma FullSchema()
    ensures Select(Source.schema, ["a", "b", "x"]) == Source.schema
  {
    var fa, fb, fx := Field("a", Int64Type), Field("b", Int64Type), Field("x", Int64Type);
    var all := ["a", "b", "x"];
    assert [fa, fb, fx][1..] == [fb, fx] && [fb, fx][1..] == [fx] && [fx][1..] == [];
    assert FieldsNamed([fx], all) == [fx];
    assert FieldsNamed([fb, fx], all) == [fb] + [fx];
    assert FieldsNamed([fa, fb, fx], all) == [fa] + [fb, fx];
  }

  /** The Scan narrowed to `x` has lost `a`; the full projection keeps the
      source's schema, against which the expressions compile. */
  lemma NarrowAndFullSchemas()
    ensures var narrow := Select(Source.schema, ["x"]);
      narrow == Schema([Field("x", Int64Type)]) && ToField(Column("a"), Ok(narrow)) == Fail(UnknownColumn("a"))
    ensures Select(Source.schema, ["a", "b", "x"]) == Source.schema
  {
    NarrowSchema();
    FullSchema();
  }

  const NarrowPlan := Projection(MakeScan("employees.csv", Source, ["x"]), Exprs)
  const FullPlan := Projection(MakeScan("employees.csv", Source, ["a", "b", "x"]), Exprs)

  lemma AsWrittenRewrite()
    ensures PushDownAsWritten(Plan, []) == Ok(NarrowPlan)
  {
    AsWrittenCollectsOnlyX();
    SortedNames();
  }

  lemma CorrectedRewrite()
    ensures OptimizeCorrected(Plan) == Ok(FullPlan)
  {
    AllReferences();
    SortedNames();
    var none: seq<string> := [];
    assert none + ["a", "b", "x"] == ["a", "b", "x"];
  }

  lemma NarrowSchemaFails()
    ensures GetSchema(NarrowPlan) == Fail(UnknownColumn("a"))
  {
    NarrowSchema();
    assert ToFields(Exprs, Ok(Select(Source.schema, ["x"]))) == Fail(UnknownColumn("a"));
  }

  lemma NarrowPlanFails()
    ensures GetSchema(NarrowPlan) == Fail(UnknownColumn("a"))
    ensures Planner.CreatePhysicalPlan(NarrowPlan) == Fail(UnknownColumn("a"))
  {
    NarrowSchemaFails();
  }

  lemma FullFields()
    ensures ToFields(Exprs, Ok(Source.schema)).Ok?
  {
    var add := LogicalExprs.Add(Column("a"), Column("b"));
    assert ToField(add, Ok(Source.schema)) == Ok(Field("add", Int64Type));
    assert ToField(Column("x"), Ok(Source.schema)) == Ok(Field("x", Int64Type));
  }

  lemma FullExprsCompile()
    ensures MapResult(Planner.CompileWith(Ok(Source.schema)), Exprs).Ok?
  {
    var add := LogicalExprs.Add(Column("a"), Column("b"));
    assert Planner.CreatePhysicalExpr(Column("a"), Ok(Source.schema)) == Ok(PhysicalExprs.ColumnIndex(0));
    assert Planner.CreatePhysicalExpr(Column("b"), Ok(Source.schema)) == Ok(PhysicalExprs.ColumnIndex(1));
    assert Planner.CreatePhysicalExpr(add, Ok(Source.schema)).Ok?;
    assert Planner.CreatePhysicalExpr(Column("x"), Ok(Source.schema)).Ok?;
  }

  lemma FullPlanCompiles()
    ensures GetSchema(FullPlan) == GetSchema(Plan)
    ensures Planner.CreatePhysicalPlan(FullPlan).Ok?
  {
    NarrowAndFullSchemas();
    FullFields();
    FullExprsCompile();
  }

  /** As written, the Scan keeps only `x`, and the rewritten plan cannot even
      derive its schema: compiling it fails on the lost column `a`. With every
      referenced column collected, the Scan keeps `a`, `b` and `x`, the schema
      is unchanged and the plan compiles. */
  lemma LostColumns()
    ensures PushDownAsWritten(Plan, []) == Ok(NarrowPlan)
    ensures OptimizeCorrected(Plan) == Ok(FullPlan)
    ensures GetSchema(NarrowPlan) == Fail(UnknownColumn("a"))
    ensures Planner.CreatePhysicalPlan(NarrowPlan) == Fail(UnknownColumn("a"))
    ensures GetSchema(FullPlan) == GetSchema(Plan)
    ensures Planner.CreatePhysicalPlan(FullPlan).Ok?
  {
    AsWrittenRewrite();
    CorrectedRewrite();
    NarrowPlanFails();
    FullPlanCompiles();
  }
}
