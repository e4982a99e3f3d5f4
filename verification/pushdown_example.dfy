/** The plan of the repository's projection push-down test
    (tests/optimizer/test_projectionpushdown.py): a Scan of `somecsv`,
    filtered on `salary`, aggregated by `some_agg` with `Max(#some_max)`, then
    projected to `country`. The first expression the rule meets is a bare
    column, so the list of names is never empty when a binary or aggregate
    expression is extracted: here the rule as written collects every
    referenced column. */
module PushDownExample {
  import opened Errors
  import opened Text
  import opened LogicalExprs
  import opened LogicalPlans
  import opened Optimizer

  const Predicate := Gt(Column("salary"), LiteralInteger(10000))

  const Inner := Aggregate(Filter(MakeScan("somecsv", Source, []), Predicate),
                           [Column("some_agg")], [LogicalExprs.Max(Column("some_max"))])

  /** The source's schema plays no part in push-down; any will do. */
  const Source := DataSource("somecsv", Types.Schema([]))

  const TestPlan := Projection(Inner, [Column("country")])

  const Expected := ["country", "salary", "some_agg", "some_max"]

  lemma ExpectedSorted()
    ensures StrictlySorted(Expected)
  {
    assert LexLess("country", "salary");
    assert LexLess("salary", "some_agg");
    assert LexLess("some_agg", "some_max") by {
      assert "some_agg"[5..] == "agg" && "some_max"[5..] == "max";
      assert LexLess("agg", "max");
    }
    LexTransitive("country", "salary", "some_agg");
    LexTransitive("country", "some_agg", "some_max");
    LexTransitive("salary", "some_agg", "some_max");
  }

  /** The columns the nodes below the projection reference. */
  lemma InnerRefs()
    ensures RefsAbove(Inner) == {"some_agg", "some_max", "salary"}
  {
    var none: seq<LogicalExpr> := [];
    assert [Column("some_agg")][..0] == none;
    assert [LogicalExprs.Max(Column("some_max"))][..0] == none;
  }

  /** As written, the projection's column reaches the rest of the plan. */
  lemma AsWrittenFirstStep()
    ensures PushDownAsWritten(TestPlan, []) ==
      (match PushDown(Inner, ["country"]) case Fail(e) => Fail(e) case Ok(p) => Ok(Projection(p, [Column("country")])))
    ensures OptimizeCorrected(TestPlan) == PushDownAsWritten(TestPlan, [])
  {
    var none: seq<string> := [];
    var exprs := [Column("country")];
    assert exprs[..0] == [];
    assert CollectAsWritten(exprs, none) == Ok(["country"]) by {
      assert none + ["country"] == ["country"];
    }
    assert ColumnRefsAll(exprs) == Ok(["country"]) by {
      assert none + ["country"] == ["country"];
    }
    AsWrittenSeeded(Inner, ["country"]);
  }

  /** Below the projection, the corrected rule keeps the shape of the plan
      and narrows its Scan to the expected columns. */
  lemma InnerPushDown()
    ensures PushDown(Inner, ["country"]).Ok?
    ensures var p := PushDown(Inner, ["country"]).value;
      && SameShape(Inner, p) && WellFormed(p) && Leaf(p).Scan? && Leaf(p).projection == Expected
  {
    var none: seq<LogicalExpr> := [];
    assert [Column("some_agg")][..0] == none;
    assert [LogicalExprs.Max(Column("some_max"))][..0] == none;
    assert [Predicate][..0] == none;
    assert PushDown(Inner, ["country"]).Ok?;
    PushDownSpec(Inner, ["country"]);
    InnerRefs();
    var p := PushDown(Inner, ["country"]).value;
    ExpectedSorted();
    SortedByElements(Leaf(p).projection, Expected);
  }

  /** The Scan under the rewritten plan gets exactly the projection the test
      expects, and both the code as written and the corrected rule produce
      the same plan. */
  lemma PushDownTest()
    ensures var r := PushDownAsWritten(TestPlan, []);
      && r.Ok?
      && SameShape(TestPlan, r.value)
      && Children(Children(Children(r.value)[0])[0])[0] == MakeScan("somecsv", Source, Expected)
    ensures OptimizeCorrected(TestPlan) == PushDownAsWritten(TestPlan, [])
  {
    AsWrittenFirstStep();
    InnerPushDown();
    var p := PushDown(Inner, ["country"]).value;
    var filter := p.input;
    assert Leaf(p) == Leaf(filter) == filter.input;
  }
}
