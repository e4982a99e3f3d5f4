/** The projection push-down rule (querypy/optimizer/__init__.py): collect the
    columns that the nodes above a Scan reference and rebuild the Scan with
    that sorted, duplicate-free list as its projection.

    Two definitions live here. `PushDown`/`OptimizeCorrected` collect every referenced
    column, which is what the rule sets out to do; the rest of the model uses
    them. `PushDownAsWritten` follows the code as written, in which
    `extract_columns` replaces an EMPTY accumulator by a fresh list, so the
    columns that nested calls collect while the caller's list is still empty
    are lost (see `LostColumns` in module PushDownFinding). */
module Optimizer {
  import opened Errors
  import opened Types
  import opened Text
  import opened LogicalExprs
  import opened LogicalPlans

  /** Total size of a list of expressions, summed from the end. */
  function SizeAll(es: seq<LogicalExpr>): (n: nat)
    ensures es != [] ==> n >= 1
    ensures |es| == 1 ==> n == Size(es[0])
  {
    if es == [] then 0 else SizeAll(es[..|es| - 1]) + Size(es[|es| - 1])
  }

  lemma {:induction false} SizeAllBound(es: seq<LogicalExpr>, k: nat)
    requires k < |es|
    ensures Size(es[k]) <= SizeAll(es)
    decreases |es|
  {
    if k < |es| - 1 {
      SizeAllBound(es[..|es| - 1], k);
    }
  }

  function ExtractionError(e: LogicalExpr): QueryError {
    NotImplemented("Not supported column extraction in " + LogicalExprs.Repr(e))
  }

  // ---------------------------------------------------------------------------
  // The columns an expression references

  /** The name of every Column leaf, left to right, recursing into both
      operands of a Boolean or MathExpr and into an aggregate's inner
      expression; literals contribute nothing and any other kind (Alias) is
      refused. */
  function ColumnRefs(e: LogicalExpr): Result<seq<string>> {
    match e
    case Column(name) => Ok([name])
    case Boolean(_, _, l, r) =>
      var a :- ColumnRefs(l);
      var b :- ColumnRefs(r);
      Ok(a + b)
    case MathExpr(_, _, l, r) =>
      var a :- ColumnRefs(l);
      var b :- ColumnRefs(r);
      Ok(a + b)
    case AggregateExpr(_, inner) => ColumnRefs(inner)
    case Alias(_, _) => Fail(ExtractionError(e))
    case _ => Ok([])
  }

  /** `ColumnRefs` of each expression, concatenated in order. */
  function ColumnRefsAll(es: seq<LogicalExpr>): Result<seq<string>> {
    if es == [] then Ok([])
    else
      var a :- ColumnRefsAll(es[..|es| - 1]);
      var b :- ColumnRefs(es[|es| - 1]);
      Ok(a + b)
  }

  /** Independent reference: the names of all Column leaves of an expression. */
  function ColumnLeaves(e: LogicalExpr): set<string> {
    match e
    case Column(name) => {name}
    case Boolean(_, _, l, r) => ColumnLeaves(l) + ColumnLeaves(r)
    case MathExpr(_, _, l, r) => ColumnLeaves(l) + ColumnLeaves(r)
    case AggregateExpr(_, inner) => ColumnLeaves(inner)
    case Alias(_, inner) => ColumnLeaves(inner)
    case _ => {}
  }

  predicate HasAlias(e: LogicalExpr) {
    match e
    case Alias(_, _) => true
    case Boolean(_, _, l, r) => HasAlias(l) || HasAlias(r)
    case MathExpr(_, _, l, r) => HasAlias(l) || HasAlias(r)
    case AggregateExpr(_, inner) => HasAlias(inner)
    case _ => false
  }

  function LeavesAll(es: seq<LogicalExpr>): set<string> {
    if es == [] then {} else LeavesAll(es[..|es| - 1]) + ColumnLeaves(es[|es| - 1])
  }

  /** Column extraction succeeds exactly on alias-free expressions and then
      yields exactly the names of the Column leaves. */
  lemma {:induction false} ColumnRefsAreLeaves(e: LogicalExpr)
    ensures ColumnRefs(e).Ok? <==> !HasAlias(e)
    ensures ColumnRefs(e).Ok? ==> forall n :: n in ColumnRefs(e).value <==> n in ColumnLeaves(e)
  {
    match e
    case Boolean(_, _, l, r) => ColumnRefsAreLeaves(l); ColumnRefsAreLeaves(r);
    case MathExpr(_, _, l, r) => ColumnRefsAreLeaves(l); ColumnRefsAreLeaves(r);
    case AggregateExpr(_, inner) => ColumnRefsAreLeaves(inner);
    case _ =>
  }

  lemma {:induction false} ColumnRefsAllAreLeaves(es: seq<LogicalExpr>)
    ensures ColumnRefsAll(es).Ok? <==> forall k :: 0 <= k < |es| ==> !HasAlias(es[k])
    ensures ColumnRefsAll(es).Ok? ==> forall n :: n in ColumnRefsAll(es).value <==> n in LeavesAll(es)
    decreases |es|
  {
    if es != [] {
      var init := es[..|es| - 1];
      ColumnRefsAllAreLeaves(init);
      ColumnRefsAreLeaves(es[|es| - 1]);
      assert forall k :: 0 <= k < |init| ==> init[k] == es[k];
    }
  }

  // ---------------------------------------------------------------------------
  // Push-down with every referenced column

  function NotSupported(plan: LogicalPlan): QueryError {
    NotImplemented("Plan " + LogicalPlans.Repr(plan) + " is not supported.")
  }

  /** Rebuilds each node with the same expressions over its rewritten input;
      the Scan gets the accumulated names, sorted and without duplicates. */
  function PushDown(plan: LogicalPlan, names: seq<string>): Result<LogicalPlan> {
    match plan
    case Projection(input, exprs) =>
      var cols :- ColumnRefsAll(exprs);
      var rewritten :- PushDown(input, names + cols);
      Ok(Projection(rewritten, exprs))
    case Filter(input, e) =>
      var cols :- ColumnRefsAll([e]);
      var rewritten :- PushDown(input, names + cols);
      Ok(Filter(rewritten, e))
    case Aggregate(input, groupBy, aggregates) =>
      var groupCols :- ColumnRefsAll(groupBy);
      var aggrCols :- ColumnRefsAll(aggregates);
      var rewritten :- PushDown(input, names + groupCols + aggrCols);
      Ok(Aggregate(rewritten, groupBy, aggregates))
    case Scan(path, source, _, _) => Ok(MakeScan(path, source, SortUnique(names)))
    case OrderBy(_, _) => Fail(NotSupported(plan))
  }

  /** `ProjectionPushDown().optimize(plan)` as the rule intends it: the
      corrected push-down from an empty list, so the Scan's projection is
      exactly the columns referenced above it. The rule as the code writes
      it is `ApplyProjectionPushDown`. */
  function OptimizeCorrected(plan: LogicalPlan): (r: Result<LogicalPlan>)
    ensures r.Ok? <==> !ContainsOrderBy(plan) && !PlanHasAlias(plan)
    ensures r.Ok? ==>
      && SameShape(plan, r.value)
      && WellFormed(r.value)
      && Leaf(r.value).Scan?
      && StrictlySorted(Leaf(r.value).projection)
      && (forall n :: n in Leaf(r.value).projection <==> n in RefsAbove(plan))
  {
    PushDownFails(plan, []);
    PushDownSpec(plan, []);
    PushDown(plan, [])
  }

  /** The columns referenced by the nodes above the bottom Scan. */
  function RefsAbove(plan: LogicalPlan): set<string> {
    match plan
    case Projection(input, exprs) => LeavesAll(exprs) + RefsAbove(input)
    case Filter(input, e) => ColumnLeaves(e) + RefsAbove(input)
    case Aggregate(input, groupBy, aggregates) =>
      LeavesAll(groupBy) + LeavesAll(aggregates) + RefsAbove(input)
    case Scan(_, _, _, _) => {}
    case OrderBy(input, _) => RefsAbove(input)
  }

  /** The bottom node of a chain of single-input nodes. */
  function Leaf(plan: LogicalPlan): (leaf: LogicalPlan)
    ensures leaf.Scan? || leaf.OrderBy? ==> leaf == plan || !plan.Scan?
  {
    match plan
    case Scan(_, _, _, _) => plan
    case Projection(input, _) => Leaf(input)
    case Filter(input, _) => Leaf(input)
    case Aggregate(input, _, _) => Leaf(input)
    case OrderBy(input, _) => Leaf(input)
  }

  /** Same node kinds with the same expressions all the way down; Scans agree
      on path and source (their projections may differ). */
  predicate SameShape(p: LogicalPlan, q: LogicalPlan) {
    match p
    case Scan(path, source, _, _) => q.Scan? && q.path == path && q.source == source
    case Projection(input, exprs) => q.Projection? && q.exprs == exprs && SameShape(input, q.input)
    case Filter(input, e) => q.Filter? && q.expr == e && SameShape(input, q.input)
    case Aggregate(input, g, a) =>
      q.Aggregate? && q.groupBy == g && q.aggregates == a && SameShape(input, q.input)
    case OrderBy(input, keys) => q.OrderBy? && q.orderBy == keys && SameShape(input, q.input)
  }

  predicate ContainsOrderBy(plan: LogicalPlan) {
    match plan
    case OrderBy(_, _) => true
    case Scan(_, _, _, _) => false
    case Projection(input, _) => ContainsOrderBy(input)
    case Filter(input, _) => ContainsOrderBy(input)
    case Aggregate(input, _, _) => ContainsOrderBy(input)
  }

  /** Push-down preserves the tree's shape and expressions, leaves the Scan
      well formed, and gives it exactly the accumulated names plus every column
      referenced above it, sorted ascending and without duplicates. */
  lemma {:induction false} PushDownSpec(plan: LogicalPlan, names: seq<string>)
    ensures var r := PushDown(plan, names);
      r.Ok? ==>
        && SameShape(plan, r.value)
        && WellFormed(r.value)
        && Leaf(r.value).Scan?
        && StrictlySorted(Leaf(r.value).projection)
        && (forall n :: n in Leaf(r.value).projection <==> n in names || n in RefsAbove(plan))
  {
    match plan
    case Projection(input, exprs) =>
      ColumnRefsAllAreLeaves(exprs);
      if ColumnRefsAll(exprs).Ok? {
        PushDownSpec(input, names + ColumnRefsAll(exprs).value);
      }
    case Filter(input, e) =>
      ColumnRefsAllAreLeaves([e]);
      assert LeavesAll([e]) == ColumnLeaves(e) by { assert [e][..0] == []; }
      if ColumnRefsAll([e]).Ok? {
        PushDownSpec(input, names + ColumnRefsAll([e]).value);
      }
    case Aggregate(input, groupBy, aggregates) =>
      ColumnRefsAllAreLeaves(groupBy);
      ColumnRefsAllAreLeaves(aggregates);
      if ColumnRefsAll(groupBy).Ok? && ColumnRefsAll(aggregates).Ok? {
        PushDownSpec(input, names + ColumnRefsAll(groupBy).value + ColumnRefsAll(aggregates).value);
      }
    case Scan(path, source, _, _) =>
    case OrderBy(_, _) =>
  }

  predicate AnyAlias(es: seq<LogicalExpr>) {
    exists k :: 0 <= k < |es| && HasAlias(es[k])
  }

  /** Some expression of some node of the plan holds an Alias. */
  predicate PlanHasAlias(plan: LogicalPlan) {
    match plan
    case Projection(input, exprs) => AnyAlias(exprs) || PlanHasAlias(input)
    case Filter(input, e) => HasAlias(e) || PlanHasAlias(input)
    case Aggregate(input, groupBy, aggregates) =>
      AnyAlias(groupBy) || AnyAlias(aggregates) || PlanHasAlias(input)
    case Scan(_, _, _, _) => false
    case OrderBy(input, _) => PlanHasAlias(input)
  }

  /** Push-down fails exactly on a plan with an OrderBy or an aliased
      expression; an OrderBy fails with NotImplementedError. */
  lemma {:induction false} PushDownFails(plan: LogicalPlan, names: seq<string>)
    ensures PushDown(plan, names).Ok? <==> !ContainsOrderBy(plan) && !PlanHasAlias(plan)
    ensures plan.OrderBy? ==> PushDown(plan, names) == Fail(NotSupported(plan))
  {
    match plan
    case Projection(input, exprs) =>
      ColumnRefsAllAreLeaves(exprs);
      if ColumnRefsAll(exprs).Ok? { PushDownFails(input, names + ColumnRefsAll(exprs).value); }
    case Filter(input, e) =>
      ColumnRefsAllAreLeaves([e]);
      if ColumnRefsAll([e]).Ok? { PushDownFails(input, names + ColumnRefsAll([e]).value); }
    case Aggregate(input, groupBy, aggregates) =>
      ColumnRefsAllAreLeaves(groupBy);
      ColumnRefsAllAreLeaves(aggregates);
      if ColumnRefsAll(groupBy).Ok? && ColumnRefsAll(aggregates).Ok? {
        PushDownFails(input, names + ColumnRefsAll(groupBy).value + ColumnRefsAll(aggregates).value);
      }
    case Scan(_, _, _, _) =>
    case OrderBy(_, _) =>
  }

  /** A plan that is just a Scan gets the empty projection, which reads every
      column of the source. */
  lemma OptimizeScan(path: string, source: DataSource, projection: seq<string>)
    ensures OptimizeCorrected(MakeScan(path, source, projection)) == Ok(MakeScan(path, source, []))
    ensures GetSchema(OptimizeCorrected(MakeScan(path, source, projection)).value) == Ok(source.schema)
  {
  }

  /** Push-down depends on the accumulated names only as a set. */
  lemma {:induction false} PushDownSetOnly(plan: LogicalPlan, n1: seq<string>, n2: seq<string>)
    requires forall n :: n in n1 <==> n in n2
    ensures PushDown(plan, n1) == PushDown(plan, n2)
  {
    match plan
    case Projection(input, exprs) =>
      if ColumnRefsAll(exprs).Ok? {
        var c := ColumnRefsAll(exprs).value;
        PushDownSetOnly(input, n1 + c, n2 + c);
      }
    case Filter(input, e) =>
      if ColumnRefsAll([e]).Ok? {
        var c := ColumnRefsAll([e]).value;
        PushDownSetOnly(input, n1 + c, n2 + c);
      }
    case Aggregate(input, groupBy, aggregates) =>
      if ColumnRefsAll(groupBy).Ok? && ColumnRefsAll(aggregates).Ok? {
        var g, a := ColumnRefsAll(groupBy).value, ColumnRefsAll(aggregates).value;
        PushDownSetOnly(input, n1 + g + a, n2 + g + a);
      }
    case Scan(_, _, _, _) =>
      SortedByElements(SortUnique(n1), SortUnique(n2));
    case OrderBy(_, _) =>
  }

  /** Whether push-down succeeds, and with which error it fails, does not
      depend on the accumulated names. */
  lemma {:induction false} PushDownOutcome(plan: LogicalPlan, n1: seq<string>, n2: seq<string>)
    ensures PushDown(plan, n1).Ok? <==> PushDown(plan, n2).Ok?
    ensures PushDown(plan, n1).Fail? ==> PushDown(plan, n1).error == PushDown(plan, n2).error
  {
    match plan
    case Projection(input, exprs) =>
      if ColumnRefsAll(exprs).Ok? {
        var c := ColumnRefsAll(exprs).value;
        PushDownOutcome(input, n1 + c, n2 + c);
      }
    case Filter(input, e) =>
      if ColumnRefsAll([e]).Ok? {
        var c := ColumnRefsAll([e]).value;
        PushDownOutcome(input, n1 + c, n2 + c);
      }
    case Aggregate(input, groupBy, aggregates) =>
      if ColumnRefsAll(groupBy).Ok? && ColumnRefsAll(aggregates).Ok? {
        var g, a := ColumnRefsAll(groupBy).value, ColumnRefsAll(aggregates).value;
        PushDownOutcome(input, n1 + g + a, n2 + g + a);
      }
    case Scan(_, _, _, _) =>
    case OrderBy(_, _) =>
  }

  // ---------------------------------------------------------------------------
  // The code as written

  /** Contents of the list `extract_columns(exprs, columns=cols)` returns. The
      function works on the caller's list when that list is non-empty and on
      a fresh empty list otherwise; either way it starts from `cols`. */
  function CollectAsWritten(exprs: seq<LogicalExpr>, cols: seq<string>): Result<seq<string>>
    decreases SizeAll(exprs), 2
  {
    if exprs == [] then Ok(cols)
    else
      var c :- CollectAsWritten(exprs[..|exprs| - 1], cols);
      StepAsWritten(exprs[|exprs| - 1], c)
  }

  /** One iteration of the loop of `extract_columns` on the working list. */
  function StepAsWritten(e: LogicalExpr, cols: seq<string>): Result<seq<string>>
    decreases Size(e), 1
  {
    match e
    case Column(name) => Ok(cols + [name])
    case Boolean(_, _, l, r) =>
      var c :- CallerViewAsWritten(l, cols);
      CallerViewAsWritten(r, c)
    case MathExpr(_, _, l, r) =>
      var c :- CallerViewAsWritten(l, cols);
      CallerViewAsWritten(r, c)
    case AggregateExpr(_, inner) => CallerViewAsWritten(inner, cols)
    case Alias(_, _) => Fail(ExtractionError(e))
    case _ => Ok(cols)
  }

  /** What the caller's list holds after `extract_columns([e], input, columns)`
      with its returned list discarded: the call's appends are seen only when
      the caller's list was non-empty, i.e. shared. */
  function CallerViewAsWritten(e: LogicalExpr, cols: seq<string>): Result<seq<string>>
    decreases Size(e), 3
  {
    var out :- CollectAsWritten([e], cols);
    Ok(if cols == [] then cols else out)
  }

  /** `column_names.extend(extract_columns(exprs, columns=column_names))`: with
      a non-empty list the extracted list IS `column_names`, which is then
      extended by itself. */
  function ExtendAsWritten(exprs: seq<LogicalExpr>, names: seq<string>): Result<seq<string>> {
    var got :- CollectAsWritten(exprs, names);
    Ok(if names == [] then got else got + got)
  }

  /** The loop over the aggregate expressions, one extend per aggregate. */
  function AggregatesAsWritten(aggregates: seq<LogicalExpr>, names: seq<string>): Result<seq<string>> {
    if aggregates == [] then Ok(names)
    else
      var n :- AggregatesAsWritten(aggregates[..|aggregates| - 1], names);
      ExtendAsWritten([aggregates[|aggregates| - 1]], n)
  }

  /** `ProjectionPushDown.push_down(plan, column_names)` as written. */
  function PushDownAsWritten(plan: LogicalPlan, names: seq<string>): Result<LogicalPlan> {
    match plan
    case Projection(input, exprs) =>
      var n :- ExtendAsWritten(exprs, names);
      var rewritten :- PushDownAsWritten(input, n);
      Ok(Projection(rewritten, exprs))
    case Filter(input, e) =>
      var n :- ExtendAsWritten([e], names);
      var rewritten :- PushDownAsWritten(input, n);
      Ok(Filter(rewritten, e))
    case Aggregate(input, groupBy, aggregates) =>
      var n1 :- ExtendAsWritten(groupBy, names);
      var n2 :- AggregatesAsWritten(aggregates, n1);
      var rewritten :- PushDownAsWritten(input, n2);
      Ok(Aggregate(rewritten, groupBy, aggregates))
    case Scan(path, source, _, _) => Ok(MakeScan(path, source, SortUnique(names)))
    case OrderBy(_, _) => Fail(NotSupported(plan))
  }

  /** The contents of the list that `push_down` as written finally hands to
      the Scan, starting from the caller's list `names`. */
  function ScanNamesAsWritten(plan: LogicalPlan, names: seq<string>): Result<seq<string>> {
    match plan
    case Projection(input, exprs) =>
      var n :- ExtendAsWritten(exprs, names);
      ScanNamesAsWritten(input, n)
    case Filter(input, e) =>
      var n :- ExtendAsWritten([e], names);
      ScanNamesAsWritten(input, n)
    case Aggregate(input, groupBy, aggregates) =>
      var n1 :- ExtendAsWritten(groupBy, names);
      var n2 :- AggregatesAsWritten(aggregates, n1);
      ScanNamesAsWritten(input, n2)
    case Scan(_, _, _, _) => Ok(names)
    case OrderBy(_, _) => Fail(NotSupported(plan))
  }

  /** The Scan that the code as written builds projects exactly the list it
      was handed, sorted and without duplicates; the rewrite fails exactly
      when that list cannot be built, and with the same error. */
  lemma {:induction false} ScanNamesProjected(plan: LogicalPlan, names: seq<string>)
    ensures PushDownAsWritten(plan, names).Ok? <==> ScanNamesAsWritten(plan, names).Ok?
    ensures PushDownAsWritten(plan, names).Fail? ==>
      PushDownAsWritten(plan, names).error == ScanNamesAsWritten(plan, names).error
    ensures PushDownAsWritten(plan, names).Ok? ==>
      var leaf := Leaf(PushDownAsWritten(plan, names).value);
      leaf.Scan? && leaf.projection == SortUnique(ScanNamesAsWritten(plan, names).value)
  {
    match plan
    case Projection(input, exprs) =>
      if ExtendAsWritten(exprs, names).Ok? { ScanNamesProjected(input, ExtendAsWritten(exprs, names).value); }
    case Filter(input, e) =>
      if ExtendAsWritten([e], names).Ok? { ScanNamesProjected(input, ExtendAsWritten([e], names).value); }
    case Aggregate(input, groupBy, aggregates) =>
      var n1 := ExtendAsWritten(groupBy, names);
      if n1.Ok? && AggregatesAsWritten(aggregates, n1.value).Ok? {
        ScanNamesProjected(input, AggregatesAsWritten(aggregates, n1.value).value);
      }
    case Scan(_, _, _, _) =>
    case OrderBy(_, _) =>
  }

  // --- how the code as written relates to the full collection

  /** With a non-empty list every call shares it, and extraction appends
      exactly the referenced columns, in order. */
  lemma {:induction false} CollectShared(exprs: seq<LogicalExpr>, cols: seq<string>)
    requires cols != []
    ensures CollectAsWritten(exprs, cols).Ok? <==> ColumnRefsAll(exprs).Ok?
    ensures CollectAsWritten(exprs, cols).Ok? ==>
      CollectAsWritten(exprs, cols).value == cols + ColumnRefsAll(exprs).value
    ensures CollectAsWritten(exprs, cols).Fail? ==>
      CollectAsWritten(exprs, cols).error == ColumnRefsAll(exprs).error
    decreases SizeAll(exprs), 1
  {
    if exprs != [] {
      var init, last := exprs[..|exprs| - 1], exprs[|exprs| - 1];
      CollectShared(init, cols);
      if ColumnRefsAll(init).Ok? {
        StepShared(last, cols + ColumnRefsAll(init).value);
      }
    }
  }

  lemma {:induction false} StepShared(e: LogicalExpr, cols: seq<string>)
    requires cols != []
    ensures StepAsWritten(e, cols).Ok? <==> ColumnRefs(e).Ok?
    ensures StepAsWritten(e, cols).Ok? ==> StepAsWritten(e, cols).value == cols + ColumnRefs(e).value
    ensures StepAsWritten(e, cols).Fail? ==> StepAsWritten(e, cols).error == ColumnRefs(e).error
    decreases Size(e), 0
  {
    match e
    case Boolean(_, _, l, r) => BinaryShared(l, r, cols);
    case MathExpr(_, _, l, r) => BinaryShared(l, r, cols);
    case AggregateExpr(_, inner) =>
      assert [inner][..0] == [];
      CollectShared([inner], cols);
    case _ =>
  }

  lemma {:induction false} BinaryShared(l: LogicalExpr, r: LogicalExpr, cols: seq<string>)
    requires cols != []
    ensures var c := CallerViewAsWritten(l, cols);
      && (c.Ok? <==> ColumnRefs(l).Ok?)
      && (c.Ok? ==> c.value == cols + ColumnRefs(l).value)
      && (c.Fail? ==> c.error == ColumnRefs(l).error)
      && (c.Ok? ==> (CallerViewAsWritten(r, c.value).Ok? <==> ColumnRefs(r).Ok?))
      && (c.Ok? && ColumnRefs(r).Fail? ==> CallerViewAsWritten(r, c.value).error == ColumnRefs(r).error)
      && (c.Ok? && ColumnRefs(r).Ok? ==>
            CallerViewAsWritten(r, c.value).value == cols + ColumnRefs(l).value + ColumnRefs(r).value)
    decreases Size(l) + Size(r), 0
  {
    assert [l][..0] == [] && [r][..0] == [];
    CollectShared([l], cols);
    if ColumnRefs(l).Ok? {
      CollectShared([r], cols + ColumnRefs(l).value);
    }
  }

  /** Whatever the list, extraction fails exactly when full collection does,
      and never adds a name that is neither in the list nor referenced. */
  lemma {:induction false} CollectBounded(exprs: seq<LogicalExpr>, cols: seq<string>)
    ensures CollectAsWritten(exprs, cols).Ok? <==> ColumnRefsAll(exprs).Ok?
    ensures CollectAsWritten(exprs, cols).Ok? ==>
      forall n :: n in CollectAsWritten(exprs, cols).value ==> n in cols || n in ColumnRefsAll(exprs).value
    ensures CollectAsWritten(exprs, cols).Fail? ==>
      CollectAsWritten(exprs, cols).error == ColumnRefsAll(exprs).error
    decreases SizeAll(exprs), 1
  {
    if exprs != [] {
      var init, last := exprs[..|exprs| - 1], exprs[|exprs| - 1];
      CollectBounded(init, cols);
      if ColumnRefsAll(init).Ok? {
        StepBounded(last, CollectAsWritten(init, cols).value);
      }
    }
  }

  lemma {:induction false} StepBounded(e: LogicalExpr, cols: seq<string>)
    ensures StepAsWritten(e, cols).Ok? <==> ColumnRefs(e).Ok?
    ensures StepAsWritten(e, cols).Ok? ==>
      forall n :: n in StepAsWritten(e, cols).value ==> n in cols || n in ColumnRefs(e).value
    ensures StepAsWritten(e, cols).Fail? ==> StepAsWritten(e, cols).error == ColumnRefs(e).error
    decreases Size(e), 0
  {
    match e
    case Boolean(_, _, l, r) => BinaryBounded(l, r, cols);
    case MathExpr(_, _, l, r) => BinaryBounded(l, r, cols);
    case AggregateExpr(_, inner) =>
      assert [inner][..0] == [];
      CollectBounded([inner], cols);
    case _ =>
  }

  lemma {:induction false} BinaryBounded(l: LogicalExpr, r: LogicalExpr, cols: seq<string>)
    ensures var c := CallerViewAsWritten(l, cols);
      && (c.Ok? <==> ColumnRefs(l).Ok?)
      && (c.Ok? ==> forall n :: n in c.value ==> n in cols || n in ColumnRefs(l).value)
      && (c.Fail? ==> c.error == ColumnRefs(l).error)
      && (c.Ok? ==> (CallerViewAsWritten(r, c.value).Ok? <==> ColumnRefs(r).Ok?))
      && (c.Ok? && ColumnRefs(r).Fail? ==> CallerViewAsWritten(r, c.value).error == ColumnRefs(r).error)
      && (c.Ok? && ColumnRefs(r).Ok? ==> forall n :: n in CallerViewAsWritten(r, c.value).value ==>
            n in cols || n in ColumnRefs(l).value || n in ColumnRefs(r).value)
    decreases Size(l) + Size(r), 0
  {
    assert [l][..0] == [] && [r][..0] == [];
    CollectBounded([l], cols);
    if ColumnRefs(l).Ok? {
      CollectBounded([r], CallerViewAsWritten(l, cols).value);
    }
  }

  lemma {:induction false} AggregatesShared(aggregates: seq<LogicalExpr>, names: seq<string>)
    requires names != []
    ensures var n := AggregatesAsWritten(aggregates, names);
      && (n.Ok? <==> ColumnRefsAll(aggregates).Ok?)
      && (n.Ok? ==> n.value != [])
      && (n.Ok? ==> forall x :: x in n.value <==> x in names || x in ColumnRefsAll(aggregates).value)
      && (n.Fail? ==> n.error == ColumnRefsAll(aggregates).error)
    decreases |aggregates|
  {
    if aggregates != [] {
      var init, last := aggregates[..|aggregates| - 1], aggregates[|aggregates| - 1];
      AggregatesShared(init, names);
      assert [last][..0] == [];
      if ColumnRefsAll(init).Ok? {
        CollectShared([last], AggregatesAsWritten(init, names).value);
      }
    }
  }

  lemma {:induction false} AggregatesBounded(aggregates: seq<LogicalExpr>, names: seq<string>)
    ensures var n := AggregatesAsWritten(aggregates, names);
      && (n.Ok? <==> ColumnRefsAll(aggregates).Ok?)
      && (n.Ok? ==> forall x :: x in n.value ==> x in names || x in ColumnRefsAll(aggregates).value)
      && (n.Fail? ==> n.error == ColumnRefsAll(aggregates).error)
    decreases |aggregates|
  {
    if aggregates != [] {
      var init, last := aggregates[..|aggregates| - 1], aggregates[|aggregates| - 1];
      AggregatesBounded(init, names);
      assert [last][..0] == [];
      if ColumnRefsAll(init).Ok? {
        CollectBounded([last], AggregatesAsWritten(init, names).value);
      }
    }
  }

  /** With a non-empty list, `column_names.extend(...)` leaves the list
      holding, as a set, the old names plus every referenced column. */
  lemma ExtendShared(exprs: seq<LogicalExpr>, names: seq<string>)
    requires names != []
    ensures var n := ExtendAsWritten(exprs, names);
      && (n.Ok? <==> ColumnRefsAll(exprs).Ok?)
      && (n.Ok? ==> n.value != [])
      && (n.Ok? ==> forall x :: x in n.value <==> x in names || x in ColumnRefsAll(exprs).value)
      && (n.Fail? ==> n.error == ColumnRefsAll(exprs).error)
  {
    CollectShared(exprs, names);
  }

  /** Once the list is non-empty the code as written computes exactly the full
      push-down. */
  lemma {:induction false} AsWrittenSeeded(plan: LogicalPlan, names: seq<string>)
    requires names != []
    ensures PushDownAsWritten(plan, names) == PushDown(plan, names)
  {
    match plan
    case Projection(input, exprs) =>
      ExtendShared(exprs, names);
      if ColumnRefsAll(exprs).Ok? {
        var n := ExtendAsWritten(exprs, names).value;
        AsWrittenSeeded(input, n);
        PushDownSetOnly(input, n, names + ColumnRefsAll(exprs).value);
      }
    case Filter(input, e) =>
      ExtendShared([e], names);
      if ColumnRefsAll([e]).Ok? {
        var n := ExtendAsWritten([e], names).value;
        AsWrittenSeeded(input, n);
        PushDownSetOnly(input, n, names + ColumnRefsAll([e]).value);
      }
    case Aggregate(input, groupBy, aggregates) =>
      ExtendShared(groupBy, names);
      if ColumnRefsAll(groupBy).Ok? {
        var n1 := ExtendAsWritten(groupBy, names).value;
        AggregatesShared(aggregates, n1);
        if ColumnRefsAll(aggregates).Ok? {
          var n2 := AggregatesAsWritten(aggregates, n1).value;
          AsWrittenSeeded(input, n2);
          PushDownSetOnly(input, n2, names + ColumnRefsAll(groupBy).value + ColumnRefsAll(aggregates).value);
        }
      }
    case Scan(_, _, _, _) =>
    case OrderBy(_, _) =>
  }

  /** From any list, the code as written succeeds and fails exactly when the
      full push-down does, keeps the same shape, and never reads a column that
      the full push-down would not read. */
  lemma {:induction false} AsWrittenReadsNoMore(plan: LogicalPlan, names: seq<string>)
    ensures PushDownAsWritten(plan, names).Ok? <==> PushDown(plan, names).Ok?
    ensures PushDownAsWritten(plan, names).Fail? ==>
      PushDownAsWritten(plan, names).error == PushDown(plan, names).error
    ensures PushDownAsWritten(plan, names).Ok? ==>
      var w, f := PushDownAsWritten(plan, names).value, PushDown(plan, names).value;
      && SameShape(plan, w)
      && Leaf(w).Scan? && Leaf(f).Scan?
      && forall n :: n in Leaf(w).projection ==> n in Leaf(f).projection
  {
    if names != [] {
      AsWrittenSeeded(plan, names);
      PushDownSpec(plan, names);
    } else {
      match plan
      case Projection(input, exprs) =>
        CollectBounded(exprs, names);
        if ColumnRefsAll(exprs).Ok? {
          var c := ColumnRefsAll(exprs).value;
          var n := ExtendAsWritten(exprs, names).value;
          AsWrittenReadsNoMore(input, n);
          PushDownOutcome(input, n, names + c);
          PushDownSpec(input, n);
          PushDownSpec(input, names + c);
        }
      case Filter(input, e) =>
        CollectBounded([e], names);
        if ColumnRefsAll([e]).Ok? {
          var c := ColumnRefsAll([e]).value;
          var n := ExtendAsWritten([e], names).value;
          AsWrittenReadsNoMore(input, n);
          PushDownOutcome(input, n, names + c);
          PushDownSpec(input, n);
          PushDownSpec(input, names + c);
        }
      case Aggregate(input, groupBy, aggregates) =>
        CollectBounded(groupBy, names);
        if ColumnRefsAll(groupBy).Ok? {
          var g := ColumnRefsAll(groupBy).value;
          var n1 := ExtendAsWritten(groupBy, names).value;
          AggregatesBounded(aggregates, n1);
          if ColumnRefsAll(aggregates).Ok? {
            var a := ColumnRefsAll(aggregates).value;
            var n2 := AggregatesAsWritten(aggregates, n1).value;
            AsWrittenReadsNoMore(input, n2);
            PushDownOutcome(input, n2, names + g + a);
            PushDownSpec(input, n2);
            PushDownSpec(input, names + g + a);
          }
        }
      case Scan(_, _, _, _) =>
      case OrderBy(_, _) =>
    }
  }

  // ---------------------------------------------------------------------------
  // The imperative code: a Python list shared between calls

  /** A Python `list[str]` that calls share by reference. */
  class NameList {
    var items: seq<string>

    constructor (init: seq<string>)
      ensures items == init
    {
      items := init;
    }

    /** `list.append(name)`. */
    method Append(name: string)
      modifies this
      ensures items == old(items) + [name]
    {
      items := items + [name];
    }

    /** `list.extend(other)`; `other` may be this very list, which then ends up
        holding its old contents twice. */
    method Extend(other: NameList)
      modifies this
      ensures items == old(items) + old(other.items)
    {
      items := items + other.items;
    }
  }

  /** Once a prefix of the expressions fails, so does the whole list, with
      the same error: `extract_columns` raises at the first refused one. */
  lemma {:induction false} CollectFailPersists(exprs: seq<LogicalExpr>, k: nat, cols: seq<string>)
    requires k <= |exprs|
    requires CollectAsWritten(exprs[..k], cols).Fail?
    ensures CollectAsWritten(exprs, cols) == CollectAsWritten(exprs[..k], cols)
    decreases |exprs|
  {
    if k < |exprs| {
      var init := exprs[..|exprs| - 1];
      assert init[..k] == exprs[..k];
      CollectFailPersists(init, k, cols);
    } else {
      assert exprs[..k] == exprs;
    }
  }

  lemma {:induction false} AggregatesFailPersists(aggregates: seq<LogicalExpr>, k: nat, names: seq<string>)
    requires k <= |aggregates|
    requires AggregatesAsWritten(aggregates[..k], names).Fail?
    ensures AggregatesAsWritten(aggregates, names) == AggregatesAsWritten(aggregates[..k], names)
    decreases |aggregates|
  {
    if k < |aggregates| {
      var init := aggregates[..|aggregates| - 1];
      assert init[..k] == aggregates[..k];
      AggregatesFailPersists(init, k, names);
    } else {
      assert aggregates[..k] == aggregates;
    }
  }

  /** `extract_columns(exprs, columns=columns)`, with `null` for None. A
      non-empty `columns` is appended to and returned; otherwise a fresh list
      is filled and returned, and `columns` is left untouched. */
  method ExtractColumns(exprs: seq<LogicalExpr>, columns: NameList?) returns (r: Result<NameList>)
    modifies columns
    ensures var init := if columns != null then old(columns.items) else [];
      && (r.Ok? <==> CollectAsWritten(exprs, init).Ok?)
      && (r.Ok? ==> r.value.items == CollectAsWritten(exprs, init).value)
      && (r.Fail? ==> r.error == CollectAsWritten(exprs, init).error)
    ensures columns != null && old(columns.items) != [] && r.Ok? ==> r.value == columns
    ensures columns == null || old(columns.items) == [] ==> r.Ok? ==> fresh(r.value)
    ensures columns != null && old(columns.items) == [] ==> columns.items == []
    decreases SizeAll(exprs), 2
  {
    var init := if columns != null then columns.items else [];
    var work: NameList;
    if columns == null || columns.items == [] {
      work := new NameList([]);
    } else {
      work := columns;
    }
    var i := 0;
    while i < |exprs|
      invariant 0 <= i <= |exprs|
      invariant work == columns || fresh(work)
      invariant columns != null && init != [] ==> work == columns
      invariant columns != null && init == [] ==> columns.items == [] && work != columns
      invariant CollectAsWritten(exprs[..i], init).Ok?
      invariant work.items == CollectAsWritten(exprs[..i], init).value
    {
      SizeAllBound(exprs, i);
      assert exprs[..i + 1][..i] == exprs[..i];
      var step := ExtractStep(exprs[i], work);
      if step.Fail? {
        CollectFailPersists(exprs, i + 1, init);
        return Fail(step.error);
      }
      i := i + 1;
    }
    assert exprs[..|exprs|] == exprs;
    return Ok(work);
  }

  /** One pass of the loop of `extract_columns` on the working list `work`:
      a column is appended, operands and aggregated expressions are handed to
      nested calls with `work` as their list, literals are skipped. */
  method ExtractStep(e: LogicalExpr, work: NameList) returns (r: Result<bool>)
    modifies work
    ensures var step := StepAsWritten(e, old(work.items));
      && (r.Ok? <==> step.Ok?)
      && (r.Ok? ==> work.items == step.value)
      && (r.Fail? ==> r.error == step.error)
    decreases Size(e), 1
  {
    match e {
      case Column(name) =>
        work.Append(name);
      case Boolean(_, _, l, rhs) =>
        r := ExtractOperands(l, rhs, work);
        return;
      case MathExpr(_, _, l, rhs) =>
        r := ExtractOperands(l, rhs, work);
        return;
      case AggregateExpr(_, inner) =>
        ghost var before := work.items;
        var res := ExtractColumns([inner], work);
        if res.Fail? {
          assert CollectAsWritten([inner], before) == Fail(res.error);
          return Fail(res.error);
        }
        assert CallerViewAsWritten(inner, before) == Ok(work.items);
      case Alias(_, _) =>
        return Fail(ExtractionError(e));
      case LiteralString(_) =>
      case LiteralInteger(_) =>
      case LiteralFloat(_, _) =>
    }
    return Ok(true);
  }

  /** The two nested calls of a Binary expression, left operand first. */
  method ExtractOperands(l: LogicalExpr, rhs: LogicalExpr, work: NameList) returns (r: Result<bool>)
    modifies work
    ensures var c := CallerViewAsWritten(l, old(work.items));
      var step := if c.Fail? then Fail(c.error) else CallerViewAsWritten(rhs, c.value);
      && (r.Ok? <==> step.Ok?)
      && (r.Ok? ==> work.items == step.value)
      && (r.Fail? ==> r.error == step.error)
    decreases Size(l) + Size(rhs), 0
  {
    ghost var before := work.items;
    var left := ExtractColumns([l], work);
    if left.Fail? {
      assert CollectAsWritten([l], before) == Fail(left.error);
      return Fail(left.error);
    }
    ghost var mid := work.items;
    assert CallerViewAsWritten(l, before) == Ok(mid);
    var right := ExtractColumns([rhs], work);
    if right.Fail? {
      assert CollectAsWritten([rhs], mid) == Fail(right.error);
      return Fail(right.error);
    }
    assert CallerViewAsWritten(rhs, mid) == Ok(work.items);
    return Ok(true);
  }

  /** `ProjectionPushDown.push_down(plan, column_names)`, with `null` for None.
      An empty caller's list is replaced by a fresh one and so stays empty; a
      non-empty one is shared all the way down and ends up holding the names
      handed to the Scan. */
  method ProjectionPushDown(plan: LogicalPlan, columnNames: NameList?) returns (r: Result<LogicalPlan>)
    modifies columnNames
    ensures r == PushDownAsWritten(plan, if columnNames != null then old(columnNames.items) else [])
    ensures columnNames != null && old(columnNames.items) == [] ==> columnNames.items == []
    ensures columnNames != null && old(columnNames.items) != [] && r.Ok? ==>
      ScanNamesAsWritten(plan, old(columnNames.items)) == Ok(columnNames.items)
    decreases plan
  {
    ghost var start := if columnNames != null then columnNames.items else [];
    var names: NameList;
    if columnNames == null || columnNames.items == [] {
      names := new NameList([]);
    } else {
      names := columnNames;
    }
    match plan {
      case Projection(input, exprs) =>
        var ok := ExtendWithColumns(exprs, names);
        if ok.Fail? { return Fail(ok.error); }
        if start != [] { ExtendShared(exprs, start); }
        var rewritten := ProjectionPushDown(input, names);
        if rewritten.Fail? { return Fail(rewritten.error); }
        return Ok(Projection(rewritten.value, exprs));
      case Filter(input, e) =>
        var ok := ExtendWithColumns([e], names);
        if ok.Fail? { return Fail(ok.error); }
        if start != [] { ExtendShared([e], start); }
        var rewritten := ProjectionPushDown(input, names);
        if rewritten.Fail? { return Fail(rewritten.error); }
        return Ok(Filter(rewritten.value, e));
      case Aggregate(input, groupBy, aggregates) =>
        var ok := ExtendWithColumns(groupBy, names);
        if ok.Fail? { return Fail(ok.error); }
        if start != [] { ExtendShared(groupBy, start); }
        ghost var mid := names.items;
        var more := ExtendWithAggregates(aggregates, names);
        if more.Fail? { return Fail(more.error); }
        if start != [] { AggregatesShared(aggregates, mid); }
        var rewritten := ProjectionPushDown(input, names);
        if rewritten.Fail? { return Fail(rewritten.error); }
        return Ok(Aggregate(rewritten.value, groupBy, aggregates));
      case Scan(path, source, _, _) =>
        return Ok(MakeScan(path, source, SortUnique(names.items)));
      case OrderBy(_, _) =>
        return Fail(NotSupported(plan));
    }
  }

  /** The aggregate branch of `push_down`: each aggregate expression's
      columns extracted into the list in turn. */
  method ExtendWithAggregates(aggregates: seq<LogicalExpr>, names: NameList) returns (r: Result<bool>)
    modifies names
    ensures var n := AggregatesAsWritten(aggregates, old(names.items));
      && (r.Ok? <==> n.Ok?)
      && (r.Ok? ==> names.items == n.value)
      && (r.Fail? ==> r.error == n.error)
  {
    ghost var start := names.items;
    for k := 0 to |aggregates|
      invariant AggregatesAsWritten(aggregates[..k], start).Ok?
      invariant names.items == AggregatesAsWritten(aggregates[..k], start).value
    {
      assert aggregates[..k + 1][..k] == aggregates[..k];
      var more := ExtendWithColumns([aggregates[k]], names);
      if more.Fail? {
        AggregatesFailPersists(aggregates, k + 1, start);
        return Fail(more.error);
      }
    }
    assert aggregates[..|aggregates|] == aggregates;
    return Ok(true);
  }

  /** `column_names.extend(extract_columns(exprs, columns=column_names))`. */
  method ExtendWithColumns(exprs: seq<LogicalExpr>, names: NameList) returns (r: Result<bool>)
    modifies names
    ensures var n := ExtendAsWritten(exprs, old(names.items));
      && (r.Ok? <==> n.Ok?)
      && (r.Ok? ==> names.items == n.value)
      && (r.Fail? ==> r.error == n.error)
  {
    var got := ExtractColumns(exprs, names);
    if got.Fail? { return Fail(got.error); }
    names.Extend(got.value);
    return Ok(true);
  }

  /** `ProjectionPushDown().optimize(plan)` as written. */
  method ApplyProjectionPushDown(plan: LogicalPlan) returns (r: Result<LogicalPlan>)
    ensures r == PushDownAsWritten(plan, [])
  {
    r := ProjectionPushDown(plan, null);
  }
}
