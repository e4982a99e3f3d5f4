/** Physical plans and their execution over record batches
    (querypy/planner/plans/physical.py).

    Execution needs three things from outside the model, bundled in
    `Runtime`: what a data source's `scan(projection)` returns, the final
    value of an accumulator that was fed a given sequence of values, and
    `RecordBatch.from_pylists`. */
module PhysicalPlans {
  import opened Errors
  import opened Types
  import opened LogicalPlans
  import opened PhysicalExprs

  /** The physical plan classes; `NoPlan` stands for the Python `None` that
      `create_physical_plan` returns for a plan it has no case for. */
  datatype PhysicalPlan =
    | ScanExec(source: DataSource, projection: seq<string>)
    | ProjectionExec(input: PhysicalPlan, schema: Schema, exprs: seq<PhysicalExpr>)
    | FilterExec(input: PhysicalPlan, expr: PhysicalExpr)
    | HashAggregate(input: PhysicalPlan, groupExprs: seq<PhysicalExpr>,
                    aggregates: seq<PhysicalAggregate>, schema: Schema)
    | NoPlan

  datatype Runtime = Runtime(
    scan: (DataSource, seq<string>) -> seq<RecordBatch>,
    finalValue: (AggregateKind, seq<Value>) -> Value,
    fromLists: (Schema, seq<seq<Value>>) -> RecordBatch)

  function Min(a: nat, b: nat): nat { if a < b then a else b }

  // ---------------------------------------------------------------------------
  // Filter

  /** Independent reference: the indices below `n` whose mask value is
      truthy, in ascending order. */
  function KeptIndices(mask: seq<Value>, n: nat): (ks: seq<nat>)
    requires n <= |mask|
    ensures forall j :: 0 <= j < |ks| ==> ks[j] < n && Truthy(mask[ks[j]])
    ensures forall j, j' :: 0 <= j < j' < |ks| ==> ks[j] < ks[j']
    ensures forall i :: 0 <= i < n && Truthy(mask[i]) ==> i in ks
  {
    if n == 0 then [] else KeptIndices(mask, n - 1) + (if Truthy(mask[n - 1]) then [n - 1] else [])
  }

  /** The values of the first `n` positions whose mask value is truthy. */
  function MaskedPrefix(values: seq<Value>, mask: seq<Value>, n: nat): seq<Value>
    requires n <= |values| && n <= |mask|
  {
    if n == 0 then []
    else MaskedPrefix(values, mask, n - 1) + (if Truthy(mask[n - 1]) then [values[n - 1]] else [])
  }

  /** `[v for v, b in zip(values, mask) if b]`: `zip` stops at the shorter list. */
  function Masked(values: seq<Value>, mask: seq<Value>): seq<Value> {
    MaskedPrefix(values, mask, Min(|values|, |mask|))
  }

  /** Masking keeps exactly the values at the kept indices, in order. */
  lemma {:induction false} MaskedSelects(values: seq<Value>, mask: seq<Value>, n: nat)
    requires n <= |values| && n <= |mask|
    ensures var ks := KeptIndices(mask, n);
      && |MaskedPrefix(values, mask, n)| == |ks|
      && forall j :: 0 <= j < |ks| ==> MaskedPrefix(values, mask, n)[j] == values[ks[j]]
  {
    if n > 0 {
      MaskedSelects(values, mask, n - 1);
    }
  }

  /** The filtered copy of one column: only a materialised column and a
      materialised mask have the `value` list the filter reads. */
  function FilterColumn(field: ColumnVector, mask: ColumnVector): Result<ColumnVector> {
    if !field.Vector? || !mask.Vector? then Fail(NoAttribute("value"))
    else
      var kept := Masked(field.values, mask.values);
      Ok(Vector(field.typ, kept, |kept|))
  }

  function FilterColumnWith(mask: ColumnVector): ColumnVector -> Result<ColumnVector> {
    field => FilterColumn(field, mask)
  }

  /** One batch through the filter: its mask, then every column masked by it. */
  function FilterBatch(batch: RecordBatch, expr: PhysicalExpr): Result<RecordBatch> {
    var mask :- Evaluate(expr, batch);
    var columns :- MapResult(FilterColumnWith(mask), batch.columns);
    Ok(RecordBatch(batch.schema, columns))
  }

  function FilterBatchWith(expr: PhysicalExpr): RecordBatch -> Result<RecordBatch> {
    batch => FilterBatch(batch, expr)
  }

  /** `Filter.execute` on the input's batches. */
  function FilterBatches(batches: seq<RecordBatch>, expr: PhysicalExpr): Result<seq<RecordBatch>> {
    MapResult(FilterBatchWith(expr), batches)
  }

  /** The mask is applied to every column in lock-step: each output column
      keeps the values at the same indices (those where the mask is truthy),
      the schema is kept, and a well-formed batch whose mask covers its rows
      gives a well-formed batch of as many rows as the mask has truthy
      entries. */
  lemma FilterLockStep(batch: RecordBatch, expr: PhysicalExpr)
    requires FilterBatch(batch, expr).Ok?
    ensures var mask, out := Evaluate(expr, batch).value, FilterBatch(batch, expr).value;
      && (batch.columns != [] ==> mask.Vector?)
      && out.schema == batch.schema
      && |out.columns| == |batch.columns|
      && (forall k :: 0 <= k < |batch.columns| ==>
            var col := batch.columns[k];
            var ks := KeptIndices(mask.values, Min(|col.values|, |mask.values|));
            && col.Vector? && out.columns[k].Vector? && out.columns[k].typ == col.typ
            && |out.columns[k].values| == out.columns[k].size == |ks|
            && forall j :: 0 <= j < |ks| ==> out.columns[k].values[j] == col.values[ks[j]])
    ensures var mask, out := Evaluate(expr, batch).value, FilterBatch(batch, expr).value;
      WellFormedBatch(batch) && batch.columns != [] && mask.Vector? && RowCount(batch) <= |mask.values| ==>
        var ks := KeptIndices(mask.values, RowCount(batch));
        && WellFormedBatch(out)
        && RowCount(out) == |ks|
        && forall k, j :: 0 <= k < |out.columns| && 0 <= j < |ks| ==>
             out.columns[k].values[j] == batch.columns[k].values[ks[j]]
  {
    var mask := Evaluate(expr, batch).value;
    var columns := MapResult(FilterColumnWith(mask), batch.columns).value;
    FilterColumnsSelect(batch.columns, mask, columns);
    var out := RecordBatch(batch.schema, columns);
    if WellFormedBatch(batch) && batch.columns != [] && mask.Vector? && RowCount(batch) <= |mask.values| {
      var n := RowCount(batch);
      var ks := KeptIndices(mask.values, n);
      forall k | 0 <= k < |columns|
        ensures Min(|batch.columns[k].values|, |mask.values|) == n
      {
        assert batch.columns[k].size == n;
      }
      assert RowCount(out) == |ks|;
    }
  }

  /** The lock-step property for the columns of one batch and a mask. */
  lemma FilterColumnsSelect(cols: seq<ColumnVector>, mask: ColumnVector, out: seq<ColumnVector>)
    requires MapResult(FilterColumnWith(mask), cols) == Ok(out)
    ensures cols != [] ==> mask.Vector?
    ensures |out| == |cols|
    ensures forall k :: 0 <= k < |cols| ==>
      var ks := KeptIndices(mask.values, Min(|cols[k].values|, |mask.values|));
      && cols[k].Vector? && out[k].Vector? && out[k].typ == cols[k].typ
      && |out[k].values| == out[k].size == |ks|
      && forall j :: 0 <= j < |ks| ==> out[k].values[j] == cols[k].values[ks[j]]
  {
    forall k | 0 <= k < |cols|
      ensures var ks := KeptIndices(mask.values, Min(|cols[k].values|, |mask.values|));
        && cols[k].Vector? && out[k].Vector? && out[k].typ == cols[k].typ
        && |out[k].values| == out[k].size == |ks|
        && forall j :: 0 <= j < |ks| ==> out[k].values[j] == cols[k].values[ks[j]]
    {
      assert FilterColumnWith(mask)(cols[k]).Ok?;
      MaskedSelects(cols[k].values, mask.values, Min(|cols[k].values|, |mask.values|));
    }
    if cols != [] {
      assert FilterColumnWith(mask)(cols[0]).Ok?;
    }
  }

  // ---------------------------------------------------------------------------
  // Projection

  /** One batch through the projection: each expression evaluated on it, under
      the projection's schema. */
  function ProjectBatch(batch: RecordBatch, schema: Schema, exprs: seq<PhysicalExpr>): Result<RecordBatch> {
    var columns :- EvaluateAll(exprs, batch);
    Ok(RecordBatch(schema, columns))
  }

  function ProjectBatchWith(schema: Schema, exprs: seq<PhysicalExpr>): RecordBatch -> Result<RecordBatch> {
    batch => ProjectBatch(batch, schema, exprs)
  }

  /** `Projection.execute` on the input's batches. */
  function ProjectBatches(batches: seq<RecordBatch>, schema: Schema, exprs: seq<PhysicalExpr>): Result<seq<RecordBatch>> {
    MapResult(ProjectBatchWith(schema, exprs), batches)
  }

  /** A projection maps batch to batch: one output batch per input batch, each
      carrying the projection's schema and, as column k, expression k
      evaluated on the input batch. */
  lemma ProjectionMapsBatches(batches: seq<RecordBatch>, schema: Schema, exprs: seq<PhysicalExpr>)
    requires ProjectBatches(batches, schema, exprs).Ok?
    ensures var out := ProjectBatches(batches, schema, exprs).value;
      && |out| == |batches|
      && forall b :: 0 <= b < |batches| ==>
           && out[b].schema == schema
           && |out[b].columns| == |exprs|
           && forall k :: 0 <= k < |exprs| ==> out[b].columns[k] == Evaluate(exprs[k], batches[b]).value
  {
    forall b | 0 <= b < |batches| ensures ProjectBatch(batches[b], schema, exprs).Ok? {
      assert ProjectBatchWith(schema, exprs)(batches[b]).Ok?;
    }
  }

  // ---------------------------------------------------------------------------
  // HashAggregate

  /** The groups built so far: the keys in order of first appearance (the
      insertion order of the Python dict) and, for each key and each
      aggregate, the values its accumulator was fed. */
  datatype Groups = Groups(order: seq<seq<Value>>, traces: map<seq<Value>, seq<seq<Value>>>)

  const NoGroups := Groups([], map[])

  /** Every key appears once in `order`, `order` and the map hold the same
      keys, each key has one value per group expression and one accumulator
      per aggregate. */
  ghost predicate GroupsValid(g: Groups, nKeys: nat, nAggs: nat) {
    && (forall i, j :: 0 <= i < j < |g.order| ==> g.order[i] != g.order[j])
    && (forall k :: k in g.traces <==> k in g.order)
    && (forall k :: k in g.traces ==> |k| == nKeys && |g.traces[k]| == nAggs)
  }

  /** What building the output needs of the groups: every key in `order`
      has one value per group expression and one accumulator per aggregate.
      Valid groups are shaped; shape alone says nothing of duplicates. */
  predicate GroupsShaped(g: Groups, nKeys: nat, nAggs: nat) {
    forall k :: k in g.order ==> k in g.traces && |k| == nKeys && |g.traces[k]| == nAggs
  }

  function GetValueAt(row: int): ColumnVector -> Result<Value> {
    v => GetValue(v, row)
  }

  /** `tuple(v.get_value(row) for v in columns)`. */
  function RowValues(columns: seq<ColumnVector>, row: int): Result<seq<Value>> {
    MapResult(GetValueAt(row), columns)
  }

  /** Each accumulator fed its value (`for idx, acc in enumerate(accumulators)`). */
  function AppendEach(traces: seq<seq<Value>>, inputs: seq<Value>): seq<seq<Value>> {
    seq(|traces|, j requires 0 <= j < |traces| => traces[j] + (if j < |inputs| then [inputs[j]] else []))
  }

  /** `[expr.create_accumulator() for expr in self.aggregate_expr]`: nothing fed yet. */
  function FreshAccumulators(n: nat): seq<seq<Value>> {
    seq(n, _ => [])
  }

  /** `groups.setdefault(key, [fresh accumulators])`, then each accumulator
      of the key fed its value of the row. Keys are compared structurally;
      Python's dict would also merge keys equal under `==`, such as `(1,)`
      and `(1.0,)`. */
  function Feed(g: Groups, key: seq<Value>, inputs: seq<Value>): Groups {
    var current := if key in g.traces then g.traces[key] else FreshAccumulators(|inputs|);
    var order := if key in g.traces then g.order else g.order + [key];
    Groups(order, g.traces[key := AppendEach(current, inputs)])
  }

  /** What one row contributes: its key and the input value of each aggregate. */
  datatype Row = Row(key: seq<Value>, inputs: seq<Value>)

  /** Reading row `i`: the key first, then the aggregate inputs. */
  function ReadRow(groupCols: seq<ColumnVector>, aggrCols: seq<ColumnVector>, i: int): (r: Result<Row>)
    ensures r.Ok? ==> |r.value.key| == |groupCols| && |r.value.inputs| == |aggrCols|
  {
    var key :- RowValues(groupCols, i);
    var inputs :- RowValues(aggrCols, i);
    Ok(Row(key, inputs))
  }

  /** Rows 0..n-1 read in order by `read`, or the error of the first row
      that cannot be read. */
  function ReadPrefix(read: nat -> Result<Row>, n: nat): (r: Result<seq<Row>>)
    ensures r.Ok? ==> |r.value| == n
  {
    if n == 0 then Ok([])
    else
      var init :- ReadPrefix(read, n - 1);
      var row :- read(n - 1);
      Ok(init + [row])
  }

  function ReadRowOf(groupCols: seq<ColumnVector>, aggrCols: seq<ColumnVector>): nat -> Result<Row> {
    i => ReadRow(groupCols, aggrCols, i)
  }

  /** Rows 0..n-1 of a batch read in order, or the error of the first row
      that cannot be read. Python feeds each row as soon as it is read; since
      a failure aborts the whole execution, reading all rows first and then
      feeding them gives the same outcome. */
  function ReadRows(groupCols: seq<ColumnVector>, aggrCols: seq<ColumnVector>, n: nat): Result<seq<Row>> {
    ReadPrefix(ReadRowOf(groupCols, aggrCols), n)
  }

  /** The rows fed one after the other into the groups. */
  function FeedAll(g: Groups, rows: seq<Row>): Groups {
    if rows == [] then g
    else
      var last := rows[|rows| - 1];
      Feed(FeedAll(g, rows[..|rows| - 1]), last.key, last.inputs)
  }

  /** Every row has one key value per group expression and one input per
      aggregate. */
  ghost predicate RowsShaped(rows: seq<Row>, nKeys: nat, nAggs: nat) {
    forall i :: 0 <= i < |rows| ==> |rows[i].key| == nKeys && |rows[i].inputs| == nAggs
  }

  /** Feeding a row keeps the groups valid, only appends to the order, and
      the keys afterwards are those before plus the row's key. */
  lemma FeedKeepsValid(g: Groups, key: seq<Value>, inputs: seq<Value>, nKeys: nat, nAggs: nat)
    requires GroupsValid(g, nKeys, nAggs) && |key| == nKeys && |inputs| == nAggs
    ensures var after := Feed(g, key, inputs);
      && GroupsValid(after, nKeys, nAggs)
      && g.order <= after.order
      && (forall k :: k in after.order <==> k in g.order || k == key)
  {
    var after := Feed(g, key, inputs);
    assert forall k :: k in after.order <==> k in g.order || k == key;
  }

  /** Feeding rows keeps the groups valid and only appends new keys to the
      order. */
  lemma {:induction false} FeedAllValid(g: Groups, rows: seq<Row>, nKeys: nat, nAggs: nat)
    requires GroupsValid(g, nKeys, nAggs) && RowsShaped(rows, nKeys, nAggs)
    ensures GroupsValid(FeedAll(g, rows), nKeys, nAggs)
    ensures g.order <= FeedAll(g, rows).order
  {
    if rows != [] {
      var init, last := rows[..|rows| - 1], rows[|rows| - 1];
      assert RowsShaped(init, nKeys, nAggs);
      FeedAllValid(g, init, nKeys, nAggs);
      FeedKeepsValid(FeedAll(g, init), last.key, last.inputs, nKeys, nAggs);
    }
  }

  /** The group key of every row, in row order. */
  function KeysOf(rows: seq<Row>): (keys: seq<seq<Value>>)
    ensures |keys| == |rows| && forall i :: 0 <= i < |rows| ==> keys[i] == rows[i].key
  {
    seq(|rows|, i requires 0 <= i < |rows| => rows[i].key)
  }

  /** Independent reference for the order of the groups: `keys` scanned
      front to back, each key appended to `seen` at its first appearance
      and skipped afterwards. */
  function FirstSeen(seen: seq<seq<Value>>, keys: seq<seq<Value>>): seq<seq<Value>>
    decreases |keys|
  {
    if keys == [] then seen
    else FirstSeen(if keys[0] in seen then seen else seen + [keys[0]], keys[1..])
  }

  /** One more key at the end is appended exactly when it is new. */
  lemma {:induction false} FirstSeenSnoc(seen: seq<seq<Value>>, keys: seq<seq<Value>>, k: seq<Value>)
    ensures FirstSeen(seen, keys + [k])
      == (var d := FirstSeen(seen, keys); if k in d then d else d + [k])
    decreases |keys|
  {
    if keys == [] {
      assert [k][1..] == [];
    } else {
      var next := if keys[0] in seen then seen else seen + [keys[0]];
      assert (keys + [k])[0] == keys[0];
      assert (keys + [k])[1..] == keys[1..] + [k];
      FirstSeenSnoc(next, keys[1..], k);
    }
  }

  /** `FirstSeen` keeps what was seen as a prefix, lists each key once, and
      holds exactly the keys seen before or scanned. */
  lemma {:induction false} FirstSeenKeys(seen: seq<seq<Value>>, keys: seq<seq<Value>>)
    requires forall i, j :: 0 <= i < j < |seen| ==> seen[i] != seen[j]
    ensures var d := FirstSeen(seen, keys);
      && seen <= d
      && (forall i, j :: 0 <= i < j < |d| ==> d[i] != d[j])
      && (forall k :: k in d <==> k in seen || k in keys)
    decreases |keys|
  {
    if keys != [] {
      var next := if keys[0] in seen then seen else seen + [keys[0]];
      FirstSeenKeys(next, keys[1..]);
      assert forall k :: k in keys <==> k == keys[0] || k in keys[1..];
    }
  }

  /** The map and the order hold the same keys (part of `GroupsValid`). */
  ghost predicate KeysAgree(g: Groups) {
    forall k :: k in g.traces <==> k in g.order
  }

  /** Feeding a row appends its key to the order exactly when it is new. */
  lemma FeedOrder(g: Groups, key: seq<Value>, inputs: seq<Value>)
    requires KeysAgree(g)
    ensures KeysAgree(Feed(g, key, inputs))
    ensures Feed(g, key, inputs).order == if key in g.order then g.order else g.order + [key]
  {
  }

  /** The order of the groups after feeding rows is `FirstSeen` of their
      keys: each distinct key once, in order of first appearance, after the
      keys already there. */
  lemma {:induction false} FeedAllFirstSeen(g: Groups, rows: seq<Row>)
    requires KeysAgree(g)
    ensures KeysAgree(FeedAll(g, rows))
    ensures FeedAll(g, rows).order == FirstSeen(g.order, KeysOf(rows))
  {
    if rows != [] {
      var init, last := rows[..|rows| - 1], rows[|rows| - 1];
      FeedAllFirstSeen(g, init);
      assert FeedAll(g, rows) == Feed(FeedAll(g, init), last.key, last.inputs);
      FeedOrder(FeedAll(g, init), last.key, last.inputs);
      assert KeysOf(rows) == KeysOf(init) + [last.key];
      FirstSeenSnoc(g.order, KeysOf(init), last.key);
    }
  }

  /** Only the keys of rows become groups: after feeding rows, a key has a
      group exactly when it had one before or some row carries it. */
  lemma FeedAllKeys(g: Groups, rows: seq<Row>, nKeys: nat, nAggs: nat)
    requires GroupsValid(g, nKeys, nAggs)
    ensures forall k :: k in FeedAll(g, rows).order <==>
      k in g.order || exists i :: 0 <= i < |rows| && rows[i].key == k
  {
    FeedAllFirstSeen(g, rows);
    FirstSeenKeys(g.order, KeysOf(rows));
  }

  /** Feeding rows, whatever their shape, only ever appends keys to the
      order. */
  lemma {:induction false} FeedAllGrows(g: Groups, rows: seq<Row>)
    ensures g.order <= FeedAll(g, rows).order
  {
    if rows != [] {
      var init, last := rows[..|rows| - 1], rows[|rows| - 1];
      FeedAllGrows(g, init);
      var before := FeedAll(g, init);
      assert before.order <= Feed(before, last.key, last.inputs).order;
    }
  }

  /** Every row fed lands in the group of its key, and no group is ever
      dropped. */
  lemma {:induction false} EveryRowHasGroup(g: Groups, rows: seq<Row>, i: nat)
    requires i < |rows|
    ensures rows[i].key in FeedAll(g, rows).traces
    ensures forall k :: k in g.traces ==> k in FeedAll(g, rows).traces
  {
    var init := rows[..|rows| - 1];
    if i < |rows| - 1 {
      EveryRowHasGroup(g, init, i);
      assert init[i] == rows[i];
    } else if init != [] {
      EveryRowHasGroup(g, init, 0);
    }
  }

  /** The values accumulator `j` of `key` has been fed (none for a new key). */
  function TraceOf(g: Groups, key: seq<Value>, j: nat): seq<Value> {
    if key in g.traces && j < |g.traces[key]| then g.traces[key][j] else []
  }

  /** Every key has one accumulator per aggregate. */
  ghost predicate TracesShaped(g: Groups, nAggs: nat) {
    forall k :: k in g.traces ==> |g.traces[k]| == nAggs
  }

  /** Feeding a row appends to the accumulators of its own key only. */
  lemma FeedTrace(g: Groups, key: seq<Value>, inputs: seq<Value>, other: seq<Value>, j: nat)
    requires TracesShaped(g, |inputs|) && j < |inputs|
    ensures TraceOf(Feed(g, key, inputs), other, j)
      == TraceOf(g, other, j) + (if key == other then [inputs[j]] else [])
  {
  }

  /** Feeding rows with one input per aggregate keeps one accumulator per
      aggregate. */
  lemma {:induction false} FeedAllTracesShaped(g: Groups, rows: seq<Row>, nAggs: nat)
    requires TracesShaped(g, nAggs) && forall i :: 0 <= i < |rows| ==> |rows[i].inputs| == nAggs
    ensures TracesShaped(FeedAll(g, rows), nAggs)
  {
    if rows != [] {
      FeedAllTracesShaped(g, rows[..|rows| - 1], nAggs);
    }
  }

  /** Independent reference: input `j` of the rows whose key is `key`, in row
      order. */
  function GroupInputs(rows: seq<Row>, key: seq<Value>, j: nat): seq<Value> {
    if rows == [] then []
    else
      var last := rows[|rows| - 1];
      GroupInputs(rows[..|rows| - 1], key, j) + (if last.key == key && j < |last.inputs| then [last.inputs[j]] else [])
  }

  /** Every accumulator only sees the rows of its own group: after feeding
      rows, accumulator `j` of a key has been fed, after what it held
      before, exactly input `j` of the rows with that key, in row order. */
  lemma {:induction false} AccumulatorsSeeOwnGroup(g: Groups, rows: seq<Row>, key: seq<Value>, j: nat, nAggs: nat)
    requires TracesShaped(g, nAggs) && j < nAggs
    requires forall i :: 0 <= i < |rows| ==> |rows[i].inputs| == nAggs
    ensures TraceOf(FeedAll(g, rows), key, j) == TraceOf(g, key, j) + GroupInputs(rows, key, j)
  {
    if rows != [] {
      var init, last := rows[..|rows| - 1], rows[|rows| - 1];
      AccumulatorsSeeOwnGroup(g, init, key, j, nAggs);
      FeedAllTracesShaped(g, init, nAggs);
      FeedTrace(FeedAll(g, init), last.key, last.inputs, key, j);
    }
  }

  /** The expressions the aggregates are computed over. */
  function AggregateInputs(aggregates: seq<PhysicalAggregate>): (es: seq<PhysicalExpr>)
    ensures |es| == |aggregates| && forall j :: 0 <= j < |es| ==> es[j] == aggregates[j].expr
  {
    seq(|aggregates|, j requires 0 <= j < |aggregates| => aggregates[j].expr)
  }

  /** Rows 0..n-1 read and fed into the groups, or the error of the first
      row that cannot be read. */
  function FeedBatch(g: Groups, groupCols: seq<ColumnVector>, aggrCols: seq<ColumnVector>, n: nat): Result<Groups> {
    var rows :- ReadRows(groupCols, aggrCols, n);
    Ok(FeedAll(g, rows))
  }

  /** Feeding a batch keeps the groups valid and only appends to the order. */
  lemma FeedBatchValid(g: Groups, groupCols: seq<ColumnVector>, aggrCols: seq<ColumnVector>, n: nat)
    requires GroupsValid(g, |groupCols|, |aggrCols|)
    requires FeedBatch(g, groupCols, aggrCols, n).Ok?
    ensures GroupsValid(FeedBatch(g, groupCols, aggrCols, n).value, |groupCols|, |aggrCols|)
    ensures g.order <= FeedBatch(g, groupCols, aggrCols, n).value.order
  {
    ReadRowsShaped(groupCols, aggrCols, n);
    FeedAllValid(g, ReadRows(groupCols, aggrCols, n).value, |groupCols|, |aggrCols|);
  }

  /** The key of row i of a batch is its group values at row i. */
  lemma ReadRowsKeys(groupCols: seq<ColumnVector>, aggrCols: seq<ColumnVector>, n: nat)
    requires ReadRows(groupCols, aggrCols, n).Ok?
    ensures var keys := KeysOf(ReadRows(groupCols, aggrCols, n).value);
      forall i :: 0 <= i < n ==> RowValues(groupCols, i) == Ok(keys[i])
  {
    forall i | 0 <= i < n
      ensures RowValues(groupCols, i) == Ok(ReadRows(groupCols, aggrCols, n).value[i].key)
    {
      ReadRowsAt(groupCols, aggrCols, n, i);
    }
  }

  /** The groups after a batch: the keys before it, then each distinct
      key of its rows in order of first appearance; a key has a group
      exactly when it had one before or some row of the batch evaluates to
      it. */
  lemma FeedBatchKeys(g: Groups, groupCols: seq<ColumnVector>, aggrCols: seq<ColumnVector>, n: nat)
    requires GroupsValid(g, |groupCols|, |aggrCols|)
    requires FeedBatch(g, groupCols, aggrCols, n).Ok?
    ensures FeedBatch(g, groupCols, aggrCols, n).value.order
      == FirstSeen(g.order, KeysOf(ReadRows(groupCols, aggrCols, n).value))
    ensures forall k :: k in FeedBatch(g, groupCols, aggrCols, n).value.order <==>
      k in g.order || exists i :: 0 <= i < n && RowValues(groupCols, i) == Ok(k)
  {
    var rows := ReadRows(groupCols, aggrCols, n).value;
    var keys := KeysOf(rows);
    var order := FeedAll(g, rows).order;
    assert FeedBatch(g, groupCols, aggrCols, n).value.order == order;
    FeedAllFirstSeen(g, rows);
    FirstSeenKeys(g.order, keys);
    ReadRowsKeys(groupCols, aggrCols, n);
    forall k
      ensures k in order <==> k in g.order || exists i :: 0 <= i < n && RowValues(groupCols, i) == Ok(k)
    {
      if k in keys {
        var i :| 0 <= i < |keys| && keys[i] == k;
        assert RowValues(groupCols, i) == Ok(k);
      }
      if exists i :: 0 <= i < n && RowValues(groupCols, i) == Ok(k) {
        var i :| 0 <= i < n && RowValues(groupCols, i) == Ok(k);
        assert keys[i] == k;
      }
    }
  }

  /** Row i of a successful read is row i read on its own. */
  lemma {:induction false} ReadPrefixAt(read: nat -> Result<Row>, n: nat, i: nat)
    requires ReadPrefix(read, n).Ok? && i < n
    ensures read(i).Ok? && ReadPrefix(read, n).value[i] == read(i).value
  {
    if i < n - 1 {
      ReadPrefixAt(read, n - 1, i);
    }
  }

  /** Once rows 0..k-1 cannot all be read, no longer prefix can. */
  lemma {:induction false} ReadPrefixFailPersists(read: nat -> Result<Row>, k: nat, n: nat)
    requires k <= n && ReadPrefix(read, k).Fail?
    ensures ReadPrefix(read, n) == ReadPrefix(read, k)
  {
    if k < n {
      ReadPrefixFailPersists(read, k, n - 1);
    }
  }

  /** Row i of the rows of a batch is row i read on its own. */
  lemma ReadRowsAt(groupCols: seq<ColumnVector>, aggrCols: seq<ColumnVector>, n: nat, i: nat)
    requires ReadRows(groupCols, aggrCols, n).Ok? && i < n
    ensures ReadRow(groupCols, aggrCols, i).Ok?
    ensures ReadRows(groupCols, aggrCols, n).value[i] == ReadRow(groupCols, aggrCols, i).value
  {
    ReadPrefixAt(ReadRowOf(groupCols, aggrCols), n, i);
  }

  /** Every row read has a value per group column and per aggregate input. */
  lemma ReadRowsShaped(groupCols: seq<ColumnVector>, aggrCols: seq<ColumnVector>, n: nat)
    requires ReadRows(groupCols, aggrCols, n).Ok?
    ensures RowsShaped(ReadRows(groupCols, aggrCols, n).value, |groupCols|, |aggrCols|)
  {
    forall i | 0 <= i < n
      ensures ReadRow(groupCols, aggrCols, i).Ok?
      ensures ReadRows(groupCols, aggrCols, n).value[i] == ReadRow(groupCols, aggrCols, i).value
    {
      ReadRowsAt(groupCols, aggrCols, n, i);
    }
  }

  /** Once a row of a batch cannot be read, the whole batch fails with the
      same error. */
  lemma ReadRowsFailPersists(groupCols: seq<ColumnVector>, aggrCols: seq<ColumnVector>, k: nat, n: nat)
    requires k <= n && ReadRows(groupCols, aggrCols, k).Fail?
    ensures ReadRows(groupCols, aggrCols, n) == ReadRows(groupCols, aggrCols, k)
  {
    ReadPrefixFailPersists(ReadRowOf(groupCols, aggrCols), k, n);
  }

  /** The columns built from the groups: one per group expression (the key
      values), then one per aggregate (the final values), one row per key in
      `order`. */
  function OutputColumns(order: seq<seq<Value>>, traces: map<seq<Value>, seq<seq<Value>>>, nKeys: nat,
                         aggregates: seq<PhysicalAggregate>, finalValue: (AggregateKind, seq<Value>) -> Value)
    : (cols: seq<seq<Value>>)
    requires forall k :: k in order ==> k in traces && |k| == nKeys && |traces[k]| == |aggregates|
    ensures |cols| == nKeys + |aggregates|
  {
    seq(nKeys + |aggregates|, c requires 0 <= c < nKeys + |aggregates| =>
      seq(|order|, r requires 0 <= r < |order| =>
        if c < nKeys then order[r][c] else finalValue(aggregates[c - nKeys].kind, traces[order[r]][c - nKeys])))
  }

  /** Column c < nKeys holds the c-th key value of every group, in `order`;
      column nKeys + j the final value of the j-th aggregate of every group. */
  lemma OutputColumnsSpec(order: seq<seq<Value>>, traces: map<seq<Value>, seq<seq<Value>>>, nKeys: nat,
                          aggregates: seq<PhysicalAggregate>, finalValue: (AggregateKind, seq<Value>) -> Value)
    requires forall k :: k in order ==> k in traces && |k| == nKeys && |traces[k]| == |aggregates|
    ensures var cols := OutputColumns(order, traces, nKeys, aggregates, finalValue);
      && (forall c :: 0 <= c < |cols| ==> |cols[c]| == |order|)
      && (forall c, r :: 0 <= c < nKeys && 0 <= r < |order| ==> cols[c][r] == order[r][c])
      && (forall j, r :: 0 <= j < |aggregates| && 0 <= r < |order| ==>
            cols[nKeys + j][r] == finalValue(aggregates[j].kind, traces[order[r]][j]))
  {
  }

  /** One batch fed into the groups: the group expressions and the
      aggregates' input expressions evaluated on it, then its rows. */
  function AggregateBatch(g: Groups, batch: RecordBatch, groupExprs: seq<PhysicalExpr>,
                          aggregates: seq<PhysicalAggregate>): Result<Groups> {
    var groupCols :- EvaluateAll(groupExprs, batch);
    var aggrCols :- EvaluateAll(AggregateInputs(aggregates), batch);
    FeedBatch(g, groupCols, aggrCols, RowCount(batch))
  }

  lemma AggregateBatchValid(g: Groups, batch: RecordBatch, groupExprs: seq<PhysicalExpr>,
                            aggregates: seq<PhysicalAggregate>)
    requires GroupsValid(g, |groupExprs|, |aggregates|)
    requires AggregateBatch(g, batch, groupExprs, aggregates).Ok?
    ensures var after := AggregateBatch(g, batch, groupExprs, aggregates).value;
      GroupsValid(after, |groupExprs|, |aggregates|) && g.order <= after.order
  {
    FeedBatchValid(g, EvaluateAll(groupExprs, batch).value,
                   EvaluateAll(AggregateInputs(aggregates), batch).value, RowCount(batch));
  }

  /** Aggregating a batch only ever appends keys to the order. */
  lemma AggregateBatchGrows(g: Groups, batch: RecordBatch, groupExprs: seq<PhysicalExpr>,
                            aggregates: seq<PhysicalAggregate>)
    requires AggregateBatch(g, batch, groupExprs, aggregates).Ok?
    ensures g.order <= AggregateBatch(g, batch, groupExprs, aggregates).value.order
  {
    var groupCols := EvaluateAll(groupExprs, batch).value;
    var aggrCols := EvaluateAll(AggregateInputs(aggregates), batch).value;
    FeedAllGrows(g, ReadRows(groupCols, aggrCols, RowCount(batch)).value);
  }

  /** The state of `HashAggregate.execute` after some batches: the groups, and
      the batches output so far. */
  datatype AggregateRun = AggregateRun(groups: Groups, output: seq<RecordBatch>)

  /** The batch output after an input batch, built from ALL the groups so
      far (`RecordBatch.from_pylists(self.schema, columns)`). The guard only
      makes the function total: the groups of every run are valid, hence
      shaped (RunValid). */
  function EmitBatch(g: Groups, nKeys: nat, aggregates: seq<PhysicalAggregate>, schema: Schema, rt: Runtime)
    : RecordBatch
  {
    if GroupsShaped(g, nKeys, |aggregates|) then
      rt.fromLists(schema, OutputColumns(g.order, g.traces, nKeys, aggregates, rt.finalValue))
    else
      rt.fromLists(schema, [])
  }

  /** One iteration of the batch loop of `HashAggregate.execute`: the batch
      fed into the groups, then one batch built from all of them appended. */
  function Advance(run: AggregateRun, batch: RecordBatch, groupExprs: seq<PhysicalExpr>,
                   aggregates: seq<PhysicalAggregate>, schema: Schema, rt: Runtime): Result<AggregateRun>
  {
    var g :- AggregateBatch(run.groups, batch, groupExprs, aggregates);
    Ok(AggregateRun(g, run.output + [EmitBatch(g, |groupExprs|, aggregates, schema, rt)]))
  }

  function AdvanceWith(groupExprs: seq<PhysicalExpr>, aggregates: seq<PhysicalAggregate>, schema: Schema,
                       rt: Runtime): (AggregateRun, RecordBatch) -> Result<AggregateRun>
  {
    (run, batch) => Advance(run, batch, groupExprs, aggregates, schema, rt)
  }

  /** A loop over the first n batches from no groups and no output, with
      `step` as its body; the first step that fails ends it. */
  function RunLoop(batches: seq<RecordBatch>, n: nat, step: (AggregateRun, RecordBatch) -> Result<AggregateRun>)
    : Result<AggregateRun>
    requires n <= |batches|
  {
    if n == 0 then Ok(AggregateRun(NoGroups, []))
    else
      var run :- RunLoop(batches, n - 1, step);
      step(run, batches[n - 1])
  }

  /** The first n batches fed one after the other into the same groups;
      after each batch, a batch is output from ALL the groups seen so far. */
  function HashAggregateRun(batches: seq<RecordBatch>, n: nat, groupExprs: seq<PhysicalExpr>,
                            aggregates: seq<PhysicalAggregate>, schema: Schema, rt: Runtime): Result<AggregateRun>
    requires n <= |batches|
  {
    RunLoop(batches, n, AdvanceWith(groupExprs, aggregates, schema, rt))
  }

  /** `HashAggregate.execute` on the input's batches. */
  function HashAggregateOutput(batches: seq<RecordBatch>, groupExprs: seq<PhysicalExpr>,
                               aggregates: seq<PhysicalAggregate>, schema: Schema, rt: Runtime)
    : Result<seq<RecordBatch>>
  {
    var run :- HashAggregateRun(batches, |batches|, groupExprs, aggregates, schema, rt);
    Ok(run.output)
  }

  /** Once the first k batches fail, every longer loop fails the same way. */
  lemma {:induction false} RunLoopFailPersists(batches: seq<RecordBatch>,
                                               step: (AggregateRun, RecordBatch) -> Result<AggregateRun>,
                                               k: nat, n: nat)
    requires k <= n <= |batches|
    requires RunLoop(batches, k, step).Fail?
    ensures RunLoop(batches, n, step) == RunLoop(batches, k, step)
    decreases n
  {
    if k < n {
      RunLoopFailPersists(batches, step, k, n - 1);
    }
  }

  /** A loop body that only appends, to the order of the groups and to the
      output. */
  ghost predicate OnlyAppends(step: (AggregateRun, RecordBatch) -> Result<AggregateRun>) {
    forall run: AggregateRun, batch :: step(run, batch).Ok? ==>
      && run.groups.order <= step(run, batch).value.groups.order
      && run.output <= step(run, batch).value.output
      && |step(run, batch).value.output| == |run.output| + 1
  }

  /** With such a body, a loop that succeeds went through every shorter
      loop, each state a prefix of the later ones. */
  lemma {:induction false} RunLoopGrows(batches: seq<RecordBatch>,
                                        step: (AggregateRun, RecordBatch) -> Result<AggregateRun>, k: nat, n: nat)
    requires k <= n <= |batches|
    requires OnlyAppends(step)
    requires RunLoop(batches, n, step).Ok?
    ensures var early := RunLoop(batches, k, step);
      var late := RunLoop(batches, n, step).value;
      && early.Ok?
      && early.value.groups.order <= late.groups.order
      && early.value.output <= late.output
      && |early.value.output| == k && |late.output| == n
    decreases n, k
  {
    if k == n && 0 < n {
      RunLoopGrows(batches, step, 0, n);
    } else if k < n {
      var prev := RunLoop(batches, n - 1, step);
      assert prev.Ok?;
      RunLoopGrows(batches, step, k, n - 1);
      var early, late := RunLoop(batches, k, step).value, RunLoop(batches, n, step).value;
      assert late == step(prev.value, batches[n - 1]).value;
      assert early.groups.order <= prev.value.groups.order <= late.groups.order;
      assert early.output <= prev.value.output <= late.output;
    }
  }

  /** A property of the groups that holds of no groups and that every step
      keeps holds after every loop that succeeds; so does one output batch
      per step. */
  lemma {:induction false} RunLoopKeeps(batches: seq<RecordBatch>,
                                        step: (AggregateRun, RecordBatch) -> Result<AggregateRun>,
                                        n: nat, keeps: Groups -> bool)
    requires n <= |batches|
    requires keeps(NoGroups)
    requires forall run: AggregateRun, batch :: keeps(run.groups) && step(run, batch).Ok? ==>
      keeps(step(run, batch).value.groups) && |step(run, batch).value.output| == |run.output| + 1
    requires RunLoop(batches, n, step).Ok?
    ensures keeps(RunLoop(batches, n, step).value.groups)
    ensures |RunLoop(batches, n, step).value.output| == n
    decreases n
  {
    if n > 0 {
      var prev := RunLoop(batches, n - 1, step);
      assert prev.Ok?;
      RunLoopKeeps(batches, step, n - 1, keeps);
    }
  }

  /** The body of `HashAggregate.execute`'s batch loop only appends. */
  lemma AdvanceOnlyAppends(groupExprs: seq<PhysicalExpr>, aggregates: seq<PhysicalAggregate>, schema: Schema,
                           rt: Runtime)
    ensures OnlyAppends(AdvanceWith(groupExprs, aggregates, schema, rt))
  {
    var step := AdvanceWith(groupExprs, aggregates, schema, rt);
    forall run: AggregateRun, batch | step(run, batch).Ok?
      ensures run.groups.order <= step(run, batch).value.groups.order
      ensures run.output <= step(run, batch).value.output
      ensures |step(run, batch).value.output| == |run.output| + 1
    {
      AggregateBatchGrows(run.groups, batch, groupExprs, aggregates);
    }
  }

  /** Every run that succeeds has one output batch per batch, and its groups
      are valid. */
  lemma RunValid(batches: seq<RecordBatch>, groupExprs: seq<PhysicalExpr>, aggregates: seq<PhysicalAggregate>,
                 schema: Schema, rt: Runtime, n: nat)
    requires n <= |batches|
    requires HashAggregateRun(batches, n, groupExprs, aggregates, schema, rt).Ok?
    ensures var run := HashAggregateRun(batches, n, groupExprs, aggregates, schema, rt).value;
      GroupsValid(run.groups, |groupExprs|, |aggregates|) && |run.output| == n
  {
    var step := AdvanceWith(groupExprs, aggregates, schema, rt);
    var valid := g => GroupsValid(g, |groupExprs|, |aggregates|);
    forall run: AggregateRun, batch | valid(run.groups) && step(run, batch).Ok?
      ensures valid(step(run, batch).value.groups) && |step(run, batch).value.output| == |run.output| + 1
    {
      AggregateBatchValid(run.groups, batch, groupExprs, aggregates);
    }
    RunLoopKeeps(batches, step, n, valid);
  }

  /** A run that succeeds extends the run one batch shorter by the groups
      after the last batch and one batch built from them. */
  lemma RunLast(batches: seq<RecordBatch>, groupExprs: seq<PhysicalExpr>, aggregates: seq<PhysicalAggregate>,
                schema: Schema, rt: Runtime, n: nat)
    requires 0 < n <= |batches|
    requires HashAggregateRun(batches, n, groupExprs, aggregates, schema, rt).Ok?
    ensures var prev := HashAggregateRun(batches, n - 1, groupExprs, aggregates, schema, rt);
      var whole := HashAggregateRun(batches, n, groupExprs, aggregates, schema, rt).value;
      && prev.Ok?
      && AggregateBatch(prev.value.groups, batches[n - 1], groupExprs, aggregates) == Ok(whole.groups)
      && whole.output == prev.value.output + [EmitBatch(whole.groups, |groupExprs|, aggregates, schema, rt)]
  {
    var prev := HashAggregateRun(batches, n - 1, groupExprs, aggregates, schema, rt);
    assert prev.Ok?;
  }

  /** The groups are never reset: a run that succeeds went through every
      shorter run, whose group keys and output batches (one per batch fed)
      are prefixes of the later ones. With `RunEmits`, output batch k of the
      whole run is built from all groups of batches 0..k. */
  lemma RunGrows(batches: seq<RecordBatch>, groupExprs: seq<PhysicalExpr>,
                 aggregates: seq<PhysicalAggregate>, schema: Schema, rt: Runtime, k: nat, n: nat)
    requires k <= n <= |batches|
    requires HashAggregateRun(batches, n, groupExprs, aggregates, schema, rt).Ok?
    ensures var early := HashAggregateRun(batches, k, groupExprs, aggregates, schema, rt);
      var late := HashAggregateRun(batches, n, groupExprs, aggregates, schema, rt).value;
      && early.Ok?
      && early.value.groups.order <= late.groups.order
      && early.value.output <= late.output
      && |early.value.output| == k && |late.output| == n
  {
    AdvanceOnlyAppends(groupExprs, aggregates, schema, rt);
    RunLoopGrows(batches, AdvanceWith(groupExprs, aggregates, schema, rt), k, n);
  }

  /** Output batch k is built from the groups after batch k, which are shaped. */
  lemma RunEmits(batches: seq<RecordBatch>, groupExprs: seq<PhysicalExpr>,
                 aggregates: seq<PhysicalAggregate>, schema: Schema, rt: Runtime, k: nat)
    requires k < |batches|
    requires HashAggregateRun(batches, k + 1, groupExprs, aggregates, schema, rt).Ok?
    ensures var early := HashAggregateRun(batches, k + 1, groupExprs, aggregates, schema, rt).value;
      && GroupsShaped(early.groups, |groupExprs|, |aggregates|)
      && |early.output| == k + 1
      && early.output[k] == rt.fromLists(schema, OutputColumns(early.groups.order, early.groups.traces,
                                                              |groupExprs|, aggregates, rt.finalValue))
  {
    RunValid(batches, groupExprs, aggregates, schema, rt, k + 1);
    RunLast(batches, groupExprs, aggregates, schema, rt, k + 1);
    var early := HashAggregateRun(batches, k + 1, groupExprs, aggregates, schema, rt).value;
    assert GroupsShaped(early.groups, |groupExprs|, |aggregates|);
  }

  /** One more batch: the loop step of `HashAggregate.execute`. */
  lemma RunStep(batches: seq<RecordBatch>, groupExprs: seq<PhysicalExpr>, aggregates: seq<PhysicalAggregate>,
                schema: Schema, rt: Runtime, b: nat, run: AggregateRun)
    requires b < |batches|
    requires HashAggregateRun(batches, b, groupExprs, aggregates, schema, rt) == Ok(run)
    ensures HashAggregateRun(batches, b + 1, groupExprs, aggregates, schema, rt)
      == Advance(run, batches[b], groupExprs, aggregates, schema, rt)
  {
  }

  // ---------------------------------------------------------------------------
  // Execution

  /** `plan.execute()`. */
  function ExecuteSpec(plan: PhysicalPlan, rt: Runtime): Result<seq<RecordBatch>> {
    match plan
    case ScanExec(source, projection) => Ok(rt.scan(source, projection))
    case ProjectionExec(input, schema, exprs) =>
      var batches :- ExecuteSpec(input, rt);
      ProjectBatches(batches, schema, exprs)
    case FilterExec(input, expr) =>
      var batches :- ExecuteSpec(input, rt);
      FilterBatches(batches, expr)
    case HashAggregate(input, groupExprs, aggregates, schema) =>
      var batches :- ExecuteSpec(input, rt);
      HashAggregateOutput(batches, groupExprs, aggregates, schema, rt)
    case NoPlan => Fail(NoAttribute("execute"))
  }

  // ---------------------------------------------------------------------------
  // The operators' loops

  /** `[v for v, b in zip(values, mask) if b]`. */
  method MaskValues(values: seq<Value>, mask: seq<Value>) returns (kept: seq<Value>)
    ensures kept == Masked(values, mask)
  {
    kept := [];
    var n := Min(|values|, |mask|);
    for i := 0 to n
      invariant kept == MaskedPrefix(values, mask, i)
    {
      if Truthy(mask[i]) {
        kept := kept + [values[i]];
      }
    }
  }

  /** One field of a batch filtered: `[v for v, b in zip(field.value,
      mask.value) if b]`, with the field's type. */
  method FilterColumnExecute(field: ColumnVector, mask: ColumnVector) returns (r: Result<ColumnVector>)
    ensures r == FilterColumn(field, mask)
  {
    if !field.Vector? || !mask.Vector? {
      return Fail(NoAttribute("value"));
    }
    var kept := MaskValues(field.values, mask.values);
    return Ok(Vector(field.typ, kept, |kept|));
  }

  /** `Filter.execute`: every batch's mask applied to each of its fields. */
  method FilterExecute(batches: seq<RecordBatch>, expr: PhysicalExpr) returns (r: Result<seq<RecordBatch>>)
    ensures r == FilterBatches(batches, expr)
  {
    var out: seq<RecordBatch> := [];
    for b := 0 to |batches|
      invariant MapResult(FilterBatchWith(expr), batches[..b]) == Ok(out)
    {
      MapResultStep(FilterBatchWith(expr), batches, b);
      var filtered := FilterBatchExecute(batches[b], expr);
      if filtered.Fail? {
        MapResultFailPersists(FilterBatchWith(expr), batches, b + 1);
        return Fail(filtered.error);
      }
      out := out + [filtered.value];
    }
    assert batches[..|batches|] == batches;
    return Ok(out);
  }

  /** The body of `Filter.execute` for one batch: the mask, then the loop
      over the batch's fields. */
  method FilterBatchExecute(batch: RecordBatch, expr: PhysicalExpr) returns (r: Result<RecordBatch>)
    ensures r == FilterBatch(batch, expr)
  {
    var mask := Evaluate(expr, batch);
    if mask.Fail? {
      return Fail(mask.error);
    }
    var fields: seq<ColumnVector> := [];
    for k := 0 to |batch.columns|
      invariant MapResult(FilterColumnWith(mask.value), batch.columns[..k]) == Ok(fields)
    {
      MapResultStep(FilterColumnWith(mask.value), batch.columns, k);
      var column := FilterColumnExecute(batch.columns[k], mask.value);
      if column.Fail? {
        MapResultFailPersists(FilterColumnWith(mask.value), batch.columns, k + 1);
        return Fail(column.error);
      }
      fields := fields + [column.value];
    }
    assert batch.columns[..|batch.columns|] == batch.columns;
    return Ok(RecordBatch(batch.schema, fields));
  }

  /** `Projection.execute`: each expression evaluated on every batch. */
  method ProjectionExecute(batches: seq<RecordBatch>, schema: Schema, exprs: seq<PhysicalExpr>)
    returns (r: Result<seq<RecordBatch>>)
    ensures r == ProjectBatches(batches, schema, exprs)
  {
    var out: seq<RecordBatch> := [];
    for b := 0 to |batches|
      invariant MapResult(ProjectBatchWith(schema, exprs), batches[..b]) == Ok(out)
    {
      MapResultStep(ProjectBatchWith(schema, exprs), batches, b);
      var columns := EvaluateAll(exprs, batches[b]);
      if columns.Fail? {
        MapResultFailPersists(ProjectBatchWith(schema, exprs), batches, b + 1);
        return Fail(columns.error);
      }
      out := out + [RecordBatch(schema, columns.value)];
    }
    assert batches[..|batches|] == batches;
    return Ok(out);
  }

  /** `for idx, accumulator in enumerate(accumulators)`: each accumulator of
      the row's group fed that aggregate's input value at the row. */
  method AccumulateRow(current: seq<seq<Value>>, aggrCols: seq<ColumnVector>, row: int)
    returns (r: Result<seq<seq<Value>>>)
    requires |current| == |aggrCols|
    ensures var inputs := RowValues(aggrCols, row);
      && (r.Ok? <==> inputs.Ok?)
      && (r.Ok? ==> r.value == AppendEach(current, inputs.value))
      && (r.Fail? ==> r.error == inputs.error)
  {
    var accs := current;
    ghost var fed: seq<Value> := [];
    for idx := 0 to |current|
      invariant MapResult(GetValueAt(row), aggrCols[..idx]) == Ok(fed)
      invariant |accs| == |current|
      invariant forall j :: 0 <= j < |current| ==> accs[j] == current[j] + (if j < idx then [fed[j]] else [])
    {
      MapResultStep(GetValueAt(row), aggrCols, idx);
      var value := GetValue(aggrCols[idx], row);
      if value.Fail? {
        MapResultFailPersists(GetValueAt(row), aggrCols, idx + 1);
        return Fail(value.error);
      }
      accs := accs[idx := accs[idx] + [value.value]];
      fed := fed + [value.value];
    }
    assert aggrCols[..|aggrCols|] == aggrCols;
    return Ok(accs);
  }

  /** One row fed into the groups: its key tuple, `groups.setdefault` for
      it, then its accumulators fed. */
  method GroupRow(g: Groups, groupCols: seq<ColumnVector>, aggrCols: seq<ColumnVector>, row: int)
    returns (r: Result<Groups>)
    requires GroupsValid(g, |groupCols|, |aggrCols|)
    ensures var read := ReadRow(groupCols, aggrCols, row);
      && (r.Ok? <==> read.Ok?)
      && (r.Ok? ==> r.value == Feed(g, read.value.key, read.value.inputs))
      && (r.Fail? ==> r.error == read.error)
  {
    var key := RowValues(groupCols, row);
    if key.Fail? {
      return Fail(key.error);
    }
    var order, current := g.order, FreshAccumulators(|aggrCols|);
    if key.value in g.traces {
      current := g.traces[key.value];
    } else {
      order := order + [key.value];
    }
    var fed := AccumulateRow(current, aggrCols, row);
    if fed.Fail? {
      return Fail(fed.error);
    }
    return Ok(Groups(order, g.traces[key.value := fed.value]));
  }

  /** The rows of one batch fed into the groups, in row order. */
  method GroupBatch(g0: Groups, groupCols: seq<ColumnVector>, aggrCols: seq<ColumnVector>, n: nat)
    returns (r: Result<Groups>)
    requires GroupsValid(g0, |groupCols|, |aggrCols|)
    ensures r == FeedBatch(g0, groupCols, aggrCols, n)
  {
    var g := g0;
    ghost var read: seq<Row> := [];
    for row := 0 to n
      invariant ReadRows(groupCols, aggrCols, row) == Ok(read)
      invariant g == FeedAll(g0, read)
      invariant GroupsValid(g, |groupCols|, |aggrCols|)
    {
      var next := GroupRow(g, groupCols, aggrCols, row);
      if next.Fail? {
        ReadRowsFailPersists(groupCols, aggrCols, row + 1, n);
        return Fail(next.error);
      }
      ghost var rw := ReadRow(groupCols, aggrCols, row).value;
      FeedKeepsValid(g, rw.key, rw.inputs, |groupCols|, |aggrCols|);
      g := next.value;
      assert (read + [rw])[..|read|] == read;
      read := read + [rw];
    }
    return Ok(g);
  }

  /** One group's key values appended to the group columns
      (`columns[i].append(key_val)`). */
  method AppendKeyValues(columns: seq<seq<Value>>, key: seq<Value>) returns (out: seq<seq<Value>>)
    requires |key| <= |columns|
    ensures |out| == |columns|
    ensures forall c :: 0 <= c < |out| ==> out[c] == columns[c] + (if c < |key| then [key[c]] else [])
  {
    out := columns;
    for i := 0 to |key|
      invariant |out| == |columns|
      invariant forall c :: 0 <= c < |out| ==> out[c] == columns[c] + (if c < i then [key[c]] else [])
    {
      out := out[i := out[i] + [key[i]]];
    }
  }

  /** One group's final values appended to the aggregate columns, which
      follow the `nKeys` group columns
      (`columns[num_group_cols + j].append(accum.final_value())`). */
  method AppendFinalValues(columns: seq<seq<Value>>, nKeys: nat, aggregates: seq<PhysicalAggregate>,
                           accumulators: seq<seq<Value>>, finalValue: (AggregateKind, seq<Value>) -> Value)
    returns (out: seq<seq<Value>>)
    requires |columns| == nKeys + |aggregates| && |accumulators| == |aggregates|
    ensures |out| == |columns|
    ensures forall c :: 0 <= c < nKeys ==> out[c] == columns[c]
    ensures forall c :: nKeys <= c < |out| ==>
      out[c] == columns[c] + [finalValue(aggregates[c - nKeys].kind, accumulators[c - nKeys])]
  {
    out := columns;
    for j := 0 to |aggregates|
      invariant |out| == |columns|
      invariant forall c :: 0 <= c < nKeys ==> out[c] == columns[c]
      invariant forall c :: nKeys <= c < |out| ==>
        out[c] == columns[c] + (if c < nKeys + j then [finalValue(aggregates[c - nKeys].kind, accumulators[c - nKeys])] else [])
    {
      out := out[nKeys + j := out[nKeys + j] + [finalValue(aggregates[j].kind, accumulators[j])]];
    }
  }

  /** One group's row of the output: its key values, then its final values. */
  method AppendGroup(columns: seq<seq<Value>>, nKeys: nat, aggregates: seq<PhysicalAggregate>, key: seq<Value>,
                     accumulators: seq<seq<Value>>, finalValue: (AggregateKind, seq<Value>) -> Value)
    returns (out: seq<seq<Value>>)
    requires |columns| == nKeys + |aggregates| && |key| == nKeys && |accumulators| == |aggregates|
    ensures |out| == |columns|
    ensures forall c :: 0 <= c < nKeys ==> out[c] == columns[c] + [key[c]]
    ensures forall c :: nKeys <= c < |out| ==>
      out[c] == columns[c] + [finalValue(aggregates[c - nKeys].kind, accumulators[c - nKeys])]
  {
    out := AppendKeyValues(columns, key);
    out := AppendFinalValues(out, nKeys, aggregates, accumulators, finalValue);
  }

  /** Columns holding the cells of every group are the output columns. */
  lemma ColumnsAreOutput(columns: seq<seq<Value>>, order: seq<seq<Value>>, traces: map<seq<Value>, seq<seq<Value>>>,
                         nKeys: nat, aggregates: seq<PhysicalAggregate>, finalValue: (AggregateKind, seq<Value>) -> Value)
    requires forall k :: k in order ==> k in traces && |k| == nKeys && |traces[k]| == |aggregates|
    requires |columns| == nKeys + |aggregates|
    requires forall c :: 0 <= c < |columns| ==> |columns[c]| == |order|
    requires forall c, q :: 0 <= c < nKeys && 0 <= q < |order| ==> columns[c][q] == order[q][c]
    requires forall j, q :: 0 <= j < |aggregates| && 0 <= q < |order| ==>
      columns[nKeys + j][q] == finalValue(aggregates[j].kind, traces[order[q]][j])
    ensures columns == OutputColumns(order, traces, nKeys, aggregates, finalValue)
  {
    var expected := OutputColumns(order, traces, nKeys, aggregates, finalValue);
    OutputColumnsSpec(order, traces, nKeys, aggregates, finalValue);
    forall c | 0 <= c < |columns|
      ensures columns[c] == expected[c]
    {
      if c >= nKeys {
        assert forall q :: 0 <= q < |order| ==> columns[nKeys + (c - nKeys)][q] == expected[c][q];
      }
    }
  }

  /** The output columns of `HashAggregate.execute`: for each group in
      insertion order, its key values go to the group columns and its
      accumulators' final values to the aggregate columns. */
  method BuildColumns(order: seq<seq<Value>>, traces: map<seq<Value>, seq<seq<Value>>>, nKeys: nat,
                      aggregates: seq<PhysicalAggregate>, finalValue: (AggregateKind, seq<Value>) -> Value)
    returns (columns: seq<seq<Value>>)
    requires forall k :: k in order ==> k in traces && |k| == nKeys && |traces[k]| == |aggregates|
    ensures columns == OutputColumns(order, traces, nKeys, aggregates, finalValue)
  {
    columns := seq(nKeys + |aggregates|, _ => []);
    for r := 0 to |order|
      invariant |columns| == nKeys + |aggregates|
      invariant forall c :: 0 <= c < |columns| ==> |columns[c]| == r
      invariant forall c, q :: 0 <= c < nKeys && 0 <= q < r ==> columns[c][q] == order[q][c]
      invariant forall j, q :: 0 <= j < |aggregates| && 0 <= q < r ==>
        columns[nKeys + j][q] == finalValue(aggregates[j].kind, traces[order[q]][j])
    {
      var key := order[r];
      columns := AppendGroup(columns, nKeys, aggregates, key, traces[key], finalValue);
    }
    ColumnsAreOutput(columns, order, traces, nKeys, aggregates, finalValue);
  }

  /** The loop of `HashAggregate.execute` ends after the last batch or at
      the first batch that fails, whose error the operator raises. */
  lemma RunEnds(batches: seq<RecordBatch>, groupExprs: seq<PhysicalExpr>, aggregates: seq<PhysicalAggregate>,
                schema: Schema, rt: Runtime, b: nat)
    requires b <= |batches|
    requires b == |batches| || HashAggregateRun(batches, b, groupExprs, aggregates, schema, rt).Fail?
    ensures var state := HashAggregateRun(batches, b, groupExprs, aggregates, schema, rt);
      HashAggregateOutput(batches, groupExprs, aggregates, schema, rt)
        == if state.Fail? then Fail(state.error) else Ok(state.value.output)
  {
    if b < |batches| {
      RunLoopFailPersists(batches, AdvanceWith(groupExprs, aggregates, schema, rt), b, |batches|);
    }
  }

  /** `HashAggregate.execute`: every batch is fed into the same groups, and
      after each batch a batch is built from all the groups so far. */
  method HashAggregateExecute(batches: seq<RecordBatch>, groupExprs: seq<PhysicalExpr>,
                              aggregates: seq<PhysicalAggregate>, schema: Schema, rt: Runtime)
    returns (r: Result<seq<RecordBatch>>)
    ensures r == HashAggregateOutput(batches, groupExprs, aggregates, schema, rt)
  {
    var state: Result<AggregateRun> := Ok(AggregateRun(NoGroups, []));
    var b := 0;
    while b < |batches| && state.Ok?
      invariant b <= |batches|
      invariant state == HashAggregateRun(batches, b, groupExprs, aggregates, schema, rt)
      decreases |batches| - b
    {
      state := AdvanceRun(batches, b, state.value, groupExprs, aggregates, schema, rt);
      b := b + 1;
    }
    RunEnds(batches, groupExprs, aggregates, schema, rt, b);
    if state.Fail? {
      return Fail(state.error);
    }
    return Ok(state.value.output);
  }

  /** One iteration of the loop of `HashAggregate.execute`: feed batch b into
      the groups and emit a batch from all of them. */
  method AdvanceRun(batches: seq<RecordBatch>, b: nat, run: AggregateRun,
                    groupExprs: seq<PhysicalExpr>, aggregates: seq<PhysicalAggregate>, schema: Schema, rt: Runtime)
    returns (r: Result<AggregateRun>)
    requires b < |batches|
    requires HashAggregateRun(batches, b, groupExprs, aggregates, schema, rt) == Ok(run)
    ensures r == HashAggregateRun(batches, b + 1, groupExprs, aggregates, schema, rt)
  {
    RunValid(batches, groupExprs, aggregates, schema, rt, b);
    RunStep(batches, groupExprs, aggregates, schema, rt, b, run);
    r := AdvanceExecute(run, batches[b], groupExprs, aggregates, schema, rt);
  }

  /** One iteration of the batch loop of `HashAggregate.execute`: the batch
      fed into the groups, then the columns built from all of them and
      `RecordBatch.from_pylists` appended to the output. */
  method AdvanceExecute(run: AggregateRun, batch: RecordBatch, groupExprs: seq<PhysicalExpr>,
                        aggregates: seq<PhysicalAggregate>, schema: Schema, rt: Runtime)
    returns (r: Result<AggregateRun>)
    requires GroupsValid(run.groups, |groupExprs|, |aggregates|)
    ensures r == Advance(run, batch, groupExprs, aggregates, schema, rt)
  {
    var fed := AggregateBatchExecute(run.groups, batch, groupExprs, aggregates);
    if fed.Fail? {
      return Fail(fed.error);
    }
    AggregateBatchValid(run.groups, batch, groupExprs, aggregates);
    var built := EmitExecute(fed.value, |groupExprs|, aggregates, schema, rt);
    return Ok(AggregateRun(fed.value, run.output + [built]));
  }

  /** The end of the batch loop of `HashAggregate.execute`: the columns built
      from the groups, then `RecordBatch.from_pylists`. */
  method EmitExecute(g: Groups, nKeys: nat, aggregates: seq<PhysicalAggregate>, schema: Schema, rt: Runtime)
    returns (batch: RecordBatch)
    requires GroupsValid(g, nKeys, |aggregates|)
    ensures batch == rt.fromLists(schema, OutputColumns(g.order, g.traces, nKeys, aggregates, rt.finalValue))
    ensures batch == EmitBatch(g, nKeys, aggregates, schema, rt)
  {
    assert GroupsShaped(g, nKeys, |aggregates|);
    var columns := BuildColumns(g.order, g.traces, nKeys, aggregates, rt.finalValue);
    batch := rt.fromLists(schema, columns);
  }

  /** The body of the batch loop of `HashAggregate.execute` up to the
      grouping: the input columns evaluated, then the rows fed. */
  method AggregateBatchExecute(g: Groups, batch: RecordBatch, groupExprs: seq<PhysicalExpr>,
                               aggregates: seq<PhysicalAggregate>) returns (r: Result<Groups>)
    requires GroupsValid(g, |groupExprs|, |aggregates|)
    ensures r == AggregateBatch(g, batch, groupExprs, aggregates)
  {
    var groupCols := EvaluateAll(groupExprs, batch);
    if groupCols.Fail? {
      return Fail(groupCols.error);
    }
    var aggrCols := EvaluateAll(AggregateInputs(aggregates), batch);
    if aggrCols.Fail? {
      return Fail(aggrCols.error);
    }
    r := GroupBatch(g, groupCols.value, aggrCols.value, RowCount(batch));
  }

  /** `plan.execute()`: the input's batches first, then the operator's own
      loop over them. */
  method Execute(plan: PhysicalPlan, rt: Runtime) returns (r: Result<seq<RecordBatch>>)
    ensures r == ExecuteSpec(plan, rt)
    decreases plan
  {
    match plan
    case ScanExec(source, projection) =>
      r := Ok(rt.scan(source, projection));
    case ProjectionExec(input, schema, exprs) =>
      var batches := Execute(input, rt);
      if batches.Fail? {
        return Fail(batches.error);
      }
      r := ProjectionExecute(batches.value, schema, exprs);
    case FilterExec(input, expr) =>
      var batches := Execute(input, rt);
      if batches.Fail? {
        return Fail(batches.error);
      }
      r := FilterExecute(batches.value, expr);
    case HashAggregate(input, groupExprs, aggregates, schema) =>
      var batches := Execute(input, rt);
      if batches.Fail? {
        return Fail(batches.error);
      }
      r := HashAggregateExecute(batches.value, groupExprs, aggregates, schema, rt);
    case NoPlan =>
      r := Fail(NoAttribute("execute"));
  }
}
