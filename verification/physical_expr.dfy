/** Physical expressions: evaluated against a record batch, each yields a
    column vector (querypy/planner/expressions/physical.py).

    Only `Column`, `LiteralString` and the checks at the start of
    `Binary.evaluate` are defined in that file. The integer and float
    literals and the operator classes it refers to are given the element-wise
    meaning below: an operator combines the values of its two operands row by
    row, a literal operand standing for its value on every row. */
module PhysicalExprs {
  import opened Errors
  import opened Types
  import opened Text

  /** The binary operator classes the planner instantiates. */
  datatype BinaryOp = EqOp | GtOp | LtOp | SubtractOp | AddOp | MultiplyOp | DivideOp

  predicate IsComparison(op: BinaryOp) {
    op == EqOp || op == GtOp || op == LtOp
  }

  /** A physical expression; `NoExpr` stands for the Python `None` that
      `create_physical_expr` returns for an expression it has no case for. */
  datatype PhysicalExpr =
    | ColumnIndex(i: int)
    | StringLit(s: string)
    | IntLit(n: int)
    | FloatLit(f: real)
    | Binary(op: BinaryOp, l: PhysicalExpr, r: PhysicalExpr)
    | NoExpr

  /** The aggregate functions an `Aggregate` physical expression can hold. */
  datatype AggregateKind = MaxAgg | CountAgg | AvgAgg

  /** `Max(expr)`, `Count(expr)`, `Avg(expr)`: a function over the values of `expr`. */
  datatype PhysicalAggregate = PhysicalAggregate(kind: AggregateKind, expr: PhysicalExpr)

  /** The value an operand contributes at row `i`: a literal vector's single
      value, or the i-th stored value. */
  function ValueAt(v: ColumnVector, i: int): (r: Result<Value>)
    ensures v.LiteralVector? ==> r == Ok(v.value)
    ensures v.Vector? ==> r == GetValue(v, i)
  {
    match v
    case LiteralVector(_, value, _) => Ok(value)
    case Vector(_, _, _) => GetValue(v, i)
  }

  /** One operator applied to one pair of values. Comparisons give a bool;
      arithmetic needs two ints or two floats (`+` also joins two strings);
      division always gives a float and refuses a zero divisor. */
  function Combine(op: BinaryOp, x: Value, y: Value): Result<Value> {
    match op
    case EqOp => Ok(Bool(x == y))
    case GtOp =>
      if x.Int? && y.Int? then Ok(Bool(x.i > y.i))
      else if x.Float? && y.Float? then Ok(Bool(x.r > y.r))
      else if x.Str? && y.Str? then Ok(Bool(LexLess(y.s, x.s)))
      else Fail(TypeMismatch)
    case LtOp =>
      if x.Int? && y.Int? then Ok(Bool(x.i < y.i))
      else if x.Float? && y.Float? then Ok(Bool(x.r < y.r))
      else if x.Str? && y.Str? then Ok(Bool(LexLess(x.s, y.s)))
      else Fail(TypeMismatch)
    case SubtractOp =>
      if x.Int? && y.Int? then Ok(Int(x.i - y.i))
      else if x.Float? && y.Float? then Ok(Float(x.r - y.r))
      else Fail(TypeMismatch)
    case AddOp =>
      if x.Int? && y.Int? then Ok(Int(x.i + y.i))
      else if x.Float? && y.Float? then Ok(Float(x.r + y.r))
      else if x.Str? && y.Str? then Ok(Str(x.s + y.s))
      else Fail(TypeMismatch)
    case MultiplyOp =>
      if x.Int? && y.Int? then Ok(Int(x.i * y.i))
      else if x.Float? && y.Float? then Ok(Float(x.r * y.r))
      else Fail(TypeMismatch)
    case DivideOp =>
      if x.Int? && y.Int? then (if y.i == 0 then Fail(ZeroDivision) else Ok(Float(x.i as real / y.i as real)))
      else if x.Float? && y.Float? then (if y.r == 0.0 then Fail(ZeroDivision) else Ok(Float(x.r / y.r)))
      else Fail(TypeMismatch)
  }

  /** The operator applied to rows 0..n-1 of the two operands, or the error
      of the first row that fails. */
  function CombineRows(op: BinaryOp, a: ColumnVector, b: ColumnVector, n: nat): (r: Result<seq<Value>>)
    ensures r.Ok? <==> forall i :: 0 <= i < n ==> CombineAt(op, a, b, i).Ok?
    ensures r.Ok? ==> |r.value| == n && forall i :: 0 <= i < n ==> r.value[i] == CombineAt(op, a, b, i).value
  {
    if n == 0 then Ok([])
    else
      var init :- CombineRows(op, a, b, n - 1);
      var last :- CombineAt(op, a, b, n - 1);
      Ok(init + [last])
  }

  function CombineAt(op: BinaryOp, a: ColumnVector, b: ColumnVector, i: int): Result<Value> {
    var x :- ValueAt(a, i);
    var y :- ValueAt(b, i);
    Combine(op, x, y)
  }

  /** The type of an operator's result vector. */
  function ResultType(op: BinaryOp, operand: ArrowType): ArrowType {
    if IsComparison(op) then BooleanType
    else if op == DivideOp then DoubleType
    else operand
  }

  /** `expr.evaluate(batch)`. */
  function Evaluate(e: PhysicalExpr, batch: RecordBatch): Result<ColumnVector> {
    match e
    case ColumnIndex(i) => GetField(batch, i)
    case StringLit(s) => Ok(LiteralVector(StringType, Str(s), RowCount(batch)))
    case IntLit(n) => Ok(LiteralVector(Int64Type, Int(n), RowCount(batch)))
    case FloatLit(f) => Ok(LiteralVector(FloatType, Float(f), RowCount(batch)))
    case Binary(op, l, r) =>
      var a :- Evaluate(l, batch);
      var b :- Evaluate(r, batch);
      if a.size != b.size then Fail(SizeMismatch)
      else if a.typ != b.typ then Fail(TypeMismatch)
      else
        var values :- CombineRows(op, a, b, a.size);
        Ok(Vector(ResultType(op, a.typ), values, a.size))
    case NoExpr => Fail(NoAttribute("evaluate"))
  }

  /** `[e.evaluate(batch) for e in exprs]`. */
  function EvaluateAll(exprs: seq<PhysicalExpr>, batch: RecordBatch): (r: Result<seq<ColumnVector>>)
    ensures r.Ok? <==> forall k :: 0 <= k < |exprs| ==> Evaluate(exprs[k], batch).Ok?
    ensures r.Ok? ==> |r.value| == |exprs|
    ensures r.Ok? ==> forall k :: 0 <= k < |exprs| ==> r.value[k] == Evaluate(exprs[k], batch).value
  {
    if exprs == [] then Ok([])
    else
      var v :- Evaluate(exprs[0], batch);
      var rest :- EvaluateAll(exprs[1..], batch);
      assert forall k :: 0 < k < |exprs| ==> exprs[k] == exprs[1..][k - 1];
      Ok([v] + rest)
  }

  // ---------------------------------------------------------------------------
  // Properties

  /** A column expression yields the batch's column at its index, counted from
      the end when negative; a literal yields a vector of the batch's row count
      that answers None at every index. */
  lemma LeafEvaluation(batch: RecordBatch, i: int, s: string, n: int, k: int)
    ensures 0 <= i < |batch.columns| ==> Evaluate(ColumnIndex(i), batch) == Ok(batch.columns[i])
    ensures -|batch.columns| <= i < 0 ==>
      Evaluate(ColumnIndex(i), batch) == Ok(batch.columns[|batch.columns| + i])
    ensures Evaluate(ColumnIndex(i), batch).Fail? <==> !(-|batch.columns| <= i < |batch.columns|)
    ensures var v := Evaluate(StringLit(s), batch).value;
      v.typ == StringType && Len(v) == RowCount(batch) && GetValue(v, k) == Ok(Null)
    ensures var v := Evaluate(IntLit(n), batch).value;
      v.typ == Int64Type && Len(v) == RowCount(batch) && GetValue(v, k) == Ok(Null)
  {
  }

  /** `Binary.evaluate` refuses operands of different lengths (the assertion)
      and then operands of different types (TypeError), before combining. */
  lemma BinaryChecks(op: BinaryOp, l: PhysicalExpr, r: PhysicalExpr, batch: RecordBatch)
    requires Evaluate(l, batch).Ok? && Evaluate(r, batch).Ok?
    ensures var a, b := Evaluate(l, batch).value, Evaluate(r, batch).value;
      && (a.size != b.size ==> Evaluate(Binary(op, l, r), batch) == Fail(SizeMismatch))
      && (a.size == b.size && a.typ != b.typ ==> Evaluate(Binary(op, l, r), batch) == Fail(TypeMismatch))
    ensures Evaluate(Binary(op, NoExpr, r), batch) == Fail(NoAttribute("evaluate"))
  {
  }

  /** A successful binary evaluation has the operands' size, and row i holds
      the operator applied to the operands' values at row i. */
  lemma BinaryRows(op: BinaryOp, l: PhysicalExpr, r: PhysicalExpr, batch: RecordBatch)
    requires Evaluate(Binary(op, l, r), batch).Ok?
    ensures var a, b := Evaluate(l, batch).value, Evaluate(r, batch).value;
      var v := Evaluate(Binary(op, l, r), batch).value;
      && a.size == b.size && a.typ == b.typ
      && v.Vector? && v.size == a.size && v.typ == ResultType(op, a.typ)
      && forall i :: 0 <= i < a.size ==> GetValue(v, i) == CombineAt(op, a, b, i)
  {
  }

  /** The arithmetic of two integer literals, read at row 0 of any non-empty
      batch: 10 - 5 = 5, 10 + 5 = 15, 10 * 5 = 50 and 10 / 5 = 2.0. */
  lemma IntegerLiteralArithmetic(batch: RecordBatch)
    requires RowCount(batch) >= 1
    ensures var v := Evaluate(Binary(SubtractOp, IntLit(10), IntLit(5)), batch); v.Ok? && GetValue(v.value, 0) == Ok(Int(5))
    ensures var v := Evaluate(Binary(AddOp, IntLit(10), IntLit(5)), batch); v.Ok? && GetValue(v.value, 0) == Ok(Int(15))
    ensures var v := Evaluate(Binary(MultiplyOp, IntLit(10), IntLit(5)), batch); v.Ok? && GetValue(v.value, 0) == Ok(Int(50))
    ensures var v := Evaluate(Binary(DivideOp, IntLit(10), IntLit(5)), batch); v.Ok? && GetValue(v.value, 0) == Ok(Float(2.0))
  {
    var ten, five := LiteralVector(Int64Type, Int(10), RowCount(batch)), LiteralVector(Int64Type, Int(5), RowCount(batch));
    assert CombineAt(SubtractOp, ten, five, 0) == Ok(Int(5));
    assert CombineAt(AddOp, ten, five, 0) == Ok(Int(15));
    assert CombineAt(MultiplyOp, ten, five, 0) == Ok(Int(50));
    assert CombineAt(DivideOp, ten, five, 0) == Ok(Float(2.0));
  }
}
