# querypy in Dafny

querypy is a small query engine in the style of *How Query Engines Work*. A
query is a tree of **logical plans**: Scan, Projection, Filter, Aggregate and
OrderBy. The plans are built from **logical expressions**: columns, literals,
boolean and math binary expressions, aggregates and aliases. Each plan derives
its output schema from its input. An **optimizer rule**, projection
push-down, walks the tree and narrows the Scan to the columns the query
references. The **planner** compiles a logical plan into **physical plans**
and **physical expressions**: column names become indices into the input
schema. The physical operators **execute** over record batches: Scan reads
the source, Projection evaluates expressions per batch, Filter masks rows, and
HashAggregate groups rows by key into accumulators. `print_tree` renders a
plan tree as indented text.

The model has one module per part of the engine:

| module | file | models |
|---|---|---|
| `Errors` | errors.dfy | the exceptions as a `QueryError` value; a failure-compatible `Result` |
| `Types` | types.dfy | Arrow types, fields, schemas, column vectors, record batches |
| `Text` | text.dfy | `str`/`repr` of ints and strings, `join`, string order, `sorted(set(...))` |
| `LogicalExprs` | logical_expr.dfy | logical expressions, `to_field`, `repr`, the constructors |
| `LogicalPlans` | logical_plan.dfy | logical plans, `get_schema`, `children`, `repr` |
| `Optimizer` | optimizer.dfy | `extract_columns` and `push_down`, both as written and corrected |
| `PhysicalExprs` | physical_expr.dfy | physical expressions and `evaluate` |
| `PhysicalPlans` | physical_plan.dfy | `execute` of Scan, Projection, Filter and HashAggregate |
| `Planner` | planner.dfy | `create_physical_expr`, `create_physical_plan` |
| `Render` | render.dfy | `print_tree` |
| `PushDownFinding` | findings.dfy | a plan the push-down rule as written breaks |
| `PushDownExample` | pushdown_example.dfy | the plan of the repository's push-down test |

Every operation that can raise returns a `Result`. `Fail` carries the
exception the Python code would raise, including the `AttributeError` of
calling a method on the `None` that `create_physical_expr` and
`create_physical_plan` return for cases they do not handle. Those `None`
results are the variants `NoExpr` and `NoPlan`.

The pure code is modelled as functions with lemmas:

- logical expressions and plans;
- the planner;
- the corrected push-down rule.

The code that mutates state is modelled imperatively:

- `extract_columns` and `push_down` as written work on a `NameList` class. It holds the Python list they mutate and share.
- The operators' `execute` loops are methods with loop invariants. Each is proved equal to a specification function; the lemmas are stated about those functions.

Behaviour of the code that the model keeps as written:

- `Max` builds an aggregate named "SUM". The planner knows no "SUM", so an Aggregate that uses `Max` never compiles (`Planner.MaxNeverCompiles`).
- The logical Aggregate's schema lists the aggregate fields first. HashAggregate builds the group-key columns first (`Planner.HashAggregateLayoutMismatch`).
- A column the planner cannot resolve raises UnknownColumnError naming the index "-1", not the column (`Planner.ColumnCompiles`).
- A string literal's `to_field` raises "A literal cannot be a field" (querypy/planner/expressions/logical.py:68-70). The repository's test expects a field named after the value and typed StringType (tests/planner/expressions/test_logical.py:76-78). The model follows the code and raises (`LogicalExprs.LiteralFields`).

## Model

| member | source | states |
|---|---|---|
| Errors.MapResult | querypy/planner/planner.py:71-72 | a list comprehension whose element may raise: Ok exactly when every element succeeds, then one result per element in order |
| Types.TypeNameInjective | querypy/types_/__init__.py:51-73 | the metaclass names every `ArrowTypes` member after its attribute, so two members with the same name are the same member |
| Types.IntTypeParams | querypy/types_/__init__.py:15-19 | an integer type carries a `maxsize` of 8, 16, 32 or 64 and `some` true |
| Types.IntTypeWidths | querypy/types_/__init__.py:61-73 | the exact IntType arguments of each member, exactly the eight integer members have them, and each unsigned member is built with the same arguments as its signed one |
| Types.FieldsNamed | querypy/planner/plans/logical.py:31-34 | the fields kept by `select`: exactly the fields whose name is listed, never more than there were |
| Types.FieldsNamedAppend | querypy/planner/plans/logical.py:31-34 | selection distributes over concatenation, so the kept fields stay in schema order with their multiplicity |
| Types.FieldsNamedSingle | querypy/planner/plans/logical.py:31-34 | a single field is kept exactly when its name is listed |
| Types.Select | querypy/planner/plans/logical.py:31-34 | `schema.select(names)`: identity for an empty list, else exactly the fields whose name is listed, never more fields than the schema has |
| Types.SelectAppend | querypy/planner/plans/logical.py:31-34 | `select` on a schema split in two is the selection of the first half followed by that of the second: schema order is kept, whatever the order of the names |
| Types.FieldsNamedIdempotent | querypy/planner/plans/logical.py:31-34 | selecting the same names twice equals selecting them once |
| Types.SelectIdempotent | querypy/planner/plans/logical.py:31-34 | `select` is idempotent on schemas |
| Types.IndexOf | querypy/planner/planner.py:22-24 | `get_index_by_name`: -1 exactly when no field has the name, else the first field with it |
| Types.IndexFrom | querypy/planner/planner.py:22-24 | the search from a position: -1 exactly when no later field has the name, else the first later one |
| Types.GetValue | querypy/types_/__init__.py:96-101 | a literal vector answers None at every index; a materialised vector answers its i-th value, and an index outside it fails |
| Types.GetField | querypy/types_/__init__.py:160-161 | the i-th column, negative indices counting from the end, IndexError exactly outside `-n..n-1` |
| Types.BatchGrid | querypy/types_/__init__.py:88-158 | in a well-formed batch `column_count` is the number of schema fields, every column's `len` is `row_count`, and every cell below `row_count` of every materialised column can be read |
| Text.IntToString | querypy/planner/expressions/logical.py:82-83 | `str(int)`: non-empty, with a leading minus exactly for negative numbers |
| Text.NatToStringValue | querypy/planner/expressions/logical.py:82-83 | reading the digits of `str(n)` back gives `n` |
| Text.IntToStringValue | querypy/planner/expressions/logical.py:82-86 | `int(str(i)) == i` for every integer |
| Text.IntToStringInjective | querypy/planner/expressions/logical.py:82-83 | distinct integers give distinct `str`, so distinct integer literals give distinct field names |
| Text.NatToString | querypy/planner/expressions/logical.py:82-83 | the decimal digits of a natural, with no leading zero |
| Text.QuotedRepr | querypy/planner/expressions/logical.py:72-73 | `repr(str)`: the same quote at both ends, a double quote exactly when the string holds a single quote and no double quote |
| Text.EscapeCharRoundTrip | querypy/planner/expressions/logical.py:72-73 | each character's escape decodes back to that character, whatever follows it |
| Text.EscapeRoundTrip | querypy/planner/expressions/logical.py:72-73 | decoding the escaped text gives the string back |
| Text.QuotedReprRoundTrip | querypy/planner/expressions/logical.py:72-73 | `repr(s)` loses nothing: decoding what lies between its quotes gives `s` |
| Text.QuotedPlain | querypy/planner/expressions/logical.py:72-73 | a string of plain printable characters is shown as itself between single quotes |
| Text.Join | querypy/planner/plans/logical.py:63-64 | `', '.join(parts)`: empty for no parts, the part itself for one |
| Text.JoinAppend | querypy/planner/plans/logical.py:63-64 | joining one more part appends the separator and that part |
| Text.JoinContainsParts | querypy/planner/plans/logical.py:63-64 | every part occurs in the joined string |
| Text.QuotedAll | querypy/planner/plans/logical.py:42-43 | each name quoted, in order, as in a list's repr |
| Text.LexIrreflexive | querypy/optimizer/__init__.py:71 | Python's string `<` is irreflexive |
| Text.LexTransitive | querypy/optimizer/__init__.py:71 | Python's string `<` is transitive |
| Text.LexTotal | querypy/optimizer/__init__.py:71 | of two distinct strings one is smaller |
| Text.LexAsymmetric | querypy/optimizer/__init__.py:71 | string `<` is asymmetric |
| Text.InsertUnique | querypy/optimizer/__init__.py:70-71 | adding a name to a sorted duplicate-free list keeps it sorted and adds exactly that name |
| Text.SortUnique | querypy/optimizer/__init__.py:70-71 | `list(set(names))` sorted: strictly ascending and holding exactly the names given |
| Text.StrictlySortedDistinct | querypy/optimizer/__init__.py:70-71 | a strictly sorted list has no duplicates |
| Text.SortedByElements | querypy/optimizer/__init__.py:70-71 | two strictly sorted lists with the same elements are equal, so the sorted result depends only on the set of names |
| LogicalExprs.NameAttr | querypy/planner/planner.py:85 | the `name` attribute: absent exactly on literals |
| LogicalExprs.ToField | querypy/planner/expressions/logical.py:22-252 | the `to_field` of every expression kind; its contract is stated by the lemmas ColumnToField, LiteralFields, BooleanField, MathExprField and AggregateField |
| LogicalExprs.FindField | querypy/planner/expressions/logical.py:40-43 | the loop of `Column.to_field`: the first field with the name, else UnknownColumnError naming the column |
| LogicalExprs.ColumnToField | querypy/planner/expressions/logical.py:22-43 | a column's field is the first input field of that name, unchanged; failing exactly when there is none (always on an empty schema), with UnknownColumnError(name) |
| LogicalExprs.LiteralFields | querypy/planner/expressions/logical.py:68-96 | a string literal has no field ("A literal cannot be a field"); an integer's field is its decimal text typed Int64Type; a float's is its text typed FloatType; none reads the input |
| LogicalExprs.BooleanField | querypy/planner/expressions/logical.py:140-141 | a boolean expression's field is named after the operation and typed BooleanType, whatever the operands and input |
| LogicalExprs.MathExprField | querypy/planner/expressions/logical.py:201-202 | a math expression's field is named after the operation with the left operand's type, fails exactly when the left operand's does, and never depends on the right operand |
| LogicalExprs.AggregateField | querypy/planner/expressions/logical.py:251-252 | an aggregate's field is named after the aggregate with the inner expression's type, failing exactly when the inner one does |
| LogicalExprs.Repr | querypy/planner/expressions/logical.py:45-255 | `repr(expr)` of every expression; stated by LeafReprsReadBack, BooleanConstructors and MathAndAggregateConstructors |
| LogicalExprs.LeafReprsReadBack | querypy/planner/expressions/logical.py:45-86 | a leaf's repr gives it back: `#` then the column name, a string literal's text decoded from between its quotes, an integer literal's value read back from its digits |
| LogicalExprs.BooleanConstructors | querypy/planner/expressions/logical.py:151-159 | Eq, Neq, Gt, GtEq, Lt, LtEq, And, Or each fix their (name, op) pair, keep the operands, print as `l op r` and derive a BooleanType field with their name |
| LogicalExprs.MathAndAggregateConstructors | querypy/planner/expressions/logical.py:213-264 | Add, Subtract, Mult, Div fix their (name, op) pair (lines 213-216); Max and Min build aggregates named "SUM" and "MIN" (lines 263-264), printed as `SUM(expr)` |
| LogicalPlans.MakeScan | querypy/planner/plans/logical.py:16-20 | the Scan constructor keeps path, source and projection |
| LogicalPlans.DeriveSchema | querypy/planner/plans/logical.py:22-34 | `Scan.derive_schema`; stated by LogicalPlans.ScanSchema |
| LogicalPlans.GetSchema | querypy/planner/plans/logical.py:36-123 | `get_schema` of every plan; stated by ScanSchema, ProjectionSchema, FilterAndOrderBySchema and AggregateSchema |
| LogicalPlans.ToFields | querypy/planner/plans/logical.py:55-56 | the fields of a list of expressions: Ok exactly when every expression has a field, one field per expression in order, else the error of the first that fails |
| LogicalPlans.Children | querypy/planner/plans/logical.py:39-126 | a Scan has no children; every other plan has exactly its input |
| LogicalPlans.ScanSchema | querypy/planner/plans/logical.py:22-37 | a Scan's schema is the source's, narrowed by `select` when the projection is non-empty, fixed at construction |
| LogicalPlans.ProjectionSchema | querypy/planner/plans/logical.py:55-56 | a Projection's schema has one field per expression, each its `to_field` against the input, and fails exactly when one of them does |
| LogicalPlans.FilterAndOrderBySchema | querypy/planner/plans/logical.py:76-77 | Filter's schema is its input's, and so is OrderBy's (lines 122-123) |
| LogicalPlans.AggregateSchema | querypy/planner/plans/logical.py:102-105 | an Aggregate's schema is the aggregate fields followed by the group-by fields, failing exactly when one of them fails |
| LogicalPlans.ProjectionUnknownColumn | querypy/planner/plans/logical.py:55-56 | projecting a column the input lacks makes the schema fail, with UnknownColumnError(name) when no earlier expression failed |
| LogicalPlans.AggregateUnknownColumn | querypy/planner/plans/logical.py:102-105 | grouping by a column the input lacks makes the Aggregate's schema fail |
| LogicalPlans.ExprReprs | querypy/planner/plans/logical.py:63-64 | one repr per expression, element k being the repr of expression k |
| LogicalPlans.OrderKeyReprs | querypy/planner/plans/logical.py:128-131 | one `(column, True/False)` repr per sort key, element k for key k |
| LogicalPlans.Repr | querypy/planner/plans/logical.py:42-131 | `repr(plan)` of every plan node; stated by ReprNamesKind, ScanReprShowsPath and ReprShowsExprs |
| LogicalPlans.ReprNamesKind | querypy/planner/plans/logical.py:42-131 | the line names the node: plans of different kinds never have the same repr |
| LogicalPlans.ScanReprShowsPath | querypy/planner/plans/logical.py:42-43 | a Scan's line starts with `Scan: '`, then its path and a quote, and ends with its projection as a Python list |
| LogicalPlans.ReprShowsExprs | querypy/planner/plans/logical.py:63-131 | every expression of a Projection, Filter or Aggregate and every sort key of an OrderBy occurs in the node's line, and the input never affects it |
| Optimizer.ColumnRefs | querypy/optimizer/__init__.py:23-36 | the columns one expression references, or the refusal of an alias; stated by ColumnRefsAreLeaves |
| Optimizer.ColumnRefsAreLeaves | querypy/optimizer/__init__.py:23-36 | column extraction of one expression succeeds exactly when it has no alias, and then yields exactly the names of its Column leaves |
| Optimizer.ColumnRefsAllAreLeaves | querypy/optimizer/__init__.py:23-37 | the same for a list of expressions |
| Optimizer.PushDownSpec | querypy/optimizer/__init__.py:44-72 | the corrected rule keeps every node and expression, leaves a well-formed Scan at the bottom, and gives it exactly the accumulated names plus every column referenced above it, sorted and without duplicates |
| Optimizer.PushDown | querypy/optimizer/__init__.py:44-74 | the corrected push-down; stated by PushDownSpec, PushDownFails, PushDownSetOnly and PushDownOutcome |
| Optimizer.PushDownFails | querypy/optimizer/__init__.py:23-74 | push-down succeeds exactly on a plan with no OrderBy and no aliased expression, and an OrderBy itself raises NotImplementedError naming the plan |
| Optimizer.OptimizeCorrected | querypy/optimizer/__init__.py:41-72 | `optimize` as the rule intends it: fails exactly on an OrderBy or an alias, otherwise keeps the shape and gives the Scan exactly the columns referenced above it, sorted and without duplicates |
| Optimizer.OptimizeScan | querypy/optimizer/__init__.py:69-72 | a bare Scan is given the empty projection, which reads the whole source schema |
| Optimizer.PushDownSetOnly | querypy/optimizer/__init__.py:70-71 | the rewritten plan depends on the accumulated names only as a set |
| Optimizer.PushDownOutcome | querypy/optimizer/__init__.py:44-74 | whether push-down fails, and with which error, does not depend on the accumulated names |
| Optimizer.CollectAsWritten | querypy/optimizer/__init__.py:17-37 | the list `extract_columns` returns, as written; stated by CollectShared and CollectBounded |
| Optimizer.PushDownAsWritten | querypy/optimizer/__init__.py:44-74 | `push_down` as written; stated by AsWrittenSeeded, AsWrittenReadsNoMore and ScanNamesProjected |
| Optimizer.ScanNamesProjected | querypy/optimizer/__init__.py:44-72 | as written, the Scan projects exactly the list it was handed, sorted and without duplicates, and the rewrite fails exactly when that list cannot be built, with the same error |
| Optimizer.CollectShared | querypy/optimizer/__init__.py:17-37 | as written, with a non-empty list `extract_columns` appends exactly the referenced columns in order, and fails exactly when full extraction does |
| Optimizer.StepShared | querypy/optimizer/__init__.py:24-36 | one loop iteration on a non-empty list appends exactly the expression's columns |
| Optimizer.BinaryShared | querypy/optimizer/__init__.py:27-29 | with a non-empty list, the two recursive calls on a binary expression's operands append the left's then the right's columns to the caller's list |
| Optimizer.CollectBounded | querypy/optimizer/__init__.py:17-37 | as written, with any list, extraction never invents a name: each collected name was given or is referenced |
| Optimizer.StepBounded | querypy/optimizer/__init__.py:24-36 | one iteration on any list collects only given or referenced names |
| Optimizer.BinaryBounded | querypy/optimizer/__init__.py:27-29 | the operands' recursive calls on any list leave only given or referenced names in the caller's list |
| Optimizer.AggregatesShared | querypy/optimizer/__init__.py:64-66 | the loop over the aggregates on a non-empty list adds exactly their columns |
| Optimizer.AggregatesBounded | querypy/optimizer/__init__.py:64-66 | the loop over the aggregates adds only referenced columns |
| Optimizer.ExtendShared | querypy/optimizer/__init__.py:50-51 | `column_names.extend(extract_columns(..., columns=column_names))` on a non-empty list adds exactly the expressions' columns (twice over, the list being extended by itself) |
| Optimizer.AsWrittenSeeded | querypy/optimizer/__init__.py:44-72 | once the list of names is non-empty, the rule as written rewrites exactly as the corrected one |
| Optimizer.AsWrittenReadsNoMore | querypy/optimizer/__init__.py:44-72 | the rule as written fails exactly when the corrected one does, keeps the plan's shape, and its Scan projection is a subset of the corrected one's |
| Optimizer.NameList.constructor | querypy/optimizer/__init__.py:20-21 | a fresh list holding the given names |
| Optimizer.NameList.Append | querypy/optimizer/__init__.py:26 | `list.append`: the name added at the end, in place |
| Optimizer.NameList.Extend | querypy/optimizer/__init__.py:50-51 | `list.extend`: the other list's old contents added at the end, also when it is the same list |
| Optimizer.CollectFailPersists | querypy/optimizer/__init__.py:35-36 | once an expression raises, extraction of the whole list raises the same error |
| Optimizer.AggregatesFailPersists | querypy/optimizer/__init__.py:64-66 | once an aggregate raises, the loop raises the same error |
| Optimizer.ExtractColumns | querypy/optimizer/__init__.py:17-37 | `extract_columns` on the heap: the returned list holds the as-written collection; it IS the caller's list when that was non-empty, a fresh list otherwise, and an empty caller's list stays empty |
| Optimizer.ExtractStep | querypy/optimizer/__init__.py:24-36 | one loop iteration on the working list equals the as-written step |
| Optimizer.ExtractOperands | querypy/optimizer/__init__.py:27-29 | the two recursive calls on a binary expression's operands, with their returned lists discarded |
| Optimizer.ProjectionPushDown | querypy/optimizer/__init__.py:44-74 | `push_down(plan, column_names)` on the heap returns the as-written rewrite of the list's old contents; an empty caller's list stays empty, and a non-empty one ends up holding the names handed to the Scan |
| Optimizer.ExtendWithAggregates | querypy/optimizer/__init__.py:64-66 | the loop over the aggregate expressions updates the list as the as-written function says, or fails with the first error |
| Optimizer.ExtendWithColumns | querypy/optimizer/__init__.py:50-51 | the extend-by-extraction statement updates the list as the as-written function says |
| Optimizer.ApplyProjectionPushDown | querypy/optimizer/__init__.py:41-42 | `optimize(plan)` is the as-written push-down from an empty list |
| PhysicalExprs.Evaluate | querypy/planner/expressions/physical.py:17-58 | `evaluate` of every physical expression; stated by LeafEvaluation, BinaryChecks and BinaryRows |
| PhysicalExprs.EvaluateAll | querypy/planner/plans/physical.py:53 | `[e.evaluate(batch) for e in exprs]`: Ok exactly when every expression evaluates, one vector per expression in order |
| PhysicalExprs.LeafEvaluation | querypy/planner/expressions/physical.py:17-39 | a Column reads the batch's column with Python indexing and fails exactly outside it; a string literal is a literal vector of the value sized to the row count |
| PhysicalExprs.BinaryChecks | querypy/planner/expressions/physical.py:51-57 | operands of different sizes fail the size assertion; then operands of different types raise TypeError; an operand that is None fails |
| PhysicalExprs.BinaryRows | querypy/planner/expressions/physical.py:51-58 | a binary expression that evaluates had operands of equal size and type, and row i of its result is the operator applied to the operands' row i |
| PhysicalExprs.IntegerLiteralArithmetic | tests/planner/expressions/test_physical.py:20-43 | 10 - 5 = 5, 10 + 5 = 15, 10 * 5 = 50 and 10 / 5 = 2.0 on literal operands |
| PhysicalPlans.KeptIndices | querypy/planner/plans/physical.py:79 | the reference for a mask: the ascending indices whose mask value is truthy, all of them |
| PhysicalPlans.MaskedSelects | querypy/planner/plans/physical.py:79 | `[v for v, b in zip(values, mask) if b]` keeps exactly the values at the kept indices, in order |
| PhysicalPlans.FilterBatch | querypy/planner/plans/physical.py:76-82 | one batch filtered by its mask; stated by FilterLockStep and FilterColumnsSelect |
| PhysicalPlans.FilterLockStep | querypy/planner/plans/physical.py:71-83 | every column of a batch is masked at the same indices, keeping the schema and types; a well-formed batch gives a well-formed batch with one row per truthy mask entry |
| PhysicalPlans.FilterColumnsSelect | querypy/planner/plans/physical.py:78-81 | every filtered column keeps its type and exactly the values at the indices the mask keeps |
| PhysicalPlans.ProjectionMapsBatches | querypy/planner/plans/physical.py:49-54 | one output batch per input batch, with the projection's schema and column k being expression k evaluated on that batch |
| PhysicalPlans.ReadRow | querypy/planner/plans/physical.py:127-139 | a row's key and aggregate inputs, one value per group expression and per aggregate |
| PhysicalPlans.ReadPrefix | querypy/planner/plans/physical.py:119-139 | the rows of a batch read in order, one per row index, or the first read error |
| PhysicalPlans.FeedKeepsValid | querypy/planner/plans/physical.py:131-139 | feeding a row keeps every key once, with one accumulator per aggregate, only appends to the order, and the keys afterwards are those before plus the row's key |
| PhysicalPlans.FirstSeenSnoc | querypy/planner/plans/physical.py:131-134 | the first-appearance order over one more key appends that key exactly when it is new |
| PhysicalPlans.FirstSeenKeys | querypy/planner/plans/physical.py:127-135 | the first-appearance order keeps the keys already seen as a prefix, lists each key once, and holds exactly the keys seen or scanned |
| PhysicalPlans.FeedOrder | querypy/planner/plans/physical.py:131-134 | `setdefault` appends the key to the dict's order exactly when it is new (structurally; see Left out) |
| PhysicalPlans.FeedAllFirstSeen | querypy/planner/plans/physical.py:119-135 | after feeding rows, the group order equals FirstSeen of the rows' keys: each structurally distinct key once, in order of first appearance |
| PhysicalPlans.FeedAllKeys | querypy/planner/plans/physical.py:119-135 | only row keys become groups: a key has a group exactly when it had one before or some row carries it |
| PhysicalPlans.FeedBatchKeys | querypy/planner/plans/physical.py:119-135 | after a batch, the group order is FirstSeen of its row keys after the earlier keys, and a key has a group exactly when it had one before or some row's group values evaluate to it |
| PhysicalPlans.FeedAllValid | querypy/planner/plans/physical.py:119-139 | feeding rows keeps the groups valid and only appends new keys |
| PhysicalPlans.EveryRowHasGroup | querypy/planner/plans/physical.py:131-134 | every row's key has a group afterwards, and no group is lost |
| PhysicalPlans.FeedTrace | querypy/planner/plans/physical.py:136-139 | feeding a row appends its input to the accumulators of its own key and of no other |
| PhysicalPlans.AccumulatorsSeeOwnGroup | querypy/planner/plans/physical.py:136-139 | each accumulator sees exactly the inputs of the rows with its key, in row order |
| PhysicalPlans.FeedAllTracesShaped | querypy/planner/plans/physical.py:131-139 | feeding rows keeps one accumulator per aggregate for every key |
| PhysicalPlans.FeedAllGrows | querypy/planner/plans/physical.py:131-134 | feeding rows, whatever their shape, only ever appends keys to the order |
| PhysicalPlans.AggregateInputs | querypy/planner/plans/physical.py:115-117 | the aggregates' input expressions, in order |
| PhysicalPlans.FeedBatchValid | querypy/planner/plans/physical.py:119-139 | one batch fed into the groups keeps them valid, existing keys first |
| PhysicalPlans.ReadRowsAt | querypy/planner/plans/physical.py:119-139 | row i of the rows read is the row read at i |
| PhysicalPlans.ReadRowsShaped | querypy/planner/plans/physical.py:119-139 | every row read has one key value per group expression and one input per aggregate |
| PhysicalPlans.ReadRowsFailPersists | querypy/planner/plans/physical.py:119-139 | once a row fails to read, the batch fails with that error |
| PhysicalPlans.OutputColumnsSpec | querypy/planner/plans/physical.py:146-156 | the group-key columns first, then one column per aggregate holding each group's final value, one row per group in first-seen order |
| PhysicalPlans.AggregateBatchValid | querypy/planner/plans/physical.py:111-139 | a batch aggregated into the groups keeps them valid, existing keys first |
| PhysicalPlans.AggregateBatchGrows | querypy/planner/plans/physical.py:111-139 | aggregating a batch only ever appends keys to the order |
| PhysicalPlans.AdvanceOnlyAppends | querypy/planner/plans/physical.py:111-157 | one iteration of the batch loop only appends: the old keys and the old output batches are prefixes of the new, with exactly one more output batch |
| PhysicalPlans.HashAggregateOutput | querypy/planner/plans/physical.py:108-158 | the batches `HashAggregate.execute` returns; stated by RunEnds, RunValid, RunGrows and RunEmits |
| PhysicalPlans.RunValid | querypy/planner/plans/physical.py:108-158 | after n input batches there are n output batches, the groups kept valid throughout |
| PhysicalPlans.RunLast | querypy/planner/plans/physical.py:111-157 | the last input batch is fed into the groups of the run before it, and the batch built from the resulting groups is appended |
| PhysicalPlans.RunLoopFailPersists | querypy/planner/plans/physical.py:111-117 | once a batch fails, the batch loop fails with that error |
| PhysicalPlans.RunEnds | querypy/planner/plans/physical.py:111-158 | the operator returns the run's output after the last batch, or the error of the first batch that fails |
| PhysicalPlans.RunGrows | querypy/planner/plans/physical.py:109-157 | the groups are never reset: after k of n batches, the keys seen and the k output batches are prefixes of those after n |
| PhysicalPlans.RunEmits | querypy/planner/plans/physical.py:141-157 | output batch k is built by `RecordBatch.from_pylists` from all groups of batches 0..k, in first-seen order |
| PhysicalPlans.RunStep | querypy/planner/plans/physical.py:111-157 | the run over one more batch is one more iteration of the loop body applied to the run so far |
| PhysicalPlans.MaskValues | querypy/planner/plans/physical.py:79 | the masking comprehension as a loop equals the masked values |
| PhysicalPlans.FilterExecute | querypy/planner/plans/physical.py:71-83 | `Filter.execute`'s batch loop equals the filter specification, stopping at the first batch that fails |
| PhysicalPlans.FilterColumnExecute | querypy/planner/plans/physical.py:78-81 | one field filtered by the mask equals FilterColumn: the values where the mask is truthy, or the missing-`value` error when either is a literal vector |
| PhysicalPlans.FilterBatchExecute | querypy/planner/plans/physical.py:76-82 | the body for one batch, its mask then the loop over its fields, equals filtering that batch |
| PhysicalPlans.ProjectionExecute | querypy/planner/plans/physical.py:49-54 | `Projection.execute`'s loop equals the projection specification |
| PhysicalPlans.AccumulateRow | querypy/planner/plans/physical.py:137-139 | the accumulate loop feeds each accumulator its aggregate's value at the row, or fails with the first read error |
| PhysicalPlans.GroupRow | querypy/planner/plans/physical.py:127-139 | one row: key read, `setdefault` of fresh accumulators, accumulation; equals feeding the row read, or its read error |
| PhysicalPlans.GroupBatch | querypy/planner/plans/physical.py:119-139 | the row loop equals feeding the batch's rows |
| PhysicalPlans.AppendKeyValues | querypy/planner/plans/physical.py:151-152 | appends key value i to column i |
| PhysicalPlans.AppendFinalValues | querypy/planner/plans/physical.py:155-156 | appends aggregate j's final value to column `num_group_cols + j`, the key columns untouched |
| PhysicalPlans.AppendGroup | querypy/planner/plans/physical.py:150-156 | one group appends its key values to the key columns and its final values to the aggregate columns |
| PhysicalPlans.BuildColumns | querypy/planner/plans/physical.py:146-156 | the column-building loop equals the output columns |
| PhysicalPlans.EmitExecute | querypy/planner/plans/physical.py:146-157 | the columns built from valid groups and `RecordBatch.from_pylists` give the batch the run appends |
| PhysicalPlans.HashAggregateExecute | querypy/planner/plans/physical.py:108-158 | `HashAggregate.execute`'s loop equals the aggregate specification |
| PhysicalPlans.AdvanceRun | querypy/planner/plans/physical.py:111-157 | one loop iteration over batch b turns the run over b batches into the run over b + 1 |
| PhysicalPlans.AdvanceExecute | querypy/planner/plans/physical.py:111-157 | the body of the batch loop on valid groups equals one iteration of the run |
| PhysicalPlans.AggregateBatchExecute | querypy/planner/plans/physical.py:113-139 | the body for one batch equals aggregating that batch into the groups |
| PhysicalPlans.ExecuteSpec | querypy/planner/plans/physical.py:28-158 | the batches `execute` yields for every operator; stated by ProjectionMapsBatches, FilterLockStep and the Run lemmas, and met by PhysicalPlans.Execute |
| PhysicalPlans.Execute | querypy/planner/plans/physical.py:28-158 | `plan.execute()` for every operator equals the execution specification; None fails |
| Planner.CreatePhysicalExpr | querypy/planner/planner.py:17-59 | `create_physical_expr`; stated by ColumnCompiles, AliasCompilesAsInner, LiteralsCompile, BinaryCompiles and CompiledColumnsInRange |
| Planner.CreatePhysicalPlan | querypy/planner/planner.py:64-112 | `create_physical_plan`; stated by ScanFilterOrderByCompile, ProjectionCompiles, AggregateCompiles and HashAggregateLayoutMismatch |
| Planner.BooleanOpNamed | querypy/planner/planner.py:41-47 | a Boolean's name selects a comparison operator (eq, gt, lt only) |
| Planner.MathOpNamed | querypy/planner/planner.py:51-59 | a MathExpr's name selects an arithmetic operator |
| Planner.ColumnCompiles | querypy/planner/planner.py:21-25 | a column compiles exactly when the schema has a field of that name, to the index of the first such field; otherwise UnknownColumnError("-1") |
| Planner.CompiledColumnReads | querypy/planner/planner.py:21-25 | a compiled column evaluated on a batch laid out as the schema reads the column of that name |
| Planner.AliasCompilesAsInner | querypy/planner/planner.py:26-31 | an alias is resolved by the inner column's name, never the alias; an alias of a literal has no name to resolve |
| Planner.AliasExample | tests/planner/test_planner.py:11-22 | an alias over the one-field schema resolves to index 0; an alias of a missing column raises UnknownColumnError |
| Planner.LiteralsCompile | querypy/planner/planner.py:32-37 | literals compile to physical literals of the same value, whatever the input |
| Planner.BinaryCompiles | querypy/planner/planner.py:38-59 | both operands compile first, left then right, propagating their errors; the name then picks the operator, or gives None |
| Planner.CompiledColumnsInRange | querypy/planner/planner.py:17-59 | every column index of a compiled expression is a valid position of the schema it was compiled against |
| Planner.ScanFilterOrderByCompile | querypy/planner/planner.py:64-77 | a Scan compiles to a physical Scan of the same source and projection; a Filter to the compiled predicate over the compiled input; an OrderBy to None, so a plan above it compiles but cannot execute |
| Planner.ProjectionCompiles | querypy/planner/planner.py:69-73 | a Projection compiles exactly when its input, its schema and all its expressions do, to the compiled expressions in order under the logical schema |
| Planner.AggregateDispatch | querypy/planner/planner.py:84-105 | MAX, COUNT and AVG wrap the compiled inner expression; every other name raises NotImplementedError |
| Planner.AggregateCompiles | querypy/planner/planner.py:78-112 | an Aggregate compiles exactly when its input, groups, aggregates and schema do, to a HashAggregate of them in order |
| Planner.MaxNeverCompiles | querypy/planner/planner.py:84-105 | an Aggregate over `Max(x)` always raises NotImplementedError, `Max` being named "SUM" |
| Planner.HashAggregateLayoutMismatch | querypy/planner/planner.py:107-112 | the compiled HashAggregate's schema starts with the aggregate fields while its column 0 holds the group keys |
| Render.RenderTree | querypy/utils.py:1-23 | the text `print_tree` prints; stated by RenderIsPreOrder and RenderShape, and met by Render.PrintTree |
| Render.Tabs | querypy/utils.py:17 | `"\t" * indent` has `indent` characters |
| Render.PreOrder | querypy/utils.py:20-22 | the nodes from the root down: each the only child of the one before, ending at a Scan |
| Render.RenderIsPreOrder | querypy/utils.py:16-23 | the output is one line per node in pre-order, the node at depth k indented by `indent + k` tabs |
| Render.RenderShape | querypy/utils.py:16-22 | a leaf renders as its own line; any other node as its line followed by its child one tab deeper |
| Render.PrintTree | querypy/utils.py:1-23 | `print_tree`'s appends and child loop equal the rendering |
| Render.PrintLine | querypy/utils.py:16-19 | the tabs, `repr(node)` and a newline appended to an empty output make the node's line |
| Render.NodeLinesTail | querypy/utils.py:20-22 | below the root, the lines of the pre-order are the child's lines one tab deeper |
| PushDownFinding.AsWrittenCollectsOnlyX | querypy/optimizer/__init__.py:20-29 | on `[#a + #b, #x]` from an empty list, extraction as written collects only "x" |
| PushDownFinding.AllReferences | querypy/optimizer/__init__.py:23-36 | the same expressions reference a, b and x |
| PushDownFinding.SortedNames | querypy/optimizer/__init__.py:70-71 | the sorted projections of the example |
| PushDownFinding.NarrowAndFullSchemas | querypy/planner/plans/logical.py:31-34 | the Scan narrowed to x has lost a; the full projection keeps the source schema |
| PushDownFinding.AsWrittenRewrite | querypy/optimizer/__init__.py:44-72 | as written, the Scan is narrowed to ["x"] |
| PushDownFinding.CorrectedRewrite | querypy/optimizer/__init__.py:44-72 | corrected, the Scan gets ["a", "b", "x"] |
| PushDownFinding.NarrowPlanFails | querypy/planner/planner.py:69-73 | the plan as rewritten has no schema and fails to compile with UnknownColumnError("a") |
| PushDownFinding.FullFields | querypy/planner/plans/logical.py:55-56 | the expressions have fields against the full schema |
| PushDownFinding.FullExprsCompile | querypy/planner/planner.py:72 | the expressions compile against the full schema |
| PushDownFinding.FullPlanCompiles | querypy/planner/planner.py:69-73 | the corrected plan keeps the original schema and compiles |
| PushDownFinding.LostColumns | querypy/optimizer/__init__.py:20-29 | the finding in one statement: the rewrite as written loses columns and breaks compilation; the corrected one keeps the schema and compiles |
| PushDownExample.ExpectedSorted | tests/optimizer/test_projectionpushdown.py:27-28 | the test's expected projection is strictly ascending |
| PushDownExample.InnerRefs | querypy/optimizer/__init__.py:54-68 | below the projection the plan references some_agg, some_max and salary |
| PushDownExample.AsWrittenFirstStep | querypy/optimizer/__init__.py:49-53 | the projection's bare column seeds the list, after which both rules agree |
| PushDownExample.InnerPushDown | querypy/optimizer/__init__.py:54-72 | below the projection the corrected rule keeps the shape and narrows the Scan to the test's expected columns |
| PushDownExample.PushDownTest | tests/optimizer/test_projectionpushdown.py:14-28 | on the test's plan the rule as written succeeds, keeps the shape, and the Scan three levels down gets ['country', 'salary', 'some_agg', 'some_max']; the corrected rule agrees |

## Left out

- I/O: reading CSV files (`querypy/datasources/csv.py`) and the data source's `scan`. Execution takes what a scan returns as the parameter `Runtime.scan`.
- Accumulators: `create_accumulator`, `accumulate` and `final_value` are not in the modelled files. An accumulator is the sequence of values it was fed; its final value is the parameter `Runtime.finalValue`.
- `RecordBatch.from_pylists` is not in the modelled files. It is the parameter `Runtime.fromLists`.
- Schema methods: `Schema.select` and `get_index_by_name` are not defined in `querypy/types_/__init__.py`. The model defines them from their use: `select(names)` keeps the listed fields in schema order, and `select([])` returns the schema unchanged; `get_index_by_name` gives the index of the first field with the name, or -1.
- Types.FieldsNamed, Types.Select: their own contracts state which fields are kept. Order and multiplicity are stated by Types.FieldsNamedAppend and Types.SelectAppend.
- `MathOp` is not part of this model. The planner's MathExpr dispatch assumes its members' names are the names the logical constructors give: "subtract", "add", "multiply" and "divide".
- The `Alias` class is not defined in `querypy/planner/expressions/logical.py`. `create_physical_expr` tests `case logical_expressions.Alias()` right after the Column case (querypy/planner/planner.py:26). That lookup raises AttributeError, so even if the planner module could be imported (see the `MathOp` import below), the code would compile only Column expressions and raise AttributeError for every other one. The model gives Alias its own constructor, as the planner's tests use it, and compiles the cases after it. The model's Alias field is the inner expression's field renamed to the alias. It raises AlreadyExistsColumnError when another input field already has that name. Its repr is not modelled.
- Physical vectors: `Filter.execute` reads `field.value` and builds a three-argument `ColumnVector`, while the types file's vector is abstract with `(type, size)`. The model's `Vector` stores its values explicitly.
- Physical literals: `LiteralValueVector` is built with three arguments in `LiteralString.evaluate` but takes two. The model's literal vector keeps the value; `get_value` on it gives None, as in the types file.
- `Binary.evaluate` ends by calling itself with two vectors, which has no defined meaning. The model keeps the size and type checks and gives the operators (`Eq`, `Gt`, `Lt`, `Add`, `Subtract`, `Multiply`, `Divide`, not defined in the modelled files) an element-wise meaning. `Eq.evaluate`'s own signature is not modelled.
- Physical literals and aggregates: `LiteralInteger`, `LiteralFloat`, `Max`, `Count` and `Avg` are not in querypy/planner/expressions/physical.py. The model's `IntLit` and `FloatLit` literal vectors and its aggregate kinds are its own. An operator reads a literal operand's value on every row (`PhysicalExprs.ValueAt`). In the types file, `get_value` on a `LiteralValueVector` gives None. PhysicalExprs.IntegerLiteralArithmetic depends on the model's reading.
- Text.IntToString: its own contract states only the sign. The value is stated by Text.IntToStringValue.
- Text.NatToString: its own contract states only the digit form. The value is stated by Text.NatToStringValue.
- Text.Join: its own contract states the cases of no part and one part. The general case is stated by Text.JoinAppend and Text.JoinContainsParts.
- Text.QuotedRepr: characters from U+0080 up are treated as printable and shown as themselves. Python escapes the non-printable ones among them as `\x`, `\u` or `\U`.
- Optimizer.ProjectionPushDown: when the rewrite fails, the caller's list holds whatever the extraction appended before the error. That partial state is not stated.
- Floating point: floats are exact reals. `str` of a float literal is carried as its text. Its default object repr is a fixed string.
- The dunder overloads (`Column.__gt__` and the rest, logical.py:167-226) are not modelled. Expressions are built with the named constructors.
- querypy/planner/expressions/logical.py:226 rebinds the name `LiteralFloat` to a lambda. After that, `case logical_expressions.LiteralFloat()` (querypy/planner/planner.py:36) names a lambda, not a class, and raises TypeError when reached. The model keeps `LiteralFloat` a class and compiles a float literal to a float literal vector.
- Two more imports name things their modules do not define. querypy/planner/planner.py:10 imports `MathOp` from querypy/planner/expressions/logical.py. querypy/planner/plans/physical.py:8-9 import `Accumulator` and `Aggregate` from querypy/planner/expressions/physical.py. Each raises ImportError, so as written neither the planner module nor the physical-plans module can be imported. The model treats both as importable, with `MathOp` and the accumulators supplied as described above.
- querypy/optimizer/__init__.py:8 imports `get_text_tree`, which querypy/utils.py does not define, so importing the optimizer module raises ImportError. The model treats the optimizer as importable.
- Vector sizes are `nat`. A vector with a negative size makes `len()` raise ValueError; the model does not represent such vectors.
- Projection's `execute` is a generator, and Filter and HashAggregate pull its batches one at a time (querypy/planner/plans/physical.py:49-54, 75, 111). The model evaluates each operator over all its input batches before the operator above it starts. When only one operator can fail, the batches and the error are the same. When operators at different levels fail on different batches, the error reported can differ. Example: a Filter on column 0 over a Projection of column 0, where the first scanned batch holds one literal vector and the second has no columns. Python raises AttributeError('value') in the Filter on batch 0. The model reports the Projection's IndexOutOfRange(0) from batch 1.
- PhysicalPlans.Feed, PhysicalPlans.FirstSeen: group keys are compared structurally, as sequences of `Value`. The dict of querypy/planner/plans/physical.py:131 treats keys equal under Python's `==` as one key, so `(1,)`, `(1.0,)` and `(True,)` share one group, kept under the first key seen. The same holds for 0, 0.0 and False. The model opens a separate group for each of `Int(1)`, `Float(1.0)` and `Bool(true)`. Its first-appearance order and key sets (PhysicalPlans.FeedOrder, FeedAllFirstSeen, FeedAllKeys, FeedBatchKeys) are stated up to that structural equality. This matters only when a scan puts mixed numeric or boolean values in one grouped column; the CSV source yields only integers, strings and None.
- PhysicalPlans.GroupRow, PhysicalPlans.GroupBatch: reading a row's key and inputs happens before its accumulators are fed. The source interleaves these steps, but the same rows end in the same groups and the first failing read gives the same error.
- PhysicalPlans.EmitBatch builds a batch from no columns when the groups lack a key's accumulators. No run reaches that case, since every run keeps its groups valid (PhysicalPlans.RunValid); the case only makes the function total.
- Physical plans' `schema()`, `children()` and `__repr__` are not modelled. Neither are the physical Column's and HashAggregate's reprs.
- The `OptimizerRule` base class, the DataFrame API (`querypy/planner/dataframe.py`), `main.py`, and the older modules `querypy/planner/logical.py` and `querypy/planner/expressions.py` are not part of this model.
- The filter expression in the push-down test's plan is written directly as `#salary > 10000`. DataFrame's string parsing of filters is not modelled.
- The `QueryError` messages are modelled only where a member states them, and only in part: the unknown column's name or index, and the unsupported plan's text.

## Findings

| source | as written | input that shows it | evidently intended | confidence | as-written member | corrected member |
|---|---|---|---|---|---|---|
| querypy/optimizer/__init__.py:20-29 | `if not columns: columns = []` replaces an EMPTY caller's list with a fresh one. The recursive calls for a binary expression's operands (and an aggregate's inner expression) discard the returned list, so while `push_down`'s list is still empty those columns are lost | `Projection([#a + #b, #x])` over a Scan of a source with columns a, b, x: the Scan gets projection `['x']`, and the optimised plan's schema and compilation fail with UnknownColumnError("a") | every referenced column reaches the Scan: projection `['a', 'b', 'x']`, same schema as before, plan compiles | not executed; high | PushDownFinding.LostColumns | Optimizer.PushDownSpec |
