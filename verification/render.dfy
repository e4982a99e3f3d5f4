/** `print_tree` (querypy/utils.py) over logical plans: one line per node,
    indented by one tab per level, parents before their children. */
module Render {
  import opened LogicalPlans

  /** `"\t" * n`. */
  function Tabs(n: nat): (s: string)
    ensures |s| == n
  {
    if n == 0 then "" else Tabs(n - 1) + "\t"
  }

  /** The line of one node: its indentation, its text, a newline. The text
      is `repr(node)`, passed as `show` so that the shape of the output can be
      stated for any text. */
  function Line(plan: LogicalPlan, indent: nat, show: LogicalPlan -> string): string {
    Tabs(indent) + show(plan) + "\n"
  }

  /** What `print_tree(plan, indent)` returns: the node's line, then each
      child rendered one level deeper, in order. */
  function RenderTree(plan: LogicalPlan, indent: nat, show: LogicalPlan -> string): string
    decreases plan
  {
    Line(plan, indent, show) + (if plan.Scan? then "" else RenderTree(plan.input, indent + 1, show))
  }

  /** The nodes of the tree in pre-order: the node, then its descendants. */
  function PreOrder(plan: LogicalPlan): (nodes: seq<LogicalPlan>)
    ensures |nodes| >= 1 && nodes[0] == plan
    ensures nodes[|nodes| - 1].Scan?
    ensures forall k :: 0 <= k < |nodes| - 1 ==> Children(nodes[k]) == [nodes[k + 1]]
  {
    if plan.Scan? then [plan] else [plan] + PreOrder(plan.input)
  }

  /** The strings one after the other. */
  function Concat(parts: seq<string>): string {
    if parts == [] then "" else parts[0] + Concat(parts[1..])
  }

  /** Node k of `nodes` rendered k levels below `indent`. */
  function LinesOf(nodes: seq<LogicalPlan>, indent: nat, show: LogicalPlan -> string): (ls: seq<string>)
    ensures |ls| == |nodes|
  {
    seq(|nodes|, k requires 0 <= k < |nodes| => Line(nodes[k], indent + k, show))
  }

  /** The k-th node of the pre-order, rendered at depth k below `indent`. */
  function NodeLines(plan: LogicalPlan, indent: nat, show: LogicalPlan -> string): seq<string> {
    LinesOf(PreOrder(plan), indent, show)
  }

  lemma LinesOfTail(nodes: seq<LogicalPlan>, indent: nat, show: LogicalPlan -> string)
    requires nodes != []
    ensures LinesOf(nodes, indent, show)[1..] == LinesOf(nodes[1..], indent + 1, show)
  {
    var ls, rest := LinesOf(nodes, indent, show), LinesOf(nodes[1..], indent + 1, show);
    forall k | 0 <= k < |rest|
      ensures ls[1..][k] == rest[k]
    {
      assert indent + (k + 1) == (indent + 1) + k;
    }
  }

  /** Below the root, the lines are the child's lines one level deeper. */
  lemma NodeLinesTail(plan: LogicalPlan, indent: nat, show: LogicalPlan -> string)
    requires !plan.Scan?
    ensures var ls := NodeLines(plan, indent, show);
      ls[0] == Line(plan, indent, show) && ls[1..] == NodeLines(plan.input, indent + 1, show)
  {
    var nodes := PreOrder(plan);
    assert nodes[1..] == PreOrder(plan.input);
    LinesOfTail(nodes, indent, show);
  }

  /** The output holds exactly one line per node, in pre-order, each node
      indented by `indent` plus its depth. */
  lemma {:induction false} RenderIsPreOrder(plan: LogicalPlan, indent: nat, show: LogicalPlan -> string)
    ensures RenderTree(plan, indent, show) == Concat(NodeLines(plan, indent, show))
    decreases plan
  {
    var ls := NodeLines(plan, indent, show);
    if plan.Scan? {
      assert ls == [Line(plan, indent, show)];
      assert Concat(ls[1..]) == "";
    } else {
      RenderIsPreOrder(plan.input, indent + 1, show);
      NodeLinesTail(plan, indent, show);
      assert Concat(ls) == ls[0] + Concat(ls[1..]);
    }
  }

  /** A node without children renders to its own line alone; any other node
      renders its line, then its child one tab deeper. */
  lemma RenderShape(plan: LogicalPlan, indent: nat, show: LogicalPlan -> string)
    ensures Children(plan) == [] ==> RenderTree(plan, indent, show) == Tabs(indent) + show(plan) + "\n"
    ensures Children(plan) != [] ==>
      RenderTree(plan, indent, show) == Tabs(indent) + show(plan) + "\n" + RenderTree(Children(plan)[0], indent + 1, show)
  {
  }

  /** `print_tree(node, indent)`: the line, then the rendering of each child
      appended in a loop. */
  method PrintTree(node: LogicalPlan, indent: nat) returns (output: string)
    ensures output == RenderTree(node, indent, LogicalPlans.Repr)
    decreases node
  {
    output := PrintLine(node, indent);
    ghost var line := output;
    var children := Children(node);
    for k := 0 to |children|
      invariant output == line + (if k == 0 then "" else RenderTree(node.input, indent + 1, LogicalPlans.Repr))
    {
      assert children[k] == node.input;
      var tree := PrintTree(children[k], indent + 1);
      output := output + tree;
    }
    assert output == line + (if node.Scan? then "" else RenderTree(node.input, indent + 1, LogicalPlans.Repr));
  }

  /** The start of `print_tree`: the tabs, `repr(node)` and a newline
      appended to an empty output. */
  method PrintLine(node: LogicalPlan, indent: nat) returns (output: string)
    ensures output == Line(node, indent, LogicalPlans.Repr)
  {
    output := "";
    output := output + Tabs(indent);
    output := output + LogicalPlans.Repr(node);
    output := output + "\n";
  }
}
