/** Flattening of operator chains.  A nested binary, logical or assignment
    expression whose operands are again expressions of the same kind with
    an operator from a given set is turned into the list of those nodes,
    walking down one side of the tree with a loop rather than recursion. */
module Linearize {
  import opened Wrappers
  import opened NodeKinds
  import opened Nodes
  import F = FieldSchema

  /** The node kinds with `left`, `right` and `operator` fields that the
      linearizers are instantiated with. */
  predicate BinaryLike(k: Kind)
  {
    k == BinaryExpression || k == LogicalExpression || k == AssignmentExpression
  }

  /** Where the operands and the operator sit: an assignment lists its
      operator first. */
  function LeftIndex(k: Kind): nat
  {
    if k == AssignmentExpression then 1 else 0
  }

  function RightIndex(k: Kind): nat
  {
    if k == AssignmentExpression then 2 else 1
  }

  function OperatorIndex(k: Kind): nat
  {
    if k == AssignmentExpression then 0 else 2
  }

  /** A binary-like node with both operands and its operator present, which
      is what its layout demands. */
  predicate Operands(n: Node)
  {
    && BinaryLike(n.kind) && |n.fields| == 3
    && n.fields[LeftIndex(n.kind)].Ptr? && n.fields[LeftIndex(n.kind)].node.Some?
    && n.fields[RightIndex(n.kind)].Ptr? && n.fields[RightIndex(n.kind)].node.Some?
    && n.fields[OperatorIndex(n.kind)].Label? && n.fields[OperatorIndex(n.kind)].ident.Some?
  }

  /** A binary-like node with its kind's layout has its operands. */
  lemma ConformingOperands(n: Node)
    requires Conforms(n) && BinaryLike(n.kind)
    ensures Operands(n)
  {
    F.OperandsWidth(n.kind);
    F.LeftAt(n.kind);
    F.RightAt(n.kind);
    F.OperatorAt(n.kind);
    FieldOfAt(n, LeftIndex(n.kind), F.FieldSpec(F.NodePtr, F.Left, false));
    FieldOfAt(n, RightIndex(n.kind), F.FieldSpec(F.NodePtr, F.Right, false));
    FieldOfAt(n, OperatorIndex(n.kind), F.FieldSpec(F.NodeLabel, F.Operator, false));
  }

  /** Every binary-like node of a well-formed tree has its operands. */
  lemma WFOperands(n: Node)
    requires WF(n) && BinaryLike(n.kind)
    ensures Operands(n)
  {
    ConformingOperands(n);
  }

  /** The `left` operand. */
  function LeftOf(n: Node): (r: Node)
    requires Operands(n)
    ensures r < n
  {
    n.fields[LeftIndex(n.kind)].node.value
  }

  /** The `right` operand. */
  function RightOf(n: Node): (r: Node)
    requires Operands(n)
    ensures r < n
  {
    n.fields[RightIndex(n.kind)].node.value
  }

  /** The operator's spelling. */
  function OperatorOf(n: Node): string
    requires Operands(n)
  {
    n.fields[OperatorIndex(n.kind)].ident.value
  }

  /** The operands and operator read are the node's fields of those names. */
  lemma OperandFields(n: Node)
    requires Operands(n)
    ensures FieldOf(n, F.Left) == Some(Ptr(Some(LeftOf(n))))
    ensures FieldOf(n, F.Right) == Some(Ptr(Some(RightOf(n))))
    ensures FieldOf(n, F.Operator) == Some(Label(Some(OperatorOf(n))))
  {
    LeftField(n);
    RightField(n);
    OperatorField(n);
  }

  lemma LeftField(n: Node)
    requires Operands(n)
    ensures FieldOf(n, F.Left) == Some(Ptr(Some(LeftOf(n))))
  {
    F.OperandsWidth(n.kind);
    F.LeftAt(n.kind);
  }

  lemma RightField(n: Node)
    requires Operands(n)
    ensures FieldOf(n, F.Right) == Some(Ptr(Some(RightOf(n))))
  {
    F.OperandsWidth(n.kind);
    F.RightAt(n.kind);
  }

  lemma OperatorField(n: Node)
    requires Operands(n)
    ensures FieldOf(n, F.Operator) == Some(Label(Some(OperatorOf(n))))
  {
    F.OperandsWidth(n.kind);
    F.OperatorAt(n.kind);
  }

  /** Whether a field is an operator label spelled as one of `ops`. */
  predicate OperatorIn(f: Option<Field>, ops: seq<string>)
  {
    f.Some? && f.value.Label? && f.value.ident.Some? && f.value.ident.value in ops
  }

  /** Whether `n` is of kind `k` with an operator from `ops` (a node of a
      binary-like kind has its operands). */
  predicate Matches(k: Kind, ops: seq<string>, n: Node)
  {
    n.kind == k && Operands(n) && OperatorOf(n) in ops
  }

  /** `checkExprOperator`: the node itself if it is of kind `k` and its
      `operator` field is one of `ops`, and none otherwise. */
  function CheckExprOperator(k: Kind, e: Node, ops: seq<string>): (r: Option<Node>)
    ensures r.Some? <==> Matches(k, ops, e)
    ensures r.Some? ==> r.value == e
  {
    if e.kind == k && Operands(e) && OperatorOf(e) in ops then Some(e) else None
  }

  /** `checkExprOperator` accepts exactly the nodes of kind `k` whose
      `operator` field is spelled as one of `ops`. */
  lemma CheckExprOperatorReadsOperator(k: Kind, e: Node, ops: seq<string>)
    ensures CheckExprOperator(k, e, ops).Some? <==>
      e.kind == k && Operands(e) && OperatorIn(FieldOf(e, F.Operator), ops)
  {
    if e.kind == k && Operands(e) {
      OperatorField(e);
    }
  }

  /** The operand on the side the walk descends. */
  function Child(n: Node, left: bool): (r: Node)
    requires Operands(n)
    ensures r < n
  {
    if left then LeftOf(n) else RightOf(n)
  }

  /** The matching chain from `e` down the chosen side, root first: `e`,
      then, while the child on that side matches, the chain from that
      child. */
  function Chain(k: Kind, ops: seq<string>, e: Node, left: bool): (r: seq<Node>)
    requires BinaryLike(k) && Operands(e) && e.kind == k
    decreases e
    ensures |r| >= 1 && r[0] == e
  {
    var c := Child(e, left);
    if Matches(k, ops, c) then [e] + Chain(k, ops, c, left) else [e]
  }

  /** How many nested expressions the matching chain from `e` spans,
      counting `e`. */
  function Depth(k: Kind, ops: seq<string>, e: Node, left: bool): (d: nat)
    requires Operands(e)
    decreases e
    ensures d >= 1
  {
    var c := Child(e, left);
    if Matches(k, ops, c) then 1 + Depth(k, ops, c, left) else 1
  }

  /** The chain lists one node per level of nesting. */
  lemma {:induction false} ChainLength(k: Kind, ops: seq<string>, e: Node, left: bool)
    requires BinaryLike(k) && Operands(e) && e.kind == k
    decreases e
    ensures |Chain(k, ops, e, left)| == Depth(k, ops, e, left)
  {
    var c := Child(e, left);
    if Matches(k, ops, c) {
      ChainLength(k, ops, c, left);
    }
  }

  /** `v` is a matching chain from `e` down the chosen side, root first:
      each node's child on that side is the next node, every node after the
      root matches, and the last node's child does not. */
  predicate Descent(k: Kind, ops: seq<string>, e: Node, left: bool, v: seq<Node>)
    requires BinaryLike(k)
  {
    && |v| >= 1 && v[0] == e
    && (forall i :: 0 <= i < |v| ==> Operands(v[i]) && v[i].kind == k)
    && (forall i, j :: 0 <= i < |v| - 1 && j == i + 1 ==> Child(v[i], left) == v[j])
    && (forall i :: 1 <= i < |v| ==> Matches(k, ops, v[i]))
    && !Matches(k, ops, Child(v[|v| - 1], left))
  }

  /** The chain has the descent's properties. */
  lemma {:induction false} ChainIsDescent(k: Kind, ops: seq<string>, e: Node, left: bool)
    requires BinaryLike(k) && Operands(e) && e.kind == k
    decreases e
    ensures Descent(k, ops, e, left, Chain(k, ops, e, left))
  {
    var c := Child(e, left);
    if Matches(k, ops, c) {
      ChainIsDescent(k, ops, c, left);
      DescentCons(k, ops, e, left, Chain(k, ops, c, left));
    }
  }

  /** Putting a node in front of the descent from its matching child gives
      the descent from that node. */
  lemma {:induction false} DescentCons(k: Kind, ops: seq<string>, e: Node, left: bool, t: seq<Node>)
    requires BinaryLike(k) && Operands(e) && e.kind == k
    requires Descent(k, ops, Child(e, left), left, t) && Matches(k, ops, Child(e, left))
    ensures Descent(k, ops, e, left, [e] + t)
  {
    var v := [e] + t;
    assert forall i :: 1 <= i < |v| ==> v[i] == t[i - 1];
  }

  /** Any sequence with the descent's properties is the chain: the
      properties determine the result completely. */
  lemma {:induction false} DescentIsChain(k: Kind, ops: seq<string>, e: Node, left: bool, v: seq<Node>)
    requires BinaryLike(k) && Operands(e) && e.kind == k
    requires Descent(k, ops, e, left, v)
    decreases e
    ensures v == Chain(k, ops, e, left)
  {
    var c := Child(e, left);
    if |v| > 1 {
      DescentTail(k, ops, e, left, v);
      DescentIsChain(k, ops, c, left, v[1..]);
      assert v == [e] + v[1..];
    }
  }

  /** Dropping the root of a longer descent leaves the descent from its
      child, which matches. */
  lemma {:induction false} DescentTail(k: Kind, ops: seq<string>, e: Node, left: bool, v: seq<Node>)
    requires BinaryLike(k) && Descent(k, ops, e, left, v) && |v| > 1
    ensures v[1] == Child(e, left) && Matches(k, ops, v[1])
    ensures Descent(k, ops, v[1], left, v[1..])
  {
    var t := v[1..];
    assert forall i :: 0 <= i < |t| ==> t[i] == v[i + 1];
  }

  /** `linearizeRight`: the chain from `e` down its right operands, root
      first. */
  method LinearizeRight(k: Kind, ops: seq<string>, e: Node) returns (v: seq<Node>)
    requires BinaryLike(k) && Operands(e) && e.kind == k
    ensures v == Chain(k, ops, e, false)
    ensures Descent(k, ops, e, false, v)
    ensures |v| == Depth(k, ops, e, false)
  {
    v := Walk(k, ops, e, false);
    ChainIsDescent(k, ops, e, false);
    ChainLength(k, ops, e, false);
  }

  /** The nodes of `v`, last first. */
  function Reverse(v: seq<Node>): (r: seq<Node>)
    ensures |r| == |v|
    ensures forall i :: 0 <= i < |v| ==> r[i] == v[|v| - 1 - i]
  {
    if v == [] then [] else Reverse(v[1..]) + [v[0]]
  }

  /** `v` is the matching chain from `e` down its left operands, innermost
      first: `e` is last, each node is the left operand of the next, every
      node before `e` matches, and the first node's left operand does not. */
  predicate LeftChain(k: Kind, ops: seq<string>, e: Node, v: seq<Node>)
    requires BinaryLike(k)
  {
    && |v| >= 1 && v[|v| - 1] == e
    && (forall i :: 0 <= i < |v| ==> Operands(v[i]) && v[i].kind == k)
    && (forall i, j :: 0 <= i < |v| - 1 && j == i + 1 ==> LeftOf(v[j]) == v[i])
    && (forall i :: 0 <= i < |v| - 1 ==> Matches(k, ops, v[i]))
    && !Matches(k, ops, LeftOf(v[0]))
  }

  /** A descent down the left side, read backwards, is a left chain. */
  lemma {:induction false} ReversedDescentIsLeftChain(k: Kind, ops: seq<string>, e: Node, v: seq<Node>)
    requires BinaryLike(k) && Descent(k, ops, e, true, v)
    ensures LeftChain(k, ops, e, Reverse(v))
  {
    ReversedOperands(k, v);
    ReversedDescentLinks(v);
    ReversedMatchesFrom1(k, ops, v);
    ReverseEnds(v);
  }

  /** A left chain, read backwards, is a descent down the left side. */
  lemma {:induction false} ReversedLeftChainIsDescent(k: Kind, ops: seq<string>, e: Node, w: seq<Node>)
    requires BinaryLike(k) && LeftChain(k, ops, e, w)
    ensures Descent(k, ops, e, true, Reverse(w))
  {
    ReversedOperands(k, w);
    ReversedLeftChainLinks(w);
    ReversedMatchesTo1(k, ops, w);
    ReverseEnds(w);
  }

  lemma ReverseEnds(v: seq<Node>)
    requires |v| >= 1
    ensures Reverse(v)[0] == v[|v| - 1] && Reverse(v)[|v| - 1] == v[0]
  {
  }

  lemma {:induction false} ReversedOperands(k: Kind, v: seq<Node>)
    requires forall i :: 0 <= i < |v| ==> Operands(v[i]) && v[i].kind == k
    ensures forall i :: 0 <= i < |v| ==> Operands(Reverse(v)[i]) && Reverse(v)[i].kind == k
  {
    var r := Reverse(v);
    var n := |v|;
    forall i | 0 <= i < n
      ensures Operands(r[i]) && r[i].kind == k
    {
      assert r[i] == v[n - 1 - i];
    }
  }

  lemma {:induction false} ReversedDescentLinks(v: seq<Node>)
    requires forall i :: 0 <= i < |v| ==> Operands(v[i]) && Operands(Reverse(v)[i])
    requires forall i, j :: 0 <= i < |v| - 1 && j == i + 1 ==> Child(v[i], true) == v[j]
    ensures forall i, j :: 0 <= i < |v| - 1 && j == i + 1 ==> LeftOf(Reverse(v)[j]) == Reverse(v)[i]
  {
    var r := Reverse(v);
    var n := |v|;
    forall i, j | 0 <= i < n - 1 && j == i + 1
      ensures LeftOf(r[j]) == r[i]
    {
      assert r[j] == v[n - 2 - i] && r[i] == v[n - 1 - i];
    }
  }

  lemma {:induction false} ReversedLeftChainLinks(w: seq<Node>)
    requires forall i :: 0 <= i < |w| ==> Operands(w[i]) && Operands(Reverse(w)[i])
    requires forall i, j :: 0 <= i < |w| - 1 && j == i + 1 ==> LeftOf(w[j]) == w[i]
    ensures forall i, j :: 0 <= i < |w| - 1 && j == i + 1 ==> Child(Reverse(w)[i], true) == Reverse(w)[j]
  {
    var r := Reverse(w);
    var n := |w|;
    forall i, j | 0 <= i < n - 1 && j == i + 1
      ensures Child(r[i], true) == r[j]
    {
      assert r[i] == w[n - 1 - i] && r[j] == w[n - 2 - i];
    }
  }

  lemma {:induction false} ReversedMatchesFrom1(k: Kind, ops: seq<string>, v: seq<Node>)
    requires forall i :: 1 <= i < |v| ==> Matches(k, ops, v[i])
    ensures forall i :: 0 <= i < |v| - 1 ==> Matches(k, ops, Reverse(v)[i])
  {
    var r := Reverse(v);
    var n := |v|;
    forall i | 0 <= i < n - 1
      ensures Matches(k, ops, r[i])
    {
      assert r[i] == v[n - 1 - i];
    }
  }

  lemma {:induction false} ReversedMatchesTo1(k: Kind, ops: seq<string>, w: seq<Node>)
    requires forall i :: 0 <= i < |w| - 1 ==> Matches(k, ops, w[i])
    ensures forall i :: 1 <= i < |w| ==> Matches(k, ops, Reverse(w)[i])
  {
    var r := Reverse(w);
    var n := |w|;
    forall i | 1 <= i < n
      ensures Matches(k, ops, r[i])
    {
      assert r[i] == w[n - 1 - i];
    }
  }

  lemma ReverseReverse(v: seq<Node>)
    ensures Reverse(Reverse(v)) == v
  {
    assert forall i :: 0 <= i < |v| ==> Reverse(Reverse(v))[i] == v[i];
  }

  /** The left chain from a node is unique: its properties determine it as
      the chain down the left operands, reversed. */
  lemma {:induction false} LeftChainIsReversedChain(k: Kind, ops: seq<string>, e: Node, w: seq<Node>)
    requires BinaryLike(k) && Operands(e) && e.kind == k
    requires LeftChain(k, ops, e, w)
    ensures w == Reverse(Chain(k, ops, e, true))
  {
    ReversedLeftChainIsDescent(k, ops, e, w);
    DescentIsChain(k, ops, e, true, Reverse(w));
    ReverseReverse(w);
  }

  /** `linearizeLeft`: the chain from `e` down its left operands, reversed so
      that the innermost node comes first and `e` last. */
  method LinearizeLeft(k: Kind, ops: seq<string>, e: Node) returns (v: seq<Node>)
    requires BinaryLike(k) && Operands(e) && e.kind == k
    ensures v == Reverse(Chain(k, ops, e, true))
    ensures LeftChain(k, ops, e, v)
    ensures |v| == Depth(k, ops, e, true)
  {
    var down := Walk(k, ops, e, true);
    v := Reverse(down);
    ChainIsDescent(k, ops, e, true);
    ReversedDescentIsLeftChain(k, ops, e, down);
    ChainLength(k, ops, e, true);
  }

  /** One step of the walk: below a node whose child matches, the chain
      continues with the chain from that child. */
  lemma ChainStep(k: Kind, ops: seq<string>, e: Node, left: bool)
    requires BinaryLike(k) && Operands(e) && e.kind == k
    ensures Matches(k, ops, Child(e, left)) ==> Chain(k, ops, e, left)[1..] == Chain(k, ops, Child(e, left), left)
    ensures !Matches(k, ops, Child(e, left)) ==> Chain(k, ops, e, left)[1..] == []
  {
  }

  /** The loop both linearizers share: starting from `e`, append the child on
      the chosen side while it matches. */
  method Walk(k: Kind, ops: seq<string>, e: Node, left: bool) returns (v: seq<Node>)
    requires BinaryLike(k) && Operands(e) && e.kind == k
    ensures v == Chain(k, ops, e, left)
  {
    v := [e];
    var cur := e;
    var next := CheckExprOperator(k, Child(cur, left), ops);
    while next.Some?
      invariant Operands(cur) && cur.kind == k
      invariant v + Chain(k, ops, cur, left)[1..] == Chain(k, ops, e, left)
      invariant next == CheckExprOperator(k, Child(cur, left), ops)
      decreases cur
    {
      ChainStep(k, ops, cur, left);
      var c := next.value;
      ChainSplit(k, ops, c, left);
      AppendOne(v, c, Chain(k, ops, c, left)[1..]);
      cur := c;
      v := v + [cur];
      next := CheckExprOperator(k, Child(cur, left), ops);
    }
    ChainStep(k, ops, cur, left);
  }

  /** A chain is its root followed by the rest of it. */
  lemma ChainSplit(k: Kind, ops: seq<string>, e: Node, left: bool)
    requires BinaryLike(k) && Operands(e) && e.kind == k
    ensures Chain(k, ops, e, left) == [e] + Chain(k, ops, e, left)[1..]
  {
  }

  lemma AppendOne(v: seq<Node>, c: Node, t: seq<Node>)
    ensures v + ([c] + t) == (v + [c]) + t
  {
  }
}
