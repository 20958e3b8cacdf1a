/** The generic traversal.  A visitor decides per node whether to descend
    (`shouldVisit`); a visited node produces `enter`, then the traversals of
    its fields in schema order, then `leave`.  A null pointer is skipped, a
    list is traversed element by element, and label, string, boolean and
    number fields produce nothing.  The traversal is modelled as the trace of
    callbacks it makes. */
module Visitor {
  import opened Wrappers
  import opened Nodes

  /** One callback made on the visitor. */
  datatype Event = Enter(node: Node) | Leave(node: Node)

  /** The trace of visiting `n` (a node's `visit`). */
  function VisitNode(shouldVisit: Node -> bool, n: Node): (t: seq<Event>)
    decreases n
    ensures !shouldVisit(n) ==> t == []
    ensures shouldVisit(n) ==> |t| >= 2 && t[0] == Enter(n) && t[|t| - 1] == Leave(n)
  {
    if !shouldVisit(n) then []
    else [Enter(n)] + VisitFields(shouldVisit, n.fields) + [Leave(n)]
  }

  /** The traces of a node's fields, one after the other. */
  function VisitFields(shouldVisit: Node -> bool, fs: seq<Field>): (t: seq<Event>)
    decreases fs
  {
    if fs == [] then [] else VisitField(shouldVisit, fs[0]) + VisitFields(shouldVisit, fs[1..])
  }

  /** The trace of one field (`ESTreeVisit` on a field). */
  function VisitField(shouldVisit: Node -> bool, f: Field): (t: seq<Event>)
    decreases f
    ensures !(f.Ptr? || f.List?) ==> t == []
    ensures f == Ptr(None) ==> t == []
  {
    match f
    case Ptr(None) => []
    case Ptr(Some(c)) => VisitNode(shouldVisit, c)
    case List(ns) => VisitList(shouldVisit, ns)
    case Label(_) => []
    case Str(_) => []
    case Boolean(_) => []
    case Number(_) => []
  }

  /** The trace of a list: its elements' traces in order. */
  function VisitList(shouldVisit: Node -> bool, ns: seq<Node>): (t: seq<Event>)
    decreases ns
  {
    if ns == [] then [] else VisitNode(shouldVisit, ns[0]) + VisitList(shouldVisit, ns[1..])
  }

  // Reference orders, defined from the tree shape alone.

  /** The nodes a field points to directly. */
  function FieldChildren(f: Field): (r: seq<Node>)
    ensures forall i :: 0 <= i < |r| ==> r[i] < f
  {
    match f
    case Ptr(Some(c)) => [c]
    case List(ns) => ns
    case _ => []
  }

  function FieldsChildren(fs: seq<Field>): (r: seq<Node>)
    ensures forall i :: 0 <= i < |r| ==> exists j :: 0 <= j < |fs| && r[i] < fs[j]
  {
    if fs == [] then [] else FieldChildren(fs[0]) + FieldsChildren(fs[1..])
  }

  /** The direct children of a node, in field order. */
  function Children(n: Node): (r: seq<Node>)
    ensures forall i :: 0 <= i < |r| ==> r[i] < n
  {
    FieldsChildren(n.fields)
  }

  function Concat(ss: seq<seq<Node>>): (r: seq<Node>)
  {
    if ss == [] then [] else ss[0] + Concat(ss[1..])
  }

  /** The nodes accepted by `shouldVisit`, parent before children, where a
      rejected node hides its whole subtree. */
  function Preorder(shouldVisit: Node -> bool, n: Node): (r: seq<Node>)
    decreases n
  {
    if !shouldVisit(n) then []
    else
      var cs := Children(n);
      [n] + Concat(seq(|cs|, i requires 0 <= i < |cs| => Preorder(shouldVisit, cs[i])))
  }

  /** The same nodes, children before parent. */
  function Postorder(shouldVisit: Node -> bool, n: Node): (r: seq<Node>)
    decreases n
  {
    if !shouldVisit(n) then []
    else
      var cs := Children(n);
      Concat(seq(|cs|, i requires 0 <= i < |cs| => Postorder(shouldVisit, cs[i]))) + [n]
  }

  /** Preorder and Postorder of a forest, tree after tree. */
  function PreorderOf(shouldVisit: Node -> bool, ns: seq<Node>): seq<Node>
  {
    Concat(seq(|ns|, i requires 0 <= i < |ns| => Preorder(shouldVisit, ns[i])))
  }

  function PostorderOf(shouldVisit: Node -> bool, ns: seq<Node>): seq<Node>
  {
    Concat(seq(|ns|, i requires 0 <= i < |ns| => Postorder(shouldVisit, ns[i])))
  }

  /** The nodes of a trace's `enter` (or `leave`) callbacks, in order. */
  function Entered(t: seq<Event>, enter: bool): (r: seq<Node>)
    ensures |r| <= |t|
  {
    if t == [] then []
    else (if t[0].Enter? == enter then [t[0].node] else []) + Entered(t[1..], enter)
  }

  lemma {:induction false} ConcatAppend(a: seq<seq<Node>>, b: seq<seq<Node>>)
    ensures Concat(a + b) == Concat(a) + Concat(b)
  {
    if a != [] {
      assert (a + b)[1..] == a[1..] + b;
      ConcatAppend(a[1..], b);
    } else {
      assert a + b == b;
    }
  }

  lemma ConcatSingleton(s: seq<Node>)
    ensures Concat([s]) == s
  {
    assert [s][1..] == [];
  }

  lemma {:induction false} EnteredAppend(a: seq<Event>, b: seq<Event>, enter: bool)
    ensures Entered(a + b, enter) == Entered(a, enter) + Entered(b, enter)
  {
    if a != [] {
      assert (a + b)[1..] == a[1..] + b;
      EnteredAppend(a[1..], b, enter);
    } else {
      assert a + b == b;
    }
  }

  lemma {:induction false} PreorderOfAppend(shouldVisit: Node -> bool, a: seq<Node>, b: seq<Node>)
    ensures PreorderOf(shouldVisit, a + b) == PreorderOf(shouldVisit, a) + PreorderOf(shouldVisit, b)
  {
    var ab := a + b;
    var pre := seq(|ab|, i requires 0 <= i < |ab| => Preorder(shouldVisit, ab[i]));
    var preA := seq(|a|, i requires 0 <= i < |a| => Preorder(shouldVisit, a[i]));
    var preB := seq(|b|, i requires 0 <= i < |b| => Preorder(shouldVisit, b[i]));
    forall i | 0 <= i < |ab|
      ensures pre[i] == (preA + preB)[i]
    {
      if i < |a| {
        assert ab[i] == a[i];
      } else {
        assert ab[i] == b[i - |a|];
      }
    }
    assert pre == preA + preB;
    ConcatAppend(preA, preB);
  }

  lemma {:induction false} PostorderOfAppend(shouldVisit: Node -> bool, a: seq<Node>, b: seq<Node>)
    ensures PostorderOf(shouldVisit, a + b) == PostorderOf(shouldVisit, a) + PostorderOf(shouldVisit, b)
  {
    var ab := a + b;
    var post := seq(|ab|, i requires 0 <= i < |ab| => Postorder(shouldVisit, ab[i]));
    var postA := seq(|a|, i requires 0 <= i < |a| => Postorder(shouldVisit, a[i]));
    var postB := seq(|b|, i requires 0 <= i < |b| => Postorder(shouldVisit, b[i]));
    forall i | 0 <= i < |ab|
      ensures post[i] == (postA + postB)[i]
    {
      if i < |a| {
        assert ab[i] == a[i];
      } else {
        assert ab[i] == b[i - |a|];
      }
    }
    assert post == postA + postB;
    ConcatAppend(postA, postB);
  }

  lemma {:induction false} OrdersOfAppend(shouldVisit: Node -> bool, a: seq<Node>, b: seq<Node>)
    ensures PreorderOf(shouldVisit, a + b) == PreorderOf(shouldVisit, a) + PreorderOf(shouldVisit, b)
    ensures PostorderOf(shouldVisit, a + b) == PostorderOf(shouldVisit, a) + PostorderOf(shouldVisit, b)
  {
    PreorderOfAppend(shouldVisit, a, b);
    PostorderOfAppend(shouldVisit, a, b);
  }

  /** The callbacks of a visited node: its own `enter` first and its own
      `leave` last around those of its fields. */
  lemma {:induction false} EnteredAround(n: Node, inner: seq<Event>)
    ensures Entered([Enter(n)] + inner + [Leave(n)], true) == [n] + Entered(inner, true)
    ensures Entered([Enter(n)] + inner + [Leave(n)], false) == Entered(inner, false) + [n]
  {
    EnteredAppend([Enter(n)], inner, true);
    EnteredAppend([Enter(n)] + inner, [Leave(n)], true);
    EnteredAppend([Enter(n)], inner, false);
    EnteredAppend([Enter(n)] + inner, [Leave(n)], false);
  }

  lemma OrdersOfSingleton(shouldVisit: Node -> bool, c: Node)
    ensures PreorderOf(shouldVisit, [c]) == Preorder(shouldVisit, c)
    ensures PostorderOf(shouldVisit, [c]) == Postorder(shouldVisit, c)
  {
    ConcatSingleton(Preorder(shouldVisit, c));
    ConcatSingleton(Postorder(shouldVisit, c));
    assert seq(1, i requires 0 <= i < 1 => Preorder(shouldVisit, [c][i])) == [Preorder(shouldVisit, c)];
    assert seq(1, i requires 0 <= i < 1 => Postorder(shouldVisit, [c][i])) == [Postorder(shouldVisit, c)];
  }

  /** The traversal makes its `enter` callbacks in preorder and its `leave`
      callbacks in postorder over the nodes `shouldVisit` accepts, and never
      calls back on a node `shouldVisit` rejects. */
  lemma {:induction false} VisitNodeOrders(shouldVisit: Node -> bool, n: Node)
    decreases n, 1
    ensures Entered(VisitNode(shouldVisit, n), true) == Preorder(shouldVisit, n)
    ensures Entered(VisitNode(shouldVisit, n), false) == Postorder(shouldVisit, n)
    ensures forall i :: 0 <= i < |VisitNode(shouldVisit, n)| ==> shouldVisit(VisitNode(shouldVisit, n)[i].node)
  {
    if shouldVisit(n) {
      var inner := VisitFields(shouldVisit, n.fields);
      VisitFieldsOrders(shouldVisit, n.fields);
      var cs := Children(n);
      assert PreorderOf(shouldVisit, cs) == Concat(seq(|cs|, i requires 0 <= i < |cs| => Preorder(shouldVisit, cs[i])));
      assert PostorderOf(shouldVisit, cs) == Concat(seq(|cs|, i requires 0 <= i < |cs| => Postorder(shouldVisit, cs[i])));
      EnteredAround(n, inner);
    }
  }

  lemma {:induction false} VisitFieldsOrders(shouldVisit: Node -> bool, fs: seq<Field>)
    decreases fs
    ensures Entered(VisitFields(shouldVisit, fs), true) == PreorderOf(shouldVisit, FieldsChildren(fs))
    ensures Entered(VisitFields(shouldVisit, fs), false) == PostorderOf(shouldVisit, FieldsChildren(fs))
    ensures forall i :: 0 <= i < |VisitFields(shouldVisit, fs)| ==> shouldVisit(VisitFields(shouldVisit, fs)[i].node)
  {
    if fs != [] {
      VisitFieldOrders(shouldVisit, fs[0]);
      VisitFieldsOrders(shouldVisit, fs[1..]);
      EnteredAppend(VisitField(shouldVisit, fs[0]), VisitFields(shouldVisit, fs[1..]), true);
      EnteredAppend(VisitField(shouldVisit, fs[0]), VisitFields(shouldVisit, fs[1..]), false);
      OrdersOfAppend(shouldVisit, FieldChildren(fs[0]), FieldsChildren(fs[1..]));
    } else {
      assert PreorderOf(shouldVisit, []) == [];
      assert PostorderOf(shouldVisit, []) == [];
    }
  }

  lemma {:induction false} VisitFieldOrders(shouldVisit: Node -> bool, f: Field)
    decreases f
    ensures Entered(VisitField(shouldVisit, f), true) == PreorderOf(shouldVisit, FieldChildren(f))
    ensures Entered(VisitField(shouldVisit, f), false) == PostorderOf(shouldVisit, FieldChildren(f))
    ensures forall i :: 0 <= i < |VisitField(shouldVisit, f)| ==> shouldVisit(VisitField(shouldVisit, f)[i].node)
  {
    match f
    case Ptr(Some(c)) =>
      VisitNodeOrders(shouldVisit, c);
      OrdersOfSingleton(shouldVisit, c);
    case List(ns) =>
      VisitListOrders(shouldVisit, ns);
    case _ =>
      assert PreorderOf(shouldVisit, []) == [];
      assert PostorderOf(shouldVisit, []) == [];
  }

  lemma {:induction false} VisitListOrders(shouldVisit: Node -> bool, ns: seq<Node>)
    decreases ns
    ensures Entered(VisitList(shouldVisit, ns), true) == PreorderOf(shouldVisit, ns)
    ensures Entered(VisitList(shouldVisit, ns), false) == PostorderOf(shouldVisit, ns)
    ensures forall i :: 0 <= i < |VisitList(shouldVisit, ns)| ==> shouldVisit(VisitList(shouldVisit, ns)[i].node)
  {
    if ns != [] {
      VisitNodeOrders(shouldVisit, ns[0]);
      VisitListOrders(shouldVisit, ns[1..]);
      EnteredAppend(VisitNode(shouldVisit, ns[0]), VisitList(shouldVisit, ns[1..]), true);
      EnteredAppend(VisitNode(shouldVisit, ns[0]), VisitList(shouldVisit, ns[1..]), false);
      assert ns == [ns[0]] + ns[1..];
      OrdersOfAppend(shouldVisit, [ns[0]], ns[1..]);
      OrdersOfSingleton(shouldVisit, ns[0]);
    } else {
      assert PreorderOf(shouldVisit, []) == [];
      assert PostorderOf(shouldVisit, []) == [];
    }
  }
}
