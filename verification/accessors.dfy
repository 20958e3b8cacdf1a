/** The shape accessors over function-like, member-like and call-like
    nodes.  Each accessor is given a node of the category its C++ parameter
    type names, so the source's "invalid node" assertions and unreachable
    defaults become preconditions.  Each returns the field the schema gives
    that name, for every kind of the category. */
module Accessors {
  import opened Wrappers
  import opened NodeKinds
  import F = FieldSchema
  import opened Nodes

  /** The parameter list of a function-like node: the empty dummy list a
      Program keeps for the purpose, or the node's `params` field. */
  function GetParams(n: Node): (r: seq<Node>)
    requires Shaped(n) && IsA(FunctionLike, n.kind)
    ensures n.kind == Program ==> r == n.decoration.dummyParamList
    ensures n.kind != Program ==> FieldOf(n, F.Params) == Some(List(r))
  {
    if n.kind == Program then n.decoration.dummyParamList
    else
      F.ParamsAt(n.kind);
      FieldOfAt(n, 1, F.FieldSpec(F.NodeList, F.Params, false));
      n.fields[1].nodes
  }

  /** The `body` field of a function-like node other than Program. */
  function FunctionBody(n: Node): (r: Node)
    requires Shaped(n) && IsA(FunctionLike, n.kind) && n.kind != Program
    ensures FieldOf(n, F.Body) == Some(Ptr(Some(r)))
  {
    F.BodyAt(n.kind);
    FieldOfAt(n, 2, F.FieldSpec(F.NodePtr, F.Body, false));
    n.fields[2].node.value
  }

  /** The body of a function-like node as a block statement: none for
      Program; for an arrow function, the body only if it is a block (an
      expression body gives none); every other function-like kind must have
      a block body, which is returned. */
  function GetBlockStatement(n: Node): (r: Option<Node>)
    requires Shaped(n) && IsA(FunctionLike, n.kind)
    requires n.kind != Program && n.kind != ArrowFunctionExpression ==> FunctionBody(n).kind == BlockStatement
    ensures n.kind == Program ==> r == None
    ensures n.kind != Program ==> (r.Some? <==> FunctionBody(n).kind == BlockStatement)
    ensures r.Some? ==> FieldOf(n, F.Body) == Some(Ptr(r)) && r.value.kind == BlockStatement
  {
    if n.kind == Program then None
    else if n.kind == ArrowFunctionExpression then
      (if FunctionBody(n).kind == BlockStatement then Some(FunctionBody(n)) else None)
    else Some(FunctionBody(n))
  }

  /** The object of a member access. */
  function GetObject(n: Node): (r: Node)
    requires Shaped(n) && IsA(MemberExpressionLike, n.kind)
    ensures FieldOf(n, F.Object) == Some(Ptr(Some(r)))
  {
    F.ObjectAt(n.kind);
    FieldOfAt(n, 0, F.FieldSpec(F.NodePtr, F.Object, false));
    n.fields[0].node.value
  }

  /** The property of a member access. */
  function GetProperty(n: Node): (r: Node)
    requires Shaped(n) && IsA(MemberExpressionLike, n.kind)
    ensures FieldOf(n, F.Property) == Some(Ptr(Some(r)))
  {
    F.PropertyAt(n.kind);
    FieldOfAt(n, 1, F.FieldSpec(F.NodePtr, F.Property, false));
    n.fields[1].node.value
  }

  /** Whether a member access is computed (`a[b]` rather than `a.b`). */
  function GetComputed(n: Node): (r: bool)
    requires Shaped(n) && IsA(MemberExpressionLike, n.kind)
    ensures FieldOf(n, F.Computed) == Some(Boolean(r))
  {
    F.ComputedAt(n.kind);
    FieldOfAt(n, 2, F.FieldSpec(F.NodeBoolean, F.Computed, false));
    n.fields[2].value
  }

  /** The callee of a call. */
  function GetCallee(n: Node): (r: Node)
    requires Shaped(n) && IsA(CallExpressionLike, n.kind)
    ensures FieldOf(n, F.Callee) == Some(Ptr(Some(r)))
  {
    F.CalleeAt(n.kind);
    FieldOfAt(n, 0, F.FieldSpec(F.NodePtr, F.Callee, false));
    n.fields[0].node.value
  }

  /** The argument list of a call. */
  function GetArguments(n: Node): (r: seq<Node>)
    requires Shaped(n) && IsA(CallExpressionLike, n.kind)
    ensures FieldOf(n, F.Arguments) == Some(List(r))
  {
    F.ArgumentsAt(n.kind);
    FieldOfAt(n, 2, F.FieldSpec(F.NodeList, F.Arguments, false));
    n.fields[2].nodes
  }

  /** Whether a function is a generator: only function expressions and
      declarations can be, by their `generator` flag. */
  function IsGenerator(n: Node): (r: bool)
    requires Shaped(n) && IsA(FunctionLike, n.kind)
    ensures r <==> (n.kind in {FunctionExpression, FunctionDeclaration} &&
                    FieldOf(n, F.Generator) == Some(Boolean(true)))
  {
    if n.kind == FunctionExpression || n.kind == FunctionDeclaration then
      F.GeneratorAt(n.kind);
      FieldOfAt(n, 6, F.FieldSpec(F.NodeBoolean, F.Generator, false));
      n.fields[6].value
    else false
  }

  /** Whether a function is async: function expressions, arrow functions and
      declarations by their `async` flag; Program, components and hooks
      never. */
  function IsAsync(n: Node): (r: bool)
    requires Shaped(n) && IsA(FunctionLike, n.kind)
    ensures r <==> (n.kind in {FunctionExpression, ArrowFunctionExpression, FunctionDeclaration} &&
                    FieldOf(n, F.Async) == Some(Boolean(true)))
  {
    if n.kind == FunctionExpression || n.kind == ArrowFunctionExpression || n.kind == FunctionDeclaration then
      F.AsyncAt(n.kind);
      FieldOfAt(n, 7, F.FieldSpec(F.NodeBoolean, F.Async, false));
      n.fields[7].value
    else false
  }

  /** The parameters of a well-formed function are well formed. */
  lemma {:induction false} ParamsWF(n: Node)
    requires WF(n) && IsA(FunctionLike, n.kind)
    ensures forall i :: 0 <= i < |GetParams(n)| ==> WF(GetParams(n)[i])
  {
    if n.kind != Program {
      F.ParamsAt(n.kind);
      FieldOfAt(n, 1, F.FieldSpec(F.NodeList, F.Params, false));
      assert FieldWF(n.fields[1]);
    }
  }

  /** A freshly created Program has no parameters. */
  lemma NewProgramHasNoParams(body: seq<Node>)
    ensures Shaped(NewNode(Program, [List(body)]))
    ensures GetParams(NewNode(Program, [List(body)])) == []
  {
  }

  // Parameter shapes.

  /** A component parameter has its `local` binding, as its schema row
      demands; other parameters need nothing here. */
  predicate LocalPresent(p: Node)
  {
    p.kind == ComponentParameter ==> |p.fields| > 1 && p.fields[1].Ptr? && p.fields[1].node.Some?
  }

  predicate LocalsPresent(ps: seq<Node>)
  {
    forall i :: 0 <= i < |ps| ==> LocalPresent(ps[i])
  }

  /** The parameters of a well-formed function have their bindings. */
  lemma {:induction false} ParamsHaveLocals(n: Node)
    requires WF(n) && IsA(FunctionLike, n.kind)
    ensures LocalsPresent(GetParams(n))
  {
    ParamsWF(n);
    var ps := GetParams(n);
    forall i | 0 <= i < |ps| ensures LocalPresent(ps[i]) {
      if ps[i].kind == ComponentParameter {
        ParamLocalField(ps[i]);
      }
    }
  }

  /** The binding of a component parameter (its `local` field). */
  function ParamLocal(p: Node): Node
    requires LocalPresent(p) && p.kind == ComponentParameter
  {
    p.fields[1].node.value
  }

  /** A shaped component parameter has its binding, and `ParamLocal` reads
      the field the schema names `local`. */
  lemma ParamLocalField(p: Node)
    requires Shaped(p) && p.kind == ComponentParameter
    ensures LocalPresent(p)
    ensures FieldOf(p, F.Local) == Some(Ptr(Some(ParamLocal(p))))
  {
    F.LocalAt();
    FieldOfAt(p, 1, F.FieldSpec(F.NodePtr, F.Local, false));
  }

  /** A parameter that destructures (`isa<PatternNode>`): a pattern, or a
      component parameter whose binding is a pattern. */
  predicate IsPatternParam(p: Node)
    requires LocalPresent(p)
  {
    IsA(Pattern, p.kind) || (p.kind == ComponentParameter && IsA(Pattern, ParamLocal(p).kind))
  }

  /** A component parameter whose binding carries a default value. */
  predicate IsDefaultedComponentParam(p: Node)
    requires LocalPresent(p)
  {
    p.kind == ComponentParameter && ParamLocal(p).kind == AssignmentPattern
  }

  /** A parameter with a default value expression, of either form. */
  predicate HasDefault(p: Node)
    requires LocalPresent(p)
  {
    p.kind == AssignmentPattern || IsDefaultedComponentParam(p)
  }

  /** No parameter destructures. */
  predicate SimpleParams(ps: seq<Node>)
    requires LocalsPresent(ps)
  {
    forall i :: 0 <= i < |ps| ==> !IsPatternParam(ps[i])
  }

  /** The condition the source's `hasParamExpressions` computes: a default
      pattern parameter occurs before any defaulted component parameter. */
  predicate ParamExpressionsAsWritten(ps: seq<Node>)
    requires LocalsPresent(ps)
  {
    exists i :: 0 <= i < |ps| && ps[i].kind == AssignmentPattern &&
      forall j :: 0 <= j < i ==> !IsDefaultedComponentParam(ps[j])
  }

  /** Some parameter has a default value expression. */
  predicate ParamExpressions(ps: seq<Node>)
    requires LocalsPresent(ps)
  {
    exists i :: 0 <= i < |ps| && HasDefault(ps[i])
  }

  /** Whether no parameter of a function destructures: false at the first
      pattern parameter or component parameter binding a pattern. */
  method HasSimpleParams(n: Node) returns (r: bool)
    requires WF(n) && IsA(FunctionLike, n.kind)
    ensures LocalsPresent(GetParams(n))
    ensures r <==> SimpleParams(GetParams(n))
  {
    ParamsHaveLocals(n);
    r := ScanSimpleParams(GetParams(n));
  }

  /** The loop of `hasSimpleParams`. */
  method ScanSimpleParams(ps: seq<Node>) returns (r: bool)
    requires LocalsPresent(ps)
    ensures r <==> SimpleParams(ps)
  {
    var i := 0;
    while i < |ps|
      invariant 0 <= i <= |ps|
      invariant LocalsPresent(ps[..i]) && SimpleParams(ps[..i])
    {
      if IsA(Pattern, ps[i].kind) {
        return false;
      }
      if ps[i].kind == ComponentParameter && IsA(Pattern, ParamLocal(ps[i]).kind) {
        return false;
      }
      SimpleParamsExtend(ps, i);
      i := i + 1;
    }
    assert ps[..i] == ps;
    return true;
  }

  /** The Pattern range tests of the loop are tests for the four pattern
      kinds: a parameter destructures exactly when it, or the binding of a
      component parameter, has one of them. */
  lemma PatternParamKinds(p: Node)
    requires LocalPresent(p)
    ensures IsPatternParam(p) <==>
      IsPatternKind(p.kind) || (p.kind == ComponentParameter && IsPatternKind(ParamLocal(p).kind))
  {
    PatternKinds(p.kind);
    if p.kind == ComponentParameter {
      PatternKinds(ParamLocal(p).kind);
    }
  }

  /** A simple prefix followed by a parameter that does not destructure is
      a longer simple prefix. */
  lemma SimpleParamsExtend(ps: seq<Node>, i: nat)
    requires LocalsPresent(ps) && i < |ps|
    requires LocalsPresent(ps[..i]) && SimpleParams(ps[..i]) && !IsPatternParam(ps[i])
    ensures LocalsPresent(ps[..i + 1]) && SimpleParams(ps[..i + 1])
  {
    var q := ps[..i + 1];
    forall j | 0 <= j < i + 1
      ensures LocalPresent(q[j]) && !IsPatternParam(q[j])
    {
      if j < i {
        assert q[j] == ps[..i][j];
      }
    }
  }

  /** The source's `hasParamExpressions`, as written: true at the first
      default pattern parameter, but false as soon as it meets a component
      parameter with a default value. */
  method HasParamExpressions(n: Node) returns (r: bool)
    requires WF(n) && IsA(FunctionLike, n.kind)
    ensures LocalsPresent(GetParams(n))
    ensures r <==> ParamExpressionsAsWritten(GetParams(n))
    ensures r ==> !SimpleParams(GetParams(n))
  {
    ParamsHaveLocals(n);
    r := ScanParamExpressions(GetParams(n));
    ParamExpressionsAreNotSimple(GetParams(n));
  }

  /** The loop of `hasParamExpressions`, as written. */
  method ScanParamExpressions(ps: seq<Node>) returns (r: bool)
    requires LocalsPresent(ps)
    ensures r <==> ParamExpressionsAsWritten(ps)
  {
    var i := 0;
    while i < |ps|
      invariant 0 <= i <= |ps|
      invariant forall j :: 0 <= j < i ==> ps[j].kind != AssignmentPattern && !IsDefaultedComponentParam(ps[j])
    {
      if ps[i].kind == AssignmentPattern {
        return true;
      }
      if ps[i].kind == ComponentParameter && ParamLocal(ps[i]).kind == AssignmentPattern {
        AsWrittenStopsAt(ps, i);
        return false;
      }
      i := i + 1;
    }
    AsWrittenStopsAt(ps, |ps|);
    return false;
  }

  /** Once the scan meets a defaulted component parameter, or the end of
      the list, before any default pattern, the as-written condition fails. */
  lemma AsWrittenStopsAt(ps: seq<Node>, i: nat)
    requires LocalsPresent(ps) && i <= |ps|
    requires forall j :: 0 <= j < i ==> ps[j].kind != AssignmentPattern
    requires i < |ps| ==> IsDefaultedComponentParam(ps[i])
    ensures !ParamExpressionsAsWritten(ps)
  {
    forall m | 0 <= m < |ps| && ps[m].kind == AssignmentPattern
      ensures exists j :: 0 <= j < m && IsDefaultedComponentParam(ps[j])
    {
      assert i < m && IsDefaultedComponentParam(ps[i]);
    }
  }

  /** `hasParamExpressions` with the defaulted component parameter counted
      as a parameter expression, as its name and its sibling
      `hasSimpleParams` indicate. */
  method HasParamExpressionsCorrected(n: Node) returns (r: bool)
    requires WF(n) && IsA(FunctionLike, n.kind)
    ensures LocalsPresent(GetParams(n))
    ensures r <==> ParamExpressions(GetParams(n))
    ensures r ==> !SimpleParams(GetParams(n))
  {
    ParamsHaveLocals(n);
    r := ScanParamExpressionsCorrected(GetParams(n));
    ParamExpressionsAreNotSimple(GetParams(n));
  }

  /** The corrected loop: true at the first parameter with a default. */
  method ScanParamExpressionsCorrected(ps: seq<Node>) returns (r: bool)
    requires LocalsPresent(ps)
    ensures r <==> ParamExpressions(ps)
  {
    var i := 0;
    while i < |ps|
      invariant 0 <= i <= |ps|
      invariant forall j :: 0 <= j < i ==> !HasDefault(ps[j])
    {
      if ps[i].kind == AssignmentPattern || (ps[i].kind == ComponentParameter && ParamLocal(ps[i]).kind == AssignmentPattern) {
        return true;
      }
      i := i + 1;
    }
    return false;
  }

  /** A default value pattern is a pattern. */
  lemma DefaultPatternIsPattern(p: Node)
    requires p.kind == AssignmentPattern
    ensures IsA(Pattern, p.kind)
  {
    PatternKinds(p.kind);
  }

  /** A parameter list with a parameter expression is not simple. */
  lemma ParamExpressionsAreNotSimple(ps: seq<Node>)
    requires LocalsPresent(ps)
    ensures ParamExpressions(ps) ==> !SimpleParams(ps)
    ensures ParamExpressionsAsWritten(ps) ==> ParamExpressions(ps)
  {
    if ParamExpressions(ps) {
      var i :| 0 <= i < |ps| && HasDefault(ps[i]);
      if ps[i].kind == AssignmentPattern {
        DefaultPatternIsPattern(ps[i]);
      } else {
        DefaultPatternIsPattern(ParamLocal(ps[i]));
      }
    }
  }

  /** A component parameter whose binding is a default pattern has a
      default value, yet, alone in the list, it does not satisfy the
      as-written condition, while it satisfies the corrected one. */
  lemma DefaultedComponentParamMissed(param: Node)
    requires LocalPresent(param) && IsDefaultedComponentParam(param)
    ensures LocalsPresent([param])
    ensures HasDefault(param) && ParamExpressions([param])
    ensures !ParamExpressionsAsWritten([param])
  {
    assert [param][0] == param;
  }

  /** `component C(x = 1) {}`: its only parameter, written in the shorthand
      form, binds the default pattern `x = 1`, and so is such a parameter. */
  lemma DefaultedComponentExample()
    ensures
      var x := NewNode(Identifier, [Label(Some("x")), Ptr(None), Boolean(false)]);
      var one := NewNode(NumericLiteral, [Number(0x3FF0_0000_0000_0000)]);
      var local := NewNode(AssignmentPattern, [Ptr(Some(x)), Ptr(Some(one))]);
      var param := NewNode(ComponentParameter, [Ptr(Some(x)), Ptr(Some(local)), Boolean(true)]);
      && LocalPresent(param)
      && IsDefaultedComponentParam(param)
      && !ParamExpressionsAsWritten([param])
  {
    var x := NewNode(Identifier, [Label(Some("x")), Ptr(None), Boolean(false)]);
    var one := NewNode(NumericLiteral, [Number(0x3FF0_0000_0000_0000)]);
    var local := NewNode(AssignmentPattern, [Ptr(Some(x)), Ptr(Some(one))]);
    var param := NewNode(ComponentParameter, [Ptr(Some(x)), Ptr(Some(local)), Boolean(true)]);
    DefaultedComponentParamMissed(param);
  }
}
