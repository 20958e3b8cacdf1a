/** ESTree nodes as immutable values.

    A node holds the base state every node shares (its kind, a saturating
    paren counter, a source range and a debug location), its fields in
    schema order, and the decoration its kind carries.  Pointers become
    `Option<Node>` and a `NodeList` becomes a sequence, so a tree is a value
    and sharing or aliasing between nodes cannot arise. */
module Nodes {
  import opened Wrappers
  import opened NodeKinds
  import opened FieldSchema
  import opened Decorations

  /** An `SMLoc`: an opaque position in a source buffer; 0 is the null
      location a fresh node starts with. */
  type Loc = nat

  const NoLoc: Loc := 0

  /** An `SMRange`: a start and an end location. */
  datatype SourceRange = SourceRange(start: Loc, end: Loc)

  /** How many parens surround a node: 0, 1, or 2 standing for two or
      more. */
  type Parens = p: nat | p <= 2

  /** A field value.  `Ptr(None)` is a null node pointer; `Label` and `Str`
      hold a possibly null interned string; `Number` holds the bit pattern of
      a `double`, which nothing here interprets. */
  datatype Field =
    | Ptr(node: Option<Node>)
    | List(nodes: seq<Node>)
    | Label(ident: Option<string>)
    | Str(str: Option<string>)
    | Boolean(value: bool)
    | Number(bits: bv64)

  /** The decoration a node inherits according to its kind. */
  datatype Decoration =
    | NoDecoration
    | LabelDeco(labelDeco: LabelDecoration)
    | FunctionDeco(fn: FunctionLikeDecoration)
    | ProgramDeco(fn: FunctionLikeDecoration, dummyParamList: seq<Node>)

  datatype Node = Node(
    kind: Kind,
    parens: Parens,
    range: SourceRange,
    debugLoc: Loc,
    fields: seq<Field>,
    decoration: Decoration)

  /** The kinds whose class derives from a label decoration: every loop,
      `switch`, `break`, `continue` and labeled statement. */
  predicate HasLabelDecoration(k: Kind)
  {
    IsA(LoopStatement, k) || k in {SwitchStatement, BreakStatement, ContinueStatement, LabeledStatement}
  }

  /** Whether a decoration is of the shape the kind's class carries. */
  predicate DecorationFits(k: Kind, d: Decoration)
  {
    if k == Program then d.ProgramDeco?
    else if IsA(FunctionLike, k) then d.FunctionDeco?
    else if HasLabelDecoration(k) then d.LabelDeco?
    else d.NoDecoration?
  }

  /** The decoration of a freshly constructed node of kind `k`. */
  function InitialDecoration(k: Kind): (d: Decoration)
    ensures DecorationFits(k, d)
    ensures d.LabelDeco? ==> !IsLabelIndexSet(d.labelDeco)
    ensures d.FunctionDeco? || d.ProgramDeco? ==> d.fn.semInfo.None? && d.fn.strictness == NotSet
    ensures d.ProgramDeco? ==> d.dummyParamList == []
  {
    if k == Program then ProgramDeco(InitialFunctionDecoration, [])
    else if IsA(FunctionLike, k) then FunctionDeco(InitialFunctionDecoration)
    else if HasLabelDecoration(k) then LabelDeco(UnsetLabel)
    else NoDecoration
  }

  /** Whether a field value has the type the schema declares, and is present
      unless the schema marks it optional. */
  predicate FieldConforms(spec: FieldSpec, f: Field)
  {
    match spec.ty
    case NodePtr => f.Ptr? && (spec.optional || f.node.Some?)
    case NodeList => f.List?
    case NodeLabel => f.Label? && (spec.optional || f.ident.Some?)
    case NodeString => f.Str? && (spec.optional || f.str.Some?)
    case NodeBoolean => f.Boolean?
    case NodeNumber => f.Number?
  }

  /** Whether a node has the field layout of its kind; dialect kinds without
      a modelled layout accept any fields. */
  predicate Conforms(n: Node)
  {
    match Fields(n.kind)
    case None => true
    case Some(specs) =>
      && |specs| == |n.fields|
      && forall i :: 0 <= i < |specs| ==> FieldConforms(specs[i], n.fields[i])
  }

  /** Whether a node has the field layout and decoration of its kind, as the
      C++ class of that kind would. */
  predicate Shaped(n: Node)
  {
    DecorationFits(n.kind, n.decoration) && Conforms(n)
  }

  /** A well-formed tree: every node in it is shaped. */
  predicate WF(n: Node)
    decreases n
  {
    && Shaped(n)
    && (forall i | 0 <= i < |n.fields| :: FieldWF(n.fields[i]))
    && (n.decoration.ProgramDeco? ==>
          forall j | 0 <= j < |n.decoration.dummyParamList| :: WF(n.decoration.dummyParamList[j]))
  }

  predicate FieldWF(f: Field)
    decreases f
  {
    match f
    case Ptr(Some(c)) => WF(c)
    case List(ns) => forall j | 0 <= j < |ns| :: WF(ns[j])
    case _ => true
  }

  /** The field the schema gives that name, if the kind has one and the
      node has its kind's layout. */
  function FieldOf(n: Node, name: FieldName): (r: Option<Field>)
    ensures r.Some? ==> exists i :: 0 <= i < |n.fields| && n.fields[i] == r.value
  {
    match Fields(n.kind)
    case None => None
    case Some(specs) =>
      if |specs| != |n.fields| then None
      else match IndexOf(specs, name)
        case None => None
        case Some(i) => Some(n.fields[i])
  }

  /** In a shaped node, the field a kind's layout has at position `i` is
      the node's `i`th field, of the declared type. */
  lemma FieldOfAt(n: Node, i: nat, spec: FieldSpec)
    requires Conforms(n) && FieldAt(n.kind, i, spec)
    ensures i < |n.fields|
    ensures FieldOf(n, spec.name) == Some(n.fields[i])
    ensures FieldConforms(spec, n.fields[i])
  {
  }

  /** A freshly constructed node: no parens, null locations and the initial
      decoration of its kind. */
  function NewNode(k: Kind, fields: seq<Field>): (r: Node)
    ensures r.kind == k && r.fields == fields
    ensures r.parens == 0
    ensures r.range == SourceRange(NoLoc, NoLoc) && r.debugLoc == NoLoc
    ensures DecorationFits(k, r.decoration)
  {
    Node(k, 0, SourceRange(NoLoc, NoLoc), NoLoc, fields, InitialDecoration(k))
  }

  /** A new node starts with nothing set in its decoration: the label index
      is unset, there is no semantic information, strictness is undecided,
      and a Program's dummy parameter list is empty. */
  lemma NewNodeDecoration(k: Kind, fields: seq<Field>)
    ensures NewNode(k, fields).decoration == InitialDecoration(k)
    ensures var d := NewNode(k, fields).decoration;
      && (d.LabelDeco? ==> !IsLabelIndexSet(d.labelDeco))
      && (d.FunctionDeco? || d.ProgramDeco? ==> d.fn.semInfo.None? && d.fn.strictness == NotSet)
      && (d.ProgramDeco? ==> d.dummyParamList == [])
  {
  }

  /** Nothing but location data differs between two nodes. */
  predicate SameExceptLocation(a: Node, b: Node)
  {
    a.kind == b.kind && a.parens == b.parens && a.fields == b.fields && a.decoration == b.decoration
  }

  /** Replaces the whole source range. */
  function SetSourceRange(n: Node, rng: SourceRange): (r: Node)
    ensures r.range == rng && r.debugLoc == n.debugLoc
    ensures SameExceptLocation(n, r)
  {
    n.(range := rng)
  }

  /** Replaces the start of the source range only. */
  function SetStartLoc(n: Node, loc: Loc): (r: Node)
    ensures r.range.start == loc
    ensures r.range.end == n.range.end && r.debugLoc == n.debugLoc
    ensures SameExceptLocation(n, r)
  {
    n.(range := n.range.(start := loc))
  }

  /** Replaces the end of the source range only. */
  function SetEndLoc(n: Node, loc: Loc): (r: Node)
    ensures r.range.end == loc
    ensures r.range.start == n.range.start && r.debugLoc == n.debugLoc
    ensures SameExceptLocation(n, r)
  {
    n.(range := n.range.(end := loc))
  }

  /** Replaces the debug location. */
  function SetDebugLoc(n: Node, loc: Loc): (r: Node)
    ensures r.debugLoc == loc && r.range == n.range
    ensures SameExceptLocation(n, r)
  {
    n.(debugLoc := loc)
  }

  /** Counts one more paren around the node, saturating at 2. */
  function IncParens(n: Node): (r: Node)
    ensures r.parens == if n.parens + 1 < 2 then n.parens + 1 else 2
    ensures r.parens >= n.parens && (r.parens == n.parens <==> n.parens == 2)
    ensures r == n.(parens := r.parens)
  {
    n.(parens := if n.parens < 2 then n.parens + 1 else 2)
  }

  /** Forgets the parens counted so far. */
  function ClearParens(n: Node): (r: Node)
    ensures r.parens == 0
    ensures r == n.(parens := 0)
  {
    n.(parens := 0)
  }

  /** Copies all location data, the source range and the debug location,
      from `src`; everything else about `n` is kept. */
  function CopyLocationFrom(n: Node, src: Node): (r: Node)
    ensures r.range == src.range && r.debugLoc == src.debugLoc
    ensures SameExceptLocation(n, r)
  {
    n.(range := src.range, debugLoc := src.debugLoc)
  }

  /** `t` successive paren increments. */
  function IncParensTimes(n: Node, t: nat): (r: Node)
    ensures r.parens >= n.parens
  {
    if t == 0 then n else IncParens(IncParensTimes(n, t - 1))
  }

  /** However many parens are counted, the counter reads min(p + t, 2) and
      nothing else about the node changes. */
  lemma {:induction false} IncParensSaturates(n: Node, t: nat)
    ensures IncParensTimes(n, t).parens == if n.parens + t < 2 then n.parens + t else 2
    ensures IncParensTimes(n, t) == n.(parens := IncParensTimes(n, t).parens)
  {
    if t > 0 {
      IncParensSaturates(n, t - 1);
    }
  }

  /** Clearing forgets any earlier count: counting `t` parens afresh reads
      min(t, 2). */
  lemma {:induction false} ClearThenCount(n: Node, t: nat)
    ensures IncParensTimes(ClearParens(n), t).parens == if t < 2 then t else 2
  {
    IncParensSaturates(ClearParens(n), t);
  }

  /** Setting the start and then the end location is setting the whole
      range, in either order. */
  lemma SetStartThenEnd(n: Node, s: Loc, e: Loc)
    ensures SetEndLoc(SetStartLoc(n, s), e) == SetSourceRange(n, SourceRange(s, e))
    ensures SetStartLoc(SetEndLoc(n, e), s) == SetSourceRange(n, SourceRange(s, e))
  {
  }

  /** Copying locations agrees with the way the source spells it: set the
      source range, then the debug location.  Copying is idempotent, and a
      copy from a node with the same location data changes nothing. */
  lemma CopyLocationFacts(n: Node, src: Node)
    ensures CopyLocationFrom(n, src) == SetDebugLoc(SetSourceRange(n, src.range), src.debugLoc)
    ensures CopyLocationFrom(CopyLocationFrom(n, src), src) == CopyLocationFrom(n, src)
    ensures CopyLocationFrom(n, n) == n
  {
  }

  /** Location and paren updates keep a tree well formed. */
  lemma LocationUpdatesKeepWF(n: Node, src: Node, rng: SourceRange, loc: Loc)
    requires WF(n)
    ensures WF(SetSourceRange(n, rng)) && WF(SetStartLoc(n, loc)) && WF(SetEndLoc(n, loc))
    ensures WF(SetDebugLoc(n, loc)) && WF(CopyLocationFrom(n, src))
    ensures WF(IncParens(n)) && WF(ClearParens(n))
  {
  }
}
