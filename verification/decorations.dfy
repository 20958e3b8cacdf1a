/** The decorations some node kinds carry besides their schema fields: a
    set-once label index (loops, `switch`, `break`, `continue` and labeled
    statements) and, on every function-like node, a set-once pointer to the
    semantic function information plus the function's strictness. */
module Decorations {
  import opened Wrappers

  /** Whether strict mode is in force for a function, once it is known. */
  datatype Strictness = NotSet | NonStrictMode | StrictMode

  /** Reads a strictness that must already have been decided. */
  function IsStrict(s: Strictness): (r: bool)
    requires s != NotSet
    ensures r <==> s == StrictMode
  {
    s == StrictMode
  }

  /** The strictness corresponding to a strict-mode flag. */
  function MakeStrictness(strictMode: bool): (r: Strictness)
    ensures r != NotSet
    ensures IsStrict(r) == strictMode
  {
    if strictMode then StrictMode else NonStrictMode
  }

  /** MakeStrictness and IsStrict are inverse bijections between the flag
      and the decided strictnesses. */
  lemma StrictnessRoundTrip(b: bool, s: Strictness)
    requires s != NotSet
    ensures IsStrict(MakeStrictness(b)) == b
    ensures MakeStrictness(IsStrict(s)) == s
  {
  }

  /** The C++ `unsigned`: a 32-bit unsigned integer. */
  newtype u32 = x: int | 0 <= x < 0x1_0000_0000

  /** `~0u`, reserved to mean "no label index". */
  const INVALID_LABEL: u32 := 0xFFFF_FFFF

  /** The label index a loop, switch, break, continue or labeled statement
      refers to; it starts out as INVALID_LABEL. */
  datatype LabelDecoration = LabelDecoration(labelIndex: u32)

  /** The decoration of a freshly created node. */
  const UnsetLabel: LabelDecoration := LabelDecoration(INVALID_LABEL)

  predicate IsLabelIndexSet(d: LabelDecoration)
  {
    d.labelIndex != INVALID_LABEL
  }

  /** Reads the label index, which must have been set. */
  function GetLabelIndex(d: LabelDecoration): (r: u32)
    requires IsLabelIndexSet(d)
    ensures r == d.labelIndex
    ensures r != INVALID_LABEL
  {
    d.labelIndex
  }

  /** Sets the label index once: the index may not be set yet and the new
      value may not be the reserved one. */
  function SetLabelIndex(d: LabelDecoration, index: u32): (r: LabelDecoration)
    requires index != INVALID_LABEL
    requires !IsLabelIndexSet(d)
    ensures IsLabelIndexSet(r)
    ensures GetLabelIndex(r) == index
  {
    LabelDecoration(index)
  }

  /** A fresh label decoration is unset, and any valid index can be set on
      it exactly once: after the set, the index reads back and a second set
      is no longer permitted. */
  lemma LabelIndexSetOnce(index: u32)
    requires index != INVALID_LABEL
    ensures !IsLabelIndexSet(UnsetLabel)
    ensures GetLabelIndex(SetLabelIndex(UnsetLabel, index)) == index
    ensures IsLabelIndexSet(SetLabelIndex(UnsetLabel, index))
  {
  }

  /** The semantic information of a function (`sem::FunctionInfo`), which
      belongs to the semantic analysis and is not part of this model; it is
      identified here by an opaque number. */
  datatype FunctionInfo = FunctionInfo(id: nat)

  /** The decoration every function-like node carries. */
  datatype FunctionLikeDecoration =
    FunctionLikeDecoration(semInfo: Option<FunctionInfo>, strictness: Strictness)

  /** The decoration of a freshly created function-like node: no semantic
      information and undecided strictness. */
  const InitialFunctionDecoration: FunctionLikeDecoration :=
    FunctionLikeDecoration(None, NotSet)

  /** Sets the semantic information once: the new value may not be null and
      none may have been set before. */
  function SetSemInfo(d: FunctionLikeDecoration, info: Option<FunctionInfo>): (r: FunctionLikeDecoration)
    requires info.Some?
    requires d.semInfo.None?
    ensures r.semInfo == info
    ensures r.strictness == d.strictness
  {
    d.(semInfo := info)
  }

  /** Reads the semantic information, which must have been set. */
  function GetSemInfo(d: FunctionLikeDecoration): (r: FunctionInfo)
    requires d.semInfo.Some?
    ensures d.semInfo == Some(r)
  {
    d.semInfo.value
  }

  /** Setting the semantic information on a fresh decoration reads it back,
      leaves the strictness undecided, and forbids a second set. */
  lemma SemInfoSetOnce(info: FunctionInfo)
    ensures InitialFunctionDecoration.semInfo.None?
    ensures GetSemInfo(SetSemInfo(InitialFunctionDecoration, Some(info))) == info
    ensures SetSemInfo(InitialFunctionDecoration, Some(info)).semInfo.Some?
    ensures SetSemInfo(InitialFunctionDecoration, Some(info)).strictness == NotSet
  {
  }
}
