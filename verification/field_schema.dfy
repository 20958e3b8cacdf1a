/** The node schema: the ordered field list of every modelled concrete kind. */
module FieldSchema {
  import opened Wrappers
  import opened NodeKinds

  /** The type tag of a field, named after the C++ field types. */
  datatype FieldType = NodePtr | NodeList | NodeLabel | NodeString | NodeBoolean | NodeNumber

  /** The name of a field: the schema's field `x` is the C++ data member
      `_x`. */
  datatype FieldName = Alternate | Argument | Arguments | Assertions | Async
    | Attributes | Await | Bigint | Block | Body | Callee | Cases | Computed
    | Consequent | Cooked | Declaration | Declarations | Declare | Decorators
    | Delegate | Directive | Discriminant | Elements | ExportKind | Exported
    | Expression | Expressions | Finalizer | Flags | Generator | Handler | Id
    | Implements | ImportKind | Imported | Init | Key | Kind | Label | Left
    | Local | Meta | Method | Name | Object | Operator | Optional | Param
    | Params | Pattern | Predicate | Prefix | Properties | Property | Quasi
    | Quasis | Raw | RendersType | Rest | ReturnType | Right | Shorthand
    | Source | Specifiers | Static | SuperClass | SuperTypeParameters | Tag
    | Tail | Test | TrailingComma | TsModifiers | TypeAnnotation
    | TypeArguments | TypeParameters | Update | Value | Variance

  /** A field descriptor: type, name (the member is `_name`) and whether the
      field may be absent (a null pointer or string). */
  datatype FieldSpec = FieldSpec(ty: FieldType, name: FieldName, optional: bool)

  // The layouts of the kinds whose fields the accessors read.

  const FunctionExpressionLayout: seq<FieldSpec> := [
    FieldSpec(NodePtr, Id, true),
    FieldSpec(NodeList, Params, false),
    FieldSpec(NodePtr, Body, false),
    FieldSpec(NodePtr, TypeParameters, true),
    FieldSpec(NodePtr, ReturnType, true),
    FieldSpec(NodePtr, Predicate, true),
    FieldSpec(NodeBoolean, Generator, false),
    FieldSpec(NodeBoolean, Async, false)]

  const ArrowFunctionExpressionLayout: seq<FieldSpec> := [
    FieldSpec(NodePtr, Id, true),
    FieldSpec(NodeList, Params, false),
    FieldSpec(NodePtr, Body, false),
    FieldSpec(NodePtr, TypeParameters, true),
    FieldSpec(NodePtr, ReturnType, true),
    FieldSpec(NodePtr, Predicate, true),
    FieldSpec(NodeBoolean, Expression, false),
    FieldSpec(NodeBoolean, Async, false)]

  const FunctionDeclarationLayout: seq<FieldSpec> := [
    FieldSpec(NodePtr, Id, true),
    FieldSpec(NodeList, Params, false),
    FieldSpec(NodePtr, Body, false),
    FieldSpec(NodePtr, TypeParameters, true),
    FieldSpec(NodePtr, ReturnType, true),
    FieldSpec(NodePtr, Predicate, true),
    FieldSpec(NodeBoolean, Generator, false),
    FieldSpec(NodeBoolean, Async, false)]

  const ComponentDeclarationLayout: seq<FieldSpec> := [
    FieldSpec(NodePtr, Id, false),
    FieldSpec(NodeList, Params, false),
    FieldSpec(NodePtr, Body, false),
    FieldSpec(NodePtr, TypeParameters, true),
    FieldSpec(NodePtr, RendersType, true)]

  const HookDeclarationLayout: seq<FieldSpec> := [
    FieldSpec(NodePtr, Id, false),
    FieldSpec(NodeList, Params, false),
    FieldSpec(NodePtr, Body, false),
    FieldSpec(NodePtr, TypeParameters, true),
    FieldSpec(NodePtr, ReturnType, true)]

  const CallExpressionLayout: seq<FieldSpec> := [
    FieldSpec(NodePtr, Callee, false),
    FieldSpec(NodePtr, TypeArguments, true),
    FieldSpec(NodeList, Arguments, false)]

  const OptionalCallExpressionLayout: seq<FieldSpec> := [
    FieldSpec(NodePtr, Callee, false),
    FieldSpec(NodePtr, TypeArguments, true),
    FieldSpec(NodeList, Arguments, false),
    FieldSpec(NodeBoolean, Optional, false)]

  const AssignmentExpressionLayout: seq<FieldSpec> := [
    FieldSpec(NodeLabel, Operator, false),
    FieldSpec(NodePtr, Left, false),
    FieldSpec(NodePtr, Right, false)]

  const MemberExpressionLayout: seq<FieldSpec> := [
    FieldSpec(NodePtr, Object, false),
    FieldSpec(NodePtr, FieldName.Property, false),
    FieldSpec(NodeBoolean, Computed, false)]

  const OptionalMemberExpressionLayout: seq<FieldSpec> := [
    FieldSpec(NodePtr, Object, false),
    FieldSpec(NodePtr, FieldName.Property, false),
    FieldSpec(NodeBoolean, Computed, false),
    FieldSpec(NodeBoolean, Optional, false)]

  const LogicalExpressionLayout: seq<FieldSpec> := [
    FieldSpec(NodePtr, Left, false),
    FieldSpec(NodePtr, Right, false),
    FieldSpec(NodeLabel, Operator, false)]

  const BinaryExpressionLayout: seq<FieldSpec> := [
    FieldSpec(NodePtr, Left, false),
    FieldSpec(NodePtr, Right, false),
    FieldSpec(NodeLabel, Operator, false)]

  const ComponentParameterLayout: seq<FieldSpec> := [
    FieldSpec(NodePtr, Name, false),
    FieldSpec(NodePtr, Local, false),
    FieldSpec(NodeBoolean, Shorthand, false)]

  /** The schema-declared fields of a kind, in declaration order; None for
      the dialect kinds whose layout is not modelled. */
  function Fields(k: Kind): Option<seq<FieldSpec>>
  {
    match k
    case Empty => Some([])
    case Metadata => Some([])
    case Program => Some([FieldSpec(NodeList, Body, false)])
    case FunctionExpression => Some(FunctionExpressionLayout)
    case ArrowFunctionExpression => Some(ArrowFunctionExpressionLayout)
    case FunctionDeclaration => Some(FunctionDeclarationLayout)
    case ComponentDeclaration => Some(ComponentDeclarationLayout)
    case HookDeclaration => Some(HookDeclarationLayout)
    case WhileStatement => Some([FieldSpec(NodePtr, Body, false), FieldSpec(NodePtr, Test, false)])
    case DoWhileStatement => Some([FieldSpec(NodePtr, Body, false), FieldSpec(NodePtr, Test, false)])
    case ForInStatement => Some([FieldSpec(NodePtr, Left, false), FieldSpec(NodePtr, Right, false), FieldSpec(NodePtr, Body, false)])
    case ForOfStatement => Some([FieldSpec(NodePtr, Left, false), FieldSpec(NodePtr, Right, false), FieldSpec(NodePtr, Body, false), FieldSpec(NodeBoolean, Await, false)])
    case ForStatement => Some([FieldSpec(NodePtr, Init, true), FieldSpec(NodePtr, Test, true), FieldSpec(NodePtr, Update, true), FieldSpec(NodePtr, Body, false)])
    case DebuggerStatement => Some([])
    case EmptyStatement => Some([])
    case BlockStatement => Some([FieldSpec(NodeList, Body, false)])
    case BreakStatement => Some([FieldSpec(NodePtr, FieldName.Label, true)])
    case ContinueStatement => Some([FieldSpec(NodePtr, FieldName.Label, true)])
    case ThrowStatement => Some([FieldSpec(NodePtr, Argument, false)])
    case ReturnStatement => Some([FieldSpec(NodePtr, Argument, true)])
    case WithStatement => Some([FieldSpec(NodePtr, Object, false), FieldSpec(NodePtr, Body, false)])
    case SwitchStatement => Some([FieldSpec(NodePtr, Discriminant, false), FieldSpec(NodeList, Cases, false)])
    case LabeledStatement => Some([FieldSpec(NodePtr, FieldName.Label, false), FieldSpec(NodePtr, Body, false)])
    case ExpressionStatement => Some([FieldSpec(NodePtr, Expression, false), FieldSpec(NodeString, FieldName.Directive, true)])
    case TryStatement => Some([FieldSpec(NodePtr, Block, false), FieldSpec(NodePtr, Handler, true), FieldSpec(NodePtr, Finalizer, true)])
    case IfStatement => Some([FieldSpec(NodePtr, Test, false), FieldSpec(NodePtr, Consequent, false), FieldSpec(NodePtr, Alternate, true)])
    case NullLiteral => Some([])
    case BooleanLiteral => Some([FieldSpec(NodeBoolean, Value, false)])
    case StringLiteral => Some([FieldSpec(NodeString, Value, false)])
    case NumericLiteral => Some([FieldSpec(NodeNumber, Value, false)])
    case RegExpLiteral => Some([FieldSpec(NodeLabel, FieldName.Pattern, false), FieldSpec(NodeLabel, Flags, false)])
    case BigIntLiteral => Some([FieldSpec(NodeLabel, Bigint, false)])
    case ThisExpression => Some([])
    case Super => Some([])
    case SequenceExpression => Some([FieldSpec(NodeList, Expressions, false)])
    case ObjectExpression => Some([FieldSpec(NodeList, Properties, false)])
    case ArrayExpression => Some([FieldSpec(NodeList, Elements, false), FieldSpec(NodeBoolean, TrailingComma, false)])
    case SpreadElement => Some([FieldSpec(NodePtr, Argument, false)])
    case NewExpression => Some([FieldSpec(NodePtr, Callee, false), FieldSpec(NodePtr, TypeArguments, true), FieldSpec(NodeList, Arguments, false)])
    case YieldExpression => Some([FieldSpec(NodePtr, Argument, true), FieldSpec(NodeBoolean, Delegate, true)])
    case AwaitExpression => Some([FieldSpec(NodePtr, Argument, false)])
    case ImportExpression => Some([FieldSpec(NodePtr, Source, false), FieldSpec(NodePtr, Attributes, true)])
    case CallExpression => Some(CallExpressionLayout)
    case OptionalCallExpression => Some(OptionalCallExpressionLayout)
    case AssignmentExpression => Some(AssignmentExpressionLayout)
    case UnaryExpression => Some([FieldSpec(NodeLabel, Operator, false), FieldSpec(NodePtr, Argument, false), FieldSpec(NodeBoolean, Prefix, false)])
    case UpdateExpression => Some([FieldSpec(NodeLabel, Operator, false), FieldSpec(NodePtr, Argument, false), FieldSpec(NodeBoolean, Prefix, false)])
    case MemberExpression => Some(MemberExpressionLayout)
    case OptionalMemberExpression => Some(OptionalMemberExpressionLayout)
    case LogicalExpression => Some(LogicalExpressionLayout)
    case ConditionalExpression => Some([FieldSpec(NodePtr, Test, false), FieldSpec(NodePtr, Alternate, false), FieldSpec(NodePtr, Consequent, false)])
    case BinaryExpression => Some(BinaryExpressionLayout)
    case Directive => Some([FieldSpec(NodePtr, Value, false)])
    case DirectiveLiteral => Some([FieldSpec(NodeString, Value, false)])
    case Identifier => Some([FieldSpec(NodeLabel, Name, false), FieldSpec(NodePtr, TypeAnnotation, true), FieldSpec(NodeBoolean, Optional, false)])
    case PrivateName => Some([FieldSpec(NodePtr, Id, false)])
    case MetaProperty => Some([FieldSpec(NodePtr, Meta, false), FieldSpec(NodePtr, FieldName.Property, false)])
    case SwitchCase => Some([FieldSpec(NodePtr, Test, true), FieldSpec(NodeList, Consequent, false)])
    case CatchClause => Some([FieldSpec(NodePtr, Param, true), FieldSpec(NodePtr, Body, false)])
    case VariableDeclarator => Some([FieldSpec(NodePtr, Init, true), FieldSpec(NodePtr, Id, false)])
    case VariableDeclaration => Some([FieldSpec(NodeLabel, FieldName.Kind, false), FieldSpec(NodeList, Declarations, false)])
    case TemplateLiteral => Some([FieldSpec(NodeList, Quasis, false), FieldSpec(NodeList, Expressions, false)])
    case TaggedTemplateExpression => Some([FieldSpec(NodePtr, Tag, false), FieldSpec(NodePtr, Quasi, false)])
    case TemplateElement => Some([FieldSpec(NodeBoolean, Tail, false), FieldSpec(NodeString, Cooked, true), FieldSpec(NodeLabel, Raw, false)])
    case Property => Some([FieldSpec(NodePtr, Key, false), FieldSpec(NodePtr, Value, false), FieldSpec(NodeLabel, FieldName.Kind, false), FieldSpec(NodeBoolean, Computed, false), FieldSpec(NodeBoolean, Method, false), FieldSpec(NodeBoolean, Shorthand, false)])
    case ClassDeclaration => Some([FieldSpec(NodePtr, Id, true), FieldSpec(NodePtr, TypeParameters, true), FieldSpec(NodePtr, SuperClass, true), FieldSpec(NodePtr, SuperTypeParameters, true), FieldSpec(NodeList, Implements, false), FieldSpec(NodeList, Decorators, false), FieldSpec(NodePtr, Body, false)])
    case ClassExpression => Some([FieldSpec(NodePtr, Id, true), FieldSpec(NodePtr, TypeParameters, true), FieldSpec(NodePtr, SuperClass, true), FieldSpec(NodePtr, SuperTypeParameters, true), FieldSpec(NodeList, Implements, false), FieldSpec(NodeList, Decorators, false), FieldSpec(NodePtr, Body, false)])
    case ClassBody => Some([FieldSpec(NodeList, Body, false)])
    case ClassProperty => Some([FieldSpec(NodePtr, Key, false), FieldSpec(NodePtr, Value, true), FieldSpec(NodeBoolean, Computed, false), FieldSpec(NodeBoolean, Static, false), FieldSpec(NodeBoolean, Declare, false), FieldSpec(NodeBoolean, Optional, false), FieldSpec(NodePtr, Variance, true), FieldSpec(NodePtr, TypeAnnotation, true), FieldSpec(NodePtr, TsModifiers, true)])
    case ClassPrivateProperty => Some([FieldSpec(NodePtr, Key, false), FieldSpec(NodePtr, Value, true), FieldSpec(NodeBoolean, Static, false), FieldSpec(NodeBoolean, Declare, false), FieldSpec(NodeBoolean, Optional, false), FieldSpec(NodePtr, Variance, true), FieldSpec(NodePtr, TypeAnnotation, true), FieldSpec(NodePtr, TsModifiers, true)])
    case MethodDefinition => Some([FieldSpec(NodePtr, Key, false), FieldSpec(NodePtr, Value, false), FieldSpec(NodeLabel, FieldName.Kind, false), FieldSpec(NodeBoolean, Computed, false), FieldSpec(NodeBoolean, Static, false)])
    case ImportDeclaration => Some([FieldSpec(NodeList, Specifiers, false), FieldSpec(NodePtr, Source, false), FieldSpec(NodeList, Assertions, true), FieldSpec(NodeLabel, ImportKind, false)])
    case ImportSpecifier => Some([FieldSpec(NodePtr, Imported, false), FieldSpec(NodePtr, Local, false), FieldSpec(NodeLabel, ImportKind, false)])
    case ImportDefaultSpecifier => Some([FieldSpec(NodePtr, Local, false)])
    case ImportNamespaceSpecifier => Some([FieldSpec(NodePtr, Local, false)])
    case ImportAttribute => Some([FieldSpec(NodePtr, Key, false), FieldSpec(NodePtr, Value, false)])
    case ExportNamedDeclaration => Some([FieldSpec(NodePtr, Declaration, true), FieldSpec(NodeList, Specifiers, false), FieldSpec(NodePtr, Source, true), FieldSpec(NodeLabel, ExportKind, false)])
    case ExportSpecifier => Some([FieldSpec(NodePtr, Exported, false), FieldSpec(NodePtr, Local, false)])
    case ExportNamespaceSpecifier => Some([FieldSpec(NodePtr, Exported, false)])
    case ExportDefaultDeclaration => Some([FieldSpec(NodePtr, Declaration, false)])
    case ExportAllDeclaration => Some([FieldSpec(NodePtr, Source, false), FieldSpec(NodeLabel, ExportKind, false)])
    case ObjectPattern => Some([FieldSpec(NodeList, Properties, false), FieldSpec(NodePtr, TypeAnnotation, true)])
    case ArrayPattern => Some([FieldSpec(NodeList, Elements, false), FieldSpec(NodePtr, TypeAnnotation, true)])
    case RestElement => Some([FieldSpec(NodePtr, Argument, false)])
    case AssignmentPattern => Some([FieldSpec(NodePtr, Left, false), FieldSpec(NodePtr, Right, false)])
    case ComponentParameter => Some(ComponentParameterLayout)
    case CoverEmptyArgs => Some([])
    case CoverTrailingComma => Some([])
    case CoverInitializer => Some([FieldSpec(NodePtr, Init, false)])
    case CoverRestElement => Some([FieldSpec(NodePtr, Rest, false)])
    case CoverTypedIdentifier => Some([FieldSpec(NodePtr, Left, false), FieldSpec(NodePtr, Right, true), FieldSpec(NodeBoolean, Optional, false)])
    case JSXKind(_) => None
    case FlowKind(_) => None
    case TSKind(_) => None
  }

  /** The position of the first field called `name`, if any. */
  function IndexOf(specs: seq<FieldSpec>, name: FieldName): (r: Option<nat>)
    ensures r.Some? ==> r.value < |specs|
  {
    IndexFrom(specs, name, 0)
  }

  /** The position of the first field called `name` at or after `i`. */
  function IndexFrom(specs: seq<FieldSpec>, name: FieldName, i: nat): (r: Option<nat>)
    requires i <= |specs|
    decreases |specs| - i
    ensures r.Some? ==> i <= r.value < |specs|
  {
    if i == |specs| then None
    else if specs[i].name == name then Some(i)
    else IndexFrom(specs, name, i + 1)
  }

  /** Whether `at` is the first position at or after `i` that holds a field
      called `name`. */
  predicate FirstFrom(specs: seq<FieldSpec>, name: FieldName, i: nat, at: nat)
  {
    && i <= at < |specs|
    && specs[at].name == name
    && forall j :: i <= j < at ==> specs[j].name != name
  }

  /** Where the search from `i` stops is the first position from `i` on
      that holds the name. */
  lemma {:induction false} IndexFromSound(specs: seq<FieldSpec>, name: FieldName, i: nat, at: nat)
    requires i <= |specs|
    requires IndexFrom(specs, name, i) == Some(at)
    decreases |specs| - i
    ensures FirstFrom(specs, name, i, at)
  {
    if specs[i].name != name {
      IndexFromSound(specs, name, i + 1, at);
    }
  }

  /** The search from `i` stops at the first position from `i` on that holds
      the name. */
  lemma {:induction false} IndexFromComplete(specs: seq<FieldSpec>, name: FieldName, i: nat, at: nat)
    requires i <= |specs|
    requires FirstFrom(specs, name, i, at)
    decreases |specs| - i
    ensures IndexFrom(specs, name, i) == Some(at)
  {
    if i < at {
      IndexFromComplete(specs, name, i + 1, at);
    }
  }

  /** The search from `i` finds nothing exactly when no position from `i` on
      holds the name. */
  lemma {:induction false} IndexFromFindsNone(specs: seq<FieldSpec>, name: FieldName, i: nat)
    requires i <= |specs|
    decreases |specs| - i
    ensures IndexFrom(specs, name, i).None? <==> forall j :: i <= j < |specs| ==> specs[j].name != name
  {
    if i < |specs| && specs[i].name != name {
      IndexFromFindsNone(specs, name, i + 1);
    }
  }

  /** The lookup behind a node's named field access finds the first field
      of that name, and nothing exactly when the layout has no such field. */
  lemma {:induction false} IndexOfFindsFirst(specs: seq<FieldSpec>, name: FieldName, at: nat)
    ensures IndexOf(specs, name) == Some(at) <==> FirstFrom(specs, name, 0, at)
    ensures IndexOf(specs, name).None? <==> forall j :: 0 <= j < |specs| ==> specs[j].name != name
  {
    if IndexOf(specs, name) == Some(at) {
      IndexFromSound(specs, name, 0, at);
    }
    if FirstFrom(specs, name, 0, at) {
      IndexFromComplete(specs, name, 0, at);
    }
    IndexFromFindsNone(specs, name, 0);
  }

  /** Kind `k` has the field `spec` at position `i`, and it is the first
      field of that name. */
  predicate FieldAt(k: Kind, i: nat, spec: FieldSpec)
  {
    && Fields(k).Some?
    && i < |Fields(k).value|
    && Fields(k).value[i] == spec
    && IndexOf(Fields(k).value, spec.name) == Some(i)
  }

  /** A layout lookup checked on the layout itself: if the field sits at
      position `i` and no earlier field has its name, the kind has it there. */
  lemma LayoutLookup(k: Kind, specs: seq<FieldSpec>, i: nat, spec: FieldSpec)
    requires Fields(k) == Some(specs)
    requires FirstFrom(specs, spec.name, 0, i) && specs[i] == spec
    ensures FieldAt(k, i, spec)
  {
    IndexFromComplete(specs, spec.name, 0, i);
  }

  // Where the fields that the accessors read sit in their kinds' layouts,
  // checked one kind and one field at a time.

  lemma LayoutOfFunctionExpression(k: Kind)
    requires k == FunctionExpression
    ensures Fields(k) == Some(FunctionExpressionLayout)
  {
  }

  lemma LayoutOfArrowFunctionExpression(k: Kind)
    requires k == ArrowFunctionExpression
    ensures Fields(k) == Some(ArrowFunctionExpressionLayout)
  {
  }

  lemma LayoutOfFunctionDeclaration(k: Kind)
    requires k == FunctionDeclaration
    ensures Fields(k) == Some(FunctionDeclarationLayout)
  {
  }

  lemma LayoutOfComponentDeclaration(k: Kind)
    requires k == ComponentDeclaration
    ensures Fields(k) == Some(ComponentDeclarationLayout)
  {
  }

  lemma LayoutOfHookDeclaration(k: Kind)
    requires k == HookDeclaration
    ensures Fields(k) == Some(HookDeclarationLayout)
  {
  }

  lemma LayoutOfCallExpression(k: Kind)
    requires k == CallExpression
    ensures Fields(k) == Some(CallExpressionLayout)
  {
  }

  lemma LayoutOfOptionalCallExpression(k: Kind)
    requires k == OptionalCallExpression
    ensures Fields(k) == Some(OptionalCallExpressionLayout)
  {
  }

  lemma LayoutOfAssignmentExpression(k: Kind)
    requires k == AssignmentExpression
    ensures Fields(k) == Some(AssignmentExpressionLayout)
  {
  }

  lemma LayoutOfMemberExpression(k: Kind)
    requires k == MemberExpression
    ensures Fields(k) == Some(MemberExpressionLayout)
  {
  }

  lemma LayoutOfOptionalMemberExpression(k: Kind)
    requires k == OptionalMemberExpression
    ensures Fields(k) == Some(OptionalMemberExpressionLayout)
  {
  }

  lemma LayoutOfLogicalExpression(k: Kind)
    requires k == LogicalExpression
    ensures Fields(k) == Some(LogicalExpressionLayout)
  {
  }

  lemma LayoutOfBinaryExpression(k: Kind)
    requires k == BinaryExpression
    ensures Fields(k) == Some(BinaryExpressionLayout)
  {
  }

  lemma LayoutOfComponentParameter(k: Kind)
    requires k == ComponentParameter
    ensures Fields(k) == Some(ComponentParameterLayout)
  {
  }

  lemma FunctionExpressionParamsAt(k: Kind)
    requires k == FunctionExpression
    ensures FieldAt(k, 1, FieldSpec(NodeList, Params, false))
  {
    LayoutOfFunctionExpression(k);
    LayoutLookup(k, FunctionExpressionLayout, 1, FieldSpec(NodeList, Params, false));
  }

  lemma FunctionDeclarationParamsAt(k: Kind)
    requires k == FunctionDeclaration
    ensures FieldAt(k, 1, FieldSpec(NodeList, Params, false))
  {
    LayoutOfFunctionDeclaration(k);
    LayoutLookup(k, FunctionDeclarationLayout, 1, FieldSpec(NodeList, Params, false));
  }

  lemma ArrowFunctionExpressionParamsAt(k: Kind)
    requires k == ArrowFunctionExpression
    ensures FieldAt(k, 1, FieldSpec(NodeList, Params, false))
  {
    LayoutOfArrowFunctionExpression(k);
    LayoutLookup(k, ArrowFunctionExpressionLayout, 1, FieldSpec(NodeList, Params, false));
  }

  lemma ComponentDeclarationParamsAt(k: Kind)
    requires k == ComponentDeclaration
    ensures FieldAt(k, 1, FieldSpec(NodeList, Params, false))
  {
    LayoutOfComponentDeclaration(k);
    LayoutLookup(k, ComponentDeclarationLayout, 1, FieldSpec(NodeList, Params, false));
  }

  lemma HookDeclarationParamsAt(k: Kind)
    requires k == HookDeclaration
    ensures FieldAt(k, 1, FieldSpec(NodeList, Params, false))
  {
    LayoutOfHookDeclaration(k);
    LayoutLookup(k, HookDeclarationLayout, 1, FieldSpec(NodeList, Params, false));
  }

  lemma FunctionExpressionBodyAt(k: Kind)
    requires k == FunctionExpression
    ensures FieldAt(k, 2, FieldSpec(NodePtr, Body, false))
  {
    LayoutOfFunctionExpression(k);
    LayoutLookup(k, FunctionExpressionLayout, 2, FieldSpec(NodePtr, Body, false));
  }

  lemma FunctionDeclarationBodyAt(k: Kind)
    requires k == FunctionDeclaration
    ensures FieldAt(k, 2, FieldSpec(NodePtr, Body, false))
  {
    LayoutOfFunctionDeclaration(k);
    LayoutLookup(k, FunctionDeclarationLayout, 2, FieldSpec(NodePtr, Body, false));
  }

  lemma ArrowFunctionExpressionBodyAt(k: Kind)
    requires k == ArrowFunctionExpression
    ensures FieldAt(k, 2, FieldSpec(NodePtr, Body, false))
  {
    LayoutOfArrowFunctionExpression(k);
    LayoutLookup(k, ArrowFunctionExpressionLayout, 2, FieldSpec(NodePtr, Body, false));
  }

  lemma ComponentDeclarationBodyAt(k: Kind)
    requires k == ComponentDeclaration
    ensures FieldAt(k, 2, FieldSpec(NodePtr, Body, false))
  {
    LayoutOfComponentDeclaration(k);
    LayoutLookup(k, ComponentDeclarationLayout, 2, FieldSpec(NodePtr, Body, false));
  }

  lemma HookDeclarationBodyAt(k: Kind)
    requires k == HookDeclaration
    ensures FieldAt(k, 2, FieldSpec(NodePtr, Body, false))
  {
    LayoutOfHookDeclaration(k);
    LayoutLookup(k, HookDeclarationLayout, 2, FieldSpec(NodePtr, Body, false));
  }

  lemma FunctionExpressionGeneratorAt(k: Kind)
    requires k == FunctionExpression
    ensures FieldAt(k, 6, FieldSpec(NodeBoolean, Generator, false))
  {
    LayoutOfFunctionExpression(k);
    LayoutLookup(k, FunctionExpressionLayout, 6, FieldSpec(NodeBoolean, Generator, false));
  }

  lemma FunctionDeclarationGeneratorAt(k: Kind)
    requires k == FunctionDeclaration
    ensures FieldAt(k, 6, FieldSpec(NodeBoolean, Generator, false))
  {
    LayoutOfFunctionDeclaration(k);
    LayoutLookup(k, FunctionDeclarationLayout, 6, FieldSpec(NodeBoolean, Generator, false));
  }

  lemma FunctionExpressionAsyncAt(k: Kind)
    requires k == FunctionExpression
    ensures FieldAt(k, 7, FieldSpec(NodeBoolean, Async, false))
  {
    LayoutOfFunctionExpression(k);
    LayoutLookup(k, FunctionExpressionLayout, 7, FieldSpec(NodeBoolean, Async, false));
  }

  lemma ArrowFunctionExpressionAsyncAt(k: Kind)
    requires k == ArrowFunctionExpression
    ensures FieldAt(k, 7, FieldSpec(NodeBoolean, Async, false))
  {
    LayoutOfArrowFunctionExpression(k);
    LayoutLookup(k, ArrowFunctionExpressionLayout, 7, FieldSpec(NodeBoolean, Async, false));
  }

  lemma FunctionDeclarationAsyncAt(k: Kind)
    requires k == FunctionDeclaration
    ensures FieldAt(k, 7, FieldSpec(NodeBoolean, Async, false))
  {
    LayoutOfFunctionDeclaration(k);
    LayoutLookup(k, FunctionDeclarationLayout, 7, FieldSpec(NodeBoolean, Async, false));
  }

  lemma MemberExpressionObjectAt(k: Kind)
    requires k == MemberExpression
    ensures FieldAt(k, 0, FieldSpec(NodePtr, Object, false))
  {
    LayoutOfMemberExpression(k);
    LayoutLookup(k, MemberExpressionLayout, 0, FieldSpec(NodePtr, Object, false));
  }

  lemma OptionalMemberExpressionObjectAt(k: Kind)
    requires k == OptionalMemberExpression
    ensures FieldAt(k, 0, FieldSpec(NodePtr, Object, false))
  {
    LayoutOfOptionalMemberExpression(k);
    LayoutLookup(k, OptionalMemberExpressionLayout, 0, FieldSpec(NodePtr, Object, false));
  }

  lemma MemberExpressionPropertyAt(k: Kind)
    requires k == MemberExpression
    ensures FieldAt(k, 1, FieldSpec(NodePtr, FieldName.Property, false))
  {
    LayoutOfMemberExpression(k);
    LayoutLookup(k, MemberExpressionLayout, 1, FieldSpec(NodePtr, FieldName.Property, false));
  }

  lemma OptionalMemberExpressionPropertyAt(k: Kind)
    requires k == OptionalMemberExpression
    ensures FieldAt(k, 1, FieldSpec(NodePtr, FieldName.Property, false))
  {
    LayoutOfOptionalMemberExpression(k);
    LayoutLookup(k, OptionalMemberExpressionLayout, 1, FieldSpec(NodePtr, FieldName.Property, false));
  }

  lemma MemberExpressionComputedAt(k: Kind)
    requires k == MemberExpression
    ensures FieldAt(k, 2, FieldSpec(NodeBoolean, Computed, false))
  {
    LayoutOfMemberExpression(k);
    LayoutLookup(k, MemberExpressionLayout, 2, FieldSpec(NodeBoolean, Computed, false));
  }

  lemma OptionalMemberExpressionComputedAt(k: Kind)
    requires k == OptionalMemberExpression
    ensures FieldAt(k, 2, FieldSpec(NodeBoolean, Computed, false))
  {
    LayoutOfOptionalMemberExpression(k);
    LayoutLookup(k, OptionalMemberExpressionLayout, 2, FieldSpec(NodeBoolean, Computed, false));
  }

  lemma CallExpressionCalleeAt(k: Kind)
    requires k == CallExpression
    ensures FieldAt(k, 0, FieldSpec(NodePtr, Callee, false))
  {
    LayoutOfCallExpression(k);
    LayoutLookup(k, CallExpressionLayout, 0, FieldSpec(NodePtr, Callee, false));
  }

  lemma OptionalCallExpressionCalleeAt(k: Kind)
    requires k == OptionalCallExpression
    ensures FieldAt(k, 0, FieldSpec(NodePtr, Callee, false))
  {
    LayoutOfOptionalCallExpression(k);
    LayoutLookup(k, OptionalCallExpressionLayout, 0, FieldSpec(NodePtr, Callee, false));
  }

  lemma CallExpressionArgumentsAt(k: Kind)
    requires k == CallExpression
    ensures FieldAt(k, 2, FieldSpec(NodeList, Arguments, false))
  {
    LayoutOfCallExpression(k);
    LayoutLookup(k, CallExpressionLayout, 2, FieldSpec(NodeList, Arguments, false));
  }

  lemma OptionalCallExpressionArgumentsAt(k: Kind)
    requires k == OptionalCallExpression
    ensures FieldAt(k, 2, FieldSpec(NodeList, Arguments, false))
  {
    LayoutOfOptionalCallExpression(k);
    LayoutLookup(k, OptionalCallExpressionLayout, 2, FieldSpec(NodeList, Arguments, false));
  }

  lemma ComponentParameterLocalAt(k: Kind)
    requires k == ComponentParameter
    ensures FieldAt(k, 1, FieldSpec(NodePtr, Local, false))
  {
    LayoutOfComponentParameter(k);
    LayoutLookup(k, ComponentParameterLayout, 1, FieldSpec(NodePtr, Local, false));
  }

  lemma BinaryExpressionLeftAt(k: Kind)
    requires k == BinaryExpression
    ensures FieldAt(k, 0, FieldSpec(NodePtr, Left, false))
  {
    LayoutOfBinaryExpression(k);
    LayoutLookup(k, BinaryExpressionLayout, 0, FieldSpec(NodePtr, Left, false));
  }

  lemma LogicalExpressionLeftAt(k: Kind)
    requires k == LogicalExpression
    ensures FieldAt(k, 0, FieldSpec(NodePtr, Left, false))
  {
    LayoutOfLogicalExpression(k);
    LayoutLookup(k, LogicalExpressionLayout, 0, FieldSpec(NodePtr, Left, false));
  }

  lemma AssignmentExpressionLeftAt(k: Kind)
    requires k == AssignmentExpression
    ensures FieldAt(k, 1, FieldSpec(NodePtr, Left, false))
  {
    LayoutOfAssignmentExpression(k);
    LayoutLookup(k, AssignmentExpressionLayout, 1, FieldSpec(NodePtr, Left, false));
  }

  lemma BinaryExpressionRightAt(k: Kind)
    requires k == BinaryExpression
    ensures FieldAt(k, 1, FieldSpec(NodePtr, Right, false))
  {
    LayoutOfBinaryExpression(k);
    LayoutLookup(k, BinaryExpressionLayout, 1, FieldSpec(NodePtr, Right, false));
  }

  lemma LogicalExpressionRightAt(k: Kind)
    requires k == LogicalExpression
    ensures FieldAt(k, 1, FieldSpec(NodePtr, Right, false))
  {
    LayoutOfLogicalExpression(k);
    LayoutLookup(k, LogicalExpressionLayout, 1, FieldSpec(NodePtr, Right, false));
  }

  lemma AssignmentExpressionRightAt(k: Kind)
    requires k == AssignmentExpression
    ensures FieldAt(k, 2, FieldSpec(NodePtr, Right, false))
  {
    LayoutOfAssignmentExpression(k);
    LayoutLookup(k, AssignmentExpressionLayout, 2, FieldSpec(NodePtr, Right, false));
  }

  lemma BinaryExpressionOperatorAt(k: Kind)
    requires k == BinaryExpression
    ensures FieldAt(k, 2, FieldSpec(NodeLabel, Operator, false))
  {
    LayoutOfBinaryExpression(k);
    LayoutLookup(k, BinaryExpressionLayout, 2, FieldSpec(NodeLabel, Operator, false));
  }

  lemma LogicalExpressionOperatorAt(k: Kind)
    requires k == LogicalExpression
    ensures FieldAt(k, 2, FieldSpec(NodeLabel, Operator, false))
  {
    LayoutOfLogicalExpression(k);
    LayoutLookup(k, LogicalExpressionLayout, 2, FieldSpec(NodeLabel, Operator, false));
  }

  lemma AssignmentExpressionOperatorAt(k: Kind)
    requires k == AssignmentExpression
    ensures FieldAt(k, 0, FieldSpec(NodeLabel, Operator, false))
  {
    LayoutOfAssignmentExpression(k);
    LayoutLookup(k, AssignmentExpressionLayout, 0, FieldSpec(NodeLabel, Operator, false));
  }

  /** Every function-like kind but Program keeps its parameter list at
      position 1. */
  lemma ParamsAt(k: Kind)
    requires IsA(FunctionLike, k) && k != Program
    ensures FieldAt(k, 1, FieldSpec(NodeList, Params, false))
  {
    FunctionLikeKinds(k);
    if k == FunctionExpression {
      FunctionExpressionParamsAt(k);
    } else if k == FunctionDeclaration {
      FunctionDeclarationParamsAt(k);
    } else if k == ArrowFunctionExpression {
      ArrowFunctionExpressionParamsAt(k);
    } else if k == ComponentDeclaration {
      ComponentDeclarationParamsAt(k);
    } else {
      HookDeclarationParamsAt(k);
    }
  }

  /** Every function-like kind but Program keeps its (required) body at
      position 2. */
  lemma BodyAt(k: Kind)
    requires IsA(FunctionLike, k) && k != Program
    ensures FieldAt(k, 2, FieldSpec(NodePtr, Body, false))
  {
    FunctionLikeKinds(k);
    if k == FunctionExpression {
      FunctionExpressionBodyAt(k);
    } else if k == FunctionDeclaration {
      FunctionDeclarationBodyAt(k);
    } else if k == ArrowFunctionExpression {
      ArrowFunctionExpressionBodyAt(k);
    } else if k == ComponentDeclaration {
      ComponentDeclarationBodyAt(k);
    } else {
      HookDeclarationBodyAt(k);
    }
  }

  /** Function expressions and declarations keep their generator flag at
      position 6. */
  lemma GeneratorAt(k: Kind)
    requires k == FunctionExpression || k == FunctionDeclaration
    ensures FieldAt(k, 6, FieldSpec(NodeBoolean, Generator, false))
  {
    if k == FunctionExpression {
      FunctionExpressionGeneratorAt(k);
    } else {
      FunctionDeclarationGeneratorAt(k);
    }
  }

  /** Function expressions, arrow functions and function declarations keep
      their async flag at position 7. */
  lemma AsyncAt(k: Kind)
    requires k == FunctionExpression || k == ArrowFunctionExpression || k == FunctionDeclaration
    ensures FieldAt(k, 7, FieldSpec(NodeBoolean, Async, false))
  {
    if k == FunctionExpression {
      FunctionExpressionAsyncAt(k);
    } else if k == ArrowFunctionExpression {
      ArrowFunctionExpressionAsyncAt(k);
    } else {
      FunctionDeclarationAsyncAt(k);
    }
  }

  /** Both member kinds keep the object at position 0. */
  lemma ObjectAt(k: Kind)
    requires IsA(MemberExpressionLike, k)
    ensures FieldAt(k, 0, FieldSpec(NodePtr, Object, false))
  {
    MemberExpressionLikeKinds(k);
    if k == MemberExpression {
      MemberExpressionObjectAt(k);
    } else {
      OptionalMemberExpressionObjectAt(k);
    }
  }

  /** Both member kinds keep the property at position 1. */
  lemma PropertyAt(k: Kind)
    requires IsA(MemberExpressionLike, k)
    ensures FieldAt(k, 1, FieldSpec(NodePtr, FieldName.Property, false))
  {
    MemberExpressionLikeKinds(k);
    if k == MemberExpression {
      MemberExpressionPropertyAt(k);
    } else {
      OptionalMemberExpressionPropertyAt(k);
    }
  }

  /** Both member kinds keep the computed flag at position 2. */
  lemma ComputedAt(k: Kind)
    requires IsA(MemberExpressionLike, k)
    ensures FieldAt(k, 2, FieldSpec(NodeBoolean, Computed, false))
  {
    MemberExpressionLikeKinds(k);
    if k == MemberExpression {
      MemberExpressionComputedAt(k);
    } else {
      OptionalMemberExpressionComputedAt(k);
    }
  }

  /** Both call kinds keep the callee at position 0. */
  lemma CalleeAt(k: Kind)
    requires IsA(CallExpressionLike, k)
    ensures FieldAt(k, 0, FieldSpec(NodePtr, Callee, false))
  {
    CallExpressionLikeKinds(k);
    if k == CallExpression {
      CallExpressionCalleeAt(k);
    } else {
      OptionalCallExpressionCalleeAt(k);
    }
  }

  /** Both call kinds keep the argument list at position 2. */
  lemma ArgumentsAt(k: Kind)
    requires IsA(CallExpressionLike, k)
    ensures FieldAt(k, 2, FieldSpec(NodeList, Arguments, false))
  {
    CallExpressionLikeKinds(k);
    if k == CallExpression {
      CallExpressionArgumentsAt(k);
    } else {
      OptionalCallExpressionArgumentsAt(k);
    }
  }

  /** A component parameter keeps its local binding at position 1. */
  lemma LocalAt()
    ensures FieldAt(ComponentParameter, 1, FieldSpec(NodePtr, Local, false))
  {
    ComponentParameterLocalAt(ComponentParameter);
  }

  /** Binary and logical expressions keep the left operand at position 0, an
      assignment, which lists its operator first, at 1. */
  lemma LeftAt(k: Kind)
    requires k == BinaryExpression || k == LogicalExpression || k == AssignmentExpression
    ensures FieldAt(k, if k == AssignmentExpression then 1 else 0, FieldSpec(NodePtr, Left, false))
  {
    if k == BinaryExpression {
      BinaryExpressionLeftAt(k);
    } else if k == LogicalExpression {
      LogicalExpressionLeftAt(k);
    } else {
      AssignmentExpressionLeftAt(k);
    }
  }

  /** Binary and logical expressions keep the right operand at position 1, an
      assignment at 2. */
  lemma RightAt(k: Kind)
    requires k == BinaryExpression || k == LogicalExpression || k == AssignmentExpression
    ensures FieldAt(k, if k == AssignmentExpression then 2 else 1, FieldSpec(NodePtr, Right, false))
  {
    if k == BinaryExpression {
      BinaryExpressionRightAt(k);
    } else if k == LogicalExpression {
      LogicalExpressionRightAt(k);
    } else {
      AssignmentExpressionRightAt(k);
    }
  }

  /** Binary and logical expressions keep the operator at position 2, an
      assignment at 0. */
  lemma OperatorAt(k: Kind)
    requires k == BinaryExpression || k == LogicalExpression || k == AssignmentExpression
    ensures FieldAt(k, if k == AssignmentExpression then 0 else 2, FieldSpec(NodeLabel, Operator, false))
  {
    if k == BinaryExpression {
      BinaryExpressionOperatorAt(k);
    } else if k == LogicalExpression {
      LogicalExpressionOperatorAt(k);
    } else {
      AssignmentExpressionOperatorAt(k);
    }
  }

  /** Binary, logical and assignment expressions have exactly three fields. */
  lemma OperandsWidth(k: Kind)
    requires k == BinaryExpression || k == LogicalExpression || k == AssignmentExpression
    ensures Fields(k).Some? && |Fields(k).value| == 3
  {
    if k == BinaryExpression {
      LayoutOfBinaryExpression(k);
    } else if k == LogicalExpression {
      LayoutOfLogicalExpression(k);
    } else {
      LayoutOfAssignmentExpression(k);
    }
  }
}
