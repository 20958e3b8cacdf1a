/** The closed taxonomy of ESTree node kinds.

    Every entry of the node schema, whether a concrete kind or one of the
    `_X_First` / `_X_Last` sentinels that bracket a category, takes the next
    ordinal of the `NodeKind` enumeration.  A category is therefore a
    contiguous ordinal range, and membership is a strict range test. */
module NodeKinds {
  import opened Wrappers

  /** Kinds of the JSX, Flow and TypeScript dialects that no accessor singles
      out are identified by their position inside their category. */
  type JsxIndex = i: nat | i < 16
  type FlowIndex = i: nat | i < 86
  type TsIndex = i: nat | i < 46

  /** One constructor per concrete node kind, in schema order. */
  datatype Kind =
    | Empty
    | Metadata
    | Program
    | FunctionExpression
    | ArrowFunctionExpression
    | FunctionDeclaration
    | ComponentDeclaration
    | HookDeclaration
    | WhileStatement
    | DoWhileStatement
    | ForInStatement
    | ForOfStatement
    | ForStatement
    | DebuggerStatement
    | EmptyStatement
    | BlockStatement
    | BreakStatement
    | ContinueStatement
    | ThrowStatement
    | ReturnStatement
    | WithStatement
    | SwitchStatement
    | LabeledStatement
    | ExpressionStatement
    | TryStatement
    | IfStatement
    | NullLiteral
    | BooleanLiteral
    | StringLiteral
    | NumericLiteral
    | RegExpLiteral
    | BigIntLiteral
    | ThisExpression
    | Super
    | SequenceExpression
    | ObjectExpression
    | ArrayExpression
    | SpreadElement
    | NewExpression
    | YieldExpression
    | AwaitExpression
    | ImportExpression
    | CallExpression
    | OptionalCallExpression
    | AssignmentExpression
    | UnaryExpression
    | UpdateExpression
    | MemberExpression
    | OptionalMemberExpression
    | LogicalExpression
    | ConditionalExpression
    | BinaryExpression
    | Directive
    | DirectiveLiteral
    | Identifier
    | PrivateName
    | MetaProperty
    | SwitchCase
    | CatchClause
    | VariableDeclarator
    | VariableDeclaration
    | TemplateLiteral
    | TaggedTemplateExpression
    | TemplateElement
    | Property
    | ClassDeclaration
    | ClassExpression
    | ClassBody
    | ClassProperty
    | ClassPrivateProperty
    | MethodDefinition
    | ImportDeclaration
    | ImportSpecifier
    | ImportDefaultSpecifier
    | ImportNamespaceSpecifier
    | ImportAttribute
    | ExportNamedDeclaration
    | ExportSpecifier
    | ExportNamespaceSpecifier
    | ExportDefaultDeclaration
    | ExportAllDeclaration
    | ObjectPattern
    | ArrayPattern
    | RestElement
    | AssignmentPattern
    | JSXKind(jsx: JsxIndex)
    | FlowKind(flow: FlowIndex)
    | ComponentParameter
    | TSKind(ts: TsIndex)
    | CoverEmptyArgs
    | CoverTrailingComma
    | CoverInitializer
    | CoverRestElement
    | CoverTypedIdentifier

  /** The categories, each declared by an `ESTREE_FIRST` / `ESTREE_LAST` pair
      around its members.  LoopStatement is declared inside Statement. */
  datatype Category =
    | FunctionLike
    | Statement
    | LoopStatement
    | CallExpressionLike
    | MemberExpressionLike
    | Pattern
    | JSX
    | Flow
    | TS
    | Cover

  /** The ordinal of the `_X_First` sentinel of a category. */
  function FirstOrdinal(c: Category): nat
  {
    match c
    case FunctionLike => 2
    case Statement => 10
    case LoopStatement => 11
    case CallExpressionLike => 48
    case MemberExpressionLike => 55
    case Pattern => 91
    case JSX => 97
    case Flow => 115
    case TS => 204
    case Cover => 252
  }

  /** The ordinal of the `_X_Last` sentinel of a category. */
  function LastOrdinal(c: Category): nat
  {
    match c
    case FunctionLike => 9
    case Statement => 31
    case LoopStatement => 17
    case CallExpressionLike => 51
    case MemberExpressionLike => 58
    case Pattern => 96
    case JSX => 114
    case Flow => 203
    case TS => 251
    case Cover => 258
  }

  /** The category a category is itself declared under (its BASE argument);
      None for the root `Base`. */
  function Enclosing(c: Category): Option<Category>
  {
    if c == LoopStatement then Some(Statement) else None
  }

  /** Whether a kind declared under `base` belongs to category `c`: it was
      declared under `c` itself or under a category nested in `c`. */
  predicate Within(base: Option<Category>, c: Category)
  {
    match base
    case None => false
    case Some(b) => b == c || Enclosing(b) == Some(c)
  }

  /** The kind an ordinal denotes, or None for the ordinal of a sentinel or
      one past the last entry of the enumeration. */
  function KindAt(o: int): Option<Kind>
  {
    if o < 56 then
      if o < 28 then
        if o < 15 then
          if o < 6 then
            if o < 3 then
              if o < 1 then
                if o == 0 then Some(Empty) else None
              else
                if o == 1 then Some(Metadata) else None
            else
              if o < 4 then
                if o == 3 then Some(Program) else None
              else
                if o < 5 then
                  if o == 4 then Some(FunctionExpression) else None
                else
                  if o == 5 then Some(ArrowFunctionExpression) else None
          else
            if o < 12 then
              if o < 7 then
                if o == 6 then Some(FunctionDeclaration) else None
              else
                if o < 8 then
                  if o == 7 then Some(ComponentDeclaration) else None
                else
                  if o == 8 then Some(HookDeclaration) else None
            else
              if o < 13 then
                if o == 12 then Some(WhileStatement) else None
              else
                if o < 14 then
                  if o == 13 then Some(DoWhileStatement) else None
                else
                  if o == 14 then Some(ForInStatement) else None
        else
          if o < 22 then
            if o < 19 then
              if o < 16 then
                if o == 15 then Some(ForOfStatement) else None
              else
                if o < 18 then
                  if o == 16 then Some(ForStatement) else None
                else
                  if o == 18 then Some(DebuggerStatement) else None
            else
              if o < 20 then
                if o == 19 then Some(EmptyStatement) else None
              else
                if o < 21 then
                  if o == 20 then Some(BlockStatement) else None
                else
                  if o == 21 then Some(BreakStatement) else None
          else
            if o < 25 then
              if o < 23 then
                if o == 22 then Some(ContinueStatement) else None
              else
                if o < 24 then
                  if o == 23 then Some(ThrowStatement) else None
                else
                  if o == 24 then Some(ReturnStatement) else None
            else
              if o < 26 then
                if o == 25 then Some(WithStatement) else None
              else
                if o < 27 then
                  if o == 26 then Some(SwitchStatement) else None
                else
                  if o == 27 then Some(LabeledStatement) else None
      else
        if o < 41 then
          if o < 35 then
            if o < 32 then
              if o < 29 then
                if o == 28 then Some(ExpressionStatement) else None
              else
                if o < 30 then
                  if o == 29 then Some(TryStatement) else None
                else
                  if o == 30 then Some(IfStatement) else None
            else
              if o < 33 then
                if o == 32 then Some(NullLiteral) else None
              else
                if o < 34 then
                  if o == 33 then Some(BooleanLiteral) else None
                else
                  if o == 34 then Some(StringLiteral) else None
          else
            if o < 38 then
              if o < 36 then
                if o == 35 then Some(NumericLiteral) else None
              else
                if o < 37 then
                  if o == 36 then Some(RegExpLiteral) else None
                else
                  if o == 37 then Some(BigIntLiteral) else None
            else
              if o < 39 then
                if o == 38 then Some(ThisExpression) else None
              else
                if o < 40 then
                  if o == 39 then Some(Super) else None
                else
                  if o == 40 then Some(SequenceExpression) else None
        else
          if o < 47 then
            if o < 44 then
              if o < 42 then
                if o == 41 then Some(ObjectExpression) else None
              else
                if o < 43 then
                  if o == 42 then Some(ArrayExpression) else None
                else
                  if o == 43 then Some(SpreadElement) else None
            else
              if o < 45 then
                if o == 44 then Some(NewExpression) else None
              else
                if o < 46 then
                  if o == 45 then Some(YieldExpression) else None
                else
                  if o == 46 then Some(AwaitExpression) else None
          else
            if o < 52 then
              if o < 49 then
                if o == 47 then Some(ImportExpression) else None
              else
                if o < 50 then
                  if o == 49 then Some(CallExpression) else None
                else
                  if o == 50 then Some(OptionalCallExpression) else None
            else
              if o < 53 then
                if o == 52 then Some(AssignmentExpression) else None
              else
                if o < 54 then
                  if o == 53 then Some(UnaryExpression) else None
                else
                  if o == 54 then Some(UpdateExpression) else None
    else
      if o < 80 then
        if o < 68 then
          if o < 62 then
            if o < 59 then
              if o < 57 then
                if o == 56 then Some(MemberExpression) else None
              else
                if o == 57 then Some(OptionalMemberExpression) else None
            else
              if o < 60 then
                if o == 59 then Some(LogicalExpression) else None
              else
                if o < 61 then
                  if o == 60 then Some(ConditionalExpression) else None
                else
                  if o == 61 then Some(BinaryExpression) else None
          else
            if o < 65 then
              if o < 63 then
                if o == 62 then Some(Directive) else None
              else
                if o < 64 then
                  if o == 63 then Some(DirectiveLiteral) else None
                else
                  if o == 64 then Some(Identifier) else None
            else
              if o < 66 then
                if o == 65 then Some(PrivateName) else None
              else
                if o < 67 then
                  if o == 66 then Some(MetaProperty) else None
                else
                  if o == 67 then Some(SwitchCase) else None
        else
          if o < 74 then
            if o < 71 then
              if o < 69 then
                if o == 68 then Some(CatchClause) else None
              else
                if o < 70 then
                  if o == 69 then Some(VariableDeclarator) else None
                else
                  if o == 70 then Some(VariableDeclaration) else None
            else
              if o < 72 then
                if o == 71 then Some(TemplateLiteral) else None
              else
                if o < 73 then
                  if o == 72 then Some(TaggedTemplateExpression) else None
                else
                  if o == 73 then Some(TemplateElement) else None
          else
            if o < 77 then
              if o < 75 then
                if o == 74 then Some(Property) else None
              else
                if o < 76 then
                  if o == 75 then Some(ClassDeclaration) else None
                else
                  if o == 76 then Some(ClassExpression) else None
            else
              if o < 78 then
                if o == 77 then Some(ClassBody) else None
              else
                if o < 79 then
                  if o == 78 then Some(ClassProperty) else None
                else
                  if o == 79 then Some(ClassPrivateProperty) else None
      else
        if o < 93 then
          if o < 86 then
            if o < 83 then
              if o < 81 then
                if o == 80 then Some(MethodDefinition) else None
              else
                if o < 82 then
                  if o == 81 then Some(ImportDeclaration) else None
                else
                  if o == 82 then Some(ImportSpecifier) else None
            else
              if o < 84 then
                if o == 83 then Some(ImportDefaultSpecifier) else None
              else
                if o < 85 then
                  if o == 84 then Some(ImportNamespaceSpecifier) else None
                else
                  if o == 85 then Some(ImportAttribute) else None
          else
            if o < 89 then
              if o < 87 then
                if o == 86 then Some(ExportNamedDeclaration) else None
              else
                if o < 88 then
                  if o == 87 then Some(ExportSpecifier) else None
                else
                  if o == 88 then Some(ExportNamespaceSpecifier) else None
            else
              if o < 90 then
                if o == 89 then Some(ExportDefaultDeclaration) else None
              else
                if o < 92 then
                  if o == 90 then Some(ExportAllDeclaration) else None
                else
                  if o == 92 then Some(ObjectPattern) else None
        else
          if o < 205 then
            if o < 98 then
              if o < 94 then
                if o == 93 then Some(ArrayPattern) else None
              else
                if o < 95 then
                  if o == 94 then Some(RestElement) else None
                else
                  if o == 95 then Some(AssignmentPattern) else None
            else
              if o < 116 then
                if 98 <= o < 114 then Some(JSXKind(o - 98)) else None
              else
                if o < 202 then
                  if 116 <= o < 202 then Some(FlowKind(o - 116)) else None
                else
                  if o == 202 then Some(ComponentParameter) else None
          else
            if o < 255 then
              if o < 253 then
                if 205 <= o < 251 then Some(TSKind(o - 205)) else None
              else
                if o < 254 then
                  if o == 253 then Some(CoverEmptyArgs) else None
                else
                  if o == 254 then Some(CoverTrailingComma) else None
            else
              if o < 256 then
                if o == 255 then Some(CoverInitializer) else None
              else
                if o < 257 then
                  if o == 256 then Some(CoverRestElement) else None
                else
                  if o == 257 then Some(CoverTypedIdentifier) else None
  }

  /** A schema row of a concrete kind: its `NodeKind` ordinal and the
      category it is declared under (None for the root `Base`). */
  datatype KindEntry = KindEntry(ordinal: nat, base: Option<Category>)

  /** The schema row of every concrete kind, read off the schema: the
      ordinal is the kind's position in the enumeration, counting the
      sentinels, and the base is the innermost category around it. */
  function Entry(k: Kind): KindEntry
  {
    match k
    case Empty => KindEntry(0, None)
    case Metadata => KindEntry(1, None)
    case Program => KindEntry(3, Some(FunctionLike))
    case FunctionExpression => KindEntry(4, Some(FunctionLike))
    case ArrowFunctionExpression => KindEntry(5, Some(FunctionLike))
    case FunctionDeclaration => KindEntry(6, Some(FunctionLike))
    case ComponentDeclaration => KindEntry(7, Some(FunctionLike))
    case HookDeclaration => KindEntry(8, Some(FunctionLike))
    case WhileStatement => KindEntry(12, Some(LoopStatement))
    case DoWhileStatement => KindEntry(13, Some(LoopStatement))
    case ForInStatement => KindEntry(14, Some(LoopStatement))
    case ForOfStatement => KindEntry(15, Some(LoopStatement))
    case ForStatement => KindEntry(16, Some(LoopStatement))
    case DebuggerStatement => KindEntry(18, Some(Statement))
    case EmptyStatement => KindEntry(19, Some(Statement))
    case BlockStatement => KindEntry(20, Some(Statement))
    case BreakStatement => KindEntry(21, Some(Statement))
    case ContinueStatement => KindEntry(22, Some(Statement))
    case ThrowStatement => KindEntry(23, Some(Statement))
    case ReturnStatement => KindEntry(24, Some(Statement))
    case WithStatement => KindEntry(25, Some(Statement))
    case SwitchStatement => KindEntry(26, Some(Statement))
    case LabeledStatement => KindEntry(27, Some(Statement))
    case ExpressionStatement => KindEntry(28, Some(Statement))
    case TryStatement => KindEntry(29, Some(Statement))
    case IfStatement => KindEntry(30, Some(Statement))
    case NullLiteral => KindEntry(32, None)
    case BooleanLiteral => KindEntry(33, None)
    case StringLiteral => KindEntry(34, None)
    case NumericLiteral => KindEntry(35, None)
    case RegExpLiteral => KindEntry(36, None)
    case BigIntLiteral => KindEntry(37, None)
    case ThisExpression => KindEntry(38, None)
    case Super => KindEntry(39, None)
    case SequenceExpression => KindEntry(40, None)
    case ObjectExpression => KindEntry(41, None)
    case ArrayExpression => KindEntry(42, None)
    case SpreadElement => KindEntry(43, None)
    case NewExpression => KindEntry(44, None)
    case YieldExpression => KindEntry(45, None)
    case AwaitExpression => KindEntry(46, None)
    case ImportExpression => KindEntry(47, None)
    case CallExpression => KindEntry(49, Some(CallExpressionLike))
    case OptionalCallExpression => KindEntry(50, Some(CallExpressionLike))
    case AssignmentExpression => KindEntry(52, None)
    case UnaryExpression => KindEntry(53, None)
    case UpdateExpression => KindEntry(54, None)
    case MemberExpression => KindEntry(56, Some(MemberExpressionLike))
    case OptionalMemberExpression => KindEntry(57, Some(MemberExpressionLike))
    case LogicalExpression => KindEntry(59, None)
    case ConditionalExpression => KindEntry(60, None)
    case BinaryExpression => KindEntry(61, None)
    case Directive => KindEntry(62, None)
    case DirectiveLiteral => KindEntry(63, None)
    case Identifier => KindEntry(64, None)
    case PrivateName => KindEntry(65, None)
    case MetaProperty => KindEntry(66, None)
    case SwitchCase => KindEntry(67, None)
    case CatchClause => KindEntry(68, None)
    case VariableDeclarator => KindEntry(69, None)
    case VariableDeclaration => KindEntry(70, None)
    case TemplateLiteral => KindEntry(71, None)
    case TaggedTemplateExpression => KindEntry(72, None)
    case TemplateElement => KindEntry(73, None)
    case Property => KindEntry(74, None)
    case ClassDeclaration => KindEntry(75, None)
    case ClassExpression => KindEntry(76, None)
    case ClassBody => KindEntry(77, None)
    case ClassProperty => KindEntry(78, None)
    case ClassPrivateProperty => KindEntry(79, None)
    case MethodDefinition => KindEntry(80, None)
    case ImportDeclaration => KindEntry(81, None)
    case ImportSpecifier => KindEntry(82, None)
    case ImportDefaultSpecifier => KindEntry(83, None)
    case ImportNamespaceSpecifier => KindEntry(84, None)
    case ImportAttribute => KindEntry(85, None)
    case ExportNamedDeclaration => KindEntry(86, None)
    case ExportSpecifier => KindEntry(87, None)
    case ExportNamespaceSpecifier => KindEntry(88, None)
    case ExportDefaultDeclaration => KindEntry(89, None)
    case ExportAllDeclaration => KindEntry(90, None)
    case ObjectPattern => KindEntry(92, Some(Pattern))
    case ArrayPattern => KindEntry(93, Some(Pattern))
    case RestElement => KindEntry(94, Some(Pattern))
    case AssignmentPattern => KindEntry(95, Some(Pattern))
    case JSXKind(i) => KindEntry(98 + i, Some(JSX))
    case FlowKind(i) => KindEntry(116 + i, Some(Flow))
    case ComponentParameter => KindEntry(202, Some(Flow))
    case TSKind(i) => KindEntry(205 + i, Some(TS))
    case CoverEmptyArgs => KindEntry(253, Some(Cover))
    case CoverTrailingComma => KindEntry(254, Some(Cover))
    case CoverInitializer => KindEntry(255, Some(Cover))
    case CoverRestElement => KindEntry(256, Some(Cover))
    case CoverTypedIdentifier => KindEntry(257, Some(Cover))
  }

  /** The `NodeKind` ordinal of a concrete kind. */
  function Ordinal(k: Kind): nat
  {
    Entry(k).ordinal
  }

  /** The category a kind is declared under in the schema. */
  function DeclaredBase(k: Kind): Option<Category>
  {
    Entry(k).base
  }

  /** The category test `classof`: a strict test against the two sentinels. */
  predicate IsA(c: Category, k: Kind)
  {
    FirstOrdinal(c) < Ordinal(k) < LastOrdinal(c)
  }

  /** The innermost category whose two sentinels strictly enclose ordinal
      `o`, read off the sentinel ordinals alone. */
  function BaseAt(o: int): (r: Option<Category>)
    ensures r.Some? ==> FirstOrdinal(r.value) < o < LastOrdinal(r.value)
  {
    if FirstOrdinal(LoopStatement) < o < LastOrdinal(LoopStatement) then Some(LoopStatement)
    else if FirstOrdinal(Statement) < o < LastOrdinal(Statement) then Some(Statement)
    else if FirstOrdinal(FunctionLike) < o < LastOrdinal(FunctionLike) then Some(FunctionLike)
    else if FirstOrdinal(CallExpressionLike) < o < LastOrdinal(CallExpressionLike) then Some(CallExpressionLike)
    else if FirstOrdinal(MemberExpressionLike) < o < LastOrdinal(MemberExpressionLike) then Some(MemberExpressionLike)
    else if FirstOrdinal(Pattern) < o < LastOrdinal(Pattern) then Some(Pattern)
    else if FirstOrdinal(JSX) < o < LastOrdinal(JSX) then Some(JSX)
    else if FirstOrdinal(Flow) < o < LastOrdinal(Flow) then Some(Flow)
    else if FirstOrdinal(TS) < o < LastOrdinal(TS) then Some(TS)
    else if FirstOrdinal(Cover) < o < LastOrdinal(Cover) then Some(Cover)
    else None
  }

  /** On ordinals, the strict range test of a category holds exactly where
      the innermost enclosing category is that category or nested in it. */
  lemma BaseAtRange(c: Category, o: int)
    ensures FirstOrdinal(c) < o < LastOrdinal(c) <==> Within(BaseAt(o), c)
  {
  }

  /* The schema rows are checked a group at a time, the groups following
     the order of the schema, so that no single proof weighs every kind. */

  /** Whether `k` is `Empty`, `Metadata`, or a program or function kind (ordinals 0 to 9). */
  predicate InProgramAndFunctions(k: Kind)
  {
    match k
    case Empty | Metadata | Program | FunctionExpression | ArrowFunctionExpression |
      FunctionDeclaration | ComponentDeclaration | HookDeclaration => true
    case _ => false
  }

  /** Whether `k` is a statement kind (ordinals 10 to 31). */
  predicate InStatements(k: Kind)
  {
    match k
    case WhileStatement | DoWhileStatement | ForInStatement | ForOfStatement | ForStatement |
      DebuggerStatement | EmptyStatement | BlockStatement | BreakStatement |
      ContinueStatement | ThrowStatement | ReturnStatement | WithStatement | SwitchStatement |
      LabeledStatement | ExpressionStatement | TryStatement | IfStatement => true
    case _ => false
  }

  /** Whether `k` is a literal or primary expression kind (ordinals 32 to 47). */
  predicate InPrimaryExpressions(k: Kind)
  {
    match k
    case NullLiteral | BooleanLiteral | StringLiteral | NumericLiteral | RegExpLiteral |
      BigIntLiteral | ThisExpression | Super | SequenceExpression | ObjectExpression |
      ArrayExpression | SpreadElement | NewExpression | YieldExpression | AwaitExpression |
      ImportExpression => true
    case _ => false
  }

  /** Whether `k` is a call, assignment, unary, update or member expression kind (ordinals 48 to 58). */
  predicate InCallsAndMembers(k: Kind)
  {
    match k
    case CallExpression | OptionalCallExpression | AssignmentExpression | UnaryExpression |
      UpdateExpression | MemberExpression | OptionalMemberExpression => true
    case _ => false
  }

  /** Whether `k` is an operator expression, identifier, clause, declarator or template kind (ordinals 59 to 73). */
  predicate InOperatorsAndClauses(k: Kind)
  {
    match k
    case LogicalExpression | ConditionalExpression | BinaryExpression | Directive |
      DirectiveLiteral | Identifier | PrivateName | MetaProperty | SwitchCase | CatchClause |
      VariableDeclarator | VariableDeclaration | TemplateLiteral | TaggedTemplateExpression |
      TemplateElement => true
    case _ => false
  }

  /** Whether `k` is a property or class kind (ordinals 74 to 80). */
  predicate InClasses(k: Kind)
  {
    match k
    case Property | ClassDeclaration | ClassExpression | ClassBody | ClassProperty |
      ClassPrivateProperty | MethodDefinition => true
    case _ => false
  }

  /** Whether `k` is an import or export kind (ordinals 81 to 91). */
  predicate InModules(k: Kind)
  {
    match k
    case ImportDeclaration | ImportSpecifier | ImportDefaultSpecifier |
      ImportNamespaceSpecifier | ImportAttribute | ExportNamedDeclaration | ExportSpecifier |
      ExportNamespaceSpecifier | ExportDefaultDeclaration | ExportAllDeclaration => true
    case _ => false
  }

  /** Whether `k` is a pattern, JSX, Flow, TypeScript or cover kind (ordinals 92 on). */
  predicate InPatternsAndDialects(k: Kind)
  {
    match k
    case ObjectPattern | ArrayPattern | RestElement | AssignmentPattern | JSXKind(_) |
      FlowKind(_) | ComponentParameter | TSKind(_) | CoverEmptyArgs | CoverTrailingComma |
      CoverInitializer | CoverRestElement | CoverTypedIdentifier => true
    case _ => false
  }

  /** The groups cover every kind. */
  lemma GroupsCover(k: Kind)
    ensures InProgramAndFunctions(k)
         || InStatements(k)
         || InPrimaryExpressions(k)
         || InCallsAndMembers(k)
         || InOperatorsAndClauses(k)
         || InClasses(k)
         || InModules(k)
         || InPatternsAndDialects(k)
  {
  }

  lemma EntryAgreesProgramAndFunctions(k: Kind)
    requires InProgramAndFunctions(k)
    ensures KindAt(Ordinal(k)) == Some(k) && Ordinal(k) < 0x1_0000_0000
    ensures DeclaredBase(k) == BaseAt(Ordinal(k))
  {
  }

  lemma EntryAgreesStatements(k: Kind)
    requires InStatements(k)
    ensures KindAt(Ordinal(k)) == Some(k) && Ordinal(k) < 0x1_0000_0000
    ensures DeclaredBase(k) == BaseAt(Ordinal(k))
  {
  }

  lemma EntryAgreesPrimaryExpressions(k: Kind)
    requires InPrimaryExpressions(k)
    ensures KindAt(Ordinal(k)) == Some(k) && Ordinal(k) < 0x1_0000_0000
    ensures DeclaredBase(k) == BaseAt(Ordinal(k))
  {
  }

  lemma EntryAgreesCallsAndMembers(k: Kind)
    requires InCallsAndMembers(k)
    ensures KindAt(Ordinal(k)) == Some(k) && Ordinal(k) < 0x1_0000_0000
    ensures DeclaredBase(k) == BaseAt(Ordinal(k))
  {
  }

  lemma EntryAgreesOperatorsAndClauses(k: Kind)
    requires InOperatorsAndClauses(k)
    ensures KindAt(Ordinal(k)) == Some(k) && Ordinal(k) < 0x1_0000_0000
    ensures DeclaredBase(k) == BaseAt(Ordinal(k))
  {
  }

  lemma EntryAgreesClasses(k: Kind)
    requires InClasses(k)
    ensures KindAt(Ordinal(k)) == Some(k) && Ordinal(k) < 0x1_0000_0000
    ensures DeclaredBase(k) == BaseAt(Ordinal(k))
  {
  }

  lemma EntryAgreesModules(k: Kind)
    requires InModules(k)
    ensures KindAt(Ordinal(k)) == Some(k) && Ordinal(k) < 0x1_0000_0000
    ensures DeclaredBase(k) == BaseAt(Ordinal(k))
  {
  }

  lemma EntryAgreesPatternsAndDialects(k: Kind)
    requires InPatternsAndDialects(k)
    ensures KindAt(Ordinal(k)) == Some(k) && Ordinal(k) < 0x1_0000_0000
    ensures DeclaredBase(k) == BaseAt(Ordinal(k))
  {
  }

  /** Every ordinal decodes back to its kind and fits the enumeration's
      32-bit underlying type, and the category a kind is declared under is
      the innermost one whose sentinels enclose its ordinal. */
  lemma KindAtOrdinal(k: Kind)
    ensures KindAt(Ordinal(k)) == Some(k)
    ensures Ordinal(k) < 0x1_0000_0000
    ensures DeclaredBase(k) == BaseAt(Ordinal(k))
  {
    GroupsCover(k);
    if InProgramAndFunctions(k) {
      EntryAgreesProgramAndFunctions(k);
    } else if InStatements(k) {
      EntryAgreesStatements(k);
    } else if InPrimaryExpressions(k) {
      EntryAgreesPrimaryExpressions(k);
    } else if InCallsAndMembers(k) {
      EntryAgreesCallsAndMembers(k);
    } else if InOperatorsAndClauses(k) {
      EntryAgreesOperatorsAndClauses(k);
    } else if InClasses(k) {
      EntryAgreesClasses(k);
    } else if InModules(k) {
      EntryAgreesModules(k);
    } else {
      EntryAgreesPatternsAndDialects(k);
    }
  }

  /** The generator invariant of the enumeration: for every category, the
      strict range test between its two sentinels agrees with where the kind
      was declared. */
  lemma CategoryRange(c: Category, k: Kind)
    ensures IsA(c, k) <==> Within(DeclaredBase(k), c)
  {
    KindAtOrdinal(k);
    BaseAtRange(c, Ordinal(k));
  }

  /** The sentinels take ordinals of their own. */
  lemma SentinelsDenoteNoKind(c: Category)
    ensures KindAt(FirstOrdinal(c)) == None
    ensures KindAt(LastOrdinal(c)) == None
  {
  }

  /** No concrete kind shares its ordinal with a sentinel. */
  lemma NoKindAtSentinel(k: Kind, c: Category)
    ensures Ordinal(k) != FirstOrdinal(c)
    ensures Ordinal(k) != LastOrdinal(c)
  {
    KindAtOrdinal(k);
    SentinelsDenoteNoKind(c);
  }

  /** Distinct kinds have distinct ordinals. */
  lemma OrdinalInjective(k1: Kind, k2: Kind)
    ensures Ordinal(k1) == Ordinal(k2) <==> k1 == k2
  {
    KindAtOrdinal(k1);
    KindAtOrdinal(k2);
  }

  /** LoopStatement is nested in Statement: every loop is a statement. */
  lemma LoopStatementsAreStatements(k: Kind)
    ensures IsA(LoopStatement, k) ==> IsA(Statement, k)
  {
    assert FirstOrdinal(Statement) < FirstOrdinal(LoopStatement) && LastOrdinal(LoopStatement) < LastOrdinal(Statement);
  }

  /** Which kinds the ordinals strictly inside LoopStatement denote. */
  lemma LoopStatementOrdinals(o: int)
    requires FirstOrdinal(LoopStatement) < o < LastOrdinal(LoopStatement)
    ensures KindAt(o).Some?
    ensures 
      KindAt(o).value == WhileStatement
      || KindAt(o).value == DoWhileStatement
      || KindAt(o).value == ForInStatement
      || KindAt(o).value == ForOfStatement
      || KindAt(o).value == ForStatement
  {
  }

  lemma LoopStatementKindsSound(k: Kind)
    requires IsA(LoopStatement, k)
    ensures 
      k == WhileStatement
      || k == DoWhileStatement
      || k == ForInStatement
      || k == ForOfStatement
      || k == ForStatement
  {
    KindAtOrdinal(k);
    LoopStatementOrdinals(Ordinal(k));
  }

  lemma LoopStatementKindsComplete(k: Kind)
    requires 
      k == WhileStatement
      || k == DoWhileStatement
      || k == ForInStatement
      || k == ForOfStatement
      || k == ForStatement
    ensures IsA(LoopStatement, k)
  {
    assert InStatements(k);
    EntryAgreesStatements(k);
  }

  /** The LoopStatement category holds exactly the five loop kinds. */
  lemma LoopStatementKinds(k: Kind)
    ensures IsA(LoopStatement, k) <==> (
      k == WhileStatement
      || k == DoWhileStatement
      || k == ForInStatement
      || k == ForOfStatement
      || k == ForStatement)
  {
    if IsA(LoopStatement, k) {
      LoopStatementKindsSound(k);
    } else if 
      k == WhileStatement
      || k == DoWhileStatement
      || k == ForInStatement
      || k == ForOfStatement
      || k == ForStatement {
      LoopStatementKindsComplete(k);
    }
  }

  /** Which kinds the ordinals strictly inside FunctionLike denote. */
  lemma FunctionLikeOrdinals(o: int)
    requires FirstOrdinal(FunctionLike) < o < LastOrdinal(FunctionLike)
    ensures KindAt(o).Some?
    ensures 
      KindAt(o).value == Program
      || KindAt(o).value == FunctionExpression
      || KindAt(o).value == ArrowFunctionExpression
      || KindAt(o).value == FunctionDeclaration
      || KindAt(o).value == ComponentDeclaration
      || KindAt(o).value == HookDeclaration
  {
  }

  lemma FunctionLikeKindsSound(k: Kind)
    requires IsA(FunctionLike, k)
    ensures 
      k == Program
      || k == FunctionExpression
      || k == ArrowFunctionExpression
      || k == FunctionDeclaration
      || k == ComponentDeclaration
      || k == HookDeclaration
  {
    KindAtOrdinal(k);
    FunctionLikeOrdinals(Ordinal(k));
  }

  lemma FunctionLikeKindsComplete(k: Kind)
    requires 
      k == Program
      || k == FunctionExpression
      || k == ArrowFunctionExpression
      || k == FunctionDeclaration
      || k == ComponentDeclaration
      || k == HookDeclaration
    ensures IsA(FunctionLike, k)
  {
    assert InProgramAndFunctions(k);
    EntryAgreesProgramAndFunctions(k);
  }

  /** The FunctionLike category holds exactly the six function-like kinds. */
  lemma FunctionLikeKinds(k: Kind)
    ensures IsA(FunctionLike, k) <==> (
      k == Program
      || k == FunctionExpression
      || k == ArrowFunctionExpression
      || k == FunctionDeclaration
      || k == ComponentDeclaration
      || k == HookDeclaration)
  {
    if IsA(FunctionLike, k) {
      FunctionLikeKindsSound(k);
    } else if 
      k == Program
      || k == FunctionExpression
      || k == ArrowFunctionExpression
      || k == FunctionDeclaration
      || k == ComponentDeclaration
      || k == HookDeclaration {
      FunctionLikeKindsComplete(k);
    }
  }

  /** Which kinds the ordinals strictly inside CallExpressionLike denote. */
  lemma CallExpressionLikeOrdinals(o: int)
    requires FirstOrdinal(CallExpressionLike) < o < LastOrdinal(CallExpressionLike)
    ensures KindAt(o).Some?
    ensures KindAt(o).value == CallExpression || KindAt(o).value == OptionalCallExpression
  {
  }

  lemma CallExpressionLikeKindsSound(k: Kind)
    requires IsA(CallExpressionLike, k)
    ensures k == CallExpression || k == OptionalCallExpression
  {
    KindAtOrdinal(k);
    CallExpressionLikeOrdinals(Ordinal(k));
  }

  lemma CallExpressionLikeKindsComplete(k: Kind)
    requires k == CallExpression || k == OptionalCallExpression
    ensures IsA(CallExpressionLike, k)
  {
    assert InCallsAndMembers(k);
    EntryAgreesCallsAndMembers(k);
  }

  /** The CallExpressionLike category holds exactly the two call kinds. */
  lemma CallExpressionLikeKinds(k: Kind)
    ensures IsA(CallExpressionLike, k) <==> (k == CallExpression || k == OptionalCallExpression)
  {
    if IsA(CallExpressionLike, k) {
      CallExpressionLikeKindsSound(k);
    } else if k == CallExpression || k == OptionalCallExpression {
      CallExpressionLikeKindsComplete(k);
    }
  }

  /** Which kinds the ordinals strictly inside MemberExpressionLike denote. */
  lemma MemberExpressionLikeOrdinals(o: int)
    requires FirstOrdinal(MemberExpressionLike) < o < LastOrdinal(MemberExpressionLike)
    ensures KindAt(o).Some?
    ensures KindAt(o).value == MemberExpression || KindAt(o).value == OptionalMemberExpression
  {
  }

  lemma MemberExpressionLikeKindsSound(k: Kind)
    requires IsA(MemberExpressionLike, k)
    ensures k == MemberExpression || k == OptionalMemberExpression
  {
    KindAtOrdinal(k);
    MemberExpressionLikeOrdinals(Ordinal(k));
  }

  lemma MemberExpressionLikeKindsComplete(k: Kind)
    requires k == MemberExpression || k == OptionalMemberExpression
    ensures IsA(MemberExpressionLike, k)
  {
    assert InCallsAndMembers(k);
    EntryAgreesCallsAndMembers(k);
  }

  /** The MemberExpressionLike category holds exactly the two member kinds. */
  lemma MemberExpressionLikeKinds(k: Kind)
    ensures IsA(MemberExpressionLike, k) <==> (k == MemberExpression || k == OptionalMemberExpression)
  {
    if IsA(MemberExpressionLike, k) {
      MemberExpressionLikeKindsSound(k);
    } else if k == MemberExpression || k == OptionalMemberExpression {
      MemberExpressionLikeKindsComplete(k);
    }
  }

  /** Which kinds the ordinals strictly inside Pattern denote. */
  lemma PatternOrdinals(o: int)
    requires FirstOrdinal(Pattern) < o < LastOrdinal(Pattern)
    ensures KindAt(o).Some?
    ensures 
      KindAt(o).value == ObjectPattern
      || KindAt(o).value == ArrayPattern
      || KindAt(o).value == RestElement
      || KindAt(o).value == AssignmentPattern
  {
  }

  lemma PatternKindsSound(k: Kind)
    requires IsA(Pattern, k)
    ensures 
      k == ObjectPattern
      || k == ArrayPattern
      || k == RestElement
      || k == AssignmentPattern
  {
    KindAtOrdinal(k);
    PatternOrdinals(Ordinal(k));
  }

  lemma PatternKindsComplete(k: Kind)
    requires 
      k == ObjectPattern
      || k == ArrayPattern
      || k == RestElement
      || k == AssignmentPattern
    ensures IsA(Pattern, k)
  {
    assert InPatternsAndDialects(k);
    EntryAgreesPatternsAndDialects(k);
  }

  /** The four destructuring kinds. */
  predicate IsPatternKind(k: Kind)
  {
    k == ObjectPattern || k == ArrayPattern || k == RestElement || k == AssignmentPattern
  }

  /** The Pattern category holds exactly the four destructuring kinds. */
  lemma PatternKinds(k: Kind)
    ensures IsA(Pattern, k) <==> IsPatternKind(k)
  {
    if IsA(Pattern, k) {
      PatternKindsSound(k);
    } else if IsPatternKind(k) {
      PatternKindsComplete(k);
    }
  }
}
