# ESTree AST core of the Hermes parser, modelled in Dafny

This project models the ESTree abstract syntax tree layer of the Hermes
JavaScript parser, as vendored in swift-hermes-parser. It covers the
node-kind enumeration and its category range tests, the base state every
node carries, the generic visitor and the decorations. It also covers the
shape accessors over function-like, member-like and call-like nodes, and
the two linearizers that flatten operator chains without recursion.

Modules, one per concern:

- `NodeKinds` (`node_kinds.dfy`)
  - `Kind` has one constructor per concrete node kind, in schema order.
    - The JavaScript kinds and the Cover kinds are named.
    - Of the Flow kinds, only `ComponentDeclaration`, `HookDeclaration` and `ComponentParameter` are named.
    - The remaining JSX, Flow and TypeScript kinds are identified by their position inside their category.
  - `Ordinal` gives each kind the value the C++ `NodeKind` enumeration gives it. The `_X_First` / `_X_Last` sentinels take ordinals of their own, so each category is a contiguous range.
  - `IsA(c, k)` is the strict range test `classof` performs.
- `FieldSchema` (`field_schema.dfy`): the ordered field list (type, name, optional flag) of every kind, taken from the declarative node schema. It also says where the fields the accessors and linearizers read sit in their kinds' layouts.
- `Decorations` (`decorations.dfy`): strictness, the set-once label index and the set-once semantic-information pointer.
- `Nodes` (`nodes.dfy`)
  - A node is an immutable value. It holds its kind, a saturating paren counter, a source range, a debug location, its fields in schema order and its decoration.
  - `Shaped` says a node has its kind's layout and decoration. `WF` says every node of a tree is shaped.
  - `FieldOf` is name-based field access. The location setters and the paren counter are modelled here too.
- `Visitor` (`visitor.dfy`): the traversal, modelled as the trace of `enter`/`leave` callbacks it makes, compared with preorder and postorder defined from the tree shape alone.
- `Accessors` (`accessors.dfy`)
  - The accessors `getParams`, `getBlockStatement`, `getObject`, `getProperty`, `getComputed`, `getCallee` and `getArguments`.
  - The predicates `hasSimpleParams`, `hasParamExpressions` (as written, plus a corrected version), `isGenerator` and `isAsync`.
- `Linearize` (`linearize.dfy`)
  - `checkExprOperator`, `linearizeLeft` and `linearizeRight`.
  - Each linearizer's output is characterised by properties that determine it uniquely: chain linking, matching operators, and a non-matching end.
- `Wrappers` (`wrappers.dfy`): `Option`.

The C++ assertions and `llvm_unreachable` defaults become preconditions. This applies to:
- a category accessor given a node outside its category;
- reading an unset label index or semantic-information pointer;
- setting either one twice;
- `isStrict` on an undecided strictness;
- the `cast<BlockStatementNode>` of a non-arrow function body.

## Model

All paths are relative to the repository root. `ESTree.h` is
`Sources/cxxHermesForSwift/include/hermes/AST/ESTree.h` and `ESTree.cpp` is
`Sources/cxxHermesForSwift/hermes/AST/ESTree.cpp`; the table spells them out.

| member | source | states |
|---|---|---|
| NodeKinds.KindAtOrdinal | Sources/cxxHermesForSwift/include/hermes/AST/ESTree.h:113-1401 | Every kind's enumeration ordinal decodes back to that kind and fits the enumeration's `uint32_t`. The category a kind is declared under is the innermost category whose sentinel pair encloses its ordinal. |
| NodeKinds.CategoryRange | Sources/cxxHermesForSwift/include/hermes/AST/ESTree.h:4473-4477 | For every category and kind, the `classof` range test `_X_First < kind < _X_Last` holds exactly when the kind was declared under that category or under a category nested in it. |
| NodeKinds.OrdinalInjective | Sources/cxxHermesForSwift/include/hermes/AST/ESTree.h:54-57 | Two kinds share an ordinal exactly when they are the same kind. |
| NodeKinds.NoKindAtSentinel | Sources/cxxHermesForSwift/include/hermes/AST/ESTree.h:55-56 | No concrete kind has the ordinal of a `_X_First` or `_X_Last` sentinel. |
| NodeKinds.LoopStatementsAreStatements | Sources/cxxHermesForSwift/include/hermes/AST/ESTree.h:185-314 | Because LoopStatement is declared inside Statement, every loop kind passes the Statement range test. |
| NodeKinds.LoopStatementKinds | Sources/cxxHermesForSwift/include/hermes/AST/ESTree.h:187-239 | A kind is a LoopStatement exactly when it is one of the five loop kinds (both directions). |
| NodeKinds.FunctionLikeKinds | Sources/cxxHermesForSwift/include/hermes/AST/ESTree.h:116-183 | A kind is FunctionLike exactly when it is Program, a function expression, an arrow function, a function declaration, a component declaration or a hook declaration. |
| NodeKinds.CallExpressionLikeKinds | Sources/cxxHermesForSwift/include/hermes/AST/ESTree.h:363-378 | A kind is CallExpressionLike exactly when it is CallExpression or OptionalCallExpression. |
| NodeKinds.MemberExpressionLikeKinds | Sources/cxxHermesForSwift/include/hermes/AST/ESTree.h:419-432 | A kind is MemberExpressionLike exactly when it is MemberExpression or OptionalMemberExpression. |
| NodeKinds.PatternKinds | Sources/cxxHermesForSwift/include/hermes/AST/ESTree.h:691-714 | A kind is a Pattern exactly when it is ObjectPattern, ArrayPattern, RestElement or AssignmentPattern. |
| FieldSchema.IndexOfFindsFirst | Sources/cxxHermesForSwift/include/hermes/AST/ESTree.h:4498-4504 | Looking a field up by name (the data member `_name`) finds the first field of that name in the layout. It finds nothing exactly when no field has the name. |
| FieldSchema.ParamsAt | Sources/cxxHermesForSwift/include/hermes/AST/ESTree.h:116-180 | Every function-like kind but Program has its non-optional `params` list at position 1 of its layout. |
| FieldSchema.BodyAt | Sources/cxxHermesForSwift/include/hermes/AST/ESTree.h:116-180 | Every function-like kind but Program has its non-optional `body` pointer at position 2. |
| FieldSchema.GeneratorAt | Sources/cxxHermesForSwift/include/hermes/AST/ESTree.h:119-157 | Function expressions and declarations have their `generator` flag at position 6. |
| FieldSchema.AsyncAt | Sources/cxxHermesForSwift/include/hermes/AST/ESTree.h:119-157 | Function expressions, arrow functions and function declarations have their `async` flag at position 7. |
| FieldSchema.ObjectAt | Sources/cxxHermesForSwift/include/hermes/AST/ESTree.h:419-432 | Both member kinds have `object` at position 0. |
| FieldSchema.PropertyAt | Sources/cxxHermesForSwift/include/hermes/AST/ESTree.h:419-432 | Both member kinds have `property` at position 1. |
| FieldSchema.ComputedAt | Sources/cxxHermesForSwift/include/hermes/AST/ESTree.h:419-432 | Both member kinds have the `computed` flag at position 2. |
| FieldSchema.CalleeAt | Sources/cxxHermesForSwift/include/hermes/AST/ESTree.h:363-378 | Both call kinds have `callee` at position 0. |
| FieldSchema.ArgumentsAt | Sources/cxxHermesForSwift/include/hermes/AST/ESTree.h:363-378 | Both call kinds have the `arguments` list at position 2. |
| FieldSchema.LocalAt | Sources/cxxHermesForSwift/include/hermes/AST/ESTree.h:1167-1171 | A component parameter has its non-optional `local` pointer at position 1. |
| FieldSchema.LeftAt | Sources/cxxHermesForSwift/include/hermes/AST/ESTree.h:380-471 | Binary and logical expressions have `left` at position 0. An assignment, whose layout lists the operator first, has it at 1. |
| FieldSchema.RightAt | Sources/cxxHermesForSwift/include/hermes/AST/ESTree.h:380-471 | `right` sits at position 1 of binary and logical expressions and at position 2 of an assignment. |
| FieldSchema.OperatorAt | Sources/cxxHermesForSwift/include/hermes/AST/ESTree.h:380-471 | The `operator` label sits at position 2 of binary and logical expressions and at position 0 of an assignment. |
| FieldSchema.OperandsWidth | Sources/cxxHermesForSwift/include/hermes/AST/ESTree.h:380-471 | Binary, logical and assignment expressions have exactly three fields. |
| Decorations.IsStrict | Sources/cxxHermesForSwift/include/hermes/AST/ESTree.h:4304-4307 | Reading strictness requires it to be decided, and reads true exactly for strict mode. |
| Decorations.MakeStrictness | Sources/cxxHermesForSwift/include/hermes/AST/ESTree.h:4311-4313 | The strictness made from a flag is decided and reads back as that flag. |
| Decorations.StrictnessRoundTrip | Sources/cxxHermesForSwift/include/hermes/AST/ESTree.h:4304-4313 | `isStrict(makeStrictness(b)) == b`. Every decided strictness `s` satisfies `makeStrictness(isStrict(s)) == s`. |
| Decorations.GetLabelIndex | Sources/cxxHermesForSwift/include/hermes/AST/ESTree.h:4357-4360 | Reading the label index requires it to be set, and returns the stored index, which is never the reserved `~0u`. |
| Decorations.SetLabelIndex | Sources/cxxHermesForSwift/include/hermes/AST/ESTree.h:4362-4366 | Setting requires an unset index and a value other than `~0u`. Afterwards the index is set and reads back as the value. |
| Decorations.LabelIndexSetOnce | Sources/cxxHermesForSwift/include/hermes/AST/ESTree.h:4348-4367 | A fresh label decoration is unset. Any valid index can be set on it once, after which it reads back and a second set is no longer permitted. |
| Decorations.SetSemInfo | Sources/cxxHermesForSwift/include/hermes/AST/ESTree.h:4329-4333 | Setting requires a non-null value and no earlier value. The strictness is left as it was. |
| Decorations.GetSemInfo | Sources/cxxHermesForSwift/include/hermes/AST/ESTree.h:4335-4338 | Reading requires the pointer to be set and returns what is stored. |
| Decorations.SemInfoSetOnce | Sources/cxxHermesForSwift/include/hermes/AST/ESTree.h:4317-4338 | A fresh function decoration has no semantic information. Setting it reads back, leaves strictness undecided and forbids a second set. |
| Nodes.InitialDecoration | Sources/cxxHermesForSwift/include/hermes/AST/ESTree.h:4317-4367 | A fresh node carries the decoration its kind's class derives. For function-likes that is no semantic information and undecided strictness, with an empty dummy parameter list for Program. For loops, `switch`, `break`, `continue` and labeled statements it is an unset label index. |
| Nodes.NewNode | Sources/cxxHermesForSwift/include/hermes/AST/ESTree.h:1429-1437 | A freshly constructed node has the given kind and fields, zero parens, null locations and a decoration of the shape its kind carries. |
| Nodes.NewNodeDecoration | Sources/cxxHermesForSwift/include/hermes/AST/ESTree.h:4316-4367 | A fresh node's decoration is exactly its kind's initial one: an unset label index, no semantic information, undecided strictness and an empty dummy parameter list for Program. |
| Nodes.SetSourceRange | Sources/cxxHermesForSwift/include/hermes/AST/ESTree.h:1439-1441 | The range becomes the given one. The debug location, kind, parens, fields and decoration are kept. |
| Nodes.SetStartLoc | Sources/cxxHermesForSwift/include/hermes/AST/ESTree.h:1445-1447 | Only the range's start changes. The end, the debug location, the kind, the parens, the fields and the decoration are kept. |
| Nodes.SetEndLoc | Sources/cxxHermesForSwift/include/hermes/AST/ESTree.h:1451-1453 | Only the range's end changes; everything else is kept. |
| Nodes.SetDebugLoc | Sources/cxxHermesForSwift/include/hermes/AST/ESTree.h:1457-1459 | The debug location becomes the given one. The range, kind, parens, fields and decoration are kept. |
| Nodes.SetStartThenEnd | Sources/cxxHermesForSwift/include/hermes/AST/ESTree.h:1439-1453 | Setting the start and then the end, in either order, equals setting the whole source range. |
| Nodes.CopyLocationFrom | Sources/cxxHermesForSwift/include/hermes/AST/ESTree.h:1475-1478 | The copy takes exactly the source range and debug location of `src`; kind, parens, fields and decoration are unchanged. |
| Nodes.CopyLocationFacts | Sources/cxxHermesForSwift/include/hermes/AST/ESTree.h:1475-1478 | Copying equals `setSourceRange` then `setDebugLoc`. It is idempotent, and copying from oneself changes nothing. |
| Nodes.IncParens | Sources/cxxHermesForSwift/include/hermes/AST/ESTree.h:1467-1469 | The counter becomes min(p + 1, 2) and never decreases. It stays put exactly at 2. Nothing else about the node changes. |
| Nodes.ClearParens | Sources/cxxHermesForSwift/include/hermes/AST/ESTree.h:1470-1472 | The counter becomes 0, whatever it was, and nothing else about the node changes. |
| Nodes.IncParensSaturates | Sources/cxxHermesForSwift/include/hermes/AST/ESTree.h:1429-1469 | After any number `t` of increments the counter reads min(p + t, 2), and nothing else about the node changes. |
| Nodes.ClearThenCount | Sources/cxxHermesForSwift/include/hermes/AST/ESTree.h:1464-1472 | After `clearParens`, `t` increments read min(t, 2): clearing forgets the earlier count. |
| Nodes.LocationUpdatesKeepWF | Sources/cxxHermesForSwift/include/hermes/AST/ESTree.h:1439-1478 | Location and paren updates keep a tree well formed. |
| Visitor.VisitNode | Sources/cxxHermesForSwift/include/hermes/AST/ESTree.h:4488-4541 | A node that `shouldVisit` rejects produces no callback. An accepted node's trace starts with its `enter` and ends with its `leave`. |
| Visitor.VisitField | Sources/cxxHermesForSwift/include/hermes/AST/ESTree.h:2912-2917 | Label, string, boolean and number fields produce no callback, and neither does a null pointer. |
| Visitor.VisitNodeOrders | Sources/cxxHermesForSwift/include/hermes/AST/ESTree.h:4488-4541 | The `enter` callbacks are the preorder, and the `leave` callbacks the postorder, of the nodes `shouldVisit` accepts, where a rejected node hides its subtree. Every callback is on an accepted node. |
| Visitor.VisitFieldsOrders | Sources/cxxHermesForSwift/include/hermes/AST/ESTree.h:4532-4541 | A node's fields are traversed in schema order: their callbacks are the orders of the node's children in field order. |
| Visitor.VisitFieldOrders | Sources/cxxHermesForSwift/include/hermes/AST/ESTree.h:6350-6353 | A pointer field is traversed as its node, and a null one as nothing. |
| Visitor.VisitListOrders | Sources/cxxHermesForSwift/include/hermes/AST/ESTree.h:2920-2925 | A list is traversed element by element, in order. |
| Visitor.OrdersOfAppend | Sources/cxxHermesForSwift/include/hermes/AST/ESTree.h:2920-2925 | The pre- and postorder of two forests side by side are the orders of each, concatenated. |
| Accessors.GetParams | Sources/cxxHermesForSwift/hermes/AST/ESTree.cpp:18-37 | Program yields its dummy parameter list. Every other function-like kind yields the list held in its field named `params`. |
| Accessors.ParamsWF | Sources/cxxHermesForSwift/hermes/AST/ESTree.cpp:18-37 | The parameters of a well-formed function are well-formed trees. |
| Accessors.NewProgramHasNoParams | Sources/cxxHermesForSwift/include/hermes/AST/ESTree.h:4341-4345 | A freshly created Program is shaped and has no parameters. |
| Accessors.FunctionBody | Sources/cxxHermesForSwift/hermes/AST/ESTree.cpp:45-59 | The body read is the node held in the field named `body`. |
| Accessors.GetBlockStatement | Sources/cxxHermesForSwift/hermes/AST/ESTree.cpp:39-62 | Program yields none. An arrow function yields its body exactly when the body is a block. The other function-likes (whose body must be a block) yield it. |
| Accessors.GetObject | Sources/cxxHermesForSwift/hermes/AST/ESTree.cpp:64-74 | For both member kinds, the result is the node in the field named `object`. |
| Accessors.GetProperty | Sources/cxxHermesForSwift/hermes/AST/ESTree.cpp:76-86 | For both member kinds, the result is the node in the field named `property`. |
| Accessors.GetComputed | Sources/cxxHermesForSwift/hermes/AST/ESTree.cpp:88-98 | For both member kinds, the result is the flag in the field named `computed`. |
| Accessors.GetCallee | Sources/cxxHermesForSwift/hermes/AST/ESTree.cpp:100-110 | For both call kinds, the result is the node in the field named `callee`. |
| Accessors.GetArguments | Sources/cxxHermesForSwift/hermes/AST/ESTree.cpp:112-122 | For both call kinds, the result is the list in the field named `arguments`. |
| Accessors.IsGenerator | Sources/cxxHermesForSwift/hermes/AST/ESTree.cpp:151-170 | True exactly for a function expression or declaration whose `generator` field is true. Program, arrows, components and hooks are never generators. |
| Accessors.IsAsync | Sources/cxxHermesForSwift/hermes/AST/ESTree.cpp:172-191 | True exactly for a function expression, arrow function or declaration whose `async` field is true. Program, components and hooks are never async. |
| Accessors.ParamLocalField | Sources/cxxHermesForSwift/include/hermes/AST/ESTree.h:1167-1171 | A shaped component parameter has its binding, and the binding read is the field named `local`. |
| Accessors.ParamsHaveLocals | Sources/cxxHermesForSwift/include/hermes/AST/ESTree.h:1167-1171 | Every component parameter among a well-formed function's parameters has its binding. |
| Accessors.HasSimpleParams | Sources/cxxHermesForSwift/hermes/AST/ESTree.cpp:124-135 | True exactly when no parameter is a pattern and no component parameter binds a pattern. |
| Accessors.ScanSimpleParams | Sources/cxxHermesForSwift/hermes/AST/ESTree.cpp:125-134 | The loop's early exits and its final `true` compute exactly that no parameter destructures. |
| Accessors.PatternParamKinds | Sources/cxxHermesForSwift/hermes/AST/ESTree.cpp:126-131 | A parameter destructures exactly when it, or the binding of a component parameter, has one of the four pattern kinds. |
| Accessors.HasParamExpressions | Sources/cxxHermesForSwift/hermes/AST/ESTree.cpp:137-149 | As written: true exactly when some default pattern parameter comes before every defaulted component parameter. A true result implies the parameters are not simple. |
| Accessors.ScanParamExpressions | Sources/cxxHermesForSwift/hermes/AST/ESTree.cpp:138-148 | The loop as written returns true at the first default pattern parameter. It returns false at a defaulted component parameter met earlier, or at the end. |
| Accessors.AsWrittenStopsAt | Sources/cxxHermesForSwift/hermes/AST/ESTree.cpp:142-148 | If a defaulted component parameter, or the end of the list, is met before any default pattern parameter, the as-written condition fails. |
| Accessors.HasParamExpressionsCorrected | Sources/cxxHermesForSwift/hermes/AST/ESTree.cpp:137-149 | Corrected: true exactly when some parameter has a default value, whether a default pattern or a component parameter with a default, and then the parameters are not simple. |
| Accessors.ScanParamExpressionsCorrected | Sources/cxxHermesForSwift/hermes/AST/ESTree.cpp:138-148 | The corrected loop returns true at the first parameter with a default, and false if there is none. |
| Accessors.ParamExpressionsAreNotSimple | Sources/cxxHermesForSwift/hermes/AST/ESTree.cpp:124-149 | A parameter list with a parameter expression is not simple. The as-written condition implies the corrected one. |
| Accessors.DefaultPatternIsPattern | Sources/cxxHermesForSwift/include/hermes/AST/ESTree.h:691-714 | An AssignmentPattern passes the Pattern range test. |
| Accessors.DefaultedComponentParamMissed | Sources/cxxHermesForSwift/hermes/AST/ESTree.cpp:142-145 | Any component parameter whose binding is a default pattern has a default value. Alone in a list, it makes the as-written condition false while the corrected one is true. |
| Accessors.DefaultedComponentExample | Sources/cxxHermesForSwift/hermes/AST/ESTree.cpp:142-145 | The shorthand parameter of `component C(x = 1) {}` is such a parameter, and the as-written condition is false on it. |
| Linearize.WFOperands | Sources/cxxHermesForSwift/include/hermes/AST/ESTree.h:380-471 | Every binary, logical or assignment node of a well-formed tree has both operands and its operator, as the non-optional fields demand. |
| Linearize.OperandFields | Sources/cxxHermesForSwift/include/hermes/AST/ESTree.h:380-471 | The operands and operator read are the node's fields named `left`, `right` and `operator`. |
| Linearize.CheckExprOperator | Sources/cxxHermesForSwift/include/hermes/AST/ESTree.h:7812-7820 | The node itself is returned exactly when it has kind `k` and an operator in `ops`; otherwise none. |
| Linearize.CheckExprOperatorReadsOperator | Sources/cxxHermesForSwift/include/hermes/AST/ESTree.h:7812-7820 | The test accepts exactly the nodes of kind `k` whose field named `operator` is spelled as one of `ops`. |
| Linearize.ChainIsDescent | Sources/cxxHermesForSwift/include/hermes/AST/ESTree.h:7861-7873 | The matching chain starts at `e`. Each node's operand on the walked side is the next node. Every node after `e` matches, and the last node's operand does not. |
| Linearize.DescentIsChain | Sources/cxxHermesForSwift/include/hermes/AST/ESTree.h:7861-7873 | Any list with those properties is the matching chain: the properties determine the linearizer's output. |
| Linearize.ChainLength | Sources/cxxHermesForSwift/include/hermes/AST/ESTree.h:7861-7873 | The chain has one node per nesting level of the matching expressions. |
| Linearize.Walk | Sources/cxxHermesForSwift/include/hermes/AST/ESTree.h:7864-7870 | The shared loop, which appends the walked-side operand while it matches, computes the matching chain. |
| Linearize.LinearizeRight | Sources/cxxHermesForSwift/include/hermes/AST/ESTree.h:7849-7873 | `vec[0] == e` and `vec[i]._right == vec[i+1]`. Every node after the first matches and the last node's right operand does not. The length is the depth of the right chain. |
| Linearize.LinearizeLeft | Sources/cxxHermesForSwift/include/hermes/AST/ESTree.h:7822-7847 | The result is non-empty, its last element is `e`, and `vec[i+1]._left == vec[i]`. Every node before `e` matches and `vec[0]._left` does not. The length is the depth of the left chain. |
| Linearize.ReversedDescentIsLeftChain | Sources/cxxHermesForSwift/include/hermes/AST/ESTree.h:7840-7846 | Reversing a descent down the left operands, as `std::reverse` does, gives a list with the left-chain properties. |
| Linearize.LeftChainIsReversedChain | Sources/cxxHermesForSwift/include/hermes/AST/ESTree.h:7822-7847 | Any list with the left-chain properties is the reversed chain, so `linearizeLeft`'s output is determined by them. |

## Left out

- `getNodeName` and its string table: a name list generated from the schema that no modelled operation reads.
- The textual re-expansions of the schema that generate the class definitions and the visit dispatch: they are modelled once, by the layout table `FieldSchema.Fields` and the generic traversal over a node's fields.
- `NodeKindInfo` and `NodeKindSet`: hashing adaptors for a hash set.
- The constants `MAX_NESTED_ASSIGNMENTS` and `MAX_NESTED_BINARY`: no modelled operation uses them.
- Arena allocation (`operator new`/`delete` with a `Context`): nodes are immutable values here.
- The intrusive `simple_ilist` links: a node list is a sequence, so pointer identity and "in one list at a time" do not arise.
- `UniqueString` interning: labels and strings are `string` values, compared by content.
- `double` number fields: kept as uninterpreted 64-bit patterns, since no modelled operation reads them.
- `SMLoc`/`SMRange` internals: a location is an opaque natural number, with 0 for the null location.
- `sourceVisibility`, `isMethodDefinition` and `BlockStatementDecoration`: data holders with no behaviour.
- `ESTREE_IGNORE_IF_EMPTY`: a printing hint.
- Field layouts of the JSX, Flow and TypeScript kinds other than ComponentDeclaration, HookDeclaration and ComponentParameter. These kinds keep their ordinals and categories, but `Conforms` accepts any fields for them.
- The parser build switches: Flow, JSX and TypeScript support are taken as enabled.
- `Visitor.VisitNode`: `shouldVisit` is a pure function of the node. A visitor whose decisions depend on its own mutable state, or that changes the tree while visiting it, is not modelled.
- `Linearize.CheckExprOperator`: a node of kind `k` whose operands or operator are missing counts as not matching, where the source would read them regardless. `Linearize.WFOperands` shows this cannot happen in a well-formed tree.
- `Linearize.LinearizeLeft` and `Linearize.LinearizeRight` require only that the root has its operands, not a well-formed tree. The nodes they reach through matching operands have their operands by definition.
- `Accessors.GetBlockStatement`: the `cast<BlockStatementNode>` check on the body of a non-arrow function is a precondition rather than a crash.
- The `sem::FunctionInfo` contents belong to semantic analysis, which is not part of this model. A function's information is an opaque number.

## Findings

| source | as written | input that shows it | evidently intended | confidence | as-written member | corrected member |
|---|---|---|---|---|---|---|
| Sources/cxxHermesForSwift/hermes/AST/ESTree.cpp:142-145 | `hasParamExpressions` returns false as soon as it meets a component parameter whose binding is an AssignmentPattern. | `component C(x = 1) {}`: its only parameter has the default value expression `1`, yet the function reports no parameter expressions. A later `(y = 2)` pattern parameter is also never reached. | Return true there, like the AssignmentPattern case just above it and like `hasSimpleParams`, which treats the same component parameter as a pattern. | medium, not executed | Accessors.HasParamExpressions, Accessors.DefaultedComponentParamMissed, Accessors.DefaultedComponentExample | Accessors.HasParamExpressionsCorrected |
