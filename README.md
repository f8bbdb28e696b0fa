# sonar-python type-inference frontend and two checks, modelled in Dafny

This project models six pieces of the SonarQube Python analyzer and proves properties of them.

- **ProtoUtils**: merges stub descriptors from several streams by name. A name with one distinct descriptor keeps it. A name with several distinct descriptors gets an ambiguous descriptor. It also decides whether a descriptor's declared Python versions fit the supported ones.
- **BasicTypeTable**: the default type table. Every lookup answers an unresolved-import type whose name is the parts joined with `"."`.
- **ProgramStateTypeInferenceVisitor**: a tree walk. Each name whose symbol has types in the program state gets the union of those types. The members of qualified expressions are resolved from their qualifier's type. Nested function definitions are skipped. Names are objects with a mutable `typeV2` slot. The walk is a set of recursive methods proved against the function `Annotate`.
- **TypeInferenceV2**: the per-scope driver. It picks the tracked symbols and the parameter seed types, then chooses a strategy for the scope: try-statement fallback, no control-flow graph, or flow-sensitive. The module scope's result goes into `typesBySymbol`. Function scopes are then processed in post-order, and their results are dropped.
- **AfterJumpStatementCheck**: the unreachable-code rule, over an index-based table of control-flow blocks.
- **FileComplexityCheck**: the file-complexity threshold rule, with Java's 32-bit `int` written out.

Shared modules: `Optional` (Java `Optional` and null), `PythonTypes` (the type lattice), `Symbols` (`SymbolV2`, `UsageV2`) and `ControlFlowGraph` (blocks, elements, start block).

Code that is not shown in the modelled files becomes an input or a function-valued parameter:

- `UnionType.or` and `PythonType.resolveMember` (`PythonTypes.TypeOps`);
- `AmbiguousDescriptor.create` (`ProtoUtils.AmbiguousFactory`);
- `FlowSensitiveTypeInference` (`TypeInferenceV2.FlowSensitiveEngine`);
- the symbol table, `PropagationVisitor`, `TryStatementVisitor` and `ControlFlowGraph.build` (the fields of `TypeInferenceV2.Scope`);
- `ComplexityVisitor.complexity` (the argument of `LeaveFile`).

In the try-statement branch the code returns an empty map (TypeInferenceV2.java:138-139), and so does the model.

## Model

| member | source | states |
|---|---|---|
| `ProtoUtils.DisambiguateSymbolsWithSameName` | python-frontend/src/main/java/org/sonar/python/semantic/v2/typeshed/ProtoUtils.java:41-46 | a group of two or more descriptors becomes `create` of exactly that group; a one-element group yields its only element |
| `ProtoUtils.DisambiguateByName` | python-frontend/src/main/java/org/sonar/python/semantic/v2/typeshed/ProtoUtils.java:33-39 | the key set is the set of names of the flattened descriptors |
| `ProtoUtils.AllDescriptorsMembers` | python-frontend/src/main/java/org/sonar/python/semantic/v2/typeshed/ProtoUtils.java:34 | a descriptor is in the flattened input iff some inner stream holds it |
| `ProtoUtils.KeysAreAllNames` | python-frontend/src/main/java/org/sonar/python/semantic/v2/typeshed/ProtoUtils.java:33-38 | a name is a key iff some descriptor in some inner stream carries it |
| `ProtoUtils.UniqueDescriptorKept` | python-frontend/src/main/java/org/sonar/python/semantic/v2/typeshed/ProtoUtils.java:37-45 | if every occurrence of a name is one and the same descriptor, the name maps to that descriptor itself; equal duplicates do not make it ambiguous |
| `ProtoUtils.DistinctDescriptorsAmbiguous` | python-frontend/src/main/java/org/sonar/python/semantic/v2/typeshed/ProtoUtils.java:41-44 | if two different descriptors share a name, the name maps to `create` applied to the set of all descriptors with that name |
| `ProtoUtils.OuterOrderIrrelevant` | python-frontend/src/main/java/org/sonar/python/semantic/v2/typeshed/ProtoUtils.java:34-38 | permuting the outer streams leaves the map unchanged |
| `ProtoUtils.InnerOrderIrrelevant` | python-frontend/src/main/java/org/sonar/python/semantic/v2/typeshed/ProtoUtils.java:34-38 | reordering or repeating descriptors inside each inner stream leaves the map unchanged |
| `ProtoUtils.DuplicateStreamIrrelevant` | python-frontend/src/main/java/org/sonar/python/semantic/v2/typeshed/ProtoUtils.java:34-38 | appending a stream of descriptors that are already present leaves the map unchanged |
| `ProtoUtils.IsValidForPythonVersion` | python-frontend/src/main/java/org/sonar/python/semantic/v2/typeshed/ProtoUtils.java:48-55 | an empty declaration is valid whatever the supported set; a non-empty one is valid iff some declared version is supported |
| `ProtoUtils.VersionOrderAndDuplicatesIrrelevant` | python-frontend/src/main/java/org/sonar/python/semantic/v2/typeshed/ProtoUtils.java:52-54 | two declared lists with the same elements give the same verdict, whatever their order and duplicates |
| `ProtoUtils.VersionFilterMonotone` | python-frontend/src/main/java/org/sonar/python/semantic/v2/typeshed/ProtoUtils.java:52-54 | a declaration valid for some supported set stays valid for any larger set |
| `ProtoUtils.VersionFilterExamples` | python-frontend/src/main/java/org/sonar/python/semantic/v2/typeshed/ProtoUtils.java:48-55 | `[]` is valid for any set; `["3.8"]` is invalid for `{"3.9","3.10"}`; `["3.8","3.9"]` is valid for `{"3.9"}` |
| `BasicTypeTable.GetBuiltinsModule` | python-frontend/src/main/java/org/sonar/python/semantic/v2/BasicTypeTable.java:28-30 | the builtins module is the unresolved import with the empty name |
| `BasicTypeTable.JoinDot` | python-frontend/src/main/java/org/sonar/python/semantic/v2/BasicTypeTable.java:39-44 | `String.join(".", parts)`: the result starts with the first part, followed by a dot when there are more parts; `JoinSplit` and `SplitJoin` make it the inverse of splitting at dots |
| `BasicTypeTable.GetType` | python-frontend/src/main/java/org/sonar/python/semantic/v2/BasicTypeTable.java:33-35 | the result is an unresolved import carrying exactly the given name |
| `BasicTypeTable.GetTypeOfParts` | python-frontend/src/main/java/org/sonar/python/semantic/v2/BasicTypeTable.java:38-45 | both parts overloads answer an unresolved import named by the parts joined with `"."`, whatever the parts contain; for dot-free parts, splitting that name at the dots gives the parts back |
| `BasicTypeTable.GetModuleType` | python-frontend/src/main/java/org/sonar/python/semantic/v2/BasicTypeTable.java:48-50 | `getModuleType(parts)` equals `getType(parts)` |
| `BasicTypeTable.JoinSplit` | python-frontend/src/main/java/org/sonar/python/semantic/v2/BasicTypeTable.java:38-45 | joining the dot-separated segments of any name gives the name back |
| `BasicTypeTable.SplitJoin` | python-frontend/src/main/java/org/sonar/python/semantic/v2/BasicTypeTable.java:38-45 | splitting the join of a non-empty list of dot-free parts gives the list back |
| `BasicTypeTable.LookupBySegments` | python-frontend/src/main/java/org/sonar/python/semantic/v2/BasicTypeTable.java:33-45 | looking a name up by its segments gives the same type as looking it up whole |
| `BasicTypeTable.SinglePartAndNoParts` | python-frontend/src/main/java/org/sonar/python/semantic/v2/BasicTypeTable.java:28-45 | one part equals the whole-name lookup; no parts equals the builtins module |
| `ProgramStateTypeInference.VisitedNames` | python-frontend/src/main/java/org/sonar/python/semantic/v2/types/ProgramStateTypeInferenceVisitor.java:52-55 | the names the walk reaches are among the tree's names; with `VisitedAvoidsNestedFunctions`, none below a nested function definition is reached |
| `ProgramStateTypeInference.Annotate` | python-frontend/src/main/java/org/sonar/python/semantic/v2/types/ProgramStateTypeInferenceVisitor.java:42-66 | every name the walk does not reach keeps its type; with `NestedFunctionNamesKeepTheirTypes`, this covers every name inside a nested function definition |
| `ProgramStateTypeInference.AnnotateAll` | python-frontend/src/main/java/org/sonar/python/semantic/v2/types/ProgramStateTypeInferenceVisitor.java:42-66 | the same for a sequence of sibling subtrees visited in order; with `NestedFunctionNamesKeepTheirTypesOfAll`, names inside nested function definitions keep their types |
| `ProgramStateTypeInference.NestedFunctionNamesKeepTheirTypes` | python-frontend/src/main/java/org/sonar/python/semantic/v2/types/ProgramStateTypeInferenceVisitor.java:52-55 | in a tree where no name node occurs twice, every name inside a nested function definition keeps its type through the walk |
| `ProgramStateTypeInference.NestedFunctionNamesKeepTheirTypesOfAll` | python-frontend/src/main/java/org/sonar/python/semantic/v2/types/ProgramStateTypeInferenceVisitor.java:52-55 | the same for a sequence of sibling subtrees |
| `ProgramStateTypeInference.VisitedAvoidsNestedFunctions` | python-frontend/src/main/java/org/sonar/python/semantic/v2/types/ProgramStateTypeInferenceVisitor.java:52-55 | in a tree where no name node occurs twice, no name the walk reaches lies inside a nested function definition |
| `ProgramStateTypeInference.PlainNameAnnotation` | python-frontend/src/main/java/org/sonar/python/semantic/v2/types/ProgramStateTypeInferenceVisitor.java:42-47 | a name whose symbol has state types gets their union; a name without a symbol, or whose symbol has no types, is left as it was |
| `ProgramStateTypeInference.Union` | python-frontend/src/main/java/org/sonar/python/semantic/v2/types/ProgramStateTypeInferenceVisitor.java:68-70 | the in-order `or`-reduce of the types, UNKNOWN when there are none and the type itself when there is one; with `UnionSingleton` and `UnionOrderIrrelevant` |
| `ProgramStateTypeInference.NameType` | python-frontend/src/main/java/org/sonar/python/semantic/v2/types/ProgramStateTypeInferenceVisitor.java:43-47 | a name's type changes only when its symbol has state types, and then becomes their union; a single state type is taken as it is |
| `ProgramStateTypeInference.UnionSingleton` | python-frontend/src/main/java/org/sonar/python/semantic/v2/types/ProgramStateTypeInferenceVisitor.java:68-70 | the union of a single type is that type |
| `ProgramStateTypeInference.UnionOrderIrrelevant` | python-frontend/src/main/java/org/sonar/python/semantic/v2/types/ProgramStateTypeInferenceVisitor.java:68-70 | if `or` is associative and commutative, the reduce gives the same union for every iteration order of the state's set |
| `ProgramStateTypeInference.OnlyPlainNamesLookedUp` | python-frontend/src/main/java/org/sonar/python/semantic/v2/types/ProgramStateTypeInferenceVisitor.java:42-66 | two states that agree on the symbols of plain names give the same result; member names of qualified expressions are never looked up |
| `ProgramStateTypeInference.QualifiedMemberAnnotation` | python-frontend/src/main/java/org/sonar/python/semantic/v2/types/ProgramStateTypeInferenceVisitor.java:58-66 | the qualifier is annotated first; the member then gets the type resolved from the qualifier's new type, or keeps its prior type if nothing resolves |
| `ProgramStateTypeInference.ProgramStateTypeInferenceVisitor.constructor` | python-frontend/src/main/java/org/sonar/python/semantic/v2/types/ProgramStateTypeInferenceVisitor.java:37-39 | the visitor holds the given program state, which it only reads |
| `ProgramStateTypeInference.ProgramStateTypeInferenceVisitor.VisitName` | python-frontend/src/main/java/org/sonar/python/semantic/v2/types/ProgramStateTypeInferenceVisitor.java:42-50 | only the visited name's slot changes, and it becomes that name's new type under the state |
| `ProgramStateTypeInference.ProgramStateTypeInferenceVisitor.ExpressionType` | python-frontend/src/main/java/org/sonar/python/semantic/v2/types/ProgramStateTypeInferenceVisitor.java:62 | reads the qualifier's current type from the name slots |
| `ProgramStateTypeInference.ProgramStateTypeInferenceVisitor.VisitQualifiedExpression` | python-frontend/src/main/java/org/sonar/python/semantic/v2/types/ProgramStateTypeInferenceVisitor.java:58-66 | may change only the qualifier's reachable names and the member; the new name types are those `Annotate` gives |
| `ProgramStateTypeInference.ProgramStateTypeInferenceVisitor.Scan` | python-frontend/src/main/java/org/sonar/python/semantic/v2/types/ProgramStateTypeInferenceVisitor.java:42-66 | may change only the names the walk reaches; the new name types are those `Annotate` gives |
| `ProgramStateTypeInference.ProgramStateTypeInferenceVisitor.ScanAll` | python-frontend/src/main/java/org/sonar/python/semantic/v2/types/ProgramStateTypeInferenceVisitor.java:42-66 | the same for siblings visited in order |
| `TypeInferenceV2.GetTrackedVars` | python-frontend/src/main/java/org/sonar/python/semantic/v2/TypeInferenceV2.java:174-186 | the loop returns exactly the local variables that have no global declaration and no binding usage outside the assigned names |
| `TypeInferenceV2.TrackedVars` | python-frontend/src/main/java/org/sonar/python/semantic/v2/TypeInferenceV2.java:174-186 | the tracked variables are among the local variables; `TrackedVarsExact` gives the exact membership test |
| `TypeInferenceV2.TrackedVarsExact` | python-frontend/src/main/java/org/sonar/python/semantic/v2/TypeInferenceV2.java:174-186 | a symbol is tracked iff it is a local variable, no usage is a global declaration, and every binding usage's tree is an assigned name |
| `TypeInferenceV2.TrackedVarsMonotone` | python-frontend/src/main/java/org/sonar/python/semantic/v2/TypeInferenceV2.java:174-186 | more assigned names never untrack a symbol, which is why adding the parameter names at line 135 can only grow the set; tracked symbols are local variables |
| `TypeInferenceV2.FirstParameterType` | python-frontend/src/main/java/org/sonar/python/semantic/v2/TypeInferenceV2.java:162-172 | the type of the first parameter usage whose tree is an expression, or UNKNOWN if there is none; a type other than UNKNOWN is that of some such usage |
| `TypeInferenceV2.GetParameterType` | python-frontend/src/main/java/org/sonar/python/semantic/v2/TypeInferenceV2.java:162-172 | a symbol without a parameter usage gets UNKNOWN; any other type is the type of one of its parameter usages whose tree is an expression |
| `TypeInferenceV2.ParameterTypes` | python-frontend/src/main/java/org/sonar/python/semantic/v2/TypeInferenceV2.java:144-149 | one key per tracked symbol with a parameter usage, keyed by its name and mapped to its parameter type |
| `TypeInferenceV2.InferScope` | python-frontend/src/main/java/org/sonar/python/semantic/v2/TypeInferenceV2.java:111-140 | a try statement gives the empty map; no graph gives the empty map; otherwise the engine's result, computed with the tracked set (with parameter names added) and its parameter types |
| `TypeInferenceV2.EngineOnlyForFlowSensitiveScopes` | python-frontend/src/main/java/org/sonar/python/semantic/v2/TypeInferenceV2.java:126-139 | with a try statement or without a graph, the result is empty whatever the engine computes |
| `TypeInferenceV2.FlowSensitiveInputs` | python-frontend/src/main/java/org/sonar/python/semantic/v2/TypeInferenceV2.java:135-149 | the engine tracks a superset of what the propagation names alone track and a subset of the scope's symbols; each seeded parameter name belongs to a tracked symbol with a parameter usage |
| `TypeInferenceV2.PostOrderSplit` | python-frontend/src/main/java/org/sonar/python/semantic/v2/TypeInferenceV2.java:67-73 | the processing order holds each function's own post-order as one contiguous block |
| `TypeInferenceV2.NestedFunctionsFirst` | python-frontend/src/main/java/org/sonar/python/semantic/v2/TypeInferenceV2.java:67-73 | every function is processed right after all the functions nested in it |
| `TypeInferenceV2.TypeInference.constructor` | python-frontend/src/main/java/org/sonar/python/semantic/v2/TypeInferenceV2.java:53-59 | `typesBySymbol` starts empty |
| `TypeInferenceV2.TypeInference.InferTypes` | python-frontend/src/main/java/org/sonar/python/semantic/v2/TypeInferenceV2.java:61-74 | `typesBySymbol` becomes the module scope's result, computed with no parameter names, or stays unchanged when the file has no statements; the function scopes are processed in post-order |
| `TypeInferenceV2.TypeInference.InferModuleScope` | python-frontend/src/main/java/org/sonar/python/semantic/v2/TypeInferenceV2.java:80-94 | returns early without changes when the statements are null; otherwise overwrites `typesBySymbol` |
| `TypeInferenceV2.TypeInference.VisitFunctionDef` | python-frontend/src/main/java/org/sonar/python/semantic/v2/TypeInferenceV2.java:96-108 | the nested functions are processed before the function itself; the function scope's result changes nothing |
| `TypeInferenceV2.TypeInference.VisitFunctionDefs` | python-frontend/src/main/java/org/sonar/python/semantic/v2/TypeInferenceV2.java:67-73 | sibling function definitions are processed in source order, each in post-order |
| `AfterJumpStatementCheck.Issues` | python-checks/src/main/java/org/sonar/python/checks/AfterJumpStatementCheck.java:50-53 | a null graph produces no issues |
| `AfterJumpStatementCheck.IsRaiseInsideWithStatement` | python-checks/src/main/java/org/sonar/python/checks/AfterJumpStatementCheck.java:73-75 | true iff the element is a raise statement with a with-statement ancestor |
| `AfterJumpStatementCheck.IsInsideFinallyClause` | python-checks/src/main/java/org/sonar/python/checks/AfterJumpStatementCheck.java:79-81 | true iff the element has a finally-clause ancestor |
| `AfterJumpStatementCheck.CheckCfg` | python-checks/src/main/java/org/sonar/python/checks/AfterJumpStatementCheck.java:50-69 | the loop over the blocks reports exactly the issues of the reported blocks, in block order |
| `AfterJumpStatementCheck.JumpStatementsMembers` | python-checks/src/main/java/org/sonar/python/checks/AfterJumpStatementCheck.java:57-60 | the secondary locations are exactly the last elements of the blocks whose syntactic successor is the reported block |
| `AfterJumpStatementCheck.ReportedBlocksExact` | python-checks/src/main/java/org/sonar/python/checks/AfterJumpStatementCheck.java:54-68 | a block is reported iff it passes the test; reported blocks are strictly increasing, so each block is reported at most once and in block order |
| `AfterJumpStatementCheck.IssuesFollowReportedBlocks` | python-checks/src/main/java/org/sonar/python/checks/AfterJumpStatementCheck.java:54-68 | the k-th issue is the issue of the k-th reported block |
| `AfterJumpStatementCheck.IssueShape` | python-checks/src/main/java/org/sonar/python/checks/AfterJumpStatementCheck.java:55-66 | each issue's block has no predecessors, is not the start and is not empty; the issue spans from the first element's first token to the last element's last token, carries the fixed message and lists the jump statements |
| `AfterJumpStatementCheck.StartNeverReported` | python-checks/src/main/java/org/sonar/python/checks/AfterJumpStatementCheck.java:55 | the start block is never reported, even without predecessors |
| `AfterJumpStatementCheck.CandidateReportedUnlessFiltered` | python-checks/src/main/java/org/sonar/python/checks/AfterJumpStatementCheck.java:61-81 | a candidate is reported iff its first element is not inside a finally clause and no jump statement before it is a raise inside a with statement |
| `FileComplexityCheck.WrappingSub` | python-checks/src/main/java/org/sonar/python/checks/FileComplexityCheck.java:46-47 | Java int subtraction agrees with the exact difference modulo 2^32, and equals it when that fits in an int |
| `FileComplexityCheck.CostAsWritten` | python-checks/src/main/java/org/sonar/python/checks/FileComplexityCheck.java:46-47 | the cost as written is at least 1 when the complexity exceeds the threshold by less than 2^31 |
| `FileComplexityCheck.CostAsWrittenCanBeNegative` | python-checks/src/main/java/org/sonar/python/checks/FileComplexityCheck.java:46-47 | with threshold -2^31 and complexity 1, an issue is raised but the cost as written is negative |
| `FileComplexityCheck.CostAsWrittenExactForNonNegativeThreshold` | python-checks/src/main/java/org/sonar/python/checks/FileComplexityCheck.java:46-47 | with a non-negative threshold the cost as written is the exact excess |
| `FileComplexityCheck.FileIssueFor` | python-checks/src/main/java/org/sonar/python/checks/FileComplexityCheck.java:39-49 | an issue exists iff complexity is strictly greater than the threshold (equal does not trigger); it records both numbers, and its cost is the excess, at least 1 |
| `FileComplexityCheck.FileComplexityCheck.constructor` | python-checks/src/main/java/org/sonar/python/checks/FileComplexityCheck.java:31-36 | the default threshold is 200 and no issue has been reported |
| `FileComplexityCheck.FileComplexityCheck.LeaveFile` | python-checks/src/main/java/org/sonar/python/checks/FileComplexityCheck.java:39-49 | appends exactly one issue when the complexity is above the threshold, and nothing otherwise |

## Left out

- `TrivialTypeInferenceVisitor`, `PropagationVisitor`, `TryStatementVisitor`, `ControlFlowGraph.build`, the symbol table and `FlowSensitiveTypeInference` are not part of this model. Their results are inputs (`Scope`) or a function parameter (`FlowSensitiveEngine`). Their own effects on the tree are not modelled. This covers the propagation updates that `processPropagations` makes in the try-statement branch.
- `FlowSensitiveTypeInference.compute` runs twice at TypeInferenceV2.java:158-159. The model applies the engine once and uses that result. The first run's result is discarded in the source.
- The control-flow graph supplier is lazy. The model receives the graph that would be built. Not building it when there is a try statement has no visible effect in the model.
- `TypeInferenceV2.ParameterTypes`: requires the tracked symbols to have distinct names. `Collectors.toMap` would throw on a duplicate name. The symbols of one scope never share a name.
- `TypeInferenceV2.InferScope`: requires distinct symbol names only on the flow-sensitive path (no try statement, graph built), the only path that reaches `Collectors.toMap`. The try-statement and no-graph paths accept any scope. Symbol tables always meet the requirement.
- `getTypesBySymbol` is a plain getter, so it is the field `typesBySymbol`.
- `UsageV2.isBindingUsage` is not shown. The model counts binding and parameter usages as binding usages. Reads, other usages and global declarations are not.
- `ProgramStateTypeInference.Annotate`: the type of a qualified expression is taken to be its member name's type. The type of any other non-name expression is a fixed attribute. `QualifiedExpressionImpl` and the other expression classes are not part of this model. So a call's type does not follow a change to its callee's type during the walk.
- A syntax tree never holds one name node at two places. The lemmas about nested function definitions assume this as `NoSharedNames`. The walk's functions and methods do not need it.
- The `instanceof NameImpl` test on a qualified expression's member is always true in the model.
- The state's type set is a sequence in iteration order, because the reduce folds in that order. `TypeInferenceProgramState.getTypes` is not shown. A symbol absent from the state has no types.
- `AmbiguousDescriptor.create` and descriptor contents are abstract. Descriptor equality is structural equality.
- `ProtoUtils.DisambiguateSymbolsWithSameName`: requires a non-empty set. `iterator().next()` would throw on an empty set, and `groupingBy` never builds an empty group.
- `ProtoUtils.IsValidForPythonVersion` works on values. That the source copies the list into a fresh set and never touches the supported set holds trivially in the model.
- `AfterJumpStatementCheck.CheckCfg`: requires every block that has a syntactic successor to be non-empty. This is stronger than the source needs. The source reads the last element (`get(size - 1)`) only of blocks whose syntactic successor is a candidate block (AfterJumpStatementCheck.java:57-59). So the requires also excludes, for example, an empty start block with a syntactic successor, which the source handles without error. Graphs the builder produces meet the requires, because each block with a syntactic successor ends with its jump statement.
- Token positions are attributes of elements. `TreeUtils` is not part of this model. Each element carries the kinds of its ancestors, nearest first, and `ControlFlowGraph.FirstAncestorOfKind` searches them as `firstAncestorOfKind` does.
- The issue-reporting API (`ctx.addIssue`, `secondary`, `addFileIssue`, `withCost`) becomes the returned or stored issue list. Rule registration (`initialize`) is plumbing and is not modelled.
- The file-complexity message is reduced to its two numbers, because `MessageFormat` number formatting depends on the locale.
- `FileComplexityCheck.FileComplexityCheck.LeaveFile`: stores the exact excess as the cost rather than the wrapped `int`. See Findings.
- `PossessiveQuantifierContinuationCheck` hands its work to a regex library that is not part of this model.
- `RuntimeTypeTest` tests `RuntimeType`, `InferredTypes.or` and `AnyType`, which are not part of this model.
- The fixed point of the flow-sensitive analysis is not part of this model. Its source is not among the modelled files.

## Findings

| source | as written | input that shows it | evidently intended | confidence | as-written member | corrected member |
|---|---|---|---|---|---|---|
| python-checks/src/main/java/org/sonar/python/checks/FileComplexityCheck.java:47 | the cost `complexity - maximumFileComplexityThreshold` is computed in 32-bit `int` and wraps | `maximumFileComplexityThreshold = -2147483648`, complexity 1: an issue is raised with cost -2147483647 | the cost is the positive excess of complexity over the threshold | low: needs a negative threshold to be configured; not executed | `FileComplexityCheck.CostAsWritten`, `FileComplexityCheck.CostAsWrittenCanBeNegative` | `FileComplexityCheck.FileIssueFor` |
