/**
 * The per-scope type-inference driver (TypeInferenceV2). For each scope it
 * decides which symbols are tracked, seeds parameter types and picks a strategy:
 * a scope holding a try statement falls back to AST propagation and yields no
 * map, a scope whose control-flow graph cannot be built yields no map, and any
 * other scope runs the flow-sensitive engine. The module scope's result is kept
 * in typesBySymbol; function scopes are processed afterwards, nested functions
 * before the functions enclosing them, and their results are not kept.
 *
 * The collaborators that are not shown (symbol table, PropagationVisitor,
 * TryStatementVisitor, ControlFlowGraph.build, FlowSensitiveTypeInference) appear
 * through their results: the fields of Scope and the function FlowSensitiveEngine.
 */
module TypeInferenceV2 {
  import opened Optional
  import opened PythonTypes
  import opened Symbols
  import ControlFlowGraph

  /** What the unseen collaborators produce for one scope (a module or a function body). */
  datatype Scope = Scope(
    symbols: set<Symbol>,                 // symbolTable.getSymbolsByRootTree(scope)
    assignedNames: set<TreeId>,           // lhsName of every propagation the PropagationVisitor found
    hasTryStatement: bool,                // TryStatementVisitor.hasTryStatement() on the statements
    cfg: Option<ControlFlowGraph.Cfg>)    // ControlFlowGraph.build(scope), None when it returns null

  /** FlowSensitiveTypeInference(tracked, ..., parameterTypes).compute(cfg).typesBySymbol() */
  type FlowSensitiveEngine =
    (Scope, ControlFlowGraph.Cfg, set<Symbol>, map<string, PythonType>) -> map<Symbol, set<PythonType>>

  /** A function definition with the function definitions nested in it, in source order. */
  datatype FunctionDef = FunctionDef(
    id: nat,
    scope: Scope,
    parameterNames: set<TreeId>,          // names of the non-tuple parameters
    nested: seq<FunctionDef>)

  /** A file: its module scope, whether it has statements, and its outermost function definitions. */
  datatype FileInput = FileInput(hasStatements: bool, scope: Scope, functions: seq<FunctionDef>)

  // ---------------------------------------------------------------------------
  // Tracked variables

  /** Some binding usage of the symbol is not among the assigned names. */
  predicate HasMissingBindingUsage(symbol: Symbol, assignedNames: set<TreeId>) {
    exists i :: 0 <= i < |symbol.usages| && symbol.usages[i].IsBindingUsage() && symbol.usages[i].tree.id !in assignedNames
  }

  /** Some usage of the symbol is a global declaration. */
  predicate IsGlobal(symbol: Symbol) {
    exists i :: 0 <= i < |symbol.usages| && symbol.usages[i].kind == GlobalDeclaration
  }

  function TrackedVars(localVariables: set<Symbol>, assignedNames: set<TreeId>): (r: set<Symbol>)
    ensures r <= localVariables
  {
    set v | v in localVariables && !HasMissingBindingUsage(v, assignedNames) && !IsGlobal(v)
  }

  /** getTrackedVars: one pass over the local variables. */
  method GetTrackedVars(localVariables: set<Symbol>, assignedNames: set<TreeId>) returns (trackedVars: set<Symbol>)
    ensures trackedVars == TrackedVars(localVariables, assignedNames)
  {
    trackedVars := {};
    var remaining := localVariables;
    while remaining != {}
      invariant remaining <= localVariables
      invariant trackedVars == TrackedVars(localVariables - remaining, assignedNames)
      decreases remaining
    {
      var variable :| variable in remaining;
      var hasMissingBindingUsage := HasMissingBindingUsage(variable, assignedNames);
      var isGlobal := IsGlobal(variable);
      if !hasMissingBindingUsage && !isGlobal {
        trackedVars := trackedVars + {variable};
      }
      remaining := remaining - {variable};
    }
    assert localVariables - remaining == localVariables;
  }

  /**
   * A symbol is tracked iff it is a local variable, none of its usages is a
   * global declaration, and the tree of each of its binding usages is an
   * assigned name.
   */
  lemma TrackedVarsExact(localVariables: set<Symbol>, assignedNames: set<TreeId>, v: Symbol)
    ensures v in TrackedVars(localVariables, assignedNames) <==>
      && v in localVariables
      && (forall i :: 0 <= i < |v.usages| ==> v.usages[i].kind != GlobalDeclaration)
      && (forall i :: 0 <= i < |v.usages| && v.usages[i].IsBindingUsage() ==> v.usages[i].tree.id in assignedNames)
  {
  }

  /** More assigned names never untrack a symbol; in particular adding the annotated parameter names. */
  lemma TrackedVarsMonotone(localVariables: set<Symbol>, assigned1: set<TreeId>, assigned2: set<TreeId>)
    requires assigned1 <= assigned2
    ensures TrackedVars(localVariables, assigned1) <= TrackedVars(localVariables, assigned2)
    ensures TrackedVars(localVariables, assigned2) <= localVariables
  {
  }

  // ---------------------------------------------------------------------------
  // Parameter types

  predicate IsParameterExpression(usage: Usage) {
    usage.kind == Parameter && usage.tree.isExpression
  }

  /** The type of the first parameter usage whose tree is an expression, UNKNOWN if none. */
  function FirstParameterType(usages: seq<Usage>): (r: PythonType)
    ensures (forall i :: 0 <= i < |usages| ==> !IsParameterExpression(usages[i])) ==> r == Unknown
    ensures forall i :: (0 <= i < |usages| && IsParameterExpression(usages[i]) &&
      (forall j :: 0 <= j < i ==> !IsParameterExpression(usages[j]))) ==> r == usages[i].tree.typeV2
    ensures r != Unknown ==>
      exists i :: 0 <= i < |usages| && IsParameterExpression(usages[i]) && r == usages[i].tree.typeV2
  {
    if |usages| == 0 then Unknown
    else if IsParameterExpression(usages[0]) then usages[0].tree.typeV2
    else FirstParameterType(usages[1..])
  }

  /** getParameterType */
  function GetParameterType(symbol: Symbol): (r: PythonType)
    ensures !HasParameterUsage(symbol) ==> r == Unknown
    ensures r != Unknown ==>
      exists i :: 0 <= i < |symbol.usages| && IsParameterExpression(symbol.usages[i]) && r == symbol.usages[i].tree.typeV2
  {
    FirstParameterType(symbol.usages)
  }

  predicate HasParameterUsage(symbol: Symbol) {
    exists i :: 0 <= i < |symbol.usages| && symbol.usages[i].kind == Parameter
  }

  /**
   * The parameter-type map: one entry per tracked symbol with a parameter usage,
   * keyed by its name. Collectors.toMap rejects duplicate keys; the symbols of a
   * scope have distinct names.
   */
  function ParameterTypes(trackedVars: set<Symbol>): (r: map<string, PythonType>)
    requires DistinctNames(trackedVars)
    ensures r.Keys == set s | s in trackedVars && HasParameterUsage(s) :: s.name
    ensures forall s :: s in trackedVars && HasParameterUsage(s) ==> r[s.name] == GetParameterType(s)
  {
    map s | s in trackedVars && HasParameterUsage(s) :: s.name := GetParameterType(s)
  }

  // ---------------------------------------------------------------------------
  // Strategy selection

  /** The set of names the flow-sensitive strategy tracks (line 135 adds the annotated parameters). */
  function FlowSensitiveTrackedVars(scope: Scope, annotatedParameterNames: set<TreeId>): set<Symbol> {
    TrackedVars(scope.symbols, scope.assignedNames + annotatedParameterNames)
  }

  /**
   * Collectors.toMap runs only on the flow-sensitive path, so only there must the
   * scope's symbols have distinct names (a symbol table always meets this).
   */
  ghost predicate FlowSensitiveNamesDistinct(scope: Scope) {
    !scope.hasTryStatement && scope.cfg.Some? ==> DistinctNames(scope.symbols)
  }

  /** The private inferTypesAndMemberAccessSymbols(scopeTree, statements, ...). */
  function InferScope(scope: Scope, annotatedParameterNames: set<TreeId>, compute: FlowSensitiveEngine)
    : (r: map<Symbol, set<PythonType>>)
    requires FlowSensitiveNamesDistinct(scope)
    ensures scope.hasTryStatement ==> r == map[]
    ensures !scope.hasTryStatement && scope.cfg.None? ==> r == map[]
    ensures !scope.hasTryStatement && scope.cfg.Some? ==>
      var tracked := FlowSensitiveTrackedVars(scope, annotatedParameterNames);
      r == compute(scope, scope.cfg.value, tracked, ParameterTypes(tracked))
  {
    if scope.hasTryStatement then
      // AST-based fallback: processPropagations updates name types, the result is empty
      map[]
    else if scope.cfg.None? then
      map[]
    else
      var tracked := TrackedVars(scope.symbols, scope.assignedNames + annotatedParameterNames);
      compute(scope, scope.cfg.value, tracked, ParameterTypes(tracked))
  }

  /** The engine is consulted only when there is no try statement and the graph could be built. */
  lemma EngineOnlyForFlowSensitiveScopes(scope: Scope, annotated: set<TreeId>,
                                         compute1: FlowSensitiveEngine, compute2: FlowSensitiveEngine)
    requires scope.hasTryStatement || scope.cfg.None?
    ensures InferScope(scope, annotated, compute1) == InferScope(scope, annotated, compute2) == map[]
  {
  }

  /**
   * The engine sees every symbol the propagation names alone would track, and
   * every parameter type it is seeded with is one of a tracked symbol.
   */
  lemma FlowSensitiveInputs(scope: Scope, annotated: set<TreeId>, name: string)
    requires DistinctNames(scope.symbols)
    ensures TrackedVars(scope.symbols, scope.assignedNames) <= FlowSensitiveTrackedVars(scope, annotated)
    ensures FlowSensitiveTrackedVars(scope, annotated) <= scope.symbols
    ensures name in ParameterTypes(FlowSensitiveTrackedVars(scope, annotated)) ==>
      exists s :: s in FlowSensitiveTrackedVars(scope, annotated) && s.name == name && HasParameterUsage(s) &&
        ParameterTypes(FlowSensitiveTrackedVars(scope, annotated))[name] == GetParameterType(s)
  {
    TrackedVarsMonotone(scope.symbols, scope.assignedNames, scope.assignedNames + annotated);
  }

  // ---------------------------------------------------------------------------
  // The driver

  /** Every function scope, at any depth, has distinctly named symbols. */
  ghost predicate FunctionsWellFormed(fs: seq<FunctionDef>) {
    |fs| > 0 ==>
      && FlowSensitiveNamesDistinct(fs[0].scope)
      && FunctionsWellFormed(fs[0].nested)
      && FunctionsWellFormed(fs[1..])
  }

  /** The order in which the function visitor runs inference: children first. */
  function PostOrder(fs: seq<FunctionDef>): seq<nat> {
    if |fs| == 0 then [] else PostOrder(fs[0].nested) + [fs[0].id] + PostOrder(fs[1..])
  }

  /** The part of the order that one function definition contributes. */
  function PostOrderOf(f: FunctionDef): seq<nat> {
    PostOrder(f.nested) + [f.id]
  }

  /** `f` is one of `fs` or nested, at any depth, in one of them. */
  predicate Contains(fs: seq<FunctionDef>, f: FunctionDef) {
    |fs| > 0 && (fs[0] == f || Contains(fs[0].nested, f) || Contains(fs[1..], f))
  }

  /** Where a contained function's part of the post-order sits. */
  lemma {:induction false} PostOrderSplit(fs: seq<FunctionDef>, f: FunctionDef) returns (before: seq<nat>, after: seq<nat>)
    requires Contains(fs, f)
    ensures PostOrder(fs) == before + PostOrderOf(f) + after
  {
    var h, rest := fs[0], PostOrder(fs[1..]);
    assert PostOrder(fs) == PostOrderOf(h) + rest;
    if h == f {
      before, after := [], rest;
    } else if Contains(h.nested, f) {
      var b, a := PostOrderSplit(h.nested, f);
      assert PostOrderOf(h) == b + PostOrderOf(f) + a + [h.id];
      before, after := b, a + [h.id] + rest;
    } else {
      var b, a := PostOrderSplit(fs[1..], f);
      before, after := PostOrderOf(h) + b, a;
    }
  }

  /**
   * Every function is processed, and the functions nested in it are all
   * processed just before it: the order is a post-order.
   */
  lemma NestedFunctionsFirst(fs: seq<FunctionDef>, f: FunctionDef)
    requires Contains(fs, f)
    ensures exists before, after :: PostOrder(fs) == before + PostOrder(f.nested) + [f.id] + after
  {
    var before, after := PostOrderSplit(fs, f);
    assert PostOrder(fs) == before + PostOrder(f.nested) + [f.id] + after;
  }

  class TypeInference {
    /** typesBySymbol: the module scope's result. */
    var typesBySymbol: map<Symbol, set<PythonType>>
    /** The flow-sensitive engine, built from the project-level type table. */
    const compute: FlowSensitiveEngine

    constructor (compute: FlowSensitiveEngine)
      ensures this.compute == compute && typesBySymbol == map[]
    {
      this.compute := compute;
      typesBySymbol := map[];
    }

    /**
     * inferTypes: the module scope, then every function scope in post-order.
     * Returns the identities of the function scopes in the order they were processed.
     */
    method InferTypes(fileInput: FileInput) returns (processed: seq<nat>)
      requires FlowSensitiveNamesDistinct(fileInput.scope) && FunctionsWellFormed(fileInput.functions)
      modifies this
      ensures typesBySymbol ==
        if fileInput.hasStatements then InferScope(fileInput.scope, {}, compute) else old(typesBySymbol)
      ensures processed == PostOrder(fileInput.functions)
    {
      // TrivialTypeInferenceVisitor runs first; its effect on the tree is not modelled
      InferModuleScope(fileInput);
      processed := VisitFunctionDefs(fileInput.functions);
    }

    /** inferTypesAndMemberAccessSymbols(FileInput): no parameter names, result kept. */
    method InferModuleScope(fileInput: FileInput)
      requires FlowSensitiveNamesDistinct(fileInput.scope)
      modifies this`typesBySymbol
      ensures typesBySymbol ==
        if fileInput.hasStatements then InferScope(fileInput.scope, {}, compute) else old(typesBySymbol)
    {
      if !fileInput.hasStatements {
        return;
      }
      typesBySymbol := InferScope(fileInput.scope, {}, compute);
    }

    /** visitFunctionDef: nested functions first, then this function's scope, whose result is dropped. */
    method VisitFunctionDef(f: FunctionDef) returns (processed: seq<nat>)
      requires FlowSensitiveNamesDistinct(f.scope) && FunctionsWellFormed(f.nested)
      ensures processed == PostOrderOf(f)
      decreases f
    {
      var nested := VisitFunctionDefs(f.nested);
      var discarded := InferScope(f.scope, f.parameterNames, compute);
      processed := nested + [f.id];
    }

    /** scan(list) over sibling function definitions. */
    method VisitFunctionDefs(fs: seq<FunctionDef>) returns (processed: seq<nat>)
      requires FunctionsWellFormed(fs)
      ensures processed == PostOrder(fs)
      decreases fs
    {
      if |fs| == 0 {
        return [];
      }
      var first := VisitFunctionDef(fs[0]);
      var rest := VisitFunctionDefs(fs[1..]);
      processed := first + rest;
    }
  }
}
