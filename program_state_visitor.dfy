/**
 * The program-state annotator (ProgramStateTypeInferenceVisitor): a tree walk
 * that overwrites the type of every name whose symbol has types in the program
 * state with the union of those types, resolves the members of qualified
 * expressions from their qualifier's type, and does not enter nested function
 * definitions. Names are objects whose typeV2 slot the walk updates in place;
 * Annotate is the specification of the walk on a map from names to types.
 */
module ProgramStateTypeInference {
  import opened Optional
  import opened PythonTypes
  import opened Symbols

  /**
   * TypeInferenceProgramState: the types of each symbol, listed in the iteration
   * order of the set the state holds; a symbol without an entry has no types.
   */
  datatype ProgramState = ProgramState(typesBySymbol: map<Symbol, seq<PythonType>>) {
    function GetTypes(symbol: Symbol): seq<PythonType> {
      if symbol in typesBySymbol then typesBySymbol[symbol] else []
    }
  }

  /** A name occurrence (NameImpl) with its mutable type slot. */
  class Name {
    const name: string
    const symbol: Option<Symbol>
    var typeV2: PythonType

    constructor (name: string, symbol: Option<Symbol>, typeV2: PythonType)
      ensures this.name == name && this.symbol == symbol && this.typeV2 == typeV2
    {
      this.name := name;
      this.symbol := symbol;
      this.typeV2 := typeV2;
    }
  }

  /** The syntax tree, reduced to what the walk distinguishes. */
  datatype Tree =
    | NameNode(n: Name)
    | QualifiedExpression(qualifier: Tree, member: Name)
    | FunctionDef(children: seq<Tree>)
    /** any other node; `ownType` is its typeV2 when it is an expression */
    | OtherNode(children: seq<Tree>, ownType: PythonType)

  function Size(t: Tree): (r: nat)
    ensures r >= 1
  {
    match t
    case NameNode(_) => 1
    case QualifiedExpression(q, _) => 1 + Size(q)
    case FunctionDef(cs) => 1 + SizeAll(cs)
    case OtherNode(cs, _) => 1 + SizeAll(cs)
  }

  function SizeAll(ts: seq<Tree>): nat {
    if |ts| == 0 then 0 else Size(ts[0]) + SizeAll(ts[1..])
  }

  /** Every name of the tree, nested function definitions included. */
  function AllNames(t: Tree): set<Name>
    decreases Size(t), 0
  {
    match t
    case NameNode(n) => {n}
    case QualifiedExpression(q, m) => AllNames(q) + {m}
    case FunctionDef(cs) => AllNamesOfAll(cs)
    case OtherNode(cs, _) => AllNamesOfAll(cs)
  }

  function AllNamesOfAll(ts: seq<Tree>): set<Name>
    decreases SizeAll(ts), 1
  {
    if |ts| == 0 then {} else AllNames(ts[0]) + AllNamesOfAll(ts[1..])
  }

  /** The names the walk reaches: none below a nested function definition. */
  function VisitedNames(t: Tree): (r: set<Name>)
    ensures r <= AllNames(t)
    decreases Size(t), 0
  {
    match t
    case NameNode(n) => {n}
    case QualifiedExpression(q, m) => VisitedNames(q) + {m}
    case FunctionDef(_) => {}
    case OtherNode(cs, _) => VisitedNamesOfAll(cs)
  }

  function VisitedNamesOfAll(ts: seq<Tree>): (r: set<Name>)
    ensures r <= AllNamesOfAll(ts)
    decreases SizeAll(ts), 1
  {
    if |ts| == 0 then {} else VisitedNames(ts[0]) + VisitedNamesOfAll(ts[1..])
  }

  /** The names inside nested function definitions, which the walk skips. */
  function NestedFunctionNames(t: Tree): (r: set<Name>)
    ensures r <= AllNames(t)
    decreases Size(t), 0
  {
    match t
    case NameNode(_) => {}
    case QualifiedExpression(q, _) => NestedFunctionNames(q)
    case FunctionDef(cs) => AllNamesOfAll(cs)
    case OtherNode(cs, _) => NestedFunctionNamesOfAll(cs)
  }

  function NestedFunctionNamesOfAll(ts: seq<Tree>): (r: set<Name>)
    ensures r <= AllNamesOfAll(ts)
    decreases SizeAll(ts), 1
  {
    if |ts| == 0 then {} else NestedFunctionNames(ts[0]) + NestedFunctionNamesOfAll(ts[1..])
  }

  /** A syntax tree holds each name node once: no Name object occurs at two places. */
  ghost predicate NoSharedNames(t: Tree)
    decreases Size(t), 0
  {
    match t
    case NameNode(_) => true
    case QualifiedExpression(q, m) => NoSharedNames(q) && m !in AllNames(q)
    case FunctionDef(cs) => NoSharedNamesOfAll(cs)
    case OtherNode(cs, _) => NoSharedNamesOfAll(cs)
  }

  ghost predicate NoSharedNamesOfAll(ts: seq<Tree>)
    decreases SizeAll(ts), 1
  {
    |ts| == 0 ||
    (NoSharedNames(ts[0]) && NoSharedNamesOfAll(ts[1..]) && AllNames(ts[0]) !! AllNamesOfAll(ts[1..]))
  }

  /** The visited names in plain-name position, the only ones looked up in the state. */
  function LookedUpNames(t: Tree): set<Name>
    decreases Size(t), 0
  {
    match t
    case NameNode(n) => {n}
    case QualifiedExpression(q, _) => LookedUpNames(q)
    case FunctionDef(_) => {}
    case OtherNode(cs, _) => LookedUpNamesOfAll(cs)
  }

  function LookedUpNamesOfAll(ts: seq<Tree>): set<Name>
    decreases SizeAll(ts), 1
  {
    if |ts| == 0 then {} else LookedUpNames(ts[0]) + LookedUpNamesOfAll(ts[1..])
  }

  // ---------------------------------------------------------------------------
  // union: Stream.reduce(UnionType::or).orElse(UNKNOWN)

  function FoldOr(or: (PythonType, PythonType) -> PythonType, acc: PythonType, types: seq<PythonType>): PythonType
    decreases types
  {
    if |types| == 0 then acc else FoldOr(or, or(acc, types[0]), types[1..])
  }

  function Union(or: (PythonType, PythonType) -> PythonType, types: seq<PythonType>): (r: PythonType)
    ensures |types| == 0 ==> r == Unknown
    ensures |types| == 1 ==> r == types[0]
  {
    if |types| == 0 then Unknown else FoldOr(or, types[0], types[1..])
  }

  /** The type visitName gives a name that had type `prior`. */
  function NameType(state: ProgramState, ops: TypeOps, n: Name, prior: PythonType): (r: PythonType)
    ensures r != prior ==> n.symbol.Some? && |state.GetTypes(n.symbol.value)| > 0 && r == Union(ops.or, state.GetTypes(n.symbol.value))
    ensures n.symbol.Some? && |state.GetTypes(n.symbol.value)| == 1 ==> r == state.GetTypes(n.symbol.value)[0]
  {
    if n.symbol.Some? && |state.GetTypes(n.symbol.value)| > 0 then Union(ops.or, state.GetTypes(n.symbol.value))
    else prior
  }

  /** The typeV2 of an expression, given the current types of names. */
  function TypeOf(t: Tree, env: map<Name, PythonType>): PythonType
    requires VisitedNames(t) <= env.Keys
  {
    match t
    case NameNode(n) => env[n]
    case QualifiedExpression(_, m) => env[m]
    case FunctionDef(_) => Unknown
    case OtherNode(_, ownType) => ownType
  }

  /** The walk as a function: the name types after visiting `t`, when they were `env` before. */
  function Annotate(state: ProgramState, ops: TypeOps, t: Tree, env: map<Name, PythonType>): (r: map<Name, PythonType>)
    requires VisitedNames(t) <= env.Keys
    ensures r.Keys == env.Keys
    ensures forall n :: n in env && n !in VisitedNames(t) ==> r[n] == env[n]
    decreases Size(t), 0
  {
    match t
    case NameNode(n) => env[n := NameType(state, ops, n, env[n])]
    case QualifiedExpression(q, m) =>
      var afterQualifier := Annotate(state, ops, q, env);
      var resolved := ops.resolveMember(TypeOf(q, afterQualifier), m.name);
      if resolved.Some? then afterQualifier[m := resolved.value] else afterQualifier
    case FunctionDef(_) => env
    case OtherNode(cs, _) => AnnotateAll(state, ops, cs, env)
  }

  function AnnotateAll(state: ProgramState, ops: TypeOps, ts: seq<Tree>, env: map<Name, PythonType>): (r: map<Name, PythonType>)
    requires VisitedNamesOfAll(ts) <= env.Keys
    ensures r.Keys == env.Keys
    ensures forall n :: n in env && n !in VisitedNamesOfAll(ts) ==> r[n] == env[n]
    decreases SizeAll(ts), 1
  {
    if |ts| == 0 then env
    else AnnotateAll(state, ops, ts[1..], Annotate(state, ops, ts[0], env))
  }

  // ---------------------------------------------------------------------------
  // Properties of the specification

  /** In a tree without shared names, no name the walk reaches lies inside a nested function definition. */
  lemma {:induction false} VisitedAvoidsNestedFunctions(t: Tree)
    requires NoSharedNames(t)
    ensures VisitedNames(t) !! NestedFunctionNames(t)
    decreases Size(t), 0
  {
    match t
    case NameNode(_) =>
    case QualifiedExpression(q, _) => VisitedAvoidsNestedFunctions(q);
    case FunctionDef(_) =>
    case OtherNode(cs, _) => VisitedAvoidsNestedFunctionsOfAll(cs);
  }

  lemma {:induction false} VisitedAvoidsNestedFunctionsOfAll(ts: seq<Tree>)
    requires NoSharedNamesOfAll(ts)
    ensures VisitedNamesOfAll(ts) !! NestedFunctionNamesOfAll(ts)
    decreases SizeAll(ts), 1
  {
    if |ts| > 0 {
      VisitedAvoidsNestedFunctions(ts[0]);
      VisitedAvoidsNestedFunctionsOfAll(ts[1..]);
    }
  }

  /** visitFunctionDef does not descend: every name inside a nested function definition keeps its type. */
  lemma NestedFunctionNamesKeepTheirTypes(state: ProgramState, ops: TypeOps, t: Tree, env: map<Name, PythonType>, n: Name)
    requires NoSharedNames(t) && VisitedNames(t) <= env.Keys
    requires n in env && n in NestedFunctionNames(t)
    ensures Annotate(state, ops, t, env)[n] == env[n]
  {
    VisitedAvoidsNestedFunctions(t);
  }

  /** The same for a sequence of sibling subtrees. */
  lemma NestedFunctionNamesKeepTheirTypesOfAll(state: ProgramState, ops: TypeOps, ts: seq<Tree>, env: map<Name, PythonType>, n: Name)
    requires NoSharedNamesOfAll(ts) && VisitedNamesOfAll(ts) <= env.Keys
    requires n in env && n in NestedFunctionNamesOfAll(ts)
    ensures AnnotateAll(state, ops, ts, env)[n] == env[n]
  {
    VisitedAvoidsNestedFunctionsOfAll(ts);
  }

  /** A plain name with state types gets their union; otherwise it keeps its type. */
  lemma PlainNameAnnotation(state: ProgramState, ops: TypeOps, n: Name, env: map<Name, PythonType>)
    requires n in env
    ensures n.symbol.Some? && |state.GetTypes(n.symbol.value)| > 0 ==>
      Annotate(state, ops, NameNode(n), env)[n] == Union(ops.or, state.GetTypes(n.symbol.value))
    ensures n.symbol.None? || |state.GetTypes(n.symbol.value)| == 0 ==>
      Annotate(state, ops, NameNode(n), env) == env
  {
  }

  /** A reduce over one element yields that element. */
  lemma UnionSingleton(or: (PythonType, PythonType) -> PythonType, t: PythonType)
    ensures Union(or, [t]) == t
  {
  }

  lemma {:induction false} FoldOrShift(or: (PythonType, PythonType) -> PythonType, x: PythonType, y: PythonType,
                                       types: seq<PythonType>)
    requires Associative(or)
    ensures FoldOr(or, or(x, y), types) == or(x, FoldOr(or, y, types))
    decreases types
  {
    if |types| > 0 {
      FoldOrShift(or, x, or(y, types[0]), types[1..]);
    }
  }

  lemma UnionCons(or: (PythonType, PythonType) -> PythonType, h: PythonType, t: seq<PythonType>)
    requires Associative(or) && |t| > 0
    ensures Union(or, [h] + t) == or(h, Union(or, t))
  {
    assert ([h] + t)[1..] == t;
    FoldOrShift(or, h, t[0], t[1..]);
  }

  lemma {:induction false} UnionExtract(or: (PythonType, PythonType) -> PythonType,
                                        p: seq<PythonType>, e: PythonType, q: seq<PythonType>)
    requires Associative(or) && Commutative(or) && |p + q| > 0
    ensures Union(or, p + [e] + q) == or(e, Union(or, p + q))
    decreases |p|
  {
    if |p| == 0 {
      assert p + [e] + q == [e] + q && p + q == q;
      UnionCons(or, e, q);
    } else {
      var h, p' := p[0], p[1..];
      assert p + [e] + q == [h] + (p' + [e] + q);
      assert p + q == [h] + (p' + q);
      if |p' + q| == 0 {
        assert p + [e] + q == [h, e] && p + q == [h];
        assert [h, e][1..] == [e] && [e][1..] == [];
        assert Union(or, [h, e]) == FoldOr(or, h, [e]);
        assert FoldOr(or, h, [e]) == FoldOr(or, or(h, e), []);
        assert or(h, e) == or(e, h);
      } else {
        UnionCons(or, h, p' + [e] + q);
        UnionExtract(or, p', e, q);
        UnionCons(or, h, p' + q);
        assert or(h, or(e, Union(or, p' + q))) == or(e, or(h, Union(or, p' + q))) by {
          assert or(h, or(e, Union(or, p' + q))) == or(or(h, e), Union(or, p' + q));
          assert or(h, e) == or(e, h);
          assert or(or(e, h), Union(or, p' + q)) == or(e, or(h, Union(or, p' + q)));
        }
      }
    }
  }

  /** Removing one occurrence of the same element from two permutations leaves permutations. */
  lemma RemoveFromPermutation(a: seq<PythonType>, b: seq<PythonType>, k: nat)
    requires multiset(a) == multiset(b) && |a| > 0 && k < |b| && b[k] == a[0]
    ensures multiset(a[1..]) == multiset(b[..k] + b[k + 1..])
  {
    assert a == [a[0]] + a[1..];
    assert b == b[..k] + [b[k]] + b[k + 1..];
    assert multiset(a) == multiset{a[0]} + multiset(a[1..]);
    assert multiset(b) == multiset(b[..k]) + multiset{b[k]} + multiset(b[k + 1..]);
    assert multiset(b[..k] + b[k + 1..]) == multiset(b[..k]) + multiset(b[k + 1..]);
    forall x ensures multiset(a[1..])[x] == multiset(b[..k] + b[k + 1..])[x] {
      assert multiset(a)[x] == multiset{a[0]}[x] + multiset(a[1..])[x];
      assert multiset(b)[x] == multiset(b[..k])[x] + multiset{b[k]}[x] + multiset(b[k + 1..])[x];
    }
  }

  /** One induction step: putting the same first element before two equal unions. */
  lemma UnionStep(or: (PythonType, PythonType) -> PythonType, h: PythonType, t: seq<PythonType>,
                  p: seq<PythonType>, q: seq<PythonType>)
    requires Associative(or) && Commutative(or)
    requires |t| > 0 && |p + q| > 0 && Union(or, t) == Union(or, p + q)
    ensures Union(or, [h] + t) == Union(or, p + [h] + q)
  {
    UnionCons(or, h, t);
    UnionExtract(or, p, h, q);
  }

  /**
   * The state holds a set, whose iteration order is unspecified: when UnionType.or
   * is associative and commutative, every order gives the same union.
   */
  lemma {:induction false} UnionOrderIrrelevant(or: (PythonType, PythonType) -> PythonType,
                                                a: seq<PythonType>, b: seq<PythonType>)
    requires Associative(or) && Commutative(or)
    requires multiset(a) == multiset(b)
    ensures Union(or, a) == Union(or, b)
    decreases |a|
  {
    if |a| > 0 {
      var h, t := a[0], a[1..];
      assert h in multiset(b);
      var k :| 0 <= k < |b| && b[k] == h;
      var p, q := b[..k], b[k + 1..];
      RemoveFromPermutation(a, b, k);
      assert b == p + [h] + q;
      if |t| == 0 {
        assert t == [];
        assert multiset(p + q) == multiset{};
        assert |p + q| == 0;
        assert p == [] && q == [];
        assert a == [h] && b == [h];
      } else {
        assert a == [h] + t;
        UnionOrderIrrelevant(or, t, p + q);
        UnionStep(or, h, t, p, q);
      }
    }
  }

  /** Two states that give the same types to the symbols of `ns`. */
  ghost predicate StatesAgreeOn(s1: ProgramState, s2: ProgramState, ns: set<Name>) {
    forall n :: n in ns && n.symbol.Some? ==> s1.GetTypes(n.symbol.value) == s2.GetTypes(n.symbol.value)
  }

  /**
   * The state is consulted only for names in plain-name position: in particular
   * the member name of a qualified expression is never looked up.
   */
  lemma {:induction false} OnlyPlainNamesLookedUp(s1: ProgramState, s2: ProgramState, ops: TypeOps, t: Tree,
                                                  env: map<Name, PythonType>)
    requires VisitedNames(t) <= env.Keys
    requires StatesAgreeOn(s1, s2, LookedUpNames(t))
    ensures Annotate(s1, ops, t, env) == Annotate(s2, ops, t, env)
    decreases Size(t), 0
  {
    match t
    case NameNode(n) =>
    case QualifiedExpression(q, m) =>
      OnlyPlainNamesLookedUp(s1, s2, ops, q, env);
    case FunctionDef(_) =>
    case OtherNode(cs, _) =>
      OnlyPlainNamesLookedUpOfAll(s1, s2, ops, cs, env);
  }

  lemma {:induction false} OnlyPlainNamesLookedUpOfAll(s1: ProgramState, s2: ProgramState, ops: TypeOps,
                                                       ts: seq<Tree>, env: map<Name, PythonType>)
    requires VisitedNamesOfAll(ts) <= env.Keys
    requires StatesAgreeOn(s1, s2, LookedUpNamesOfAll(ts))
    ensures AnnotateAll(s1, ops, ts, env) == AnnotateAll(s2, ops, ts, env)
    decreases SizeAll(ts), 1
  {
    if |ts| > 0 {
      OnlyPlainNamesLookedUp(s1, s2, ops, ts[0], env);
      OnlyPlainNamesLookedUpOfAll(s1, s2, ops, ts[1..], Annotate(s1, ops, ts[0], env));
    }
  }

  /**
   * A qualified expression: the qualifier is annotated first; the member then
   * takes the member type resolved from the qualifier's new type, and keeps its
   * prior type when nothing resolves.
   */
  lemma QualifiedMemberAnnotation(state: ProgramState, ops: TypeOps, q: Tree, m: Name, env: map<Name, PythonType>)
    requires VisitedNames(q) + {m} <= env.Keys
    requires m !in VisitedNames(q)
    ensures var afterQualifier := Annotate(state, ops, q, env);
      var resolved := ops.resolveMember(TypeOf(q, afterQualifier), m.name);
      && (resolved.Some? ==> Annotate(state, ops, QualifiedExpression(q, m), env)[m] == resolved.value)
      && (resolved.None? ==> Annotate(state, ops, QualifiedExpression(q, m), env)[m] == env[m])
      && (forall n :: n in env && n != m ==> Annotate(state, ops, QualifiedExpression(q, m), env)[n] == afterQualifier[n])
  {
  }

  /** The current types of a set of names. */
  ghost function Snapshot(ns: set<Name>): map<Name, PythonType>
    reads ns
  {
    map n | n in ns :: n.typeV2
  }

  class ProgramStateTypeInferenceVisitor {
    const state: ProgramState
    const ops: TypeOps

    constructor (state: ProgramState, ops: TypeOps)
      ensures this.state == state && this.ops == ops
    {
      this.state := state;
      this.ops := ops;
    }

    /** visitName */
    method VisitName(name: Name)
      modifies name
      ensures name.typeV2 == NameType(state, ops, name, old(name.typeV2))
    {
      if name.symbol.Some? {
        var pythonTypes := state.GetTypes(name.symbol.value);
        if |pythonTypes| > 0 {
          name.typeV2 := Union(ops.or, pythonTypes);
        }
      }
    }

    /** The qualifier's typeV2, read from the tree. */
    method ExpressionType(t: Tree) returns (r: PythonType)
      ensures r == TypeOf(t, Snapshot(VisitedNames(t)))
    {
      match t
      case NameNode(n) => r := n.typeV2;
      case QualifiedExpression(_, m) => r := m.typeV2;
      case FunctionDef(_) => r := Unknown;
      case OtherNode(_, ownType) => r := ownType;
    }

    /** visitQualifiedExpression: the qualifier first, then the member from the qualifier's type. */
    method VisitQualifiedExpression(qualifier: Tree, member: Name, ghost ns: set<Name>)
      requires VisitedNames(qualifier) + {member} <= ns
      modifies VisitedNames(qualifier) + {member}
      ensures Snapshot(ns) == Annotate(state, ops, QualifiedExpression(qualifier, member), old(Snapshot(ns)))
      decreases Size(qualifier), 1
    {
      Scan(qualifier, ns);
      ghost var afterQualifier := Snapshot(ns);
      var qualifierType := ExpressionType(qualifier);
      assert qualifierType == TypeOf(qualifier, afterQualifier);
      var resolved := ops.resolveMember(qualifierType, member.name);
      if resolved.Some? {
        member.typeV2 := resolved.value;
        assert Snapshot(ns) == afterQualifier[member := resolved.value];
      }
    }

    /** scan(tree): dispatch on the kind of node; a nested function definition is skipped. */
    method Scan(t: Tree, ghost ns: set<Name>)
      requires VisitedNames(t) <= ns
      modifies VisitedNames(t)
      ensures Snapshot(ns) == Annotate(state, ops, t, old(Snapshot(ns)))
      decreases Size(t), 0
    {
      match t
      case NameNode(n) =>
        VisitName(n);
        assert Snapshot(ns) == old(Snapshot(ns))[n := n.typeV2];
      case QualifiedExpression(q, m) =>
        VisitQualifiedExpression(q, m, ns);
      case FunctionDef(_) =>
        // visitFunctionDef: inner functions are skipped
      case OtherNode(cs, _) =>
        ScanAll(cs, ns);
    }

    /** scan(list): the children in order. */
    method ScanAll(ts: seq<Tree>, ghost ns: set<Name>)
      requires VisitedNamesOfAll(ts) <= ns
      modifies VisitedNamesOfAll(ts)
      ensures Snapshot(ns) == AnnotateAll(state, ops, ts, old(Snapshot(ns)))
      decreases SizeAll(ts), 1
    {
      if |ts| > 0 {
        Scan(ts[0], ns);
        ScanAll(ts[1..], ns);
      }
    }
  }
}
