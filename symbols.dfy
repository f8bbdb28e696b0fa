/**
 * Symbols (SymbolV2) and their usages (UsageV2) as produced by scope resolution.
 * Tree nodes are referred to by identity; a usage records the node it occurs at,
 * whether that node is an expression, and that expression's current typeV2.
 */
module Symbols {
  import opened PythonTypes

  /** Identity of a syntax-tree node (Java object identity). */
  type TreeId = nat

  datatype UsageKind = Binding | Parameter | GlobalDeclaration | Read | Other

  datatype TreeNode = TreeNode(id: TreeId, isExpression: bool, typeV2: PythonType)

  datatype Usage = Usage(kind: UsageKind, tree: TreeNode) {
    /** Kinds that introduce a new value for the symbol. */
    predicate IsBindingUsage() {
      kind == Binding || kind == Parameter
    }
  }

  datatype Symbol = Symbol(name: string, usages: seq<Usage>)

  /** Within one scope no two symbols share a name. */
  ghost predicate DistinctNames(symbols: set<Symbol>) {
    forall s, t :: s in symbols && t in symbols && s.name == t.name ==> s == t
  }
}
