/**
 * The analyzer's type lattice, reduced to what the modelled core inspects.
 * Union construction (UnionType.or) and member resolution (PythonType.resolveMember)
 * are not shown in the modelled files; the modules that need them take them as
 * function-valued parameters bundled in TypeOps.
 */
module PythonTypes {
  import opened Optional

  datatype PythonType =
    /** PythonType.UNKNOWN: no information */
    | Unknown
    /** UnknownType.UnresolvedImportType: a name whose import could not be resolved */
    | UnresolvedImport(importPath: string)
    /** Any other type (class, function, module, union); its structure is not modelled */
    | Resolved(id: nat)

  /** The two unseen operations of the lattice. */
  datatype TypeOps = TypeOps(
    or: (PythonType, PythonType) -> PythonType,
    resolveMember: (PythonType, string) -> Option<PythonType>)

  /** What the order-independence of a fold needs from UnionType.or. */
  ghost predicate Commutative(or: (PythonType, PythonType) -> PythonType) {
    forall x, y :: or(x, y) == or(y, x)
  }

  ghost predicate Associative(or: (PythonType, PythonType) -> PythonType) {
    forall x, y, z :: or(or(x, y), z) == or(x, or(y, z))
  }
}
