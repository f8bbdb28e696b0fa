/**
 * The control-flow graph as an index-based table of basic blocks. Block identity
 * (Java object identity of CfgBlock) is the block's index in `blocks`, which is
 * also the iteration order of cfg.blocks(). Token positions of elements are
 * attributes computed by the parser; an element carries the kinds of its syntax
 * tree ancestors, nearest first, which ancestor queries search.
 */
module ControlFlowGraph {
  import opened Optional

  /** An abstract token position. */
  type Token = nat

  datatype ElementKind = RaiseStatement | OtherElement

  /** The kinds of ancestor the rule asks about. */
  datatype AncestorKind = WithStatement | FinallyClause | OtherAncestor

  datatype Element = Element(
    id: nat,
    kind: ElementKind,
    ancestors: seq<AncestorKind>,  // parent first, up to the file input
    firstToken: Token,
    lastToken: Token)

  datatype Block = Block(
    elements: seq<Element>,
    predecessors: set<nat>,
    syntacticSuccessor: Option<nat>)

  datatype Cfg = Cfg(blocks: seq<Block>, start: nat)

  /** TreeUtils.firstAncestorOfKind: the position of the nearest ancestor of that kind, if any. */
  function FirstAncestorOfKind(ancestors: seq<AncestorKind>, kind: AncestorKind): (r: Option<nat>)
    ensures r.Some? ==> (r.value < |ancestors| && ancestors[r.value] == kind &&
      forall j :: 0 <= j < r.value ==> ancestors[j] != kind)
    ensures r.None? ==> forall j :: 0 <= j < |ancestors| ==> ancestors[j] != kind
  {
    if |ancestors| == 0 then None
    else if ancestors[0] == kind then Some(0)
    else
      var rest := FirstAncestorOfKind(ancestors[1..], kind);
      if rest.Some? then Some(rest.value + 1) else None
  }

  /**
   * A block that has a syntactic successor ends with the jump statement that
   * separates it from that successor, so it is never empty.
   */
  ghost predicate JumpBlocksNonEmpty(cfg: Cfg) {
    forall i :: 0 <= i < |cfg.blocks| && cfg.blocks[i].syntacticSuccessor.Some? ==> |cfg.blocks[i].elements| > 0
  }
}
