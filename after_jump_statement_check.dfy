/**
 * The unreachable-code rule (AfterJumpStatementCheck.checkCfg): every block of a
 * control-flow graph that has no predecessors, is not the start block and holds
 * at least one element is reported as unreachable, with the jump statements that
 * precede it syntactically as secondary locations, unless it sits in a finally
 * clause or one of those jump statements is a raise inside a with statement.
 * The issues the rule reports through the subscription context are returned in
 * reporting order.
 */
module AfterJumpStatementCheck {
  import opened Optional
  import opened ControlFlowGraph

  const Message := "Delete this unreachable code or refactor the code to make it reachable."

  /** An issue from a first token to a last token, with its secondary locations. */
  datatype PreciseIssue = PreciseIssue(from: Token, to: Token, message: string, secondary: seq<Element>)

  /** isRaiseInsideWithStatement: an exception raised there may be suppressed by the context manager. */
  predicate IsRaiseInsideWithStatement(element: Element)
    ensures IsRaiseInsideWithStatement(element) <==>
      element.kind == RaiseStatement && exists i :: 0 <= i < |element.ancestors| && element.ancestors[i] == WithStatement
  {
    element.kind == RaiseStatement && FirstAncestorOfKind(element.ancestors, WithStatement).Some?
  }

  /** isInsideFinallyClause */
  predicate IsInsideFinallyClause(element: Element)
    ensures IsInsideFinallyClause(element) <==>
      exists i :: 0 <= i < |element.ancestors| && element.ancestors[i] == FinallyClause
  {
    FirstAncestorOfKind(element.ancestors, FinallyClause).Some?
  }

  /** The three-part test that makes a block a candidate for reporting. */
  predicate IsCandidate(cfg: Cfg, b: nat)
    requires b < |cfg.blocks|
  {
    |cfg.blocks[b].predecessors| == 0 && b != cfg.start && |cfg.blocks[b].elements| > 0
  }

  /** The last elements of the blocks among the first `n` whose syntactic successor is block `b`. */
  function JumpStatementsUpTo(cfg: Cfg, b: nat, n: nat): seq<Element>
    requires n <= |cfg.blocks| && JumpBlocksNonEmpty(cfg)
  {
    if n == 0 then []
    else
      var block := cfg.blocks[n - 1];
      JumpStatementsUpTo(cfg, b, n - 1) +
        (if block.syntacticSuccessor == Some(b) then [block.elements[|block.elements| - 1]] else [])
  }

  /** The jump statements of block `b`, in the order of cfg.blocks(). */
  function JumpStatements(cfg: Cfg, b: nat): seq<Element>
    requires JumpBlocksNonEmpty(cfg)
  {
    JumpStatementsUpTo(cfg, b, |cfg.blocks|)
  }

  predicate AnyRaiseInsideWithStatement(jumpStatements: seq<Element>) {
    exists k :: 0 <= k < |jumpStatements| && IsRaiseInsideWithStatement(jumpStatements[k])
  }

  /** A candidate that is not excluded by either of the two false-positive filters. */
  predicate IsReported(cfg: Cfg, b: nat)
    requires b < |cfg.blocks| && JumpBlocksNonEmpty(cfg)
  {
    && IsCandidate(cfg, b)
    && !IsInsideFinallyClause(cfg.blocks[b].elements[0])
    && !AnyRaiseInsideWithStatement(JumpStatements(cfg, b))
  }

  /** The issue raised for a reported block. */
  function IssueFor(cfg: Cfg, b: nat): PreciseIssue
    requires b < |cfg.blocks| && |cfg.blocks[b].elements| > 0 && JumpBlocksNonEmpty(cfg)
  {
    var elements := cfg.blocks[b].elements;
    PreciseIssue(elements[0].firstToken, elements[|elements| - 1].lastToken, Message, JumpStatements(cfg, b))
  }

  /** The reported blocks among the first `n`, in block order. */
  function ReportedBlocksUpTo(cfg: Cfg, n: nat): seq<nat>
    requires n <= |cfg.blocks| && JumpBlocksNonEmpty(cfg)
  {
    if n == 0 then []
    else ReportedBlocksUpTo(cfg, n - 1) + (if IsReported(cfg, n - 1) then [n - 1] else [])
  }

  /** The issues raised for the first `n` blocks, in block order. */
  function IssuesUpTo(cfg: Cfg, n: nat): seq<PreciseIssue>
    requires n <= |cfg.blocks| && JumpBlocksNonEmpty(cfg)
  {
    if n == 0 then []
    else IssuesUpTo(cfg, n - 1) + (if IsReported(cfg, n - 1) then [IssueFor(cfg, n - 1)] else [])
  }

  /** Everything checkCfg reports for a graph, none for a graph that could not be built. */
  function Issues(cfg: Option<Cfg>): (r: seq<PreciseIssue>)
    requires cfg.Some? ==> JumpBlocksNonEmpty(cfg.value)
    ensures cfg.None? ==> r == []
  {
    if cfg.None? then [] else IssuesUpTo(cfg.value, |cfg.value.blocks|)
  }

  /** checkCfg: one pass over the blocks, skipping the excluded candidates. */
  method CheckCfg(cfg: Option<Cfg>) returns (issues: seq<PreciseIssue>)
    requires cfg.Some? ==> JumpBlocksNonEmpty(cfg.value)
    ensures issues == Issues(cfg)
  {
    issues := [];
    if cfg.None? {
      return;
    }
    var graph := cfg.value;
    for i := 0 to |graph.blocks|
      invariant issues == IssuesUpTo(graph, i)
    {
      var block := graph.blocks[i];
      if |block.predecessors| == 0 && i != graph.start && |block.elements| > 0 {
        var firstElement := block.elements[0];
        var jumpStatements := JumpStatements(graph, i);
        if IsInsideFinallyClause(firstElement) || AnyRaiseInsideWithStatement(jumpStatements) {
          continue;
        }
        var lastElement := block.elements[|block.elements| - 1];
        issues := issues + [PreciseIssue(firstElement.firstToken, lastElement.lastToken, Message, jumpStatements)];
      }
    }
  }

  // ---------------------------------------------------------------------------
  // Properties

  /**
   * The secondary locations of block `b` are exactly the last elements of the
   * blocks whose syntactic successor is `b`.
   */
  lemma {:induction false} JumpStatementsMembers(cfg: Cfg, b: nat, n: nat, e: Element)
    requires n <= |cfg.blocks| && JumpBlocksNonEmpty(cfg)
    ensures e in JumpStatementsUpTo(cfg, b, n) <==>
      exists i :: 0 <= i < n && cfg.blocks[i].syntacticSuccessor == Some(b) &&
        e == cfg.blocks[i].elements[|cfg.blocks[i].elements| - 1]
  {
    if n > 0 {
      JumpStatementsMembers(cfg, b, n - 1, e);
    }
  }

  /**
   * A block appears among the reported ones iff it passes the test, and the
   * reported blocks are strictly increasing, so each block is reported at most
   * once and in the order of cfg.blocks().
   */
  lemma {:induction false} ReportedBlocksExact(cfg: Cfg, n: nat)
    requires n <= |cfg.blocks| && JumpBlocksNonEmpty(cfg)
    ensures forall k :: 0 <= k < |ReportedBlocksUpTo(cfg, n)| ==> ReportedBlocksUpTo(cfg, n)[k] < n
    ensures forall b: nat :: b in ReportedBlocksUpTo(cfg, n) <==> b < n && IsReported(cfg, b)
    ensures forall k, l :: 0 <= k < l < |ReportedBlocksUpTo(cfg, n)| ==>
      ReportedBlocksUpTo(cfg, n)[k] < ReportedBlocksUpTo(cfg, n)[l]
  {
    if n > 0 {
      ReportedBlocksExact(cfg, n - 1);
    }
  }

  /** The k-th issue is the issue of the k-th reported block. */
  lemma {:induction false} IssuesFollowReportedBlocks(cfg: Cfg, n: nat)
    requires n <= |cfg.blocks| && JumpBlocksNonEmpty(cfg)
    ensures |IssuesUpTo(cfg, n)| == |ReportedBlocksUpTo(cfg, n)|
    ensures forall k :: 0 <= k < |IssuesUpTo(cfg, n)| ==>
      ReportedBlocksUpTo(cfg, n)[k] < |cfg.blocks| &&
      IsReported(cfg, ReportedBlocksUpTo(cfg, n)[k]) &&
      IssuesUpTo(cfg, n)[k] == IssueFor(cfg, ReportedBlocksUpTo(cfg, n)[k])
  {
    if n > 0 {
      IssuesFollowReportedBlocks(cfg, n - 1);
      ReportedBlocksExact(cfg, n);
    }
  }

  /**
   * Every issue of a graph belongs to a block that has no predecessors, is not
   * the start block, is not empty and passes both filters; it spans that block
   * from its first element's first token to its last element's last token, carries
   * the fixed message, and names the block's jump statements as secondaries.
   */
  lemma IssueShape(cfg: Cfg, k: nat)
    requires JumpBlocksNonEmpty(cfg) && k < |Issues(Some(cfg))|
    ensures exists b: nat :: (
      && b < |cfg.blocks|
      && |cfg.blocks[b].predecessors| == 0 && b != cfg.start && |cfg.blocks[b].elements| > 0
      && !IsInsideFinallyClause(cfg.blocks[b].elements[0])
      && !AnyRaiseInsideWithStatement(JumpStatements(cfg, b))
      && Issues(Some(cfg))[k].from == cfg.blocks[b].elements[0].firstToken
      && Issues(Some(cfg))[k].to == cfg.blocks[b].elements[|cfg.blocks[b].elements| - 1].lastToken
      && Issues(Some(cfg))[k].message == Message
      && Issues(Some(cfg))[k].secondary == JumpStatements(cfg, b))
  {
    IssuesFollowReportedBlocks(cfg, |cfg.blocks|);
    var b := ReportedBlocksUpTo(cfg, |cfg.blocks|)[k];
    assert IsReported(cfg, b);
  }

  /** The start block is never reported, even without predecessors. */
  lemma StartNeverReported(cfg: Cfg, k: nat)
    requires JumpBlocksNonEmpty(cfg) && k < |ReportedBlocksUpTo(cfg, |cfg.blocks|)|
    ensures ReportedBlocksUpTo(cfg, |cfg.blocks|)[k] != cfg.start
  {
    ReportedBlocksExact(cfg, |cfg.blocks|);
    assert ReportedBlocksUpTo(cfg, |cfg.blocks|)[k] in ReportedBlocksUpTo(cfg, |cfg.blocks|);
  }

  /** A candidate escapes the report exactly when one of the two filters applies. */
  lemma CandidateReportedUnlessFiltered(cfg: Cfg, b: nat)
    requires JumpBlocksNonEmpty(cfg) && b < |cfg.blocks| && IsCandidate(cfg, b)
    ensures b in ReportedBlocksUpTo(cfg, |cfg.blocks|) <==>
      !IsInsideFinallyClause(cfg.blocks[b].elements[0]) &&
      forall i :: 0 <= i < |cfg.blocks| && cfg.blocks[i].syntacticSuccessor == Some(b) ==>
        !IsRaiseInsideWithStatement(cfg.blocks[i].elements[|cfg.blocks[i].elements| - 1])
  {
    ReportedBlocksExact(cfg, |cfg.blocks|);
    var jumps := JumpStatements(cfg, b);
    if AnyRaiseInsideWithStatement(jumps) {
      var k :| 0 <= k < |jumps| && IsRaiseInsideWithStatement(jumps[k]);
      JumpStatementsMembers(cfg, b, |cfg.blocks|, jumps[k]);
    } else {
      forall i | 0 <= i < |cfg.blocks| && cfg.blocks[i].syntacticSuccessor == Some(b)
        ensures !IsRaiseInsideWithStatement(cfg.blocks[i].elements[|cfg.blocks[i].elements| - 1])
      {
        var e := cfg.blocks[i].elements[|cfg.blocks[i].elements| - 1];
        JumpStatementsMembers(cfg, b, |cfg.blocks|, e);
        var k :| 0 <= k < |jumps| && jumps[k] == e;
      }
    }
  }
}
