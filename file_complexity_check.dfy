/**
 * The file-complexity rule (FileComplexityCheck): when a file's complexity is
 * above the configured maximum, one file-level issue is raised whose cost is the
 * excess. Complexity (ComplexityVisitor.complexity) is an input; the message text
 * is reduced to the two numbers it reports.
 */
module FileComplexityCheck {
  import opened Optional

  /** Java's int. */
  newtype Int32 = x: int | -0x8000_0000 <= x < 0x8000_0000

  const DefaultMaximumFileComplexityThreshold: Int32 := 200

  /** An issue raised by addFileIssue(message).withCost(cost). */
  datatype FileIssue = FileIssue(complexity: Int32, threshold: Int32, cost: int)

  /** Java's int subtraction, which wraps around modulo 2^32. */
  function WrappingSub(a: Int32, b: Int32): (r: Int32)
    ensures (r as int - (a as int - b as int)) % 0x1_0000_0000 == 0
    ensures -0x8000_0000 <= a as int - b as int < 0x8000_0000 ==> r as int == a as int - b as int
  {
    var d := a as int - b as int;
    if d >= 0x8000_0000 then (d - 0x1_0000_0000) as Int32
    else if d < -0x8000_0000 then (d + 0x1_0000_0000) as Int32
    else d as Int32
  }

  /** The cost as the source computes it: `complexity - maximumFileComplexityThreshold` on ints. */
  function CostAsWritten(complexity: Int32, threshold: Int32): (r: Int32)
    ensures complexity > threshold && complexity as int - threshold as int < 0x8000_0000 ==> r >= 1
  {
    WrappingSub(complexity, threshold)
  }

  /** With a negative threshold the excess can leave the int range and the cost wraps to a negative number. */
  lemma CostAsWrittenCanBeNegative()
    ensures var complexity, threshold := 1 as Int32, -0x8000_0000 as Int32;
      complexity > threshold && CostAsWritten(complexity, threshold) < 0
  {
  }

  /** A configured threshold that is not negative never makes the cost wrap. */
  lemma CostAsWrittenExactForNonNegativeThreshold(complexity: Int32, threshold: Int32)
    requires threshold >= 0 && complexity > threshold
    ensures CostAsWritten(complexity, threshold) as int == complexity as int - threshold as int
  {
  }

  /**
   * The decision of leaveFile: an issue iff the complexity is strictly greater
   * than the threshold, its cost being the excess, which is at least 1.
   */
  function FileIssueFor(complexity: Int32, threshold: Int32): (r: Option<FileIssue>)
    ensures r.Some? <==> complexity > threshold
    ensures r.Some? ==> r.value.complexity == complexity && r.value.threshold == threshold
    ensures r.Some? ==> r.value.cost >= 1 && threshold as int + r.value.cost == complexity as int
  {
    if complexity > threshold then Some(FileIssue(complexity, threshold, complexity as int - threshold as int))
    else None
  }

  class FileComplexityCheck {
    /** The rule property maximumFileComplexityThreshold. */
    var maximumFileComplexityThreshold: Int32
    /** The file-level issues reported so far. */
    var issues: seq<FileIssue>

    constructor ()
      ensures maximumFileComplexityThreshold == DefaultMaximumFileComplexityThreshold
      ensures issues == []
    {
      maximumFileComplexityThreshold := DefaultMaximumFileComplexityThreshold;
      issues := [];
    }

    /** leaveFile: report at most one issue for the file just visited. */
    method LeaveFile(complexity: Int32)
      modifies this`issues
      ensures complexity > maximumFileComplexityThreshold ==>
        issues == old(issues) + [FileIssue(complexity, maximumFileComplexityThreshold,
                                           complexity as int - maximumFileComplexityThreshold as int)]
      ensures complexity <= maximumFileComplexityThreshold ==> issues == old(issues)
    {
      var issue := FileIssueFor(complexity, maximumFileComplexityThreshold);
      if issue.Some? {
        issues := issues + [issue.value];
      }
    }
  }
}
