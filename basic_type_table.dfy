/**
 * The default type table (BasicTypeTable): it has no state, and every lookup
 * answers an unresolved-import type named by the requested fully qualified name,
 * the parts of a name being joined with ".". The varargs and the List overloads
 * of getType take the same sequence of parts here, so one function models both.
 */
module BasicTypeTable {
  import opened PythonTypes

  /** String.join(".", parts). */
  function JoinDot(parts: seq<string>): (r: string)
    ensures |parts| > 0 ==> parts[0] <= r
    ensures |parts| > 1 ==> |r| > |parts[0]| && r[|parts[0]|] == '.'
  {
    if |parts| == 0 then ""
    else if |parts| == 1 then parts[0]
    else parts[0] + "." + JoinDot(parts[1..])
  }

  /** The segments of `s` between dots, empty segments included; the inverse of JoinDot. */
  function SplitDot(s: string): (r: seq<string>)
    ensures |r| >= 1
  {
    if |s| == 0 then [""]
    else
      var rest := SplitDot(s[1..]);
      if s[0] == '.' then [""] + rest
      else [[s[0]] + rest[0]] + rest[1..]
  }

  ghost predicate DotFree(part: string) {
    forall i :: 0 <= i < |part| ==> part[i] != '.'
  }

  /** getBuiltinsModule */
  function GetBuiltinsModule(): (r: PythonType)
    ensures r == UnresolvedImport("")
  {
    UnresolvedImport("")
  }

  /** getType(String typeFqn) */
  function GetType(typeFqn: string): (r: PythonType)
    ensures r.UnresolvedImport? && r.importPath == typeFqn
  {
    UnresolvedImport(typeFqn)
  }

  /** getType(String... typeFqnParts) and getType(List<String> typeFqnParts) */
  function GetTypeOfParts(typeFqnParts: seq<string>): (r: PythonType)
    ensures r.UnresolvedImport? && r.importPath == JoinDot(typeFqnParts)
    ensures |typeFqnParts| >= 1 && (forall i :: 0 <= i < |typeFqnParts| ==> DotFree(typeFqnParts[i])) ==>
      SplitDot(r.importPath) == typeFqnParts
  {
    SplitJoin(typeFqnParts);
    UnresolvedImport(JoinDot(typeFqnParts))
  }

  /** getModuleType(List<String> typeFqnParts) */
  function GetModuleType(typeFqnParts: seq<string>): (r: PythonType)
    ensures r.UnresolvedImport?
    ensures r == GetTypeOfParts(typeFqnParts)
  {
    UnresolvedImport(JoinDot(typeFqnParts))
  }

  // ---------------------------------------------------------------------------
  // Properties

  /** Joining the segments of a name gives the name back. */
  lemma {:induction false} JoinSplit(s: string)
    ensures JoinDot(SplitDot(s)) == s
  {
    if |s| > 0 {
      JoinSplit(s[1..]);
      var rest := SplitDot(s[1..]);
      if s[0] == '.' {
        assert JoinDot([""] + rest) == "" + "." + JoinDot(rest) by {
          assert ([""] + rest)[1..] == rest;
        }
      } else {
        var first := [s[0]] + rest[0];
        if |rest| == 1 {
          assert JoinDot([first] + rest[1..]) == first;
        } else {
          assert ([first] + rest[1..])[1..] == rest[1..];
          assert JoinDot([first] + rest[1..]) == first + "." + JoinDot(rest[1..]);
          assert JoinDot(rest) == rest[0] + "." + JoinDot(rest[1..]);
        }
        assert s == [s[0]] + s[1..];
      }
    }
  }

  /** A dot-free prefix only extends the first segment. */
  lemma {:induction false} SplitDotFreePrefix(p: string, t: string)
    requires DotFree(p)
    ensures SplitDot(p + t) == [p + SplitDot(t)[0]] + SplitDot(t)[1..]
  {
    if |p| > 0 {
      SplitDotFreePrefix(p[1..], t);
      assert (p + t)[1..] == p[1..] + t;
      assert (p + t)[0] == p[0];
      assert [p[0]] + (p[1..] + SplitDot(t)[0]) == p + SplitDot(t)[0];
    } else {
      assert p + t == t;
      assert p + SplitDot(t)[0] == SplitDot(t)[0];
      assert [SplitDot(t)[0]] + SplitDot(t)[1..] == SplitDot(t);
    }
  }

  /** Splitting a join of dot-free parts gives the parts back. */
  lemma {:induction false} SplitJoin(parts: seq<string>)
    ensures |parts| >= 1 && (forall i :: 0 <= i < |parts| ==> DotFree(parts[i])) ==> SplitDot(JoinDot(parts)) == parts
  {
    if |parts| >= 1 && (forall i :: 0 <= i < |parts| ==> DotFree(parts[i])) {
      if |parts| == 1 {
        SplitDotFreePrefix(parts[0], "");
        assert parts[0] + "" == parts[0];
      } else {
        var tail := JoinDot(parts[1..]);
        assert forall i :: 0 <= i < |parts[1..]| ==> DotFree(parts[1..][i]) by {
          forall i | 0 <= i < |parts[1..]| ensures DotFree(parts[1..][i]) { assert parts[1..][i] == parts[i + 1]; }
        }
        SplitJoin(parts[1..]);
        SplitDotFreePrefix(parts[0], "." + tail);
        assert ("." + tail)[1..] == tail;
        assert SplitDot("." + tail) == [""] + SplitDot(tail);
        assert SplitDot("." + tail)[0] == "" && SplitDot("." + tail)[1..] == SplitDot(tail);
        assert parts[0] + "" == parts[0];
        assert JoinDot(parts) == parts[0] + "." + tail;
        assert parts[0] + "." + tail == parts[0] + ("." + tail);
        assert parts == [parts[0]] + parts[1..];
      }
    }
  }

  /** Looking a name up by its segments is the same as looking it up whole. */
  lemma LookupBySegments(typeFqn: string)
    ensures GetTypeOfParts(SplitDot(typeFqn)) == GetType(typeFqn)
  {
    JoinSplit(typeFqn);
  }

  /** A single part is the name itself; no parts is the builtins module. */
  lemma SinglePartAndNoParts(typeFqn: string)
    ensures GetTypeOfParts([typeFqn]) == GetType(typeFqn)
    ensures GetTypeOfParts([]) == GetBuiltinsModule()
  {
  }
}
