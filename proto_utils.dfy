/**
 * Merging of stub descriptors that share a name, and the target-version filter
 * (ProtoUtils). A stream of descriptor streams is a sequence of sequences.
 * Descriptor equality is structural equality of the datatype; the factory
 * AmbiguousDescriptor.create is not shown and is a parameter.
 */
module ProtoUtils {

  /**
   * A named stub declaration. `shape` stands for everything else the descriptor
   * holds (kind, fully qualified name, members, signature); it only takes part in
   * equality.
   */
  datatype Descriptor = Descriptor(name: string, shape: nat)

  /** AmbiguousDescriptor.create, applied to a set of at least two same-named descriptors. */
  type AmbiguousFactory = set<Descriptor> -> Descriptor

  /** All descriptors of every inner stream (flatMap(i -> i)), as a set. */
  function AllDescriptors(input: seq<seq<Descriptor>>): set<Descriptor> {
    if |input| == 0 then {} else (set d | d in input[0]) + AllDescriptors(input[1..])
  }

  /** The group Collectors.groupingBy(Descriptor::name, toSet()) builds for `name`. */
  function GroupOf(all: set<Descriptor>, name: string): set<Descriptor> {
    set d | d in all && d.name == name
  }

  lemma SingletonElement(ds: set<Descriptor>, d: Descriptor)
    requires |ds| == 1 && d in ds
    ensures ds == {d}
  {
    var rest := ds - {d};
    assert |rest| == 0;
    assert rest == {};
  }

  /** disambiguateSymbolsWithSameName: keep a lone descriptor, wrap several. */
  function DisambiguateSymbolsWithSameName(descriptors: set<Descriptor>, create: AmbiguousFactory): (r: Descriptor)
    requires |descriptors| >= 1
    ensures |descriptors| > 1 ==> r == create(descriptors)
    ensures |descriptors| == 1 ==> descriptors == {r}
  {
    if |descriptors| > 1 then create(descriptors)
    else
      var d :| d in descriptors;
      SingletonElement(descriptors, d);
      d
  }

  /** disambiguateByName: group all descriptors by name and disambiguate each group. */
  function DisambiguateByName(input: seq<seq<Descriptor>>, create: AmbiguousFactory): (r: map<string, Descriptor>)
    ensures r.Keys == set d | d in AllDescriptors(input) :: d.name
  {
    var all := AllDescriptors(input);
    map n | n in (set d | d in all :: d.name) ::
      GroupNonEmpty(all, n);
      DisambiguateSymbolsWithSameName(GroupOf(all, n), create)
  }

  lemma GroupNonEmpty(all: set<Descriptor>, n: string)
    requires n in (set d | d in all :: d.name)
    ensures |GroupOf(all, n)| >= 1
  {
    var d :| d in all && d.name == n;
    assert d in GroupOf(all, n);
  }

  /** isValidForPythonVersion: an empty declaration is unconditional; otherwise intersect. */
  function IsValidForPythonVersion(validForPythonVersions: seq<string>, supportedPythonVersions: set<string>): (r: bool)
    ensures |validForPythonVersions| == 0 ==> r
    ensures |validForPythonVersions| > 0 ==>
      (r <==> exists i :: 0 <= i < |validForPythonVersions| && validForPythonVersions[i] in supportedPythonVersions)
  {
    if |validForPythonVersions| == 0 then true
    else
      var intersection := (set v | v in validForPythonVersions) * supportedPythonVersions;
      IntersectionWitness(validForPythonVersions, supportedPythonVersions);
      intersection != {}
  }

  lemma IntersectionWitness(vs: seq<string>, supported: set<string>)
    ensures (set v | v in vs) * supported != {} <==> exists i :: 0 <= i < |vs| && vs[i] in supported
  {
    if (set v | v in vs) * supported != {} {
      var v :| v in (set v | v in vs) * supported;
      var i :| 0 <= i < |vs| && vs[i] == v;
    }
    if exists i :: 0 <= i < |vs| && vs[i] in supported {
      var i :| 0 <= i < |vs| && vs[i] in supported;
      assert vs[i] in (set v | v in vs) * supported;
    }
  }

  // ---------------------------------------------------------------------------
  // Properties

  /** A descriptor belongs to the flattened input iff some inner stream holds it. */
  lemma {:induction false} AllDescriptorsMembers(input: seq<seq<Descriptor>>, d: Descriptor)
    ensures d in AllDescriptors(input) <==> exists i :: 0 <= i < |input| && d in input[i]
  {
    if |input| > 0 {
      AllDescriptorsMembers(input[1..], d);
      if d in AllDescriptors(input[1..]) {
        var i :| 0 <= i < |input[1..]| && d in input[1..][i];
        assert d in input[i + 1];
      }
      if exists i :: 0 <= i < |input| && d in input[i] {
        var i :| 0 <= i < |input| && d in input[i];
        if i > 0 { assert d in input[1..][i - 1]; }
      }
    }
  }

  /** The keys are exactly the names of the descriptors of all inner streams. */
  lemma KeysAreAllNames(input: seq<seq<Descriptor>>, create: AmbiguousFactory, n: string)
    ensures n in DisambiguateByName(input, create) <==>
      exists i, j :: 0 <= i < |input| && 0 <= j < |input[i]| && input[i][j].name == n
  {
    if n in DisambiguateByName(input, create) {
      var d :| d in AllDescriptors(input) && d.name == n;
      AllDescriptorsMembers(input, d);
      var i :| 0 <= i < |input| && d in input[i];
      var j :| 0 <= j < |input[i]| && input[i][j] == d;
    }
    if exists i, j :: 0 <= i < |input| && 0 <= j < |input[i]| && input[i][j].name == n {
      var i, j :| 0 <= i < |input| && 0 <= j < |input[i]| && input[i][j].name == n;
      AllDescriptorsMembers(input, input[i][j]);
    }
  }

  /**
   * A name all of whose occurrences are one and the same descriptor maps to that
   * descriptor: equal duplicates collapse and do not make the name ambiguous.
   */
  lemma UniqueDescriptorKept(input: seq<seq<Descriptor>>, create: AmbiguousFactory, i: nat, j: nat)
    requires i < |input| && j < |input[i]|
    requires forall k, l :: 0 <= k < |input| && 0 <= l < |input[k]| && input[k][l].name == input[i][j].name ==>
      input[k][l] == input[i][j]
    ensures input[i][j].name in DisambiguateByName(input, create)
    ensures DisambiguateByName(input, create)[input[i][j].name] == input[i][j]
  {
    var d := input[i][j];
    var all := AllDescriptors(input);
    AllDescriptorsMembers(input, d);
    forall e | e in GroupOf(all, d.name) ensures e == d {
      AllDescriptorsMembers(input, e);
      var k :| 0 <= k < |input| && e in input[k];
      var l :| 0 <= l < |input[k]| && input[k][l] == e;
    }
    assert GroupOf(all, d.name) == {d};
  }

  /**
   * A name carried by two different descriptors maps to the ambiguous descriptor
   * created from exactly the set of descriptors with that name.
   */
  lemma DistinctDescriptorsAmbiguous(input: seq<seq<Descriptor>>, create: AmbiguousFactory,
                                     i: nat, j: nat, k: nat, l: nat)
    requires i < |input| && j < |input[i]| && k < |input| && l < |input[k]|
    requires input[i][j].name == input[k][l].name && input[i][j] != input[k][l]
    ensures input[i][j].name in DisambiguateByName(input, create)
    ensures DisambiguateByName(input, create)[input[i][j].name] ==
      create(set d | d in AllDescriptors(input) && d.name == input[i][j].name)
  {
    var all := AllDescriptors(input);
    AllDescriptorsMembers(input, input[i][j]);
    AllDescriptorsMembers(input, input[k][l]);
    var g := GroupOf(all, input[i][j].name);
    assert {input[i][j], input[k][l]} <= g;
    assert |{input[i][j], input[k][l]}| == 2;
    var sub := {input[i][j], input[k][l]};
    assert g == sub + (g - sub);
    assert sub !! (g - sub);
    assert |g| >= 2;
  }

  /** Reordering the outer streams does not change the result. */
  lemma OuterOrderIrrelevant(a: seq<seq<Descriptor>>, b: seq<seq<Descriptor>>, create: AmbiguousFactory)
    requires multiset(a) == multiset(b)
    ensures DisambiguateByName(a, create) == DisambiguateByName(b, create)
  {
    forall d ensures d in AllDescriptors(a) <==> d in AllDescriptors(b) {
      AllDescriptorsMembers(a, d);
      AllDescriptorsMembers(b, d);
      if exists i :: 0 <= i < |a| && d in a[i] {
        var i :| 0 <= i < |a| && d in a[i];
        assert a[i] in multiset(b);
      }
      if exists i :: 0 <= i < |b| && d in b[i] {
        var i :| 0 <= i < |b| && d in b[i];
        assert b[i] in multiset(a);
      }
    }
    assert AllDescriptors(a) == AllDescriptors(b);
  }

  /** Reordering (or repeating) descriptors within the inner streams does not change the result. */
  lemma InnerOrderIrrelevant(a: seq<seq<Descriptor>>, b: seq<seq<Descriptor>>, create: AmbiguousFactory)
    requires |a| == |b|
    requires forall i, d :: 0 <= i < |a| ==> (d in a[i] <==> d in b[i])
    ensures DisambiguateByName(a, create) == DisambiguateByName(b, create)
  {
    forall d ensures d in AllDescriptors(a) <==> d in AllDescriptors(b) {
      AllDescriptorsMembers(a, d);
      AllDescriptorsMembers(b, d);
      if exists i :: 0 <= i < |a| && d in a[i] {
        var i :| 0 <= i < |a| && d in a[i];
        assert d in b[i];
      }
      if exists i :: 0 <= i < |b| && d in b[i] {
        var i :| 0 <= i < |b| && d in b[i];
        assert d in a[i];
      }
    }
    assert AllDescriptors(a) == AllDescriptors(b);
  }

  /** A stream of descriptors that are already present adds nothing. */
  lemma DuplicateStreamIrrelevant(a: seq<seq<Descriptor>>, extra: seq<Descriptor>, create: AmbiguousFactory)
    requires forall d :: d in extra ==> exists i :: 0 <= i < |a| && d in a[i]
    ensures DisambiguateByName(a + [extra], create) == DisambiguateByName(a, create)
  {
    forall d ensures d in AllDescriptors(a + [extra]) <==> d in AllDescriptors(a) {
      AllDescriptorsMembers(a + [extra], d);
      AllDescriptorsMembers(a, d);
      if exists i :: 0 <= i < |a + [extra]| && d in (a + [extra])[i] {
        var i :| 0 <= i < |a + [extra]| && d in (a + [extra])[i];
        if i < |a| { assert d in a[i]; }
      }
      if exists i :: 0 <= i < |a| && d in a[i] {
        var i :| 0 <= i < |a| && d in a[i];
        assert d in (a + [extra])[i];
      }
    }
    assert AllDescriptors(a + [extra]) == AllDescriptors(a);
  }

  /** The version filter depends only on the set of declared versions. */
  lemma VersionOrderAndDuplicatesIrrelevant(declared1: seq<string>, declared2: seq<string>, supported: set<string>)
    requires forall v :: v in declared1 <==> v in declared2
    ensures IsValidForPythonVersion(declared1, supported) == IsValidForPythonVersion(declared2, supported)
  {
    if |declared1| > 0 { assert declared1[0] in declared2; }
    if |declared2| > 0 { assert declared2[0] in declared1; }
  }

  /** The version filter is monotone in the supported set. */
  lemma VersionFilterMonotone(declared: seq<string>, supported1: set<string>, supported2: set<string>)
    requires supported1 <= supported2
    ensures IsValidForPythonVersion(declared, supported1) ==> IsValidForPythonVersion(declared, supported2)
  {
  }

  /** Three sample verdicts of the version filter. */
  lemma VersionFilterExamples(anySet: set<string>)
    ensures IsValidForPythonVersion([], anySet)
    ensures !IsValidForPythonVersion(["3.8"], {"3.9", "3.10"})
    ensures IsValidForPythonVersion(["3.8", "3.9"], {"3.9"})
  {
    assert ["3.8", "3.9"][1] == "3.9";
  }
}
