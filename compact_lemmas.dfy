/**
 * Properties of the compact projection that relate several calls: the
 * last-write-wins reading of the property map, how it composes over
 * concatenated tag lists, how many entries it keeps, and the worked
 * examples of the projection.
 */
module CompactLemmas {
  import opened Wrappers
  import opened PakTypes
  import opened Compact

  /** Index of the last tag named `k`, or -1 when no tag has that name. */
  function LastIndexOf(tags: seq<PropertyTag>, k: string): (i: int)
    ensures -1 <= i < |tags|
    ensures i >= 0 ==> tags[i].name == k
    ensures forall j :: i < j < |tags| ==> tags[j].name != k
  {
    if tags == [] then -1
    else if tags[|tags| - 1].name == k then |tags| - 1
    else LastIndexOf(tags[..|tags| - 1], k)
  }

  /** An independent statement of the property map: each name maps to the
      compaction of the last tag carrying it. */
  function LastWriteMap(tags: seq<PropertyTag>): map<string, CompactProperty>
    requires WellFormedTags(tags)
  {
    map k | k in TagNames(tags) :: MakeCompactProperty(tags[LastIndexOf(tags, k)])
  }

  /** A tag that no later tag shadows is the one the map keeps for its name. */
  lemma {:induction false} LastWriteWins(tags: seq<PropertyTag>, i: nat)
    requires WellFormedTags(tags)
    requires i < |tags|
    requires forall j :: i < j < |tags| ==> tags[j].name != tags[i].name
    ensures tags[i].name in PropertyMap(tags)
    ensures PropertyMap(tags)[tags[i].name] == MakeCompactProperty(tags[i])
  {
    if i < |tags| - 1 {
      var init := tags[..|tags| - 1];
      assert init[i] == tags[i];
      LastWriteWins(init, i);
    }
  }

  /** The property map is exactly the last-write map: same keys, and each key
      holds the compaction of its last tag. */
  lemma {:induction false} PropertyMapIsLastWrite(tags: seq<PropertyTag>)
    requires WellFormedTags(tags)
    ensures PropertyMap(tags) == LastWriteMap(tags)
  {
    forall k | k in TagNames(tags)
      ensures PropertyMap(tags)[k] == MakeCompactProperty(tags[LastIndexOf(tags, k)])
    {
      LastWriteWins(tags, LastIndexOf(tags, k));
    }
  }

  /** Compacting a concatenation merges the two maps, the later list's
      entries overriding the earlier's. */
  lemma {:induction false} PropertyMapConcat(a: seq<PropertyTag>, b: seq<PropertyTag>)
    requires WellFormedTags(a) && WellFormedTags(b)
    ensures WellFormedTags(a + b)
    ensures PropertyMap(a + b) == PropertyMap(a) + PropertyMap(b)
  {
    WellFormedConcat(a, b);
    if b == [] {
      assert a + b == a;
    } else {
      var b' := b[..|b| - 1];
      var last := b[|b| - 1];
      WellFormedPrefix(b, |b| - 1);
      WellFormedConcat(a, b');
      PropertyMapConcat(a, b');
      assert (a + b)[..|a + b| - 1] == a + b';
      var v := MakeCompactProperty(last);
      assert PropertyMap(a + b) == PropertyMap(a + b')[last.name := v];
      UpdateOverUnion(PropertyMap(a), PropertyMap(b'), last.name, v);
    }
  }

  /** Updating a right-biased union is updating its right operand. */
  lemma UpdateOverUnion<K, V>(m1: map<K, V>, m2: map<K, V>, k: K, v: V)
    ensures (m1 + m2)[k := v] == m1 + m2[k := v]
  {
  }

  /** Well-formedness is kept by concatenation and by taking a prefix. */
  lemma WellFormedConcat(a: seq<PropertyTag>, b: seq<PropertyTag>)
    requires WellFormedTags(a) && WellFormedTags(b)
    ensures WellFormedTags(a + b)
  {
  }

  lemma WellFormedPrefix(tags: seq<PropertyTag>, n: nat)
    requires WellFormedTags(tags) && n <= |tags|
    ensures WellFormedTags(tags[..n])
  {
  }

  /** The map never has more entries than there are tags, and has exactly as
      many when the names are distinct: no property is lost then. */
  lemma {:induction false} PropertyMapSize(tags: seq<PropertyTag>)
    requires WellFormedTags(tags)
    ensures |PropertyMap(tags)| <= |tags|
    ensures (forall i, j :: 0 <= i < j < |tags| ==> tags[i].name != tags[j].name) ==>
              |PropertyMap(tags)| == |tags|
  {
    if tags != [] {
      var init := tags[..|tags| - 1];
      var last := tags[|tags| - 1];
      PropertyMapSize(init);
      if forall i, j :: 0 <= i < j < |tags| ==> tags[i].name != tags[j].name {
        assert last.name !in TagNames(init);
      }
    }
  }

  /** List compaction distributes over concatenation (order is preserved). */
  lemma CompactValuesConcat(a: seq<Value>, b: seq<Value>)
    requires forall i :: 0 <= i < |a| ==> WellFormedValue(a[i])
    requires forall i :: 0 <= i < |b| ==> WellFormedValue(b[i])
    ensures forall i :: 0 <= i < |a + b| ==> WellFormedValue((a + b)[i])
    ensures CompactValues(a + b) == CompactValues(a) + CompactValues(b)
  {
  }

  /** An export reference never follows the export's own package indices:
      two exports with the same name compact to the same reference. */
  lemma ExportOuterNotFollowed(e1: ObjectExport, e2: ObjectExport)
    requires e1.objectName == e2.objectName
    ensures MakeCompactReference(Export(Some(e1))) == MakeCompactReference(Export(Some(e2)))
    ensures MakeCompactReference(Export(Some(e1))) == Some(CompactReference(ThisPackage, e1.objectName))
  {
  }

  /** Scenario: a single bool property "bEnabled" set to true. */
  lemma BoolPropertyScenario()
    ensures PropertyMap([PropertyTag("bEnabled", BoolProperty, BoolData(true), Nil)])
         == map["bEnabled" := CompactProperty(BoolProperty, CTagData(BoolData(true)))]
  {
  }

  /** Scenario: an outer import whose own outer names package
      "/Script/Engine", with object name "Material". */
  lemma ImportReferenceScenario(root: Ref)
    ensures MakeCompactReference(Import(ObjectImport("Material", Import(ObjectImport("/Script/Engine", root)))))
         == Some(CompactReference("/Script/Engine", "Material"))
  {
  }

  /** Scenario: a null index compacts to no reference, never to a sentinel. */
  lemma NullIndexScenario()
    ensures MakeCompactReference(NoRef) == None
  {
  }

  /** Scenario: an unset export slot compacts to the broken-export sentinel. */
  lemma BrokenExportScenario()
    ensures MakeCompactReference(Export(None)) == Some(CompactReference(ThisPackage, BrokenExport))
  {
  }
}
