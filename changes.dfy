/**
 * calculateChanges (components/ChangesSummary.tsx): which schemas a new
 * version adds, removes and modifies.
 *
 * The two versions' name lists come from the schema index; names are split
 * with `filter` and `Set.has`; each common name is compared, and kept as
 * modified when its comparison succeeds and reports a change. The fetch and
 * parse of the two schema files is the parameter `compare`, which answers
 * `None` where the source's per-name promise resolves to `null` (a failed
 * or non-ok fetch, a parse error, an exception in the comparison).
 */
module ChangesSummary {
  import opened Wrappers
  import opened Types
  import opened Lists
  import Diff

  /** The three lists the summary shows. */
  datatype Changes = Changes(added: seq<string>, removed: seq<string>, modified: seq<string>)

  /** `schemaIndex[version] || []`: a version missing from the index has no schemas. */
  function SchemasOf(index: SchemaIndex, version: string): (names: seq<string>)
    ensures version !in index ==> names == []
    ensures version in index ==> names == index[version]
  {
    if version in index then index[version] else []
  }

  /** `new Set(names)`. */
  function NameSet(names: seq<string>): (s: set<string>)
    ensures forall n :: n in s <==> n in names
  {
    set n | n in names
  }

  /** `toSchemas.filter(s => !fromSet.has(s))`. */
  function Added(fromSchemas: seq<string>, toSchemas: seq<string>): (added: seq<string>)
    ensures forall s :: s in added <==> s in toSchemas && s !in fromSchemas
    ensures forall s :: multiset(added)[s] == if s in fromSchemas then 0 else multiset(toSchemas)[s]
    ensures IsSubsequence(added, toSchemas)
  {
    var fromSet := NameSet(fromSchemas);
    Filter(toSchemas, s => s !in fromSet)
  }

  /** `fromSchemas.filter(s => !toSet.has(s))`. */
  function Removed(fromSchemas: seq<string>, toSchemas: seq<string>): (removed: seq<string>)
    ensures forall s :: s in removed <==> s in fromSchemas && s !in toSchemas
    ensures forall s :: multiset(removed)[s] == if s in toSchemas then 0 else multiset(fromSchemas)[s]
    ensures IsSubsequence(removed, fromSchemas)
  {
    var toSet := NameSet(toSchemas);
    Filter(fromSchemas, s => s !in toSet)
  }

  /** `fromSchemas.filter(s => toSet.has(s))`. */
  function Common(fromSchemas: seq<string>, toSchemas: seq<string>): (common: seq<string>)
    ensures forall s :: s in common <==> s in fromSchemas && s in toSchemas
    ensures forall s :: multiset(common)[s] == if s in toSchemas then multiset(fromSchemas)[s] else 0
    ensures IsSubsequence(common, fromSchemas)
  {
    var toSet := NameSet(toSchemas);
    Filter(fromSchemas, s => s in toSet)
  }

  /** What one name's promise resolves to: the name when its comparison succeeds with a change, `null` otherwise. */
  function Outcome(name: string, result: Option<SchemaDiff>): (r: Option<string>)
    ensures r.Some? <==> result.Some? && result.value.hasChanges
    ensures r.Some? ==> r.value == name
  {
    match result
    case None => None
    case Some(diff) => if diff.hasChanges then Some(name) else None
  }

  /** `commonSchemas.map(...)` followed by `Promise.all`: one outcome per common name, in order. */
  function Outcomes(common: seq<string>, compare: string -> Option<SchemaDiff>): (r: seq<Option<string>>)
    ensures |r| == |common|
    ensures forall i :: 0 <= i < |common| ==> r[i] == Outcome(common[i], compare(common[i]))
    ensures forall o :: o in r ==> o == None || (o.Some? && o.value in common)
    ensures forall x :: multiset(r)[Some(x)] == if compare(x).Some? && compare(x).value.hasChanges then multiset(common)[x] else 0
  {
    if common == [] then []
    else
      assert common == [common[0]] + common[1..];
      [Outcome(common[0], compare(common[0]))] + Outcomes(common[1..], compare)
  }

  /** The modified names: the non-null outcomes. */
  function Modified(common: seq<string>, compare: string -> Option<SchemaDiff>): (modified: seq<string>)
    ensures forall x :: multiset(modified)[x] == if compare(x).Some? && compare(x).value.hasChanges then multiset(common)[x] else 0
  {
    Somes(Outcomes(common, compare))
  }

  /** The whole reconciliation of two versions. */
  function CalculateChanges(index: SchemaIndex, fromVersion: string, toVersion: string,
                            compare: string -> Option<SchemaDiff>): (c: Changes)
    ensures forall s :: s in c.added <==> s in SchemasOf(index, toVersion) && s !in SchemasOf(index, fromVersion)
    ensures forall s :: s in c.removed <==> s in SchemasOf(index, fromVersion) && s !in SchemasOf(index, toVersion)
  {
    var fromSchemas := SchemasOf(index, fromVersion);
    var toSchemas := SchemasOf(index, toVersion);
    var common := Common(fromSchemas, toSchemas);
    Changes(Added(fromSchemas, toSchemas), Removed(fromSchemas, toSchemas), Modified(common, compare))
  }

  /** The lists as displayed: `[...list].sort()` of each. */
  function Display(c: Changes): (d: Changes)
    ensures Sorted(d.added) && Sorted(d.removed) && Sorted(d.modified)
    ensures multiset(d.added) == multiset(c.added)
    ensures multiset(d.removed) == multiset(c.removed)
    ensures multiset(d.modified) == multiset(c.modified)
  {
    Changes(Sort(c.added), Sort(c.removed), Sort(c.modified))
  }

  /** The source's names split into common and removed, each name keeping its number of occurrences. */
  lemma SourceSplits(fromSchemas: seq<string>, toSchemas: seq<string>)
    ensures multiset(Common(fromSchemas, toSchemas)) + multiset(Removed(fromSchemas, toSchemas)) == multiset(fromSchemas)
  {
    var common, removed := Common(fromSchemas, toSchemas), Removed(fromSchemas, toSchemas);
    assert forall s :: (multiset(common) + multiset(removed))[s] == multiset(fromSchemas)[s];
  }

  /** A common name is neither added nor removed, and no added name is removed. */
  lemma CommonIsShared(fromSchemas: seq<string>, toSchemas: seq<string>)
    ensures forall s :: s in Common(fromSchemas, toSchemas) ==> s !in Added(fromSchemas, toSchemas) && s !in Removed(fromSchemas, toSchemas)
    ensures forall s :: s in Added(fromSchemas, toSchemas) ==> s !in Removed(fromSchemas, toSchemas)
  {
  }

  /** The modified names are the common names, in the same order, less those whose comparison failed or found nothing. */
  lemma {:induction false} ModifiedIsSubsequence(common: seq<string>, compare: string -> Option<SchemaDiff>)
    ensures IsSubsequence(Modified(common, compare), common)
  {
    if common != [] {
      ModifiedIsSubsequence(common[1..], compare);
      var outcomes := Outcomes(common, compare);
      assert outcomes[1..] == Outcomes(common[1..], compare);
    }
  }

  /** A name is modified exactly when it is common, its comparison succeeds, and the diff reports a change. */
  lemma ModifiedExactly(common: seq<string>, compare: string -> Option<SchemaDiff>, name: string)
    ensures name in Modified(common, compare) <==>
      name in common && compare(name).Some? && compare(name).value.hasChanges
  {
    var modified := Modified(common, compare);
    assert name in modified <==> multiset(modified)[name] > 0;
    assert name in common <==> multiset(common)[name] > 0;
  }

  /** The three summary lists are pairwise disjoint; a modified name is listed by both versions. */
  lemma SummaryDisjoint(index: SchemaIndex, fromVersion: string, toVersion: string,
                        compare: string -> Option<SchemaDiff>)
    ensures var c := CalculateChanges(index, fromVersion, toVersion, compare);
      && (forall s :: s in c.modified ==> s in SchemasOf(index, fromVersion) && s in SchemasOf(index, toVersion))
      && (forall s :: s in c.added ==> s !in c.removed && s !in c.modified)
      && (forall s :: s in c.removed ==> s !in c.modified)
  {
    var fromSchemas, toSchemas := SchemasOf(index, fromVersion), SchemasOf(index, toVersion);
    var common := Common(fromSchemas, toSchemas);
    ModifiedIsSubsequence(common, compare);
    SubsequenceCounts(Modified(common, compare), common);
  }

  /** A name is reported modified exactly when both versions list it and its comparison succeeds with a change. */
  lemma ModifiedMeansChanged(index: SchemaIndex, fromVersion: string, toVersion: string,
                             compare: string -> Option<SchemaDiff>, name: string)
    ensures name in CalculateChanges(index, fromVersion, toVersion, compare).modified <==>
      && name in SchemasOf(index, fromVersion) && name in SchemasOf(index, toVersion)
      && compare(name).Some? && compare(name).value.hasChanges
  {
    ModifiedAmongShared(SchemasOf(index, fromVersion), SchemasOf(index, toVersion), compare, name);
  }

  /** A comparison that fails for a name drops it silently: it is left out of the modified list, with no error. */
  lemma FailedComparisonDropsName(index: SchemaIndex, fromVersion: string, toVersion: string,
                                  compare: string -> Option<SchemaDiff>, name: string)
    requires compare(name) == None
    ensures name !in CalculateChanges(index, fromVersion, toVersion, compare).modified
  {
    ModifiedMeansChanged(index, fromVersion, toVersion, compare, name);
  }

  /** A source version missing from the index makes every target name added and nothing removed or modified. */
  lemma MissingSourceVersion(index: SchemaIndex, fromVersion: string, toVersion: string,
                             compare: string -> Option<SchemaDiff>)
    requires fromVersion !in index
    ensures CalculateChanges(index, fromVersion, toVersion, compare) == Changes(SchemasOf(index, toVersion), [], [])
  {
  }

  /** A target version missing from the index makes every source name removed and nothing added or modified. */
  lemma MissingTargetVersion(index: SchemaIndex, fromVersion: string, toVersion: string,
                             compare: string -> Option<SchemaDiff>)
    requires toVersion !in index
    ensures CalculateChanges(index, fromVersion, toVersion, compare) == Changes([], SchemasOf(index, fromVersion), [])
  {
  }

  /** Versions listing a, b, c and b, c, d: d is added and a is removed. */
  lemma ThreeAndThree(a: string, b: string, c: string, d: string)
    requires a != b && a != c && a != d && b != c && b != d && c != d
    ensures Added([a, b, c], [b, c, d]) == [d]
    ensures Removed([a, b, c], [b, c, d]) == [a]
  {
    var abc, bcd := [a, b, c], [b, c, d];
    assert multiset(bcd)[d] == 1 by { assert bcd == [b, c] + [d]; }
    assert multiset(abc)[a] == 1 by { assert abc == [a] + [b, c]; }
    OnlyNewName(abc, bcd, d);
    OnlyNewName(bcd, abc, a);
    assert Removed(abc, bcd) == Added(bcd, abc);
  }

  /** ... and of b and c, those whose comparison succeeds with a change are modified. */
  lemma ThreeAndThreeModified(compare: string -> Option<SchemaDiff>, a: string, b: string, c: string, d: string)
    requires a != b && a != c && a != d && b != c && b != d && c != d
    ensures forall s :: s in Modified(Common([a, b, c], [b, c, d]), compare) <==>
      (s == b || s == c) && compare(s).Some? && compare(s).value.hasChanges
  {
    forall s
      ensures s in Modified(Common([a, b, c], [b, c, d]), compare) <==>
        (s == b || s == c) && compare(s).Some? && compare(s).value.hasChanges
    {
      ModifiedAmongShared([a, b, c], [b, c, d], compare, s);
    }
  }

  /** A name is modified exactly when both lists hold it and its comparison succeeds with a change. */
  lemma ModifiedAmongShared(fromSchemas: seq<string>, toSchemas: seq<string>, compare: string -> Option<SchemaDiff>, name: string)
    ensures name in Modified(Common(fromSchemas, toSchemas), compare) <==>
      name in fromSchemas && name in toSchemas && compare(name).Some? && compare(name).value.hasChanges
  {
    ModifiedExactly(Common(fromSchemas, toSchemas), compare, name);
  }

  /** When the target lists exactly one name the source lacks, and lists it once, that name alone is added. */
  lemma OnlyNewName(fromSchemas: seq<string>, toSchemas: seq<string>, x: string)
    requires x !in fromSchemas && multiset(toSchemas)[x] == 1
    requires forall s :: s in toSchemas ==> s == x || s in fromSchemas
    ensures Added(fromSchemas, toSchemas) == [x]
  {
    var added := Added(fromSchemas, toSchemas);
    assert multiset(added) == multiset{x};
    OnlyElement(added, x);
  }

  /** A sequence holding one value once is that one-element sequence. */
  lemma OnlyElement(s: seq<string>, x: string)
    requires multiset(s) == multiset{x}
    ensures s == [x]
  {
    assert |s| == |multiset(s)| == 1;
    assert s[0] in multiset(s);
  }

  /** Sorting for display changes only the order: a name is shown exactly when it was computed. */
  lemma DisplayKeepsNames(c: Changes)
    ensures forall s :: s in Display(c).added <==> s in c.added
    ensures forall s :: s in Display(c).removed <==> s in c.removed
    ensures forall s :: s in Display(c).modified <==> s in c.modified
  {
    var d := Display(c);
    assert forall s :: s in d.added <==> s in multiset(d.added);
    assert forall s :: s in c.added <==> s in multiset(c.added);
    assert forall s :: s in d.removed <==> s in multiset(d.removed);
    assert forall s :: s in c.removed <==> s in multiset(c.removed);
    assert forall s :: s in d.modified <==> s in multiset(d.modified);
    assert forall s :: s in c.modified <==> s in multiset(c.modified);
  }

  /**
   * The comparison the page performs: fetch both versions of the schema
   * (`None` when a fetch or parse fails) and diff them.
   */
  function CompareFetched(fetch: (string, string) -> Option<Schema>, fromVersion: string, toVersion: string): (compare: string -> Option<SchemaDiff>)
    ensures forall name :: compare(name).Some? <==> fetch(fromVersion, name).Some? && fetch(toVersion, name).Some?
    ensures forall name :: compare(name).Some? ==>
      compare(name).value == Diff.ExpectedDiff(fetch(fromVersion, name).value, fetch(toVersion, name).value)
  {
    name =>
      var oldSchema, newSchema := fetch(fromVersion, name), fetch(toVersion, name);
      if oldSchema.Some? && newSchema.Some? then Some(Diff.ExpectedDiff(oldSchema.value, newSchema.value)) else None
  }

  /** A schema whose two fetched versions are identical is never reported as modified. */
  lemma UnchangedSchemaNotModified(index: SchemaIndex, fromVersion: string, toVersion: string,
                                   fetch: (string, string) -> Option<Schema>, name: string)
    requires fetch(fromVersion, name).Some? && fetch(fromVersion, name) == fetch(toVersion, name)
    ensures name !in CalculateChanges(index, fromVersion, toVersion, CompareFetched(fetch, fromVersion, toVersion)).modified
  {
    var compare := CompareFetched(fetch, fromVersion, toVersion);
    ModifiedMeansChanged(index, fromVersion, toVersion, compare, name);
    Diff.CompareWithItself(fetch(fromVersion, name).value);
  }
}
