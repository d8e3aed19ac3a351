# Tally schema explorer: the schema change engine

This project models the part of the Tally schema explorer that decides what
changed between two versions of the Tally schema corpus, and proves what
that decision means.

- **`compareSchemas`** (`utils/diff.ts`) takes two versions of one schema
  and builds a `SchemaDiff`. A schema is a name, a string-to-string `Meta`
  object and a name-to-property `Properties` object. The diff holds the
  name-change fields, the added, modified and deleted meta keys, the
  added, modified and deleted properties, and a `HasChanges` flag. The
  source fills it in with four `forEach` loops over `Object.keys` arrays.
  `Diff.CompareSchemas` keeps that form: four loop methods, each proved
  against a declarative diff, `Diff.ExpectedDiff`, that reads the two
  schemas as dictionaries.
- **`calculateChanges`** (`components/ChangesSummary.tsx`) looks up the
  schema names of two versions in the schema index and splits them with
  `filter` and `Set.has`:
  - *added*: names only the target version lists;
  - *removed*: names only the source version lists;
  - *common*: names both versions list.

  A common name is *modified* when fetching and comparing its two versions
  succeeds and the diff reports a change. The page then shows sorted
  copies of the three lists. `ChangesSummary.CalculateChanges` models the
  split and the filter. `ChangesSummary.Display` models the sort.

How JavaScript values are represented:

- A parsed JSON object is an ordered list of `(key, value)` entries
  (`Types.Entries`).
- `Object.keys` is `Types.KeysOf`; `obj[key]` is `Types.Find`, which
  returns `None` for `undefined`.
- `Types.ToMap` is the dictionary that lookups observe.
- A property's meta stays an ordered list. Comparing two properties with
  `JSON.stringify` is therefore equality of the ordered values: the same
  meta entries in another order make a different property.
- The fetch and JSON parse of the two schema files is the parameter
  `compare: string -> Option<SchemaDiff>`. `None` stands for every failure
  path on which the source's per-name promise resolves to `null`: a
  failed or non-ok fetch, a parse error, or an exception inside the
  comparison. The remaining `null` path, a comparison that finds no
  change, is `Some(d)` with `d.hasChanges` false.
  `ChangesSummary.CompareFetched` builds such a `compare` from a
  `fetch: (version, name) -> Option<Schema>` and the diff.

Modules:

| file | module | what it holds |
|---|---|---|
| `wrappers.dfy` | `Wrappers` | `Option` |
| `types.dfy` | `Types` | the data shapes of `types.ts` and the object helpers |
| `diff.dfy` | `Diff` | `compareSchemas` and its properties |
| `lists.dfy` | `Lists` | `filter`, dropping `null`s, and the default string `sort` |
| `changes.dfy` | `ChangesSummary` | `calculateChanges` and the sorted display |

## Model

| member | source | states |
|---|---|---|
| Types.KeysOf | utils/diff.ts:22-23 | `Object.keys` lists one key per entry. |
| Types.KeysOfAt | utils/diff.ts:43-44 | The i-th listed key is the key of the i-th entry, so the passes visit the keys in document order. |
| Types.Find | utils/diff.ts:26-37 | `obj[key]` is defined exactly for the keys `Object.keys` lists. |
| Types.FindStored | utils/diff.ts:26-37 | A lookup that succeeds returns a value the object stores under that key. |
| Diff.CompareSchemas | utils/diff.ts:3-68 | The diff built by the four loops is exactly the declarative diff. Name fields are set from the two names, `NameChanged` is name inequality, each map holds exactly the keys its rule selects with the values described below, and `HasChanges` is raised exactly when the names differ or the contents differ as dictionaries. |
| Diff.ScanNewMetaKeys | utils/diff.ts:22-33 | The pass over the new meta keys records as added exactly the keys the old Meta lacks, with their new strings. It records as modified exactly the keys of both whose strings differ, with both strings. It raises the flag exactly when it records something. |
| Diff.ScanOldMetaKeys | utils/diff.ts:35-40 | The pass over the old meta keys records as deleted exactly the keys the new Meta lacks. It stores the new Meta's value under each one. It raises the flag exactly when it records something. |
| Diff.ScanNewPropertyKeys | utils/diff.ts:43-58 | The pass over the new property keys records as added exactly the keys the old Properties lacks, with the new property. It records as modified exactly the keys of both whose properties differ, with both properties. It raises the flag exactly when it records something. |
| Diff.ScanOldPropertyKeys | utils/diff.ts:60-65 | The pass over the old property keys records as deleted exactly the keys the new Properties lacks, with the old property. It raises the flag exactly when it records something. |
| Diff.HasChangesIffSomethingRecorded | utils/diff.ts:17-65 | `HasChanges` holds if and only if `NameChanged` holds or at least one of the six maps is non-empty. |
| Diff.CompareWithItself | utils/diff.ts:3-68 | Comparing a schema with itself gives `HasChanges = false`, `NameChanged = false`, six empty maps, and both name fields set to the schema's name. |
| Diff.RenameForcesChange | utils/diff.ts:12-19 | A rename with unchanged Meta and Properties gives `HasChanges = true`, `NameChanged = true`, six empty maps, and the old and new names in the name fields. |
| Diff.SameContentRecordsNothing | utils/diff.ts:25-65 | When both schemas' Meta and Properties hold the same entries as dictionaries, all six maps are empty, whatever the key order. |
| Diff.SameMetaRecordsNothing | utils/diff.ts:25-40 | Meta objects with the same entries give empty added, modified and deleted meta maps. |
| Diff.SamePropertiesRecordNothing | utils/diff.ts:46-65 | Properties objects with the same entries give empty added, modified and deleted property maps. |
| Diff.MetaKeysClassified | utils/diff.ts:25-38 | A meta key of either schema is added if and only if the old Meta lacks it, and deleted if and only if the new Meta lacks it. It is modified if and only if both hold it with different strings. Added keys keep the new string; modified keys keep both strings. |
| Diff.DeletedMetaIsUndefined | utils/diff.ts:35-38 | Every deleted meta key is an old meta key, and the value stored under it is `None` (`undefined`), never the old string. |
| Diff.PropertyKeysClassified | utils/diff.ts:46-63 | A property key of either schema is added if and only if the old Properties lacks it, and deleted if and only if the new Properties lacks it. It is modified if and only if both hold it with different properties. Added keys keep the new property, deleted keys the old one, and modified keys both. |
| Diff.SwappedComparison | utils/diff.ts:25-65 | Swapping the two schemas keeps `HasChanges` and exchanges added and deleted properties. It exchanges added and deleted meta keys and keeps the modified keys, with the two sides of every modification swapped. |
| Diff.OnePropertyAdded | utils/diff.ts:46-49 | A new version with the same name and Meta whose Properties hold one extra key, wherever it sits in the object, gives `HasChanges = true` and that property alone in the added properties. It does not rename, and the other five maps are empty. |
| Diff.AppendedPropertyAdded | utils/diff.ts:46-49 | Appending one property with a fresh key at the end of a schema's Properties gives `HasChanges = true`, that property alone in the added properties, and the other five maps empty. |
| Diff.ReorderedMetaSameDictionary | utils/diff.ts:53 | The same two meta entries in the other order form the same dictionary but a different property (a different JSON text). |
| Diff.MetaOrderMakesPropertyModified | utils/diff.ts:50-56 | A property whose meta entries are reordered in any way between versions, with the same name, `IsComplex` and meta entries, is reported modified with both versions, and the schema counts as changed. |
| Diff.PropertyKeysDisjoint | utils/diff.ts:46-63 | No property key is recorded in more than one of the added, deleted and modified property maps. |
| Diff.MetaKeysDisjoint | utils/diff.ts:25-38 | No meta key is recorded in more than one of the added, deleted and modified meta maps. |
| ChangesSummary.SchemasOf | components/ChangesSummary.tsx:74-75 | A version missing from the index has the empty name list; otherwise its list comes from the index. |
| ChangesSummary.NameSet | components/ChangesSummary.tsx:76-77 | `Set.has` on the set built from a list answers whether the list holds the name. |
| ChangesSummary.CalculateChanges | components/ChangesSummary.tsx:74-104 | `added` holds exactly the names the target lists and the source does not. `removed` holds exactly the names the source lists and the target does not. |
| ChangesSummary.Added | components/ChangesSummary.tsx:76-79 | `added` holds exactly the target names the source lacks. Each keeps its number of occurrences in the target list and its target order. |
| ChangesSummary.Removed | components/ChangesSummary.tsx:76-80 | `removed` holds exactly the source names the target lacks. Each keeps its number of occurrences in the source list and its source order. |
| ChangesSummary.Common | components/ChangesSummary.tsx:76-82 | `common` holds exactly the names both versions list. Each keeps its number of occurrences in the source list and its source order. |
| ChangesSummary.Outcome | components/ChangesSummary.tsx:95-100 | A name's promise resolves to the name exactly when its comparison succeeded and reported a change, and to `null` otherwise. |
| ChangesSummary.Outcomes | components/ChangesSummary.tsx:84-103 | `Promise.all` yields one outcome per common name, the i-th being the i-th name's outcome. A name resolves as often as it is common when its comparison succeeds with a change, and never otherwise. |
| ChangesSummary.Modified | components/ChangesSummary.tsx:104 | A name occurs in `modified` as often as in `common` when its comparison succeeds with a change, and not at all otherwise. |
| ChangesSummary.SourceSplits | components/ChangesSummary.tsx:80-82 | `common` and `removed` together hold each source name exactly as often as the source list does. |
| ChangesSummary.OnlyNewName | components/ChangesSummary.tsx:79 | When the target lists exactly one name, once, that the source lacks, `added` is that single name. |
| ChangesSummary.CommonIsShared | components/ChangesSummary.tsx:79-82 | No common name is added or removed, and no added name is removed. |
| ChangesSummary.ModifiedIsSubsequence | components/ChangesSummary.tsx:82-104 | `modified` is `common` with some names left out and the rest in the same order. |
| ChangesSummary.ModifiedExactly | components/ChangesSummary.tsx:84-104 | A name is modified if and only if it is common, its comparison succeeded, and the diff's `HasChanges` is true. |
| ChangesSummary.ModifiedAmongShared | components/ChangesSummary.tsx:79-104 | A name is modified if and only if both lists hold it, its comparison succeeded, and the diff's `HasChanges` is true. |
| ChangesSummary.ModifiedMeansChanged | components/ChangesSummary.tsx:74-104 | For a whole reconciliation, a name is modified if and only if both versions list it and its comparison succeeds with a change. |
| ChangesSummary.SummaryDisjoint | components/ChangesSummary.tsx:79-104 | Every modified name is listed by both versions. `added`, `removed` and `modified` are pairwise disjoint. |
| ChangesSummary.FailedComparisonDropsName | components/ChangesSummary.tsx:91-100 | A name whose fetch or comparison fails is silently left out of `modified`. |
| ChangesSummary.MissingSourceVersion | components/ChangesSummary.tsx:74-82 | With the source version missing from the index, every target name is added and nothing is removed or modified. |
| ChangesSummary.MissingTargetVersion | components/ChangesSummary.tsx:74-82 | With the target version missing from the index, every source name is removed and nothing is added or modified. |
| ChangesSummary.ThreeAndThree | components/ChangesSummary.tsx:79-80 | For the lists a, b, c and b, c, d with distinct names, `added` is exactly [d] and `removed` exactly [a]. |
| ChangesSummary.ThreeAndThreeModified | components/ChangesSummary.tsx:82-104 | For the same lists, a name is modified if and only if it is b or c and its comparison succeeds with a change. |
| ChangesSummary.Display | components/ChangesSummary.tsx:146-148 | Each displayed list is sorted and holds the same names, each as often, as the computed list. |
| ChangesSummary.DisplayKeepsNames | components/ChangesSummary.tsx:146-148 | Sorting for display changes only order: a name is shown if and only if it was computed. |
| ChangesSummary.CompareFetched | components/ChangesSummary.tsx:86-97 | The per-name comparison succeeds if and only if both fetches succeed. Its value is then the diff of the source version's schema against the target version's. |
| ChangesSummary.UnchangedSchemaNotModified | components/ChangesSummary.tsx:86-97 | A schema whose two fetched versions are identical is never reported modified. |
| Lists.Filter | components/ChangesSummary.tsx:79-82 | `filter` keeps exactly the elements that pass the test, each as often as the input holds it, in input order. If every element passes, the input comes back unchanged. |
| Lists.Somes | components/ChangesSummary.tsx:104 | Dropping the `null` results keeps exactly the present names, each as often as the results hold it, and never lengthens the list. |
| Lists.Sort | components/ChangesSummary.tsx:146-148 | `[...names].sort()` is sorted and a permutation of the names. |
| Lists.SortedArrangementUnique | components/ChangesSummary.tsx:146-148 | Two sorted arrangements of the same names are equal, so the displayed order does not depend on how the sort proceeds. |
| Lists.BelowTotal | components/ChangesSummary.tsx:146-148 | Any two names are ordered one way or the other by the sort order. |
| Lists.BelowAntisymmetric | components/ChangesSummary.tsx:146-148 | Names ordered both ways are equal. |
| Lists.BelowTransitive | components/ChangesSummary.tsx:146-148 | The sort order is transitive. |

## Left out

- The React components, effects and state setters around `calculateChanges`. This covers the loading, error and `changes` state, the scroll-to-highlight effect, `CopyLinkButton` and every other view. They are presentation, not logic.
- The guard that skips the computation when a version is empty or the index is not loaded (`components/ChangesSummary.tsx:67`). It decides only whether the computation runs at all.
- The `fetch` calls, the `ok` checks and `res.json()`. They are I/O. They become the `compare` parameter, or the `fetch` parameter of `CompareFetched`.
- The concurrent `Promise.all` fan-out is modelled as a sequential map in list order. `Promise.all` returns results in input order, so the outcome is the same.
- `ChangesSummary.CompareFetched`: it diffs with the declarative diff rather than calling the loop method, because functions cannot call methods. `Diff.CompareSchemas` is proved to return that same value.
- `JSON.stringify` is not modelled as a serialiser. Two properties are equal JSON texts when they are equal values. The order of a property's own three fields (`Name`, `IsComplex`, `Meta`) in the schema file is assumed to be the same in both versions.
- `Object.keys` and `JSON.stringify` list integer-like keys first, in ascending order. The model keeps document order for every key. As a result, a property Meta of `{"2": "x", "1": "y"}` and one of `{"1": "y", "2": "x"}` give the same JSON text at `utils/diff.ts:53`, yet the model counts the two properties as different (`ReorderedMetaSameDictionary` applies with the keys `"2"` and `"1"`). Property meta keys ("Is Repeated", "Datatype", "Object Name") are never integer-like, so real schema files are unaffected.
- Duplicate keys: a parsed JSON object never holds a key twice, while an entry list can. For such a list, lookups use the first entry, whereas `JSON.parse` keeps the last. Property equality also compares a property's meta as the ordered list, so `[("a", "1"), ("a", "2")]` and `[("a", "1")]` are different properties even though they read as the same dictionary. Lists with a repeated key match no document the source can receive, so the model makes no claim about them.
- The insertion order of the keys of the diff's own result objects is not modelled. The result maps are unordered dictionaries.
- Inherited properties of `Object.prototype` are not modelled. This covers lookups such as `schemaIndex["constructor"]`. It also covers a deleted meta key named like a prototype member, such as `"constructor"`: at `utils/diff.ts:37` that key stores the inherited value, not `undefined`. The index and the objects are plain dictionaries here. Writes of a key named `"__proto__"` into the diff's result objects (`utils/diff.ts:27`, `30`, `37`, `48`, `54`, `62`) are not modelled either. In the source they go through the inherited setter: a string is ignored and an object replaces the result's prototype, so no entry is added. For old Meta `{}` and new Meta `{"__proto__": "x"}` the source reports a change with six empty maps, while the model records the key as added.
- Schema files without a `Meta` or a `Properties` object are not modelled. For such a file `compareSchemas` throws at `Object.keys(undefined)` (`utils/diff.ts:22`, `43`), and the catch at `components/ChangesSummary.tsx:98-99` turns that into `null`. A `Schema` here always has both fields, so such a file is a `None` of `fetch` or `compare`.
- `Lists.Sort` orders strings by Unicode code point, character by character. JavaScript's default sort compares UTF-16 code units. The two orders differ only for names with characters outside the Basic Multilingual Plane.
- `ChangesSummary.CalculateChanges`: its own contract covers `added` and `removed`. The meaning of `modified` is stated by the lemmas `ModifiedMeansChanged`, `ModifiedIsSubsequence` and `SummaryDisjoint`.
- Version ordering, the version selectors, the sidebar filters, the diff view's display defaults, and routing are outside the change engine.
