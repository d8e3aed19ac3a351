/**
 * compareSchemas (utils/diff.ts): the field-level diff of two versions of
 * one schema.
 *
 * `ExpectedDiff` says declaratively what the diff of two schemas is;
 * `CompareSchemas` is the source's procedure (a diff record filled in by four
 * loops over key lists) and is proved to build exactly that value. The
 * lemmas state what the diff means.
 */
module Diff {
  import opened Wrappers
  import opened Types

  /** The diff of two schemas, key by key, over the schemas' objects seen as dictionaries. */
  function ExpectedDiff(oldSchema: Schema, newSchema: Schema): (diff: SchemaDiff)
  {
    var om, nm := ToMap(oldSchema.meta), ToMap(newSchema.meta);
    var op, np := ToMap(oldSchema.properties), ToMap(newSchema.properties);
    SchemaDiff(
      hasChanges := oldSchema.name != newSchema.name || om != nm || op != np,
      addedProperties := AddedEntries(op, np),
      deletedProperties := RemovedEntries(op, np),
      modifiedProperties := ChangedProperties(op, np),
      addedMeta := AddedEntries(om, nm),
      deletedMeta := DeletedMetaEntries(oldSchema.meta, newSchema.meta),
      modifiedMeta := ChangedMeta(om, nm),
      nameChanged := oldSchema.name != newSchema.name,
      oldName := oldSchema.name,
      newName := newSchema.name)
  }

  /** The keys only the new dictionary has, with their new values. */
  function AddedEntries<V>(before: map<string, V>, after: map<string, V>): (added: map<string, V>)
  {
    map k | k in after && k !in before :: after[k]
  }

  /** The keys only the old dictionary has, with their old values. */
  function RemovedEntries<V>(before: map<string, V>, after: map<string, V>): (removed: map<string, V>)
  {
    map k | k in before && k !in after :: before[k]
  }

  /** The meta keys both dictionaries have with different strings, with both strings. */
  function ChangedMeta(before: map<string, string>, after: map<string, string>): (changed: map<string, MetaChange>)
  {
    map k | k in after && k in before && before[k] != after[k] :: MetaChange(before[k], after[k])
  }

  /** The property keys both dictionaries have with different properties, with both properties. */
  function ChangedProperties(before: map<string, Property>, after: map<string, Property>): (changed: map<string, PropertyChange>)
  {
    map k | k in after && k in before && before[k] != after[k] :: PropertyChange(before[k], after[k])
  }

  /** The meta keys only the old object has, each with what the NEW object holds under it. */
  function DeletedMetaEntries(oldMeta: Entries<string>, newMeta: Entries<string>): (deleted: map<string, Option<string>>)
  {
    var om, nm := ToMap(oldMeta), ToMap(newMeta);
    map k | k in om && k !in nm :: Find(newMeta, k)
  }

  /** No change is reported in any of the six maps when the objects have the same content. */
  predicate NoEntries(d: SchemaDiff)
  {
    && d.addedProperties == map[] && d.deletedProperties == map[] && d.modifiedProperties == map[]
    && d.addedMeta == map[] && d.deletedMeta == map[] && d.modifiedMeta == map[]
  }

  /**
   * The source's procedure: start from an empty diff and set the name
   * fields, raising the change flag on a rename, then run the four passes
   * over key lists (new meta keys, old meta keys, new property keys, old
   * property keys), each recording the differences it finds and raising the
   * flag on every record.
   */
  method CompareSchemas(oldSchema: Schema, newSchema: Schema) returns (diff: SchemaDiff)
    ensures diff == ExpectedDiff(oldSchema, newSchema)
  {
    var hasChanges := false;
    var nameChanged := oldSchema.name != newSchema.name;
    if nameChanged {
      hasChanges := true;
    }
    var addedMeta, modifiedMeta, deletedMeta;
    addedMeta, modifiedMeta, hasChanges := ScanNewMetaKeys(oldSchema, newSchema, hasChanges);
    deletedMeta, hasChanges := ScanOldMetaKeys(oldSchema, newSchema, hasChanges);
    var addedProperties, modifiedProperties, deletedProperties;
    addedProperties, modifiedProperties, hasChanges := ScanNewPropertyKeys(oldSchema, newSchema, hasChanges);
    deletedProperties, hasChanges := ScanOldPropertyKeys(oldSchema, newSchema, hasChanges);
    diff := SchemaDiff(hasChanges, addedProperties, deletedProperties, modifiedProperties,
                       addedMeta, deletedMeta, modifiedMeta, nameChanged, oldSchema.name, newSchema.name);
    HasChangesIffSomethingRecorded(oldSchema, newSchema);
  }

  /** The pass over the new schema's meta keys: a key the old Meta lacks is added, a different string is modified. */
  method ScanNewMetaKeys(oldSchema: Schema, newSchema: Schema, hasChangesBefore: bool)
    returns (addedMeta: map<string, string>, modifiedMeta: map<string, MetaChange>, hasChanges: bool)
    ensures addedMeta == AddedEntries(ToMap(oldSchema.meta), ToMap(newSchema.meta))
    ensures modifiedMeta == ChangedMeta(ToMap(oldSchema.meta), ToMap(newSchema.meta))
    ensures hasChanges == (hasChangesBefore || addedMeta != map[] || modifiedMeta != map[])
  {
    ghost var om, nm := ToMap(oldSchema.meta), ToMap(newSchema.meta);
    hasChanges := hasChangesBefore;
    addedMeta, modifiedMeta := map[], map[];
    var oldMetaKeys := KeysOf(oldSchema.meta);
    var newMetaKeys := KeysOf(newSchema.meta);
    var i := 0;
    while i < |newMetaKeys|
      invariant 0 <= i <= |newMetaKeys|
      invariant addedMeta == OnKeys(AddedEntries(om, nm), newMetaKeys[..i])
      invariant modifiedMeta == OnKeys(ChangedMeta(om, nm), newMetaKeys[..i])
      invariant hasChanges == (hasChangesBefore || addedMeta != map[] || modifiedMeta != map[])
    {
      var key := newMetaKeys[i];
      AddedStep(oldSchema.meta, newSchema.meta, newMetaKeys[..i], key);
      ChangedMetaStep(oldSchema.meta, newSchema.meta, newMetaKeys[..i], key);
      assert newMetaKeys[..i + 1] == newMetaKeys[..i] + [key];
      var newValue := Get(newSchema.meta, key);
      if key !in oldMetaKeys {
        UpdateNonEmpty(addedMeta, key, newValue);
        addedMeta := addedMeta[key := newValue];
        hasChanges := true;
      } else {
        var oldValue := Get(oldSchema.meta, key);
        if oldValue != newValue {
          UpdateNonEmpty(modifiedMeta, key, MetaChange(oldValue, newValue));
          modifiedMeta := modifiedMeta[key := MetaChange(oldValue, newValue)];
          hasChanges := true;
        }
      }
      i := i + 1;
    }
    assert newMetaKeys[..i] == newMetaKeys;
    OnAllKeys(AddedEntries(om, nm), newMetaKeys);
    OnAllKeys(ChangedMeta(om, nm), newMetaKeys);
  }

  /** The pass over the old schema's meta keys: a key the new Meta lacks is deleted. */
  method ScanOldMetaKeys(oldSchema: Schema, newSchema: Schema, hasChangesBefore: bool)
    returns (deletedMeta: map<string, Option<string>>, hasChanges: bool)
    ensures deletedMeta == DeletedMetaEntries(oldSchema.meta, newSchema.meta)
    ensures hasChanges == (hasChangesBefore || deletedMeta != map[])
  {
    hasChanges := hasChangesBefore;
    deletedMeta := map[];
    var oldMetaKeys := KeysOf(oldSchema.meta);
    var newMetaKeys := KeysOf(newSchema.meta);
    var i := 0;
    while i < |oldMetaKeys|
      invariant 0 <= i <= |oldMetaKeys|
      invariant deletedMeta == OnKeys(DeletedMetaEntries(oldSchema.meta, newSchema.meta), oldMetaKeys[..i])
      invariant hasChanges == (hasChangesBefore || deletedMeta != map[])
    {
      var key := oldMetaKeys[i];
      DeletedMetaStep(oldSchema.meta, newSchema.meta, oldMetaKeys[..i], key);
      assert oldMetaKeys[..i + 1] == oldMetaKeys[..i] + [key];
      if key !in newMetaKeys {
        // the value read is the new schema's, which is absent under this key
        UpdateNonEmpty(deletedMeta, key, Find(newSchema.meta, key));
        deletedMeta := deletedMeta[key := Find(newSchema.meta, key)];
        hasChanges := true;
      }
      i := i + 1;
    }
    assert oldMetaKeys[..i] == oldMetaKeys;
    OnAllKeys(DeletedMetaEntries(oldSchema.meta, newSchema.meta), oldMetaKeys);
  }

  /**
   * The pass over the new schema's property keys: a key the old Properties
   * lacks is added; a property whose JSON text differs is modified.
   */
  method ScanNewPropertyKeys(oldSchema: Schema, newSchema: Schema, hasChangesBefore: bool)
    returns (addedProperties: map<string, Property>, modifiedProperties: map<string, PropertyChange>, hasChanges: bool)
    ensures addedProperties == AddedEntries(ToMap(oldSchema.properties), ToMap(newSchema.properties))
    ensures modifiedProperties == ChangedProperties(ToMap(oldSchema.properties), ToMap(newSchema.properties))
    ensures hasChanges == (hasChangesBefore || addedProperties != map[] || modifiedProperties != map[])
  {
    ghost var op, np := ToMap(oldSchema.properties), ToMap(newSchema.properties);
    hasChanges := hasChangesBefore;
    addedProperties, modifiedProperties := map[], map[];
    var oldPropKeys := KeysOf(oldSchema.properties);
    var newPropKeys := KeysOf(newSchema.properties);
    var i := 0;
    while i < |newPropKeys|
      invariant 0 <= i <= |newPropKeys|
      invariant addedProperties == OnKeys(AddedEntries(op, np), newPropKeys[..i])
      invariant modifiedProperties == OnKeys(ChangedProperties(op, np), newPropKeys[..i])
      invariant hasChanges == (hasChangesBefore || addedProperties != map[] || modifiedProperties != map[])
    {
      var key := newPropKeys[i];
      AddedStep(oldSchema.properties, newSchema.properties, newPropKeys[..i], key);
      ChangedPropertiesStep(oldSchema.properties, newSchema.properties, newPropKeys[..i], key);
      assert newPropKeys[..i + 1] == newPropKeys[..i] + [key];
      var newProp := Get(newSchema.properties, key);
      if key !in oldPropKeys {
        UpdateNonEmpty(addedProperties, key, newProp);
        addedProperties := addedProperties[key := newProp];
        hasChanges := true;
      } else {
        var oldProp := Get(oldSchema.properties, key);
        // JSON.stringify comparison: the fields in order, the meta entries in order
        if oldProp != newProp {
          UpdateNonEmpty(modifiedProperties, key, PropertyChange(oldProp, newProp));
          modifiedProperties := modifiedProperties[key := PropertyChange(oldProp, newProp)];
          hasChanges := true;
        }
      }
      i := i + 1;
    }
    assert newPropKeys[..i] == newPropKeys;
    OnAllKeys(AddedEntries(op, np), newPropKeys);
    OnAllKeys(ChangedProperties(op, np), newPropKeys);
  }

  /** The pass over the old schema's property keys: a key the new Properties lacks is deleted. */
  method ScanOldPropertyKeys(oldSchema: Schema, newSchema: Schema, hasChangesBefore: bool)
    returns (deletedProperties: map<string, Property>, hasChanges: bool)
    ensures deletedProperties == RemovedEntries(ToMap(oldSchema.properties), ToMap(newSchema.properties))
    ensures hasChanges == (hasChangesBefore || deletedProperties != map[])
  {
    ghost var op, np := ToMap(oldSchema.properties), ToMap(newSchema.properties);
    hasChanges := hasChangesBefore;
    deletedProperties := map[];
    var oldPropKeys := KeysOf(oldSchema.properties);
    var newPropKeys := KeysOf(newSchema.properties);
    var i := 0;
    while i < |oldPropKeys|
      invariant 0 <= i <= |oldPropKeys|
      invariant deletedProperties == OnKeys(RemovedEntries(op, np), oldPropKeys[..i])
      invariant hasChanges == (hasChangesBefore || deletedProperties != map[])
    {
      var key := oldPropKeys[i];
      RemovedStep(oldSchema.properties, newSchema.properties, oldPropKeys[..i], key);
      assert oldPropKeys[..i + 1] == oldPropKeys[..i] + [key];
      if key !in newPropKeys {
        var oldProp := Get(oldSchema.properties, key);
        UpdateNonEmpty(deletedProperties, key, oldProp);
        deletedProperties := deletedProperties[key := oldProp];
        hasChanges := true;
      }
      i := i + 1;
    }
    assert oldPropKeys[..i] == oldPropKeys;
    OnAllKeys(RemovedEntries(op, np), oldPropKeys);
  }

  /** One more visited key of the new object: it joins the added entries when the old object lacks it. */
  lemma AddedStep<V>(oldObj: Entries<V>, newObj: Entries<V>, visited: seq<string>, key: string)
    requires key in KeysOf(newObj)
    ensures var added := AddedEntries(ToMap(oldObj), ToMap(newObj));
      OnKeys(added, visited + [key]) ==
        if key in KeysOf(oldObj) then OnKeys(added, visited) else OnKeys(added, visited)[key := Get(newObj, key)]
  {
    ToMapAt(oldObj, key);
    ToMapAt(newObj, key);
    OnKeysExtend(AddedEntries(ToMap(oldObj), ToMap(newObj)), visited, key);
  }

  /** One more visited key of the old object: it joins the removed entries when the new object lacks it. */
  lemma RemovedStep<V>(oldObj: Entries<V>, newObj: Entries<V>, visited: seq<string>, key: string)
    requires key in KeysOf(oldObj)
    ensures var removed := RemovedEntries(ToMap(oldObj), ToMap(newObj));
      OnKeys(removed, visited + [key]) ==
        if key in KeysOf(newObj) then OnKeys(removed, visited) else OnKeys(removed, visited)[key := Get(oldObj, key)]
  {
    ToMapAt(oldObj, key);
    ToMapAt(newObj, key);
    OnKeysExtend(RemovedEntries(ToMap(oldObj), ToMap(newObj)), visited, key);
  }

  /** One more visited meta key of the new object: it joins the modified entries when both strings exist and differ. */
  lemma ChangedMetaStep(oldMeta: Entries<string>, newMeta: Entries<string>, visited: seq<string>, key: string)
    requires key in KeysOf(newMeta)
    ensures var modified := ChangedMeta(ToMap(oldMeta), ToMap(newMeta));
      OnKeys(modified, visited + [key]) ==
        if key in KeysOf(oldMeta) && Get(oldMeta, key) != Get(newMeta, key)
        then OnKeys(modified, visited)[key := MetaChange(Get(oldMeta, key), Get(newMeta, key))]
        else OnKeys(modified, visited)
  {
    ToMapAt(oldMeta, key);
    ToMapAt(newMeta, key);
    OnKeysExtend(ChangedMeta(ToMap(oldMeta), ToMap(newMeta)), visited, key);
  }

  /** One more visited property key of the new object: it joins the modified entries when both properties exist and differ. */
  lemma ChangedPropertiesStep(oldProps: Entries<Property>, newProps: Entries<Property>, visited: seq<string>, key: string)
    requires key in KeysOf(newProps)
    ensures var modified := ChangedProperties(ToMap(oldProps), ToMap(newProps));
      OnKeys(modified, visited + [key]) ==
        if key in KeysOf(oldProps) && Get(oldProps, key) != Get(newProps, key)
        then OnKeys(modified, visited)[key := PropertyChange(Get(oldProps, key), Get(newProps, key))]
        else OnKeys(modified, visited)
  {
    ToMapAt(oldProps, key);
    ToMapAt(newProps, key);
    OnKeysExtend(ChangedProperties(ToMap(oldProps), ToMap(newProps)), visited, key);
  }

  /** One more visited key of the old Meta: it joins the deleted entries, with the new Meta's value, when the new Meta lacks it. */
  lemma DeletedMetaStep(oldMeta: Entries<string>, newMeta: Entries<string>, visited: seq<string>, key: string)
    requires key in KeysOf(oldMeta)
    ensures OnKeys(DeletedMetaEntries(oldMeta, newMeta), visited + [key]) ==
      if key in KeysOf(newMeta) then OnKeys(DeletedMetaEntries(oldMeta, newMeta), visited)
      else OnKeys(DeletedMetaEntries(oldMeta, newMeta), visited)[key := Find(newMeta, key)]
  {
    ToMapAt(oldMeta, key);
    ToMapAt(newMeta, key);
    OnKeysExtend(DeletedMetaEntries(oldMeta, newMeta), visited, key);
  }

  /** A dictionary that receives an entry is not empty afterwards. */
  lemma UpdateNonEmpty<V>(m: map<string, V>, key: string, value: V)
    ensures m[key := value] != map[]
  {
    assert key in m[key := value];
  }

  /** The entries of m whose keys a loop has visited so far. */
  ghost function OnKeys<V>(m: map<string, V>, visited: seq<string>): (visitedEntries: map<string, V>)
  {
    map k | k in m && k in visited :: m[k]
  }

  /** Visiting one more key adds its entry, if m has one. */
  lemma {:induction false} OnKeysExtend<V>(m: map<string, V>, visited: seq<string>, key: string)
    ensures OnKeys(m, visited + [key]) == if key in m then OnKeys(m, visited)[key := m[key]] else OnKeys(m, visited)
  {
    assert forall k :: k in visited + [key] <==> k in visited || k == key;
  }

  /** Once every key of m is visited, all of m is there. */
  lemma {:induction false} OnAllKeys<V>(m: map<string, V>, visited: seq<string>)
    requires forall k :: k in m ==> k in visited
    ensures OnKeys(m, visited) == m
  {
  }

  /** Two different dictionaries differ in a key or in the value under a shared key. */
  lemma {:induction false} MapsDiffer<V>(a: map<string, V>, b: map<string, V>)
    ensures || a == b
            || (exists k :: k in b && k !in a)
            || (exists k :: k in a && k !in b)
            || (exists k :: k in a && k in b && a[k] != b[k])
  {
    if && (forall k :: k in b ==> k in a)
       && (forall k :: k in a ==> k in b)
       && (forall k :: k in a && k in b ==> a[k] == b[k])
    {
      assert a == b;
    }
  }

  /**
   * The change flag is raised exactly when the names differ or at least one
   * of the six maps records something.
   */
  lemma {:induction false} HasChangesIffSomethingRecorded(oldSchema: Schema, newSchema: Schema)
    ensures var d := ExpectedDiff(oldSchema, newSchema);
      d.hasChanges <==> d.nameChanged || !NoEntries(d)
  {
    var d := ExpectedDiff(oldSchema, newSchema);
    var om, nm := ToMap(oldSchema.meta), ToMap(newSchema.meta);
    var op, np := ToMap(oldSchema.properties), ToMap(newSchema.properties);
    if om != nm {
      MapsDiffer(om, nm);
      if exists k :: k in nm && k !in om {
        var k :| k in nm && k !in om;
        assert k in d.addedMeta;
      } else if exists k :: k in om && k !in nm {
        var k :| k in om && k !in nm;
        assert k in d.deletedMeta;
      } else {
        var k :| k in om && k in nm && om[k] != nm[k];
        assert k in d.modifiedMeta;
      }
    }
    if op != np {
      MapsDiffer(op, np);
      if exists k :: k in np && k !in op {
        var k :| k in np && k !in op;
        assert k in d.addedProperties;
      } else if exists k :: k in op && k !in np {
        var k :| k in op && k !in np;
        assert k in d.deletedProperties;
      } else {
        var k :| k in op && k in np && op[k] != np[k];
        assert k in d.modifiedProperties;
      }
    }
    if om == nm && op == np {
      SameContentRecordsNothing(oldSchema, newSchema);
    }
  }

  /** Schemas whose Meta objects hold the same entries give empty meta maps. */
  lemma {:induction false} SameMetaRecordsNothing(oldSchema: Schema, newSchema: Schema)
    requires ToMap(oldSchema.meta) == ToMap(newSchema.meta)
    ensures var d := ExpectedDiff(oldSchema, newSchema);
      d.addedMeta == map[] && d.deletedMeta == map[] && d.modifiedMeta == map[]
  {
    var d := ExpectedDiff(oldSchema, newSchema);
    assert d.addedMeta.Keys == {};
    assert d.deletedMeta.Keys == {};
    assert d.modifiedMeta.Keys == {};
  }

  /** Schemas whose Properties objects hold the same entries give empty property maps. */
  lemma {:induction false} SamePropertiesRecordNothing(oldSchema: Schema, newSchema: Schema)
    requires ToMap(oldSchema.properties) == ToMap(newSchema.properties)
    ensures var d := ExpectedDiff(oldSchema, newSchema);
      d.addedProperties == map[] && d.deletedProperties == map[] && d.modifiedProperties == map[]
  {
    var d := ExpectedDiff(oldSchema, newSchema);
    assert d.addedProperties.Keys == {};
    assert d.deletedProperties.Keys == {};
    assert d.modifiedProperties.Keys == {};
  }

  /** Schemas whose Meta and Properties hold the same entries give six empty maps. */
  lemma {:induction false} SameContentRecordsNothing(oldSchema: Schema, newSchema: Schema)
    requires ToMap(oldSchema.meta) == ToMap(newSchema.meta)
    requires ToMap(oldSchema.properties) == ToMap(newSchema.properties)
    ensures NoEntries(ExpectedDiff(oldSchema, newSchema))
  {
    SameMetaRecordsNothing(oldSchema, newSchema);
    SamePropertiesRecordNothing(oldSchema, newSchema);
  }

  /** Comparing a schema with itself reports no change at all. */
  lemma {:induction false} CompareWithItself(schema: Schema)
    ensures var d := ExpectedDiff(schema, schema);
      && !d.hasChanges && !d.nameChanged && NoEntries(d)
      && d.oldName == schema.name && d.newName == schema.name
  {
    SameContentRecordsNothing(schema, schema);
  }

  /**
   * A rename alone is a change: the name fields say so and the six maps
   * stay empty.
   */
  lemma {:induction false} RenameForcesChange(oldSchema: Schema, newSchema: Schema)
    requires oldSchema.name != newSchema.name
    requires oldSchema.meta == newSchema.meta && oldSchema.properties == newSchema.properties
    ensures var d := ExpectedDiff(oldSchema, newSchema);
      && d.hasChanges && d.nameChanged && NoEntries(d)
      && d.oldName == oldSchema.name && d.newName == newSchema.name
  {
    SameContentRecordsNothing(oldSchema, newSchema);
  }

  /**
   * Swapping the two schemas swaps added and deleted properties, swaps the
   * two sides of every modification, and keeps the change flag.
   */
  lemma {:induction false} SwappedComparison(a: Schema, b: Schema)
    ensures var ab, ba := ExpectedDiff(a, b), ExpectedDiff(b, a);
      && ab.hasChanges == ba.hasChanges
      && ab.addedProperties == ba.deletedProperties
      && ab.deletedProperties == ba.addedProperties
      && ab.modifiedProperties.Keys == ba.modifiedProperties.Keys
      && (forall k :: k in ab.modifiedProperties ==>
            ba.modifiedProperties[k] == PropertyChange(ab.modifiedProperties[k].newProperty, ab.modifiedProperties[k].oldProperty))
      && ab.addedMeta.Keys == ba.deletedMeta.Keys
      && ab.deletedMeta.Keys == ba.addedMeta.Keys
      && ab.modifiedMeta.Keys == ba.modifiedMeta.Keys
      && (forall k :: k in ab.modifiedMeta ==>
            ba.modifiedMeta[k] == MetaChange(ab.modifiedMeta[k].newValue, ab.modifiedMeta[k].oldValue))
  {
  }

  /**
   * A deleted meta key never carries the old value: it carries the new
   * schema's value under that key, which is always absent.
   */
  lemma {:induction false} DeletedMetaIsUndefined(oldSchema: Schema, newSchema: Schema)
    ensures var d := ExpectedDiff(oldSchema, newSchema);
      forall k :: k in d.deletedMeta ==> k in KeysOf(oldSchema.meta) && d.deletedMeta[k] == None
  {
  }

  /**
   * Every meta key of either schema lands in exactly one of added, deleted,
   * modified, or unchanged; an added key keeps its new string, a modified
   * key both strings.
   */
  lemma {:induction false} MetaKeysClassified(oldSchema: Schema, newSchema: Schema, key: string)
    requires key in KeysOf(oldSchema.meta) || key in KeysOf(newSchema.meta)
    ensures var d := ExpectedDiff(oldSchema, newSchema);
      && (key in d.addedMeta <==> key !in KeysOf(oldSchema.meta))
      && (key in d.deletedMeta <==> key !in KeysOf(newSchema.meta))
      && (key in d.modifiedMeta <==>
            key in KeysOf(oldSchema.meta) && key in KeysOf(newSchema.meta)
            && Get(oldSchema.meta, key) != Get(newSchema.meta, key))
      && (key in d.addedMeta ==> d.addedMeta[key] == Get(newSchema.meta, key))
      && (key in d.modifiedMeta ==>
            d.modifiedMeta[key] == MetaChange(Get(oldSchema.meta, key), Get(newSchema.meta, key)))
  {
    ToMapAt(oldSchema.meta, key);
    ToMapAt(newSchema.meta, key);
  }

  /**
   * Every property key of either schema lands in exactly one of added,
   * deleted, modified, or unchanged; a modification keeps both sides.
   */
  lemma {:induction false} PropertyKeysClassified(oldSchema: Schema, newSchema: Schema, key: string)
    requires key in KeysOf(oldSchema.properties) || key in KeysOf(newSchema.properties)
    ensures var d := ExpectedDiff(oldSchema, newSchema);
      && (key in d.addedProperties <==> key !in KeysOf(oldSchema.properties))
      && (key in d.deletedProperties <==> key !in KeysOf(newSchema.properties))
      && (key in d.modifiedProperties <==>
            key in KeysOf(oldSchema.properties) && key in KeysOf(newSchema.properties)
            && Get(oldSchema.properties, key) != Get(newSchema.properties, key))
      && (key in d.addedProperties ==> d.addedProperties[key] == Get(newSchema.properties, key))
      && (key in d.deletedProperties ==> d.deletedProperties[key] == Get(oldSchema.properties, key))
      && (key in d.modifiedProperties ==>
            d.modifiedProperties[key] == PropertyChange(Get(oldSchema.properties, key), Get(newSchema.properties, key)))
  {
  }

  /** Appending a fresh key to an object adds exactly that entry to its dictionary. */
  lemma {:induction false} ToMapAppend<V>(obj: Entries<V>, key: string, value: V)
    requires key !in KeysOf(obj)
    ensures ToMap(obj + [(key, value)]) == ToMap(obj)[key := value]
  {
    forall k | k in KeysOf(obj)
      ensures Find(obj + [(key, value)], k) == Find(obj, k)
    {
      FindAppend(obj, key, value, k);
    }
    FindAppend(obj, key, value, key);
    KeysOfAppend(obj, key, value);
  }

  lemma {:induction false} KeysOfAppend<V>(obj: Entries<V>, key: string, value: V)
    ensures KeysOf(obj + [(key, value)]) == KeysOf(obj) + [key]
  {
    if obj != [] {
      assert (obj + [(key, value)])[1..] == obj[1..] + [(key, value)];
      KeysOfAppend(obj[1..], key, value);
    }
  }

  lemma {:induction false} FindAppend<V>(obj: Entries<V>, key: string, value: V, k: string)
    requires key !in KeysOf(obj)
    ensures Find(obj + [(key, value)], k) == if k in KeysOf(obj) then Find(obj, k) else if k == key then Some(value) else None
  {
    if obj != [] {
      assert (obj + [(key, value)])[1..] == obj[1..] + [(key, value)];
      assert KeysOf(obj) == [obj[0].0] + KeysOf(obj[1..]);
      FindAppend(obj[1..], key, value, k);
    } else {
      assert KeysOf([(key, value)]) == [key];
    }
  }

  /**
   * A new version that differs only by one extra property, wherever it sits
   * in the object, reports exactly that property as added, and nothing else.
   */
  lemma {:induction false} OnePropertyAdded(oldSchema: Schema, newSchema: Schema, key: string, p: Property)
    requires newSchema.name == oldSchema.name && ToMap(newSchema.meta) == ToMap(oldSchema.meta)
    requires key !in ToMap(oldSchema.properties)
    requires ToMap(newSchema.properties) == ToMap(oldSchema.properties)[key := p]
    ensures var d := ExpectedDiff(oldSchema, newSchema);
      && d.hasChanges && !d.nameChanged
      && d.addedProperties == map[key := p]
      && d.deletedProperties == map[] && d.modifiedProperties == map[]
      && d.addedMeta == map[] && d.deletedMeta == map[] && d.modifiedMeta == map[]
  {
    var d := ExpectedDiff(oldSchema, newSchema);
    SameMetaRecordsNothing(oldSchema, newSchema);
    assert d.addedProperties.Keys == {key};
    assert d.deletedProperties.Keys == {};
    assert d.modifiedProperties.Keys == {};
  }

  /** In particular, appending one fresh property at the end reports exactly that property as added. */
  lemma {:induction false} AppendedPropertyAdded(schema: Schema, key: string, p: Property)
    requires key !in KeysOf(schema.properties)
    ensures var d := ExpectedDiff(schema, schema.(properties := schema.properties + [(key, p)]));
      && d.hasChanges && d.addedProperties == map[key := p] && NoEntries(d.(addedProperties := map[]))
  {
    ToMapAppend(schema.properties, key, p);
    ToMapAt(schema.properties, key);
    OnePropertyAdded(schema, schema.(properties := schema.properties + [(key, p)]), key, p);
  }

  /**
   * Property comparison follows the JSON text: the same meta entries in a
   * different order are the same dictionary but a different property.
   */
  lemma {:induction false} ReorderedMetaSameDictionary(p: Property, k1: string, v1: string, k2: string, v2: string)
    requires k1 != k2 && p.meta == [(k1, v1), (k2, v2)]
    ensures var q := p.(meta := [(k2, v2), (k1, v1)]);
      ToMap(p.meta) == ToMap(q.meta) && p != q
  {
    var q := p.(meta := [(k2, v2), (k1, v1)]);
    assert p.meta[0] != q.meta[0];
    TwoEntries(k1, v1, k2, v2);
    TwoEntries(k2, v2, k1, v1);
    assert map[k1 := v1][k2 := v2] == map[k2 := v2][k1 := v1];
  }

  /** An object of two entries under different keys, seen as a dictionary. */
  lemma {:induction false} TwoEntries(k1: string, v1: string, k2: string, v2: string)
    requires k1 != k2
    ensures ToMap([(k1, v1), (k2, v2)]) == map[k1 := v1][k2 := v2]
  {
    ToMapAppend([], k1, v1);
    assert [] + [(k1, v1)] == [(k1, v1)];
    ToMapAppend([(k1, v1)], k2, v2);
    assert [(k1, v1)] + [(k2, v2)] == [(k1, v1), (k2, v2)];
  }

  /**
   * Hence a property whose meta entries are only reordered between the two
   * versions, in any way, is reported as modified, and the schema as changed.
   */
  lemma {:induction false} MetaOrderMakesPropertyModified(oldSchema: Schema, newSchema: Schema, key: string)
    requires key in KeysOf(oldSchema.properties) && key in KeysOf(newSchema.properties)
    requires var op, np := Get(oldSchema.properties, key), Get(newSchema.properties, key);
      && op.name == np.name && op.isComplex == np.isComplex
      && multiset(op.meta) == multiset(np.meta) && op.meta != np.meta
    ensures var d := ExpectedDiff(oldSchema, newSchema);
      && d.hasChanges
      && key in d.modifiedProperties
      && d.modifiedProperties[key] == PropertyChange(Get(oldSchema.properties, key), Get(newSchema.properties, key))
  {
    PropertyKeysClassified(oldSchema, newSchema, key);
    HasChangesIffSomethingRecorded(oldSchema, newSchema);
  }

  /** The added, deleted and modified property keys are pairwise disjoint. */
  lemma PropertyKeysDisjoint(oldSchema: Schema, newSchema: Schema)
    ensures var d := ExpectedDiff(oldSchema, newSchema);
      && d.addedProperties.Keys !! d.deletedProperties.Keys
      && d.addedProperties.Keys !! d.modifiedProperties.Keys
      && d.deletedProperties.Keys !! d.modifiedProperties.Keys
  {
  }

  /** The added, deleted and modified meta keys are pairwise disjoint. */
  lemma MetaKeysDisjoint(oldSchema: Schema, newSchema: Schema)
    ensures var d := ExpectedDiff(oldSchema, newSchema);
      && d.addedMeta.Keys !! d.deletedMeta.Keys
      && d.addedMeta.Keys !! d.modifiedMeta.Keys
      && d.deletedMeta.Keys !! d.modifiedMeta.Keys
  {
  }
}
