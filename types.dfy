/**
 * The data shapes of the schema corpus and of a schema diff (types.ts).
 *
 * A parsed JSON object is an ordered list of (key, value) entries: its keys
 * come out of `Object.keys` in insertion order, and `JSON.stringify` writes
 * them in that order, so two objects with the same entries in a different
 * order are different values here.
 */
module Types {
  import opened Wrappers

  /** A JSON object with values of type V, in insertion order. */
  type Entries<V> = seq<(string, V)>

  /** `Object.keys(obj)`: the keys in insertion order. */
  function KeysOf<V>(obj: Entries<V>): (keys: seq<string>)
    ensures |keys| == |obj|
  {
    if obj == [] then [] else [obj[0].0] + KeysOf(obj[1..])
  }

  /** The i-th key `Object.keys` lists is the key of the i-th entry. */
  lemma {:induction false} KeysOfAt<V>(obj: Entries<V>, i: nat)
    requires i < |obj|
    ensures KeysOf(obj)[i] == obj[i].0
  {
    if i > 0 {
      KeysOfAt(obj[1..], i - 1);
    }
  }

  /** `obj[key]`: the value stored under `key`, or `undefined` (None). */
  function Find<V>(obj: Entries<V>, key: string): (r: Option<V>)
    ensures r.Some? <==> key in KeysOf(obj)
  {
    if obj == [] then None
    else if obj[0].0 == key then Some(obj[0].1)
    else Find(obj[1..], key)
  }

  /** A lookup that succeeds returns a value the object stores under that key. */
  lemma {:induction false} FindStored<V>(obj: Entries<V>, key: string)
    requires key in KeysOf(obj)
    ensures (key, Find(obj, key).value) in obj
  {
    if obj[0].0 != key {
      FindStored(obj[1..], key);
    }
  }

  /** `obj[key]` for a key the object is known to hold. */
  function Get<V>(obj: Entries<V>, key: string): (value: V)
    requires key in KeysOf(obj)
  {
    Find(obj, key).value
  }

  /** The object as a dictionary: what a lookup by key can observe. */
  function ToMap<V>(obj: Entries<V>): (dict: map<string, V>)
  {
    map k | k in KeysOf(obj) :: Get(obj, k)
  }

  /** A key is in the dictionary exactly when `Object.keys` lists it, with the value lookup finds. */
  lemma ToMapAt<V>(obj: Entries<V>, key: string)
    ensures key in ToMap(obj) <==> key in KeysOf(obj)
    ensures key in KeysOf(obj) ==> ToMap(obj)[key] == Get(obj, key)
  {
  }

  /** TallyPropertyMeta: "Is Repeated", "Datatype", "Object Name", in document order. */
  type PropertyMeta = Entries<string>

  /** TallyProperty. Equality of two values of this type is equality of their JSON text. */
  datatype Property = Property(name: string, isComplex: bool, meta: PropertyMeta)

  /** TallySchema: a name, a string-to-string Meta object and the Properties object. */
  datatype Schema = Schema(name: string, meta: Entries<string>, properties: Entries<Property>)

  /** The `{ oldValue, newValue }` record of a modified meta key. */
  datatype MetaChange = MetaChange(oldValue: string, newValue: string)

  /** The `{ old, new }` record of a modified property. */
  datatype PropertyChange = PropertyChange(oldProperty: Property, newProperty: Property)

  /**
   * SchemaDiff. A deleted meta key holds whatever the new schema's Meta
   * holds under that key, which is `undefined`; hence `Option<string>`.
   */
  datatype SchemaDiff = SchemaDiff(
    hasChanges: bool,
    addedProperties: map<string, Property>,
    deletedProperties: map<string, Property>,
    modifiedProperties: map<string, PropertyChange>,
    addedMeta: map<string, string>,
    deletedMeta: map<string, Option<string>>,
    modifiedMeta: map<string, MetaChange>,
    nameChanged: bool,
    oldName: string,
    newName: string)

  /** SchemaIndex: version identifier to the names of the schemas published in it. */
  type SchemaIndex = map<string, seq<string>>
}
