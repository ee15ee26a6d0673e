/**
 * Choosing the keyword lookup for the voted-on object: its primary key when
 * an object id is given, otherwise a slug field and a slug.
 */
module Lookup {
  import opened Wrappers

  /** Django's field-lookup suffix for an exact match. */
  const EXACT: string := "__exact"

  /** The single keyword argument `{field: value}` passed to the model manager's `get`. */
  datatype LookupKey = LookupKey(field: string, value: string)

  /** Python truthiness of an optional string argument: present and non-empty. */
  predicate Truthy(arg: Option<string>) {
    arg.Some? && arg.value != ""
  }

  /**
   * The lookup the handler builds, or None when it was given neither an
   * object id nor both a slug and a slug field.
   */
  function SelectLookup(objectId: Option<string>, slug: Option<string>, slugField: Option<string>,
                        pkName: string): (k: Option<LookupKey>)
    ensures k.Some? <==> Truthy(objectId) || (Truthy(slug) && Truthy(slugField))
    ensures Truthy(objectId) ==> k == Some(LookupKey(pkName + EXACT, objectId.value))
    ensures !Truthy(objectId) && k.Some? ==> k == Some(LookupKey(slugField.value + EXACT, slug.value))
  {
    if Truthy(objectId) then Some(LookupKey(pkName + EXACT, objectId.value))
    else if Truthy(slug) && Truthy(slugField) then Some(LookupKey(slugField.value + EXACT, slug.value))
    else None
  }

  /** A present object id wins: the slug arguments are then ignored entirely. */
  lemma ObjectIdWins(objectId: Option<string>, slug: Option<string>, slugField: Option<string>,
                     slug': Option<string>, slugField': Option<string>, pkName: string)
    requires Truthy(objectId)
    ensures SelectLookup(objectId, slug, slugField, pkName) == SelectLookup(objectId, slug', slugField', pkName)
    ensures SelectLookup(objectId, slug, slugField, pkName).value.value == objectId.value
  {
  }

  /** The lookup key is built from the field name, so the chosen field can be read back from it. */
  lemma LookupFieldRecoverable(objectId: Option<string>, slug: Option<string>, slugField: Option<string>,
                               pkName: string)
    requires SelectLookup(objectId, slug, slugField, pkName).Some?
    ensures var f := SelectLookup(objectId, slug, slugField, pkName).value.field;
      |f| >= |EXACT| && f[|f| - |EXACT|..] == EXACT &&
      f[..|f| - |EXACT|] == if Truthy(objectId) then pkName else slugField.value
  {
    var f := SelectLookup(objectId, slug, slugField, pkName).value.field;
    var base := if Truthy(objectId) then pkName else slugField.value;
    assert f == base + EXACT;
    assert f[..|base|] == base;
    assert f[|base|..] == EXACT;
  }
}
