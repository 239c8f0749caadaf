/**
 * The `items` row: an integer primary key, a required name declared as at
 * most 100 characters, and a nullable description; and its projection to
 * the JSON object every item endpoint answers with.
 */
module ItemModel {
  import opened Wrappers
  import opened Json

  /** Declared width of the `name` column. */
  const NameMaxLength: nat := 100

  /** One row. `description` is `None` when the column holds NULL. */
  datatype Item = Item(id: nat, name: string, description: Option<string>)

  /**
   * Whether the name fits the declared column width. No handler checks
   * this; it is a constraint of the column declaration only.
   */
  predicate NameFitsColumn(item: Item) {
    |item.name| <= NameMaxLength
  }

  /** A nullable text value as JSON: NULL becomes `null`. */
  function NullableText(d: Option<string>): Json {
    match d
    case None => JNull
    case Some(s) => JString(s)
  }

  /** The JSON object of a row: exactly the keys `id`, `name`, `description`. */
  function ToDict(item: Item): (r: Json)
    ensures r.JObject? && r.fields.Keys == {"id", "name", "description"}
  {
    JObject(map["id" := JInt(item.id), "name" := JString(item.name), "description" := NullableText(item.description)])
  }

  /**
   * Reading an item back from its JSON object, as a client of the API
   * does: the object must have exactly the three keys, a non-negative
   * integer id, a string name and a string or null description.
   */
  function FromDict(j: Json): Option<Item> {
    if j.JObject? && j.fields.Keys == {"id", "name", "description"}
       && j.fields["id"].JInt? && j.fields["id"].i >= 0
       && j.fields["name"].JString?
       && (j.fields["description"].JNull? || j.fields["description"].JString?)
    then
      var description := if j.fields["description"].JNull? then None else Some(j.fields["description"].s);
      Some(Item(j.fields["id"].i, j.fields["name"].s, description))
    else
      None
  }

  /** Every value of the projection is the corresponding field, unchanged. */
  lemma DictRoundTrip(item: Item)
    ensures FromDict(ToDict(item)) == Some(item)
    ensures ToDict(item).fields["id"] == JInt(item.id)
    ensures ToDict(item).fields["name"] == JString(item.name)
    ensures ToDict(item).fields["description"] == NullableText(item.description)
  {
  }

  /** Conversely, every object that reads back as an item is that item's projection. */
  lemma DictDecodeInverse(j: Json, item: Item)
    requires FromDict(j) == Some(item)
    ensures ToDict(item) == j
  {
  }

  /** Two rows with the same projection are the same row. */
  lemma ToDictInjective(a: Item, b: Item)
    requires ToDict(a) == ToDict(b)
    ensures a == b
  {
  }
}
