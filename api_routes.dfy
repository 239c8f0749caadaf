/**
 * The item endpoints: `GET /api/hii`, `GET`/`POST /api/items` and
 * `GET`/`PUT`/`DELETE /api/items/<id>`.
 *
 * The `items` table is a map from primary key to row. Each handler is
 * specified by a function from the table (and the request) to a `Step`:
 * the response and the table after the handler's commit. The class
 * `ItemStore` holds the table and carries out the handlers step by step,
 * each method proved to agree with its function.
 */
module ApiRoutes {
  import opened Wrappers
  import opened Json
  import opened ItemModel

  /** A key of a JSON request object: absent, or present with a value. */
  datatype Field<T> = Absent | Present(value: T)

  /**
   * The parsed JSON object of a POST or PUT body, reduced to the two keys
   * the handlers read. Each is absent, `null` (`Present(None)`) or a string.
   */
  datatype Payload = Payload(name: Field<Option<string>>, description: Field<Option<string>>)

  /** A response body: plain text, JSON, or the framework's own error page. */
  datatype Body = Text(text: string) | JsonBody(json: Json) | ErrorPage

  datatype Response = Response(status: nat, body: Body)

  /** The `items` table, keyed by primary key. */
  type Table = map<nat, Item>

  /** The response and the table once the handler has returned. */
  datatype Step = Step(response: Response, table: Table)

  /** Each row is stored under its own id: the primary key is unique. */
  predicate KeysAreIds(t: Table) {
    forall id :: id in t ==> t[id].id == id
  }

  const NameRequired: Response := Response(400, JsonBody(ErrorObject("Name is required")))
  const NotFound: Response := Response(404, JsonBody(ErrorObject("Item not found")))
  const Deleted: Response := Response(200, JsonBody(MessageObject("Item deleted successfully")))
  /** An exception escaping a handler: the framework answers 500. */
  const InternalError: Response := Response(500, ErrorPage)

  /** A 200 answer carrying one item's JSON object. */
  function Found(item: Item): Response {
    Response(200, JsonBody(ToDict(item)))
  }

  /** `GET /api/hii`. */
  function Hii(): (r: Response)
    ensures r.status == 200 && r.body == Text("hii!")
  {
    Response(200, Text("hii!"))
  }

  // ---------------------------------------------------------------------
  // POST /api/items

  /** The truthiness test of the POST handler: a body, with a non-empty string `name`. */
  predicate HasName(data: Option<Payload>) {
    data.Some? && data.value.name.Present? && data.value.name.value.Some? && data.value.name.value.value != ""
  }

  /** The description a POST stores: the given value, `''` when the key is absent. */
  function DescriptionOnCreate(data: Payload): Option<string> {
    match data.description
    case Absent => Some("")
    case Present(d) => d
  }

  /** POST: validate the name, then insert a row under the id the engine assigns. */
  function Create(t: Table, data: Option<Payload>, newId: nat): (r: Step)
    requires newId !in t
    ensures r.response.status == 400 <==> !HasName(data)
    ensures !HasName(data) ==> r.response == NameRequired && r.table == t
    ensures HasName(data) ==>
      && r.table.Keys == t.Keys + {newId}
      && (forall id :: id in t ==> r.table[id] == t[id])
      && r.table[newId].id == newId
      && r.table[newId].name == data.value.name.value.value
      && r.table[newId].description == DescriptionOnCreate(data.value)
      && r.response == Found(r.table[newId])
    ensures KeysAreIds(t) ==> KeysAreIds(r.table)
  {
    if !HasName(data) then
      Step(NameRequired, t)
    else
      var item := Item(newId, data.value.name.value.value, DescriptionOnCreate(data.value));
      Step(Found(item), t[newId := item])
  }

  // ---------------------------------------------------------------------
  // GET /api/items/<id>

  /** GET one: the row's JSON object, or 404. */
  function Get(t: Table, id: nat): (r: Response)
    ensures r.status == 404 <==> id !in t
    ensures id !in t ==> r == NotFound
    ensures id in t ==> r.status == 200 && r.body.JsonBody? && FromDict(r.body.json) == Some(t[id])
  {
    if id !in t then NotFound else Found(t[id])
  }

  // ---------------------------------------------------------------------
  // PUT /api/items/<id>

  /** The row after PUT's assignments; the name is still nullable here. */
  datatype Patched = Patched(name: Option<string>, description: Option<string>)

  function Patch(item: Item, data: Payload): Patched {
    Patched(
      if data.name.Present? then data.name.value else Some(item.name),
      if data.description.Present? then data.description.value else item.description)
  }

  /** Whether PUT gets as far as returning 200. */
  predicate UpdateSucceeds(t: Table, id: nat, data: Option<Payload>) {
    id in t && data.Some? && data.value.name != Present(None)
  }

  /**
   * PUT: 404 for a missing id; a null body fails the key test with an
   * exception; a null name fails the NOT NULL column at commit; otherwise
   * each field present in the body is overwritten.
   */
  function Update(t: Table, id: nat, data: Option<Payload>): (r: Step)
    ensures r.response.status == 404 <==> id !in t
    ensures id !in t ==> r.response == NotFound
    ensures r.response.status == 200 <==> UpdateSucceeds(t, id, data)
    ensures id in t && !UpdateSucceeds(t, id, data) ==> r.response == InternalError
    ensures !UpdateSucceeds(t, id, data) ==> r.table == t
    ensures UpdateSucceeds(t, id, data) ==>
      && r.table.Keys == t.Keys
      && (forall k :: k in t && k != id ==> r.table[k] == t[k])
      && r.table[id].id == t[id].id
      && r.table[id].name == (if data.value.name.Present? then data.value.name.value.value else t[id].name)
      && r.table[id].description == (if data.value.description.Present? then data.value.description.value else t[id].description)
      && r.response == Found(r.table[id])
    ensures KeysAreIds(t) ==> KeysAreIds(r.table)
  {
    if id !in t then
      Step(NotFound, t)
    else if data.None? then
      Step(InternalError, t)
    else
      var p := Patch(t[id], data.value);
      if p.name.None? then
        Step(InternalError, t)
      else
        var item := t[id].(name := p.name.value, description := p.description);
        Step(Found(item), t[id := item])
  }

  // ---------------------------------------------------------------------
  // DELETE /api/items/<id>

  /** DELETE: remove exactly that row, or 404. */
  function Delete(t: Table, id: nat): (r: Step)
    ensures r.response.status == 404 <==> id !in t
    ensures id !in t ==> r == Step(NotFound, t)
    ensures id in t ==> r.response == Deleted
    ensures r.table.Keys == t.Keys - {id}
    ensures forall k :: k in r.table ==> r.table[k] == t[k]
    ensures KeysAreIds(t) ==> KeysAreIds(r.table)
  {
    if id !in t then Step(NotFound, t) else Step(Deleted, t - {id})
  }

  // ---------------------------------------------------------------------
  // GET /api/items

  /** `order` names every stored id exactly once, in some order. */
  ghost predicate IsListing(order: seq<nat>, t: Table) {
    && (forall i, j :: 0 <= i < j < |order| ==> order[i] != order[j])
    && (forall i :: 0 <= i < |order| ==> order[i] in t)
    && (forall id :: id in t ==> id in order)
  }

  /** The JSON objects of the rows named by `order`, in that order. */
  function Listing(t: Table, order: seq<nat>): (r: seq<Json>)
    requires forall i :: 0 <= i < |order| ==> order[i] in t
    ensures |r| == |order|
    ensures forall i :: 0 <= i < |order| ==> r[i] == ToDict(t[order[i]])
  {
    if order == [] then [] else Listing(t, order[..|order| - 1]) + [ToDict(t[order[|order| - 1]])]
  }

  // ---------------------------------------------------------------------
  // The table, updated in place by the handlers

  class ItemStore {
    var rows: Table

    ghost predicate Valid()
      reads this
    {
      KeysAreIds(rows)
    }

    /** A store over an empty table, as on the first start. */
    constructor ()
      ensures Valid() && rows == map[]
    {
      rows := map[];
    }

    /**
     * GET /api/items: one JSON object per stored row, in the order the
     * storage yields them (`order`); the table is only read.
     */
    method ListItems() returns (resp: Response, ghost order: seq<nat>)
      requires Valid()
      ensures IsListing(order, rows)
      ensures resp.status == 200 && resp.body == JsonBody(JArray(Listing(rows, order)))
    {
      var remaining := rows.Keys;
      var dicts: seq<Json> := [];
      order := [];
      while remaining != {}
        invariant remaining <= rows.Keys
        invariant forall i, j :: 0 <= i < j < |order| ==> order[i] != order[j]
        invariant forall i :: 0 <= i < |order| ==> order[i] in rows && order[i] !in remaining
        invariant forall id :: id in rows ==> id in remaining || id in order
        invariant |dicts| == |order|
        invariant forall i :: 0 <= i < |order| ==> dicts[i] == ToDict(rows[order[i]])
        decreases remaining
      {
        var id :| id in remaining;
        dicts := dicts + [ToDict(rows[id])];
        order := order + [id];
        remaining := remaining - {id};
      }
      resp := Response(200, JsonBody(JArray(dicts)));
      assert dicts == Listing(rows, order);
    }

    /**
     * POST /api/items. `newId` is the id the database engine assigns to the
     * inserted row; the engine never reuses a key that is present.
     */
    method CreateItem(data: Option<Payload>, newId: nat) returns (resp: Response)
      requires Valid()
      requires newId !in rows
      modifies this
      ensures Valid()
      ensures Step(resp, rows) == Create(old(rows), data, newId)
    {
      if data.None? || data.value.name.Absent? || data.value.name.value.None? || data.value.name.value.value == "" {
        return NameRequired;
      }
      var description := if data.value.description.Present? then data.value.description.value else Some("");
      var item := Item(newId, data.value.name.value.value, description);
      rows := rows[newId := item];
      resp := Found(item);
    }

    /** GET /api/items/<id>; the table is only read. */
    method GetItem(id: nat) returns (resp: Response)
      requires Valid()
      ensures resp == Get(rows, id)
    {
      if id !in rows {
        return NotFound;
      }
      resp := Found(rows[id]);
    }

    /** PUT /api/items/<id>: the lookup, then the field assignments, then the commit. */
    method UpdateItem(id: nat, data: Option<Payload>) returns (resp: Response)
      requires Valid()
      modifies this
      ensures Valid()
      ensures Step(resp, rows) == Update(old(rows), id, data)
    {
      if id !in rows {
        return NotFound;
      }
      if data.None? {
        // the key test on a null body raises
        return InternalError;
      }
      var name := Some(rows[id].name);
      var description := rows[id].description;
      if data.value.name.Present? {
        name := data.value.name.value;
      }
      if data.value.description.Present? {
        description := data.value.description.value;
      }
      if name.None? {
        // the NOT NULL constraint on `name` rejects the commit
        return InternalError;
      }
      var item := rows[id].(name := name.value, description := description);
      rows := rows[id := item];
      resp := Found(item);
    }

    /** DELETE /api/items/<id>. */
    method DeleteItem(id: nat) returns (resp: Response)
      requires Valid()
      modifies this
      ensures Valid()
      ensures Step(resp, rows) == Delete(old(rows), id)
    {
      if id !in rows {
        return NotFound;
      }
      rows := rows - {id};
      resp := Deleted;
    }
  }
}
