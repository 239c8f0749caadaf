/**
 * Properties of the item endpoints that relate several requests, or that
 * say what a listing holds.
 */
module ApiProperties {
  import opened Wrappers
  import opened Json
  import opened ItemModel
  import opened ApiRoutes

  /** Some key above every stored one is free, so the requirement on `newId` in `Create` can always be met. */
  lemma {:induction false} FreshIdExists(t: Table) returns (id: nat)
    ensures id !in t
    ensures forall k :: k in t ==> k < id
    decreases |t.Keys|
  {
    if t == map[] {
      id := 0;
    } else {
      var k :| k in t;
      var rest := t - {k};
      assert |rest.Keys| < |t.Keys| by {
        assert rest.Keys == t.Keys - {k};
      }
      var below := FreshIdExists(rest);
      id := if k < below then below else k + 1;
      assert forall k' :: k' in t ==> k' == k || k' in rest;
    }
  }

  /** The ids a sequence names. */
  function Elements(s: seq<nat>): set<nat> {
    set x | x in s
  }

  /** A sequence without repetitions has as many distinct elements as positions. */
  lemma {:induction false} DistinctCount(s: seq<nat>)
    requires forall i, j :: 0 <= i < j < |s| ==> s[i] != s[j]
    ensures |Elements(s)| == |s|
  {
    if s != [] {
      var init, last := s[..|s| - 1], s[|s| - 1];
      DistinctCount(init);
      assert s == init + [last];
      assert Elements(s) == Elements(init) + {last};
      assert last !in Elements(init);
    }
  }

  /** GET /api/items answers with exactly as many objects as there are rows. */
  lemma ListingLength(t: Table, order: seq<nat>)
    requires IsListing(order, t)
    ensures |Listing(t, order)| == |t|
  {
    DistinctCount(order);
    assert Elements(order) == t.Keys;
  }

  /** Every stored row appears in the listing, and every listed object is a stored row's. */
  lemma ListingContents(t: Table, order: seq<nat>)
    requires IsListing(order, t)
    ensures forall id :: id in t ==> ToDict(t[id]) in Listing(t, order)
    ensures forall j :: j in Listing(t, order) ==> exists id :: id in t && j == ToDict(t[id])
  {
  }

  /** With the primary key kept, GET on a stored id answers an object whose `"id"` is the path id. */
  lemma GetAnswersPathId(t: Table, id: nat)
    requires KeysAreIds(t)
    requires id in t
    ensures Get(t, id).body.json.fields["id"] == JInt(id)
  {
  }

  /** Likewise for a successful PUT: the answered `"id"` is the path id. */
  lemma UpdateAnswersPathId(t: Table, id: nat, data: Option<Payload>)
    requires KeysAreIds(t)
    requires UpdateSucceeds(t, id, data)
    ensures Update(t, id, data).response.body.json.fields["id"] == JInt(id)
  {
  }

  /** With the primary key kept, the `"id"` fields of a listing are pairwise distinct. */
  lemma ListingIdsDistinct(t: Table, order: seq<nat>)
    requires KeysAreIds(t)
    requires IsListing(order, t)
    ensures forall i, j :: 0 <= i < j < |order| ==>
      Listing(t, order)[i].fields["id"] != Listing(t, order)[j].fields["id"]
  {
  }

  /** After a successful POST, GET on the new id answers exactly what the POST answered. */
  lemma CreateThenGet(t: Table, data: Option<Payload>, newId: nat)
    requires newId !in t
    requires HasName(data)
    ensures Get(Create(t, data, newId).table, newId) == Create(t, data, newId).response
  {
  }

  /** After a successful POST every listing of the table holds the new item. */
  lemma CreateThenList(t: Table, data: Option<Payload>, newId: nat, order: seq<nat>)
    requires newId !in t
    requires HasName(data)
    requires IsListing(order, Create(t, data, newId).table)
    ensures Create(t, data, newId).response.body.json in Listing(Create(t, data, newId).table, order)
    ensures |Listing(Create(t, data, newId).table, order)| == |t| + 1
  {
    var after := Create(t, data, newId).table;
    ListingContents(after, order);
    ListingLength(after, order);
    assert after.Keys == t.Keys + {newId};
  }

  /** After DELETE removes a row, GET and a second DELETE on that id both answer 404. */
  lemma DeleteThenNotFound(t: Table, id: nat)
    requires id in t
    ensures Delete(t, id).response == Deleted
    ensures Get(Delete(t, id).table, id) == NotFound
    ensures Delete(Delete(t, id).table, id) == Step(NotFound, Delete(t, id).table)
  {
  }

  /** PUT does not re-check the name: an empty name is stored. */
  lemma UpdateAcceptsEmptyName(t: Table, id: nat)
    requires id in t
    ensures Update(t, id, Some(Payload(Present(Some("")), Absent))).response.status == 200
    ensures Update(t, id, Some(Payload(Present(Some("")), Absent))).table[id].name == ""
  {
  }

  /**
   * POST does not check the declared column width: a 101-character name
   * passes validation and, with an engine that ignores the width (SQLite),
   * is stored.
   */
  lemma CreateIgnoresNameWidth(t: Table, newId: nat)
    requires newId !in t
    ensures
      var long := seq(NameMaxLength + 1, _ => 'x');
      var r := Create(t, Some(Payload(Present(Some(long)), Absent)), newId);
      r.response.status == 200 && !NameFitsColumn(r.table[newId])
  {
  }

  /**
   * A create, read, partial update, delete, read sequence from an empty
   * table, with the engine assigning id 1.
   */
  lemma Walkthrough()
    ensures
      var widget := Item(1, "widget", Some("a thing"));
      var created := Create(map[], Some(Payload(Present(Some("widget")), Present(Some("a thing")))), 1);
      var updated := Update(created.table, 1, Some(Payload(Absent, Present(Some("updated")))));
      var deleted := Delete(updated.table, 1);
      && created.response == Found(widget)
      && Get(created.table, 1) == Found(widget)
      && updated.response == Found(widget.(description := Some("updated")))
      && deleted.response == Deleted
      && Get(deleted.table, 1) == NotFound
  {
  }
}
