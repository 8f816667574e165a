/** The item collection of the item service (item-service/index.js): item
    records, the three listing queries and the store that report, approve and
    claim update. */
module Items {
  import opened Wrappers
  import opened Gate

  /** The id the store assigns to a saved item. */
  type ItemId = nat

  datatype Status = Pending | Approved | Claimed

  /** One stored item document. `user` is the reporter's id; `date` is the
      creation timestamp that listings sort on. */
  datatype Item = Item(
    id: ItemId,
    itemName: string,
    category: string,
    location: string,
    description: string,
    itemType: string,
    user: string,
    status: Status,
    image: Option<string>,
    date: int)

  /** The text fields of a report's request body. */
  datatype ReportForm = ReportForm(
    itemName: string,
    category: string,
    location: string,
    description: string,
    itemType: string)

  // ---------------------------------------------------------------------------
  // Creating an item
  // ---------------------------------------------------------------------------

  /** The item a report saves: the form's fields, the reporter's id, status
      Approved for an "admin" reporter and Pending for anyone else, and an image
      only when a file came with the report. */
  function NewItem(id: ItemId, form: ReportForm, reporter: Claim, file: Option<string>, now: int): (it: Item)
    ensures it.status == Approved <==> reporter.role == AdminRole
    ensures it.status == Pending <==> reporter.role != AdminRole
    ensures it.user == reporter.id
    ensures it.image.Some? <==> file.Some?
    ensures file.Some? ==> it.image.value == file.value
    ensures it.id == id && it.date == now
    ensures it.itemName == form.itemName && it.category == form.category && it.location == form.location
    ensures it.description == form.description && it.itemType == form.itemType
  {
    Item(id, form.itemName, form.category, form.location, form.description, form.itemType,
         reporter.id, if reporter.role == AdminRole then Approved else Pending, file, now)
  }

  // ---------------------------------------------------------------------------
  // Queries: `Item.find(filter).sort({ date: -1 })`
  // ---------------------------------------------------------------------------

  /** The filter documents the routes pass to `find`. */
  datatype Query = ByStatus(status: Status) | ByUser(user: string)

  predicate Matches(q: Query, it: Item)
  {
    match q
    case ByStatus(s) => it.status == s
    case ByUser(u) => it.user == u
  }

  /** Newest first: dates never increase along the sequence. */
  ghost predicate SortedByDateDesc(s: seq<Item>)
  {
    forall i, j :: 0 <= i < j < |s| ==> s[i].date >= s[j].date
  }

  /** The items of `s` that match `q`, in their original order. */
  function Filter(s: seq<Item>, q: Query): (r: seq<Item>)
    ensures forall x :: multiset(r)[x] == if Matches(q, x) then multiset(s)[x] else 0
  {
    if s == [] then []
    else
      assert s == [s[0]] + s[1..];
      (if Matches(q, s[0]) then [s[0]] else []) + Filter(s[1..], q)
  }

  /** Putting an item no older than the head of a sorted sequence in front
      keeps it sorted. */
  lemma SortedCons(h: Item, t: seq<Item>)
    requires SortedByDateDesc(t)
    requires t != [] ==> h.date >= t[0].date
    ensures SortedByDateDesc([h] + t)
  {
    var r := [h] + t;
    forall i, j | 0 <= i < j < |r| ensures r[i].date >= r[j].date {
      if i == 0 {
        assert r[j] == t[j - 1];
        assert t[0].date >= t[j - 1].date;
      } else {
        assert r[i] == t[i - 1] && r[j] == t[j - 1];
      }
    }
  }

  /** Places `x` in front of the first item of `s` that is not newer than it. */
  function Insert(x: Item, s: seq<Item>): (r: seq<Item>)
    requires SortedByDateDesc(s)
    ensures SortedByDateDesc(r)
    ensures multiset(r) == multiset(s) + multiset{x}
    ensures |r| == |s| + 1 && (r[0] == x || (s != [] && r[0] == s[0]))
  {
    if s == [] then [x]
    else if x.date >= s[0].date then
      SortedCons(x, s);
      [x] + s
    else
      var rest := Insert(x, s[1..]);
      assert rest[0].date <= s[0].date;
      SortedCons(s[0], rest);
      assert multiset(s) == multiset{s[0]} + multiset(s[1..]) by {
        assert s == [s[0]] + s[1..];
      }
      [s[0]] + rest
  }

  /** `sort({ date: -1 })`: the same items, newest first. */
  function SortByDateDesc(s: seq<Item>): (r: seq<Item>)
    ensures SortedByDateDesc(r)
    ensures multiset(r) == multiset(s)
  {
    if s == [] then []
    else
      assert s == [s[0]] + s[1..];
      Insert(s[0], SortByDateDesc(s[1..]))
  }

  /** `Item.find(q).sort({ date: -1 })` over the collection `docs`: exactly the
      matching items, each as often as it is stored, newest first. */
  function Find(docs: seq<Item>, q: Query): (r: seq<Item>)
    ensures SortedByDateDesc(r)
    ensures forall x :: multiset(r)[x] == if Matches(q, x) then multiset(docs)[x] else 0
    ensures forall x :: x in r <==> x in docs && Matches(q, x)
  {
    var r := SortByDateDesc(Filter(docs, q));
    assert forall x :: x in r <==> x in multiset(r);
    assert forall x :: x in docs <==> x in multiset(docs);
    r
  }

  /** GET /api/items/all: every Approved item, newest first; never a Pending or
      Claimed one. */
  function ListApproved(docs: seq<Item>): (r: seq<Item>)
    ensures SortedByDateDesc(r)
    ensures forall x :: multiset(r)[x] == if x.status == Approved then multiset(docs)[x] else 0
    ensures forall x :: x in r <==> x in docs && x.status == Approved
    ensures forall x :: x in r ==> x.status != Pending && x.status != Claimed
  {
    Find(docs, ByStatus(Approved))
  }

  /** GET /api/items/my-reports: every item the caller reported, whatever its
      status, newest first. */
  function ListOwn(docs: seq<Item>, userId: string): (r: seq<Item>)
    ensures SortedByDateDesc(r)
    ensures forall x :: multiset(r)[x] == if x.user == userId then multiset(docs)[x] else 0
    ensures forall x :: x in r <==> x in docs && x.user == userId
  {
    Find(docs, ByUser(userId))
  }

  /** GET /api/admin/pending-items: every Pending item, newest first. */
  function ListPending(docs: seq<Item>): (r: seq<Item>)
    ensures SortedByDateDesc(r)
    ensures forall x :: multiset(r)[x] == if x.status == Pending then multiset(docs)[x] else 0
    ensures forall x :: x in r <==> x in docs && x.status == Pending
  {
    Find(docs, ByStatus(Pending))
  }

  /** Filtering a collection with one more item at its end filters the old
      collection and then that item. */
  lemma {:induction false} FilterAppend(s: seq<Item>, x: Item, q: Query)
    ensures Filter(s + [x], q) == Filter(s, q) + (if Matches(q, x) then [x] else [])
  {
    if s == [] {
      assert s + [x] == [x];
    } else {
      var tail := if Matches(q, x) then [x] else [];
      var head := if Matches(q, s[0]) then [s[0]] else [];
      assert (s + [x])[0] == s[0];
      assert (s + [x])[1..] == s[1..] + [x];
      calc {
        Filter(s + [x], q);
        head + Filter(s[1..] + [x], q);
        { FilterAppend(s[1..], x, q); }
        head + (Filter(s[1..], q) + tail);
        (head + Filter(s[1..], q)) + tail;
        Filter(s, q) + tail;
      }
    }
  }

  /** A newly reported item changes each listing by exactly that item, and
      only the listing its status and reporter select. */
  lemma ReportedItemListings(docs: seq<Item>, it: Item)
    ensures multiset(ListApproved(docs + [it])) ==
              multiset(ListApproved(docs)) + (if it.status == Approved then multiset{it} else multiset{})
    ensures multiset(ListPending(docs + [it])) ==
              multiset(ListPending(docs)) + (if it.status == Pending then multiset{it} else multiset{})
    ensures multiset(ListOwn(docs + [it], it.user)) == multiset(ListOwn(docs, it.user)) + multiset{it}
  {
    FilterAppend(docs, it, ByStatus(Approved));
    FilterAppend(docs, it, ByStatus(Pending));
    FilterAppend(docs, it, ByUser(it.user));
  }

  /** Filtering by each of the three statuses splits a collection: every item
      lands in exactly one of the three parts. */
  lemma FilterByStatusPartition(s: seq<Item>)
    ensures multiset(Filter(s, ByStatus(Approved))) + multiset(Filter(s, ByStatus(Pending)))
            + multiset(Filter(s, ByStatus(Claimed))) == multiset(s)
  {
    var a, p, c := Filter(s, ByStatus(Approved)), Filter(s, ByStatus(Pending)), Filter(s, ByStatus(Claimed));
    forall x ensures (multiset(a) + multiset(p) + multiset(c))[x] == multiset(s)[x] {
      match x.status
      case Approved => assert multiset(p)[x] == 0 && multiset(c)[x] == 0;
      case Pending => assert multiset(a)[x] == 0 && multiset(c)[x] == 0;
      case Claimed => assert multiset(a)[x] == 0 && multiset(p)[x] == 0;
    }
  }

  /** Every stored item is in exactly one of the three status listings: the
      Approved listing, the Pending listing and the Claimed items together are
      the whole collection. */
  lemma StatusListingsPartition(docs: seq<Item>)
    ensures multiset(ListApproved(docs)) + multiset(ListPending(docs)) + multiset(Find(docs, ByStatus(Claimed)))
            == multiset(docs)
  {
    FilterByStatusPartition(docs);
  }

  // ---------------------------------------------------------------------------
  // Status overwrites: `item.status = ...; item.save()`
  // ---------------------------------------------------------------------------

  /** The collection after the item with id `id`, if there is one, has been
      given status `st`. */
  function WithStatus(m: map<ItemId, Item>, id: ItemId, st: Status): (m': map<ItemId, Item>)
    ensures m'.Keys == m.Keys
    ensures forall k :: k in m && k != id ==> m'[k] == m[k]
    ensures id in m ==> m'[id] == m[id].(status := st)
  {
    if id in m then m[id := m[id].(status := st)] else m
  }

  /** Overwriting a status twice with the same value is overwriting it once. */
  lemma WithStatusIdempotent(m: map<ItemId, Item>, id: ItemId, st: Status)
    ensures WithStatus(WithStatus(m, id, st), id, st) == WithStatus(m, id, st)
  {
  }

  /** The outcome does not depend on the status the item had before: there is
      no transition guard. */
  lemma WithStatusIgnoresPriorStatus(m: map<ItemId, Item>, id: ItemId, st: Status, prior: Status)
    requires id in m
    ensures WithStatus(m[id := m[id].(status := prior)], id, st) == WithStatus(m, id, st)
  {
  }

  /** Approve on a Claimed item puts it back to Approved, and claim on a Pending
      item skips approval. */
  lemma NoTransitionGuard(m: map<ItemId, Item>, id: ItemId)
    requires id in m
    ensures m[id].status == Claimed ==> WithStatus(m, id, Approved)[id].status == Approved
    ensures m[id].status == Pending ==> WithStatus(m, id, Claimed)[id].status == Claimed
  {
  }

  /** Where an approved or claimed item shows up afterwards: approving puts it
      in the general listing and takes it out of the pending one; claiming
      takes it out of both; it stays in its reporter's own listing. */
  lemma StatusOverwriteListings(docs: seq<Item>, i: nat, st: Status)
    requires i < |docs|
    ensures var it := docs[i].(status := st);
            var docs' := docs[i := it];
            && (it in ListApproved(docs') <==> st == Approved)
            && (it in ListPending(docs') <==> st == Pending)
            && it in ListOwn(docs', docs[i].user)
  {
    var docs' := docs[i := docs[i].(status := st)];
    assert docs'[i] == docs[i].(status := st);
  }

  // ---------------------------------------------------------------------------
  // The store
  // ---------------------------------------------------------------------------

  /** The documents with ids 0 .. n-1, in the order they were saved. */
  function Collection(m: map<ItemId, Item>, n: nat): (docs: seq<Item>)
    requires forall k: nat :: k < n ==> k in m
    ensures |docs| == n
    ensures forall k: nat :: k < n ==> docs[k] == m[k]
  {
    seq(n, k requires 0 <= k < n => m[k])
  }

  /** The item collection. Ids are handed out in order and items are never
      deleted, so the stored ids are exactly 0 .. nextId-1. */
  class ItemStore {
    var items: map<ItemId, Item>
    var nextId: ItemId

    ghost predicate Valid()
      reads this
    {
      && (forall k: nat :: k in items <==> k < nextId)
      && (forall k :: k in items ==> items[k].id == k)
    }

    constructor ()
      ensures Valid() && items == map[] && nextId == 0
    {
      items := map[];
      nextId := 0;
    }

    /** The whole collection, oldest first. */
    function Documents(): (docs: seq<Item>)
      reads this
      requires Valid()
      ensures |docs| == nextId
      ensures forall k: nat :: k < nextId ==> docs[k] == items[k]
    {
      Collection(items, nextId)
    }

    /** `new Item({...})`, the two conditional assignments, then `save`: adds
        exactly one item under a fresh id and leaves every stored item as it was. */
    method Report(form: ReportForm, reporter: Claim, file: Option<string>, now: int) returns (saved: Item)
      requires Valid()
      modifies this
      ensures Valid()
      ensures saved == NewItem(old(nextId), form, reporter, file, now)
      ensures saved.id !in old(items)
      ensures items == old(items)[saved.id := saved] && nextId == old(nextId) + 1
      ensures Documents() == old(Documents()) + [saved]
    {
      var item := Item(nextId, form.itemName, form.category, form.location, form.description,
                       form.itemType, reporter.id, Pending, None, now);
      if reporter.role == AdminRole {
        item := item.(status := Approved);
      }
      if file.Some? {
        item := item.(image := file);
      }
      items := items[nextId := item];
      nextId := nextId + 1;
      saved := item;
    }

    /** `findById`, then overwrite the status and `save`. Nothing happens when
        the id is not stored. */
    method Overwrite(id: ItemId, st: Status) returns (found: Option<Item>)
      requires Valid()
      modifies this
      ensures Valid() && nextId == old(nextId)
      ensures items == WithStatus(old(items), id, st)
      ensures found.Some? <==> id in old(items)
      ensures found.Some? ==> found.value == old(items)[id].(status := st)
      ensures found.None? ==> items == old(items)
      ensures found.Some? ==> Documents() == old(Documents())[id := found.value]
    {
      if id !in items {
        return None;
      }
      var item := items[id];
      item := item.(status := st);
      items := items[id := item];
      found := Some(item);
    }

    /** PUT /api/admin/approve-item/:id after the gates: the item, whatever
        its status, becomes Approved. */
    method Approve(id: ItemId) returns (found: Option<Item>)
      requires Valid()
      modifies this
      ensures Valid() && nextId == old(nextId)
      ensures items == WithStatus(old(items), id, Approved)
      ensures found.Some? <==> id in old(items)
      ensures found.Some? ==> found.value == old(items)[id].(status := Approved)
      ensures found.Some? ==> Documents() == old(Documents())[id := found.value]
    {
      found := Overwrite(id, Approved);
    }

    /** PUT /api/admin/claim-item/:id after the gates: the item, whatever its
        status, becomes Claimed. */
    method Claim(id: ItemId) returns (found: Option<Item>)
      requires Valid()
      modifies this
      ensures Valid() && nextId == old(nextId)
      ensures items == WithStatus(old(items), id, Claimed)
      ensures found.Some? <==> id in old(items)
      ensures found.Some? ==> found.value == old(items)[id].(status := Claimed)
      ensures found.Some? ==> Documents() == old(Documents())[id := found.value]
    {
      found := Overwrite(id, Claimed);
    }
  }
}
