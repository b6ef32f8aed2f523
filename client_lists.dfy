/**
 * The dashboards' client-side lists: a manager keeps the records the server returned, appends a
 * record when the server confirms its creation, and drops records by id after a confirmed delete.
 */
module ClientLists {

  /** A record as the server returned it: its id and its other JSON fields. */
  datatype Item = Item(id: int, fields: map<string, string>)

  /** `list.filter(n => n.id !== id)` */
  function WithoutId(items: seq<Item>, id: int): (r: seq<Item>)
    ensures |r| <= |items|
    ensures forall x :: x in r <==> x in items && x.id != id
  {
    if items == [] then []
    else (if items[0].id == id then [] else [items[0]]) + WithoutId(items[1..], id)
  }

  /** Filtering distributes over concatenation, so the survivors keep their relative order. */
  lemma {:induction false} WithoutIdAppend(a: seq<Item>, b: seq<Item>, id: int)
    ensures WithoutId(a + b, id) == WithoutId(a, id) + WithoutId(b, id)
  {
    if a == [] {
      assert a + b == b;
    } else {
      assert (a + b)[1..] == a[1..] + b;
      WithoutIdAppend(a[1..], b, id);
    }
  }

  /** How many entries carry `id`. */
  function CountId(items: seq<Item>, id: int): nat {
    if items == [] then 0 else (if items[0].id == id then 1 else 0) + CountId(items[1..], id)
  }

  /** Exactly the entries with that id go: the list shrinks by their number. */
  lemma {:induction false} WithoutIdLength(items: seq<Item>, id: int)
    ensures |WithoutId(items, id)| == |items| - CountId(items, id)
  {
    if items != [] {
      WithoutIdLength(items[1..], id);
    }
  }

  /** A list without that id is left as it is. */
  lemma {:induction false} WithoutAbsentId(items: seq<Item>, id: int)
    requires forall i :: 0 <= i < |items| ==> items[i].id != id
    ensures WithoutId(items, id) == items
  {
    if items != [] {
      WithoutAbsentId(items[1..], id);
    }
  }

  /**
   * One manager's list (users, courses, announcements, assignments). These managers only add to
   * their lists; the one delete flow is the notification manager's.
   */
  class ItemList {
    var items: seq<Item>

    constructor (loaded: seq<Item>)
      ensures items == loaded
    {
      items := loaded;
    }

    /** `this.items.push(created)` on a successful response; nothing on a failed one. */
    method Created(ok: bool, created: Item)
      modifies this
      ensures ok ==> items == old(items) + [created]
      ensures !ok ==> items == old(items)
    {
      if ok {
        items := items + [created];
      }
    }
  }
}
