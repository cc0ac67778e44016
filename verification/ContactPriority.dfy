/** The stand-alone contact-method priority list (components/ContactMethodsPriority.tsx). */
module ContactPriority {
  import opened Wrappers
  import Reorder

  datatype Item = Item(id: string, content: string)

  function InitialItems(): seq<Item> {
    [Item("phone", "电话"), Item("email", "邮件"), Item("sms", "短信")]
  }

  /** The ids of a list, in order. */
  function Ids(items: seq<Item>): (ids: seq<string>)
    ensures |ids| == |items|
    ensures forall i :: 0 <= i < |items| ==> ids[i] == items[i].id
  {
    if items == [] then [] else [items[0].id] + Ids(items[1..])
  }

  /** The list starts as phone, e-mail, SMS. */
  lemma InitialOrder()
    ensures Ids(InitialItems()) == ["phone", "email", "sms"]
  {
  }

  /** Reordering the items reorders their ids the same way. */
  lemma IdsMoved(items: seq<Item>, source: nat, destination: nat)
    requires source < |items| && destination < |items|
    ensures Ids(Reorder.Moved(items, source, destination)) == Reorder.Moved(Ids(items), source, destination)
  {
    var l, r := Ids(Reorder.Moved(items, source, destination)), Reorder.Moved(Ids(items), source, destination);
    forall k | 0 <= k < |items| ensures l[k] == r[k] {
      Reorder.MovedAt(items, source, destination, k);
      Reorder.MovedAt(Ids(items), source, destination, k);
    }
  }

  /** A drag keeps the multiset of ids: it is a permutation. */
  lemma DragKeepsIds(items: seq<Item>, source: nat, destination: nat)
    requires source < |items| && destination < |items|
    ensures multiset(Ids(Reorder.Moved(items, source, destination))) == multiset(Ids(items))
  {
    IdsMoved(items, source, destination);
    Reorder.MovedPermutation(Ids(items), source, destination);
  }

  class ContactMethodsPriority {
    var items: seq<Item>

    constructor ()
      ensures items == InitialItems()
    {
      items := InitialItems();
    }

    /** A finished drag: without a destination nothing changes; otherwise the list is reordered in a copy. */
    method OnDragEnd(source: nat, destination: Option<nat>)
      requires source < |items|
      requires destination.Some? ==> destination.value < |items|
      modifies this
      ensures destination.None? ==> items == old(items)
      ensures destination.Some? ==> items == Reorder.Moved(old(items), source, destination.value)
    {
      if destination.None? {
        return;
      }
      var current := items;
      var newItems := new Item[|current|](i requires 0 <= i < |current| => current[i]);
      assert newItems[..] == current;
      Reorder.MoveInPlace(newItems, source, destination.value);
      items := newItems[..];
    }
  }
}
