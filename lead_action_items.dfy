/** Action items on a lead: add, toggle, delete, and the open-first, newest-first list. */
module LeadActionItems {
  import opened Wrappers
  import opened Text
  import opened Lists
  import opened AdminTypes
  import opened LeadStore
  import opened Dashboard

  /** Every action-item write replaces the whole list and stamps the server's update time. */
  function ItemsWrite(items: seq<ActionItem>): (w: Document)
    ensures w.Keys == {"actionItems", "updatedAt"}
    ensures w["actionItems"] == ItemList(items) && w["updatedAt"] == ServerTimestamp
  {
    map["actionItems" := ItemList(items), "updatedAt" := ServerTimestamp]
  }

  /**
   * After an action-item write the lead's list is exactly the list written
   * (whatever the store held before), the update time is the server's, and
   * nothing else changes.
   */
  lemma ItemsWriteEffect(id: string, d: Document, items: seq<ActionItem>, now: int)
    ensures var before, after := ToLead(id, d), ToLead(id, Merge(d, ItemsWrite(items), now));
      after == before.(actionItems := items, updatedAt := Some(now))
  {
  }

  /** `toggleItem`'s list: every item with the id has its completion flipped. */
  function ToggleItem(items: seq<ActionItem>, itemId: string): (r: seq<ActionItem>)
    ensures |r| == |items|
    ensures forall i :: 0 <= i < |items| ==>
      r[i].id == items[i].id && r[i].text == items[i].text && r[i].createdAt == items[i].createdAt
      && (r[i].completed != items[i].completed <==> items[i].id == itemId)
  {
    seq(|items|, i requires 0 <= i < |items| =>
      if items[i].id == itemId then items[i].(completed := !items[i].completed) else items[i])
  }

  /** Toggling the same item twice restores the list. */
  lemma ToggleTwice(items: seq<ActionItem>, itemId: string)
    ensures ToggleItem(ToggleItem(items, itemId), itemId) == items
  {
    var r := ToggleItem(ToggleItem(items, itemId), itemId);
    assert forall i :: 0 <= i < |items| ==> r[i] == items[i];
  }

  /** Toggling an id no item has leaves the list as it was. */
  lemma ToggleAbsent(items: seq<ActionItem>, itemId: string)
    requires forall i :: 0 <= i < |items| ==> items[i].id != itemId
    ensures ToggleItem(items, itemId) == items
  {
    var r := ToggleItem(items, itemId);
    assert forall i :: 0 <= i < |items| ==> r[i] == items[i];
  }

  /** The test "is not the item with id `itemId`". */
  function OtherThan(itemId: string): ActionItem -> bool {
    (a: ActionItem) => a.id != itemId
  }

  /** `deleteItem`'s list. */
  function RemoveItem(items: seq<ActionItem>, itemId: string): (r: seq<ActionItem>)
    ensures |r| <= |items| && forall i :: 0 <= i < |r| ==> r[i].id != itemId
  {
    Filter(items, OtherThan(itemId))
  }

  /** Deleting removes exactly the items with the id and keeps the rest in order. */
  lemma RemoveItemSpec(items: seq<ActionItem>, itemId: string)
    ensures forall a :: a in RemoveItem(items, itemId) ==> a.id != itemId
    ensures forall a: ActionItem :: a.id != itemId ==> multiset(RemoveItem(items, itemId))[a] == multiset(items)[a]
    ensures IsSubsequence(RemoveItem(items, itemId), items)
    ensures (forall i :: 0 <= i < |items| ==> items[i].id != itemId) ==> RemoveItem(items, itemId) == items
  {
    FilterIsSubsequence(items, OtherThan(itemId));
    if forall i :: 0 <= i < |items| ==> items[i].id != itemId {
      FilterKeepsAll(items, OtherThan(itemId));
    }
  }

  /**
   * The display comparator: an open item goes before a completed one, and
   * among items alike in that, the newer goes first (no time counts as 0).
   */
  function OpenThenNewest(): (ActionItem, ActionItem) -> bool {
    (a: ActionItem, b: ActionItem) =>
      if a.completed != b.completed then !a.completed
      else Millis(b.createdAt) <= Millis(a.createdAt)
  }

  lemma OpenThenNewestIsTotalPreorder()
    ensures TotalPreorder(OpenThenNewest())
  {
  }

  /** The displayed list: open items first, then newest first, a missing time counting as 0. */
  function SortedItems(items: seq<ActionItem>): (r: seq<ActionItem>)
    ensures |r| == |items| && multiset(r) == multiset(items)
  {
    Sort(items, OpenThenNewest())
  }

  /**
   * The displayed list holds exactly the lead's items; every open item comes
   * before every completed one; items alike in completion are newest first;
   * and items tied on both keep their stored order.
   */
  lemma SortedItemsSpec(items: seq<ActionItem>)
    ensures multiset(SortedItems(items)) == multiset(items)
    ensures forall i, j :: 0 <= i < j < |SortedItems(items)| && SortedItems(items)[i].completed ==>
      SortedItems(items)[j].completed
    ensures forall i, j ::
      (0 <= i < j < |SortedItems(items)| && SortedItems(items)[i].completed == SortedItems(items)[j].completed) ==>
      Millis(SortedItems(items)[j].createdAt) <= Millis(SortedItems(items)[i].createdAt)
    ensures forall k :: Filter(SortedItems(items), TiedWith(OpenThenNewest(), k)) == Filter(items, TiedWith(OpenThenNewest(), k))
  {
    OpenThenNewestIsTotalPreorder();
    SortSorted(items, OpenThenNewest());
    forall k {
      SortStable(items, OpenThenNewest(), k);
    }
  }

  /** The action-item editor of one lead's panel. */
  class ItemsEditor {
    const leadId: string
    var text: string
    var saving: bool

    constructor (leadId: string)
      ensures this.leadId == leadId && text == "" && !saving
    {
      this.leadId := leadId;
      text := "";
      saving := false;
    }

    predicate CanAdd()
      reads this
    {
      Trim(text) != "" && !saving
    }

    /**
     * `addItem`: with a non-blank draft and no write in flight, writes the
     * panel's list followed by an open item holding the trimmed draft. The
     * draft is cleared only when the write succeeds.
     */
    method AddItem(store: Store, items: seq<ActionItem>, newId: string, clientNow: int, serverNow: int, fail: bool)
      returns (written: bool)
      modifies this`text, this`saving, store
      ensures written == (old(CanAdd()) && !fail && leadId in old(store.docs))
      ensures store.docs == if written
        then old(store.docs)[leadId := Merge(old(store.docs)[leadId],
               ItemsWrite(items + [ActionItem(newId, Trim(old(text)), false, Some(clientNow))]), serverNow)]
        else old(store.docs)
      ensures text == if written then "" else old(text)
      ensures saving == old(saving)
    {
      var trimmed := Trim(text);
      if trimmed == "" || saving {
        return false;
      }
      saving := true;
      var item := ActionItem(newId, trimmed, false, Some(clientNow));
      written := store.Update(leadId, ItemsWrite(items + [item]), serverNow, fail);
      if written {
        text := "";
      }
      saving := false;
    }

    /** `toggleItem`. */
    method ToggleItemAt(store: Store, items: seq<ActionItem>, itemId: string, serverNow: int, fail: bool)
      returns (written: bool)
      modifies store
      ensures written == (!fail && leadId in old(store.docs))
      ensures store.docs == if written
        then old(store.docs)[leadId := Merge(old(store.docs)[leadId], ItemsWrite(ToggleItem(items, itemId)), serverNow)]
        else old(store.docs)
    {
      written := store.Update(leadId, ItemsWrite(ToggleItem(items, itemId)), serverNow, fail);
    }

    /** `deleteItem`. */
    method DeleteItem(store: Store, items: seq<ActionItem>, itemId: string, serverNow: int, fail: bool)
      returns (written: bool)
      modifies store
      ensures written == (!fail && leadId in old(store.docs))
      ensures store.docs == if written
        then old(store.docs)[leadId := Merge(old(store.docs)[leadId], ItemsWrite(RemoveItem(items, itemId)), serverNow)]
        else old(store.docs)
    {
      written := store.Update(leadId, ItemsWrite(RemoveItem(items, itemId)), serverNow, fail);
    }
  }
}
