/** Replacing the item list of an order in memory: the old items are retired, the new ones are added, and the
    retired ones are tagged with the history record of the edit. */
module Replacement {
  import opened Prelude
  import opened OrderStatus
  import opened Items
  import opened Signatures
  import opened Orders
  import opened Effects
  import opened ServiceOrders
  import opened Orchestration

  function RetiredItem(item: Item, now: Time): Item {
    if item.Deleted() then item else item.(deletedAt := Some(now))
  }

  function TaggedItem(item: Item, history: string): Item {
    if item.Deleted() && item.historyId.None? then item.(historyId := Some(history)) else item
  }

  /** Every live item is soft-deleted. */
  function Retired(items: seq<Item>, now: Time): (r: seq<Item>)
    ensures |r| == |items| && forall i | 0 <= i < |items| :: r[i] == RetiredItem(items[i], now)
  {
    seq(|items|, i requires 0 <= i < |items| => RetiredItem(items[i], now))
  }

  /** Every deleted item that belongs to no history record yet gets this one. */
  function Tagged(items: seq<Item>, history: string): (r: seq<Item>)
    ensures |r| == |items| && forall i | 0 <= i < |items| :: r[i] == TaggedItem(items[i], history)
  {
    seq(|items|, i requires 0 <= i < |items| => TaggedItem(items[i], history))
  }

  ghost predicate AllDeleted(items: seq<Item>) {
    forall i | 0 <= i < |items| :: items[i].Deleted()
  }

  ghost predicate AllLive(items: seq<Item>) {
    forall i | 0 <= i < |items| :: !items[i].Deleted()
  }

  lemma {:induction false} AddOnePastDeleted(gone: seq<Item>, items: seq<Item>, item: Item)
    requires AllDeleted(gone)
    ensures AddOne(gone + items, item) == match AddOne(items, item) case Ok(r) => Ok(gone + r) case Err(e) => Err(e)
  {
    if gone == [] {
      assert gone + items == items;
      if AddOne(items, item).Ok? {
        assert gone + AddOne(items, item).value == AddOne(items, item).value;
      }
    } else {
      assert forall i | 0 <= i < |gone[1..]| :: gone[1..][i] == gone[i + 1];
      assert (gone + items)[0] == gone[0] && (gone + items)[1..] == gone[1..] + items;
      AddOnePastDeleted(gone[1..], items, item);
      if AddOne(items, item).Ok? {
        assert [gone[0]] + (gone[1..] + AddOne(items, item).value) == gone + AddOne(items, item).value;
      }
    }
  }

  /** Deleted items do not take part in adding. */
  lemma {:induction false} AddAllPastDeleted(gone: seq<Item>, items: seq<Item>, adds: seq<Item>)
    requires AllDeleted(gone)
    ensures AddAll(gone + items, adds) == match AddAll(items, adds) case Ok(r) => Ok(gone + r) case Err(e) => Err(e)
    decreases |adds|
  {
    if adds != [] {
      AddOnePastDeleted(gone, items, adds[0]);
      if AddOne(items, adds[0]).Ok? {
        AddAllPastDeleted(gone, AddOne(items, adds[0]).value, adds[1..]);
      }
    }
  }

  lemma {:induction false} ActiveOfConcat(a: seq<Item>, b: seq<Item>)
    ensures Active(a + b) == Active(a) + Active(b)
  {
    if a == [] {
      assert a + b == b;
    } else {
      assert (a + b)[1..] == a[1..] + b;
      ActiveOfConcat(a[1..], b);
    }
  }

  lemma {:induction false} ActiveOfUniform(a: seq<Item>)
    ensures AllDeleted(a) ==> Active(a) == []
    ensures AllLive(a) ==> Active(a) == a
  {
    if a != [] {
      assert forall i | 0 <= i < |a[1..]| :: a[1..][i] == a[i + 1];
      ActiveOfUniform(a[1..]);
    }
  }

  lemma {:induction false} IdentifiedOfConcat(a: seq<Item>, b: seq<Item>, ids: seq<string>)
    requires forall i | 0 <= i < |a| :: a[i].id != ""
    ensures Identified(a + b, ids) == a + Identified(b, ids)
  {
    if a == [] {
      assert a + b == b && a + Identified(b, ids) == Identified(b, ids);
    } else {
      assert forall i | 0 <= i < |a[1..]| :: a[1..][i] == a[i + 1];
      assert (a + b)[1..] == a[1..] + b;
      IdentifiedOfConcat(a[1..], b, ids);
    }
  }

  lemma {:induction false} IdentifiedIsTidy(items: seq<Item>, ids: seq<string>)
    requires AllLive(items) && |ids| >= |items| && forall i | 0 <= i < |ids| :: ids[i] != ""
    ensures |Identified(items, ids)| == |items| && AllLive(Identified(items, ids))
    ensures forall i | 0 <= i < |items| :: Identified(items, ids)[i].id != ""
  {
    if items != [] {
      assert forall i | 0 <= i < |items[1..]| :: items[1..][i] == items[i + 1];
      if items[0].id == "" && ids != [] {
        assert forall i | 0 <= i < |ids[1..]| :: ids[1..][i] == ids[i + 1];
        IdentifiedIsTidy(items[1..], ids[1..]);
        var rest := Identified(items[1..], ids[1..]);
        assert forall i | 0 < i < |items| :: ([items[0].(id := ids[0])] + rest)[i] == rest[i - 1];
      } else {
        IdentifiedIsTidy(items[1..], ids);
        var rest := Identified(items[1..], ids);
        assert forall i | 0 < i < |items| :: ([items[0]] + rest)[i] == rest[i - 1];
      }
    }
  }

  lemma {:induction false} AddOneOfLive(items: seq<Item>, item: Item)
    requires AllLive(items) && !item.Deleted() && AddOne(items, item).Ok?
    ensures AllLive(AddOne(items, item).value) && |AddOne(items, item).value| <= |items| + 1
  {
    if items != [] && items[0].Key() != item.Key() {
      assert forall i | 0 <= i < |items[1..]| :: items[1..][i] == items[i + 1];
      AddOneOfLive(items[1..], item);
    }
  }

  lemma {:induction false} AddAllOfLive(items: seq<Item>, adds: seq<Item>)
    requires AllLive(items) && AllLive(adds) && AddAll(items, adds).Ok?
    ensures AllLive(AddAll(items, adds).value) && |AddAll(items, adds).value| <= |items| + |adds|
    decreases |adds|
  {
    if adds != [] {
      assert forall i | 0 <= i < |adds[1..]| :: adds[1..][i] == adds[i + 1];
      AddOneOfLive(items, adds[0]);
      AddAllOfLive(AddOne(items, adds[0]).value, adds[1..]);
    }
  }

  /** The list in memory after a replacement: the tagged old items, followed by the new ones. */
  function Replaced(before: seq<Item>, added: seq<Item>, now: Time, history: string): seq<Item> {
    Tagged(Retired(before, now) + added, history)
  }

  /** What a replacement amounts to. All old items stay in the list, deleted and tagged with the history
      record; the new items are untouched, they alone are live, and the comparison with the old list and
      the stored order see nothing else. */
  lemma ReplacementMeaning(before: seq<Item>, added: seq<Item>, now: Time, history: string, ids: seq<string>)
    requires AllLive(before) && AllLive(added)
    requires forall i | 0 <= i < |before| :: before[i].id != ""
    ensures var list := Replaced(before, added, now, history);
      && |list| == |before| + |added|
      && (forall i | 0 <= i < |before| ::
            list[i] == before[i].(deletedAt := Some(now), historyId := OrElse(before[i].historyId, Some(history))))
      && list[|before|..] == added
      && Active(list) == added
      && Active(Identified(list, ids)) == Active(Identified(added, ids))
  {
    var list := Replaced(before, added, now, history);
    var gone := list[..|before|];
    assert AllDeleted(gone);
    assert list == gone + added;
    LiveAfterDeleted(gone, added, ids);
  }

  lemma LiveAfterDeleted(gone: seq<Item>, items: seq<Item>, ids: seq<string>)
    requires AllDeleted(gone) && AllLive(items)
    requires forall i | 0 <= i < |gone| :: gone[i].id != ""
    ensures Active(gone + items) == items
    ensures Active(Identified(gone + items, ids)) == Active(Identified(items, ids))
  {
    ActiveOfUniform(gone);
    ActiveOfUniform(items);
    ActiveOfConcat(gone, items);
    IdentifiedOfConcat(gone, items, ids);
    ActiveOfConcat(gone, Identified(items, ids));
  }

  lemma ComparisonSeesLiveItems(before: seq<Item>, a: seq<Item>, b: seq<Item>)
    requires Active(a) == Active(b)
    ensures ItemsChanged(before, a) == ItemsChanged(before, b)
  {
  }

  /** The copy in memory after an edit: with new items, the old ones are still in the list, retired. */
  function EditedInMemory(o: Order, edit: Edit, now: Time): Result<Order> {
    match EditFields(o, edit)
    case Err(e) => Err(e)
    case Ok(fields) =>
      match EditItems(o, edit)
      case Err(e) => Err(e)
      case Ok(items) => Ok(fields.(items := if edit.items.Some? then Retired(o.items, now) + items else o.items))
  }

  /** In memory and in the storage an edit fails alike. */
  lemma EditsAgree(o: Order, edit: Edit, ids: seq<string>, now: Time)
    ensures match (Edited(o, edit, ids), EditedInMemory(o, edit, now))
            case (Ok(a), Ok(b)) => a.(items := []) == b.(items := []) && a.id == o.id && EditItems(o, edit).Ok?
            case (Err(e), Err(e')) => e == e'
            case _ => false
  {
  }
}
