/** Order items as values: adding with merging of duplicates, product lines, totals. */
module Items {
  import opened Prelude

  datatype ItemType = Product | Service

  datatype Item = Item(
    id: string,
    orderId: string,
    historyId: Option<string>,
    itemType: ItemType,
    reference: string,
    name: string,
    quantity: int,
    unitPrice: int,
    deletedAt: Option<Time>)
  {
    predicate Deleted() { deletedAt.Some? }

    function Subtotal(): int { quantity * unitPrice }

    function Key(): (ItemType, string) { (itemType, reference) }
  }

  type Key = (ItemType, string)

  /** A new item, checked field by field in the order the constructor checks them. */
  function NewItem(orderId: string, itemType: ItemType, reference: string, name: string, quantity: int,
                   unitPrice: int): Result<Item> {
    if reference == "" then Err(InvalidReferenceId)
    else if name == "" then Err(InvalidItemName)
    else if quantity <= 0 then Err(InvalidQuantity)
    else if unitPrice <= 0 then Err(InvalidUnitPrice)
    else Ok(Item("", orderId, None, itemType, reference, name, quantity, unitPrice, None))
  }

  /** The item has no identity yet and belongs to no history record. */
  predicate IsNew(item: Item) { item.id == "" && item.historyId.None? }

  /** One requested item with what the catalogue answers about it: an unknown type, or no catalogue
      entry, is `None`. */
  datatype ItemInput = ItemInput(
    itemType: Option<ItemType>,
    reference: string,
    quantity: int,
    details: Option<(string, int)>)

  /** Builds the requested items, in their order, or reports the first error. */
  function BuildItems(orderId: string, inputs: seq<ItemInput>): Result<seq<Item>> {
    if inputs == [] then Ok([])
    else if inputs[0].itemType.None? then Err(InvalidItemType)
    else if inputs[0].details.None? then Err(LookupFailed)
    else
      match NewItem(orderId, inputs[0].itemType.value, inputs[0].reference,
                    inputs[0].details.value.0, inputs[0].quantity, inputs[0].details.value.1)
      case Err(e) => Err(e)
      case Ok(item) =>
        match BuildItems(orderId, inputs[1..])
        case Err(e) => Err(e)
        case Ok(rest) => Ok([item] + rest)
  }

  function Active(items: seq<Item>): seq<Item> {
    if items == [] then []
    else if items[0].Deleted() then Active(items[1..])
    else [items[0]] + Active(items[1..])
  }

  /** Adds one item: the first live item with the same type and reference absorbs its quantity,
      otherwise the item goes to the end. */
  function AddOne(items: seq<Item>, item: Item): Result<seq<Item>> {
    if items == [] then
      Ok([item])
    else if !items[0].Deleted() && items[0].Key() == item.Key() then
      if items[0].quantity + item.quantity <= 0 then
        Err(InvalidQuantity)
      else
        Ok([items[0].(quantity := items[0].quantity + item.quantity)] + items[1..])
    else
      match AddOne(items[1..], item)
      case Ok(rest) => Ok([items[0]] + rest)
      case Err(e) => Err(e)
  }

  /** Adds the items one after the other, stopping at the first error. */
  function AddAll(items: seq<Item>, adds: seq<Item>): Result<seq<Item>>
    decreases |adds|
  {
    if adds == [] then Ok(items)
    else
      match AddOne(items, adds[0])
      case Ok(items') => AddAll(items', adds[1..])
      case Err(e) => Err(e)
  }

  /** The first live item with the identity is changed by `f`. */
  function ChangeFirst(items: seq<Item>, id: string, f: Item -> Item): Result<seq<Item>> {
    if items == [] then Err(ItemNotFound)
    else if items[0].id == id && !items[0].Deleted() then Ok([f(items[0])] + items[1..])
    else
      match ChangeFirst(items[1..], id, f)
      case Ok(rest) => Ok([items[0]] + rest)
      case Err(e) => Err(e)
  }

  // The meaning of an item list: per key, the total quantity and the first live item.

  function QuantityOf(items: seq<Item>, k: Key): int {
    if items == [] then 0
    else (if !items[0].Deleted() && items[0].Key() == k then items[0].quantity else 0) + QuantityOf(items[1..], k)
  }

  function FirstOf(items: seq<Item>, k: Key): Option<Item> {
    if items == [] then None
    else if !items[0].Deleted() && items[0].Key() == k then Some(items[0])
    else FirstOf(items[1..], k)
  }

  /** At most one live item per type and reference. */
  ghost predicate OnePerKey(items: seq<Item>) {
    forall i, j | 0 <= i < j < |items| && !items[i].Deleted() && !items[j].Deleted() ::
      items[i].Key() != items[j].Key()
  }

  /** What every item built by NewItem satisfies. */
  predicate Sellable(item: Item) {
    !item.Deleted() && item.quantity > 0 && item.unitPrice > 0
  }

  ghost predicate AllSellable(items: seq<Item>) {
    forall i | 0 <= i < |items| :: Sellable(items[i])
  }

  predicate Positive(items: seq<Item>) {
    forall i | 0 <= i < |items| && !items[i].Deleted() :: items[i].quantity > 0
  }

  /** What every stored item list satisfies. */
  ghost predicate Sound(items: seq<Item>) { OnePerKey(items) && Positive(items) }

  /** The same item, possibly with another quantity. */
  predicate SameButQuantity(a: Option<Item>, b: Option<Item>) {
    match (a, b)
    case (None, None) => true
    case (Some(x), Some(y)) => x.(quantity := 0) == y.(quantity := 0)
    case _ => false
  }

  function TotalAmount(items: seq<Item>): int {
    if items == [] then 0
    else (if items[0].Deleted() then 0 else items[0].Subtotal()) + TotalAmount(items[1..])
  }

  lemma {:induction false} NoFirstNoQuantity(items: seq<Item>, k: Key)
    ensures FirstOf(items, k).None? <==> forall i | 0 <= i < |items| && !items[i].Deleted() :: items[i].Key() != k
    ensures FirstOf(items, k).None? ==> QuantityOf(items, k) == 0
    ensures FirstOf(items, k).Some? ==> FirstOf(items, k).value.Key() == k
  {
    if items != [] {
      NoFirstNoQuantity(items[1..], k);
      assert forall i | 0 < i < |items| :: items[i] == items[1..][i - 1];
    }
  }

  /** Adding one item: it succeeds, the quantity of its key grows by exactly its quantity, the key keeps
      the item it had (price, name and identity included) and nothing else changes. The total grows by
      the added quantity times the price that was kept. */
  lemma {:induction false} AddOneMeaning(items: seq<Item>, item: Item, k: Key)
    requires Positive(items) && !item.Deleted() && item.quantity > 0
    ensures AddOne(items, item).Ok?
    ensures var r := AddOne(items, item).value;
      && Positive(r)
      && QuantityOf(r, k) == QuantityOf(items, k) + (if k == item.Key() then item.quantity else 0)
      && SameButQuantity(FirstOf(r, k), OrElse(FirstOf(items, k), if k == item.Key() then Some(item) else None))
      && TotalAmount(r) ==
        TotalAmount(items) + item.quantity * OrElse(FirstOf(items, item.Key()), Some(item)).value.unitPrice
  {
    if items != [] {
      if !items[0].Deleted() && items[0].Key() == item.Key() {
        var grown := items[0].(quantity := items[0].quantity + item.quantity);
        var r := [grown] + items[1..];
        assert r[1..] == items[1..];
        assert grown.Subtotal() == items[0].Subtotal() + item.quantity * items[0].unitPrice;
      } else {
        AddOneMeaning(items[1..], item, k);
        var rest := AddOne(items[1..], item).value;
        assert ([items[0]] + rest)[1..] == rest;
      }
    } else {
      assert [item][1..] == [];
    }
  }

  lemma {:induction false} AddOneKeepsKeysApart(items: seq<Item>, item: Item)
    requires OnePerKey(items) && AddOne(items, item).Ok?
    ensures OnePerKey(AddOne(items, item).value)
    ensures forall x | x in AddOne(items, item).value ::
      !x.Deleted() ==> x.Key() == item.Key() || exists y | y in items :: !y.Deleted() && y.Key() == x.Key()
  {
    if items != [] && (items[0].Deleted() || items[0].Key() != item.Key()) {
      assert OnePerKey(items[1..]) by {
        forall i, j | 0 <= i < j < |items[1..]| && !items[1..][i].Deleted() && !items[1..][j].Deleted()
          ensures items[1..][i].Key() != items[1..][j].Key()
        {
          assert items[1..][i] == items[i + 1] && items[1..][j] == items[j + 1];
        }
      }
      AddOneKeepsKeysApart(items[1..], item);
      var rest := AddOne(items[1..], item).value;
      var r := [items[0]] + rest;
      forall j | 0 < j < |r| && !r[0].Deleted() && !r[j].Deleted()
        ensures r[0].Key() != r[j].Key()
      {
        assert r[j] == rest[j - 1] && rest[j - 1] in rest;
      }
    } else if items != [] {
      var r := AddOne(items, item).value;
      assert forall i | 0 < i < |r| :: r[i] == items[i];
      assert r[0].Key() == items[0].Key();
      assert forall i | 0 <= i < |r| :: items[i] in items;
    }
  }

  /** Adding any list of new items to any list that has at most one live item per key: the fold
      succeeds and still has at most one live item per key; per key the quantity is the sum over both
      lists, and the item kept is the one already there, or else the first added one. */
  lemma {:induction false} AddAllMeaning(items: seq<Item>, adds: seq<Item>, k: Key)
    requires Positive(items) && OnePerKey(items) && AllSellable(adds)
    ensures AddAll(items, adds).Ok?
    ensures var r := AddAll(items, adds).value;
      && OnePerKey(r)
      && Positive(r)
      && QuantityOf(r, k) == QuantityOf(items, k) + QuantityOf(adds, k)
      && SameButQuantity(FirstOf(r, k), OrElse(FirstOf(items, k), FirstOf(adds, k)))
    decreases |adds|
  {
    if adds != [] {
      assert Sellable(adds[0]);
      AddOneMeaning(items, adds[0], k);
      AddOneKeepsKeysApart(items, adds[0]);
      AddAllMeaning(AddOne(items, adds[0]).value, adds[1..], k);
    }
  }

  lemma {:induction false} BuiltItemsAreSellable(orderId: string, inputs: seq<ItemInput>)
    requires BuildItems(orderId, inputs).Ok?
    ensures AllSellable(BuildItems(orderId, inputs).value) && |BuildItems(orderId, inputs).value| == |inputs|
    ensures forall x | x in BuildItems(orderId, inputs).value :: IsNew(x)
  {
    if inputs != [] {
      BuiltItemsAreSellable(orderId, inputs[1..]);
    }
  }

  /** The items before the first match stay. */
  lemma {:induction false} ChangeFirstAt(items: seq<Item>, id: string, f: Item -> Item, i: nat)
    requires i <= |items| && forall j | 0 <= j < i :: items[j].id != id || items[j].Deleted()
    ensures i == |items| ==> ChangeFirst(items, id, f) == Err(ItemNotFound)
    ensures i < |items| && items[i].id == id && !items[i].Deleted() ==>
      ChangeFirst(items, id, f) == Ok(items[i := f(items[i])])
  {
    if i > 0 {
      assert forall j | 0 <= j < i - 1 :: items[1..][j] == items[j + 1];
      ChangeFirstAt(items[1..], id, f, i - 1);
      if i < |items| && items[i].id == id && !items[i].Deleted() {
        assert items[1..][i - 1] == items[i];
        assert [items[0]] + items[1..][i - 1 := f(items[i])] == items[i := f(items[i])];
      }
    } else if items != [] {
      assert [f(items[0])] + items[1..] == items[0 := f(items[0])];
    }
  }

  /** What an item counts for in the quantity of a product or service. */
  function Share(item: Item, k: Key): int {
    if !item.Deleted() && item.Key() == k then item.quantity else 0
  }

  function Worth(item: Item): int {
    if item.Deleted() then 0 else item.quantity * item.unitPrice
  }

  lemma {:induction false} ChangedAt(items: seq<Item>, i: nat, item: Item, k: Key)
    requires i < |items|
    ensures QuantityOf(items[i := item], k) == QuantityOf(items, k) - Share(items[i], k) + Share(item, k)
    ensures TotalAmount(items[i := item]) == TotalAmount(items) - Worth(items[i]) + Worth(item)
  {
    if i > 0 {
      ChangedAt(items[1..], i - 1, item, k);
      assert items[i := item][1..] == items[1..][i - 1 := item];
    } else {
      assert items[0 := item][1..] == items[1..];
    }
  }

  /** The first live item with the identity is at i. */
  ghost predicate LiveAt(items: seq<Item>, id: string, i: int) {
    && 0 <= i < |items| && items[i].id == id && !items[i].Deleted()
    && forall j | 0 <= j < i :: items[j].id != id || items[j].Deleted()
  }

  lemma {:induction false} FindLive(items: seq<Item>, id: string) returns (i: nat)
    ensures i <= |items| && forall j | 0 <= j < i :: items[j].id != id || items[j].Deleted()
    ensures i < |items| ==> LiveAt(items, id, i)
  {
    if items == [] || (items[0].id == id && !items[0].Deleted()) {
      i := 0;
    } else {
      var r := FindLive(items[1..], id);
      i := r + 1;
    }
  }

  // What is asked for, told by the request alone.

  /** The item can be built: its type and catalogue entry are known, and every field is usable. */
  predicate Orderable(input: ItemInput) {
    && input.itemType.Some? && input.details.Some?
    && input.reference != "" && input.details.value.0 != ""
    && input.quantity > 0 && input.details.value.1 > 0
  }

  predicate AllOrderable(inputs: seq<ItemInput>) {
    forall i | 0 <= i < |inputs| :: Orderable(inputs[i])
  }

  /** The error names something that is amiss with the item asked for. */
  predicate Blames(e: Error, input: ItemInput) {
    match e
    case InvalidItemType => input.itemType.None?
    case LookupFailed => input.details.None?
    case InvalidReferenceId => input.reference == ""
    case InvalidItemName => input.details.Some? && input.details.value.0 == ""
    case InvalidQuantity => input.quantity <= 0
    case InvalidUnitPrice => input.details.Some? && input.details.value.1 <= 0
    case _ => false
  }

  predicate IsFor(input: ItemInput, k: Key) {
    input.itemType == Some(k.0) && input.reference == k.1
  }

  /** How much is asked for of a product or service, in all. */
  function QuantityAsked(inputs: seq<ItemInput>, k: Key): int {
    if inputs == [] then 0
    else (if IsFor(inputs[0], k) then inputs[0].quantity else 0) + QuantityAsked(inputs[1..], k)
  }

  /** Where it is asked for first. */
  function FirstAsked(inputs: seq<ItemInput>, k: Key): Option<ItemInput> {
    if inputs == [] then None
    else if IsFor(inputs[0], k) then Some(inputs[0])
    else FirstAsked(inputs[1..], k)
  }

  /** The item is the product or service asked for, under the catalogue's name and at its price. */
  predicate Describes(item: Item, input: ItemInput) {
    IsFor(input, item.Key()) && input.details == Some((item.name, item.unitPrice))
  }

  predicate KeptAsAsked(kept: Option<Item>, asked: Option<ItemInput>) {
    match (kept, asked)
    case (None, None) => true
    case (Some(item), Some(input)) => Describes(item, input)
    case _ => false
  }

  /** The new, live item of the given order that was asked for. */
  predicate Fulfils(item: Item, orderId: string, input: ItemInput) {
    Describes(item, input) && item.quantity == input.quantity && item.orderId == orderId && IsNew(item)
      && !item.Deleted()
  }

  /** Each built item is the one asked for, in the same sequence. */
  lemma {:induction false} BuiltAsAsked(orderId: string, inputs: seq<ItemInput>)
    requires BuildItems(orderId, inputs).Ok?
    ensures |BuildItems(orderId, inputs).value| == |inputs|
    ensures forall i | 0 <= i < |inputs| :: Fulfils(BuildItems(orderId, inputs).value[i], orderId, inputs[i])
  {
    if inputs != [] {
      hide Fulfils;
      BuiltAsAsked(orderId, inputs[1..]);
      BuiltFirst(orderId, inputs);
    }
  }

  lemma BuiltFirst(orderId: string, inputs: seq<ItemInput>)
    requires inputs != [] && BuildItems(orderId, inputs).Ok?
    ensures BuildItems(orderId, inputs).value != [] && Fulfils(BuildItems(orderId, inputs).value[0], orderId, inputs[0])
  {
  }

  /** The first item that cannot be built, and what is amiss with it. */
  predicate FailsAt(inputs: seq<ItemInput>, i: int, e: Error) {
    0 <= i < |inputs| && AllOrderable(inputs[..i]) && Blames(e, inputs[i])
  }

  /** Building succeeds exactly if every item can be built; otherwise the error names what is amiss with the first that
      cannot be built. */
  lemma {:induction false} BuildsExactly(orderId: string, inputs: seq<ItemInput>)
    ensures BuildItems(orderId, inputs).Ok? <==> AllOrderable(inputs)
    ensures BuildItems(orderId, inputs).Err? ==> exists i :: FailsAt(inputs, i, BuildItems(orderId, inputs).error)
  {
    if inputs != [] {
      hide Blames;
      var rest := inputs[1..];
      BuildsExactly(orderId, rest);
      BlamesFirst(orderId, inputs);
      assert inputs == [inputs[0]] + rest;
      if Orderable(inputs[0]) && BuildItems(orderId, rest).Err? {
        var e := BuildItems(orderId, rest).error;
        var i :| FailsAt(rest, i, e);
        assert inputs[..i + 1] == [inputs[0]] + rest[..i];
        assert FailsAt(inputs, i + 1, e);
      }
    }
  }

  lemma BlamesFirst(orderId: string, inputs: seq<ItemInput>)
    requires inputs != []
    ensures !Orderable(inputs[0]) ==>
      BuildItems(orderId, inputs).Err? && FailsAt(inputs, 0, BuildItems(orderId, inputs).error)
    ensures Orderable(inputs[0]) ==>
      match BuildItems(orderId, inputs[1..])
      case Ok(_) => BuildItems(orderId, inputs).Ok?
      case Err(e) => BuildItems(orderId, inputs) == Err(e)
  {
    hide Describes;
  }

  /** What is built has per product or service the quantity asked for, and the first of them is the one asked for
      first. */
  lemma {:induction false} BuiltQuantity(orderId: string, inputs: seq<ItemInput>, k: Key)
    requires BuildItems(orderId, inputs).Ok?
    ensures var built := BuildItems(orderId, inputs).value;
      QuantityOf(built, k) == QuantityAsked(inputs, k) && KeptAsAsked(FirstOf(built, k), FirstAsked(inputs, k))
  {
    if inputs != [] {
      BuiltQuantity(orderId, inputs[1..], k);
    }
  }

  // Product lines: what a stock request asks for.

  datatype Line = Line(product: string, quantity: int)

  function ProductLines(items: seq<Item>): seq<Line> {
    if items == [] then []
    else if !items[0].Deleted() && items[0].itemType == Product then
      [Line(items[0].reference, items[0].quantity)] + ProductLines(items[1..])
    else ProductLines(items[1..])
  }

  function LineQuantity(lines: seq<Line>, product: string): int {
    if lines == [] then 0
    else (if lines[0].product == product then lines[0].quantity else 0) + LineQuantity(lines[1..], product)
  }

  /** The lines ask, per product, for exactly the live quantity of that product. */
  lemma {:induction false} LinesCarryTheQuantities(items: seq<Item>, product: string)
    ensures LineQuantity(ProductLines(items), product) == QuantityOf(items, (Product, product))
  {
    if items != [] {
      LinesCarryTheQuantities(items[1..], product);
      var rest := ProductLines(items[1..]);
      assert ([Line(items[0].reference, items[0].quantity)] + rest)[1..] == rest;
    }
  }

  /** Each line asks for at least one unit, and no product has two lines. */
  ghost predicate WellFormedLines(lines: seq<Line>) {
    && (forall i | 0 <= i < |lines| :: lines[i].quantity >= 1)
    && (forall i, j | 0 <= i < j < |lines| :: lines[i].product != lines[j].product)
  }

  /** From an order whose keys are apart, no product is asked for twice and every quantity is at least one. */
  lemma {:induction false} LinesAreWellFormed(items: seq<Item>)
    requires Sound(items)
    ensures WellFormedLines(ProductLines(items))
    ensures forall l | l in ProductLines(items) ::
      exists i | 0 <= i < |items| :: !items[i].Deleted() && items[i].Key() == (Product, l.product)
  {
    if items != [] {
      var tail := items[1..];
      assert forall i | 0 <= i < |tail| :: tail[i] == items[i + 1];
      LinesAreWellFormed(tail);
      var rest := ProductLines(tail);
      assert WellFormedLines(rest);
      forall l | l in rest
        ensures exists i | 0 <= i < |items| :: !items[i].Deleted() && items[i].Key() == (Product, l.product)
      {
        var i :| 0 <= i < |tail| && !tail[i].Deleted() && tail[i].Key() == (Product, l.product);
        assert items[i + 1] == tail[i];
      }
      if !items[0].Deleted() && items[0].itemType == Product {
        var lines := ProductLines(items);
        assert lines == [Line(items[0].reference, items[0].quantity)] + rest;
        assert forall j | 0 < j < |lines| :: lines[j] == rest[j - 1];
        forall j | 0 < j < |lines|
          ensures lines[0].product != lines[j].product
        {
          assert lines[j] == rest[j - 1] && rest[j - 1] in rest;
          var i :| 0 <= i < |tail| && !tail[i].Deleted() && tail[i].Key() == (Product, lines[j].product);
          assert items[0].Key() != items[i + 1].Key();
        }
        assert items[0].Key() == (Product, items[0].reference);
        assert WellFormedLines(lines);
      } else {
        assert ProductLines(items) == rest;
      }
    }
  }
}
