/** Comparing item lists by content: the text signature of an item and what comparing signatures can tell. */
module Signatures {
  import opened Prelude
  import opened Items

  /** What an item is, apart from its identity and its dates. */
  datatype Content = Content(itemType: ItemType, reference: string, name: string, quantity: int, unitPrice: int)

  function ContentOf(item: Item): Content {
    Content(item.itemType, item.reference, item.name, item.quantity, item.unitPrice)
  }

  function Contents(items: seq<Item>): (cs: seq<Content>)
    ensures |cs| == |items|
    ensures forall i | 0 <= i < |items| :: cs[i] == ContentOf(items[i])
  {
    if items == [] then [] else [ContentOf(items[0])] + Contents(items[1..])
  }

  /** Conversion of a number to a 32-bit rune. */
  function Truncate32(n: int): int {
    (n + 0x8000_0000) % 0x1_0000_0000 - 0x8000_0000
  }

  predicate IsScalar(n: int) {
    0 <= n < 0xD800 || 0xE000 <= n < 0x11_0000
  }

  /** The rune that stands for a number: the replacement character unless the number is a Unicode scalar value. */
  function RuneOf(n: int): (r: int)
    ensures IsScalar(r)
    ensures IsScalar(n) ==> r == n
  {
    var t := Truncate32(n);
    if IsScalar(t) then t else 0xFFFD
  }

  function RuneChar(n: int): char { RuneOf(n) as char }

  function TypeName(t: ItemType): string {
    match t
    case Product => "PRODUCT"
    case Service => "SERVICE"
  }

  function Signature(item: Item): string {
    TypeName(item.itemType) + "|" + item.reference + "|" + item.name + "|"
      + [RuneChar(item.quantity)] + "|" + [RuneChar(item.unitPrice)]
  }

  function SignatureSet(items: seq<Item>): set<string> {
    set x | x in items :: Signature(x)
  }

  /** The comparison: another number of live items, or a new live item whose signature no old one has. */
  predicate ItemsChanged(old_: seq<Item>, new_: seq<Item>) {
    |Active(old_)| != |Active(new_)|
    || exists x | x in Active(new_) :: Signature(x) !in SignatureSet(Active(old_))
  }

  /** All that a signature shows of an item. */
  function Shown(item: Item): Content {
    Content(item.itemType, item.reference, item.name, RuneOf(item.quantity), RuneOf(item.unitPrice))
  }

  function ShownAll(items: seq<Item>): (cs: seq<Content>)
    ensures |cs| == |items|
    ensures forall i | 0 <= i < |items| :: cs[i] == Shown(items[i])
  {
    if items == [] then [] else [Shown(items[0])] + ShownAll(items[1..])
  }

  /** Catalogue references are UUIDs, so the separator never occurs in one. */
  ghost predicate CleanReferences(items: seq<Item>) {
    forall i | 0 <= i < |items| :: '|' !in items[i].reference
  }

  lemma FirstBar(r: string, t: string)
    requires '|' !in r
    ensures (r + "|" + t)[|r|] == '|'
    ensures forall k | 0 <= k < |r| :: (r + "|" + t)[k] != '|'
    ensures (r + "|" + t)[..|r|] == r && (r + "|" + t)[|r| + 1..] == t
  {
    assert forall k | 0 <= k < |r| :: (r + "|" + t)[k] == r[k];
  }

  lemma SplitAtFirstBar(r1: string, t1: string, r2: string, t2: string)
    requires '|' !in r1 && '|' !in r2
    requires r1 + "|" + t1 == r2 + "|" + t2
    ensures r1 == r2 && t1 == t2
  {
    FirstBar(r1, t1);
    FirstBar(r2, t2);
    assert |r1| == |r2|;
  }

  lemma SplitAtTheEnd(n1: string, q1: char, p1: char, n2: string, q2: char, p2: char)
    requires n1 + "|" + [q1] + "|" + [p1] == n2 + "|" + [q2] + "|" + [p2]
    ensures n1 == n2 && q1 == q2 && p1 == p2
  {
    var s1, s2 := n1 + "|" + [q1] + "|" + [p1], n2 + "|" + [q2] + "|" + [p2];
    assert |n1| == |n2|;
    assert n1 == s1[..|n1|] && n2 == s2[..|n2|];
    assert s1[|n1| + 1] == q1 && s2[|n2| + 1] == q2;
    assert s1[|n1| + 3] == p1 && s2[|n2| + 3] == p2;
  }

  /** A signature shows neither less nor more than `Shown`, whatever the name contains. */
  lemma SignatureIsInjective(a: Item, b: Item)
    requires '|' !in a.reference && '|' !in b.reference
    ensures Signature(a) == Signature(b) <==> Shown(a) == Shown(b)
  {
    if Signature(a) == Signature(b) {
      assert Signature(a)[0] == TypeName(a.itemType)[0] && Signature(b)[0] == TypeName(b.itemType)[0];
      assert a.itemType == b.itemType;
      var endA := a.name + "|" + [RuneChar(a.quantity)] + "|" + [RuneChar(a.unitPrice)];
      var endB := b.name + "|" + [RuneChar(b.quantity)] + "|" + [RuneChar(b.unitPrice)];
      var head := TypeName(a.itemType) + "|";
      assert Signature(a) == head + (a.reference + "|" + endA);
      assert Signature(b) == head + (b.reference + "|" + endB);
      assert Signature(a)[|head|..] == a.reference + "|" + endA;
      assert Signature(b)[|head|..] == b.reference + "|" + endB;
      SplitAtFirstBar(a.reference, endA, b.reference, endB);
      SplitAtTheEnd(a.name, RuneChar(a.quantity), RuneChar(a.unitPrice),
                    b.name, RuneChar(b.quantity), RuneChar(b.unitPrice));
    }
  }

  lemma {:induction false} DistinctOnce<T>(xs: seq<T>, x: T)
    requires forall i, j | 0 <= i < j < |xs| :: xs[i] != xs[j]
    ensures multiset(xs)[x] <= 1
  {
    if xs != [] {
      assert xs == [xs[0]] + xs[1..];
      assert forall i | 0 <= i < |xs[1..]| :: xs[1..][i] == xs[i + 1];
      DistinctOnce(xs[1..], x);
      if xs[0] == x {
        assert x !in xs[1..];
      }
    }
  }

  /** Pigeonhole: as many pairwise distinct values, all taken from xs, are all of xs. */
  lemma Pigeonhole<T>(xs: seq<T>, ys: seq<T>)
    requires |xs| == |ys|
    requires forall i, j | 0 <= i < j < |ys| :: ys[i] != ys[j]
    requires forall y | y in ys :: y in xs
    ensures multiset(xs) == multiset(ys)
  {
    forall y ensures multiset(ys)[y] <= multiset(xs)[y] {
      DistinctOnce(ys, y);
      if y in ys {
        assert y in xs && y in multiset(xs);
      } else {
        assert y !in multiset(ys);
      }
    }
    assert multiset(ys) <= multiset(xs);
    assert |multiset(xs) - multiset(ys)| == 0;
    assert multiset(xs) == (multiset(xs) - multiset(ys)) + multiset(ys);
  }

  lemma {:induction false} ActiveIsLive(items: seq<Item>)
    ensures forall i | 0 <= i < |Active(items)| :: !Active(items)[i].Deleted() && Active(items)[i] in items
    ensures CleanReferences(items) ==> CleanReferences(Active(items))
  {
    if items != [] {
      ActiveIsLive(items[1..]);
      var rest := Active(items[1..]);
      assert forall x | x in items[1..] :: x in items;
      forall i | 0 <= i < |Active(items)|
        ensures !Active(items)[i].Deleted() && Active(items)[i] in items
      {
        if !items[0].Deleted() && i > 0 {
          assert Active(items)[i] == rest[i - 1];
        }
      }
    }
  }

  lemma {:induction false} ActiveKeepsKeysApart(items: seq<Item>)
    requires OnePerKey(items)
    ensures OnePerKey(Active(items))
  {
    if items != [] {
      var tail, rest := items[1..], Active(items[1..]);
      assert forall i | 0 <= i < |tail| :: tail[i] == items[i + 1];
      ActiveKeepsKeysApart(tail);
      ActiveIsLive(tail);
      if !items[0].Deleted() {
        var live := [items[0]] + rest;
        forall i, j | 0 <= i < j < |live|
          ensures live[i].Key() != live[j].Key()
        {
          assert live[j] == rest[j - 1] && rest[j - 1] in tail;
          var m :| 0 <= m < |tail| && tail[m] == rest[j - 1];
          if i == 0 {
            assert items[m + 1] == live[j];
          } else {
            assert live[i] == rest[i - 1];
          }
        }
      }
    }
  }

  /** Every item of ys shows like some item of xs. */
  ghost predicate Covered(xs: seq<Item>, ys: seq<Item>) {
    forall j | 0 <= j < |ys| :: exists i | 0 <= i < |xs| :: Shown(xs[i]) == Shown(ys[j])
  }

  lemma CoveredBySignatures(xs: seq<Item>, ys: seq<Item>)
    requires CleanReferences(xs) && CleanReferences(ys)
    ensures Covered(xs, ys) <==> forall y | y in ys :: Signature(y) in SignatureSet(xs)
  {
    forall i, j | 0 <= i < |xs| && 0 <= j < |ys|
      ensures Signature(xs[i]) == Signature(ys[j]) <==> Shown(xs[i]) == Shown(ys[j])
    {
      SignatureIsInjective(xs[i], ys[j]);
    }
    if Covered(xs, ys) {
      forall y | y in ys ensures Signature(y) in SignatureSet(xs) {
        var j :| 0 <= j < |ys| && ys[j] == y;
        var i :| 0 <= i < |xs| && Shown(xs[i]) == Shown(ys[j]);
        assert xs[i] in xs;
      }
    } else {
      var j :| 0 <= j < |ys| && !exists i | 0 <= i < |xs| :: Shown(xs[i]) == Shown(ys[j]);
      assert ys[j] in ys && Signature(ys[j]) !in SignatureSet(xs);
    }
  }

  lemma SameMultisetCovers(xs: seq<Item>, ys: seq<Item>)
    requires multiset(ShownAll(xs)) == multiset(ShownAll(ys))
    ensures |xs| == |ys| && Covered(xs, ys)
  {
    var sx, sy := ShownAll(xs), ShownAll(ys);
    assert |sx| == |multiset(sx)| && |sy| == |multiset(sy)|;
    forall j | 0 <= j < |ys| ensures exists i | 0 <= i < |xs| :: Shown(xs[i]) == Shown(ys[j]) {
      assert sy[j] in multiset(sy);
      assert sy[j] in sx;
      var i :| 0 <= i < |sx| && sx[i] == sy[j];
      assert Shown(xs[i]) == Shown(ys[j]);
    }
  }

  lemma CoveringIsSameMultiset(xs: seq<Item>, ys: seq<Item>)
    requires |xs| == |ys| && Covered(xs, ys)
    requires forall i, j | 0 <= i < j < |ys| :: ys[i].Key() != ys[j].Key()
    ensures multiset(ShownAll(xs)) == multiset(ShownAll(ys))
  {
    var sx, sy := ShownAll(xs), ShownAll(ys);
    forall i, j | 0 <= i < j < |sy| ensures sy[i] != sy[j] {
      assert ys[i].Key() != ys[j].Key();
    }
    forall s | s in sy ensures s in sx {
      var j :| 0 <= j < |sy| && sy[j] == s;
      var i :| 0 <= i < |xs| && Shown(xs[i]) == Shown(ys[j]);
      assert sx[i] == s;
    }
    Pigeonhole(sx, sy);
  }

  /** What the comparison decides, for all quantities and prices: when the new list has one live item per
      key, it reports a change exactly when the shown contents of the live items differ as multisets. */
  lemma ChangeIsShownContent(old_: seq<Item>, new_: seq<Item>)
    requires CleanReferences(old_) && CleanReferences(new_) && OnePerKey(new_)
    ensures ItemsChanged(old_, new_) <==> multiset(ShownAll(Active(old_))) != multiset(ShownAll(Active(new_)))
  {
    var xs, ys := Active(old_), Active(new_);
    ActiveIsLive(old_);
    ActiveIsLive(new_);
    ActiveKeepsKeysApart(new_);
    CoveredBySignatures(xs, ys);
    if multiset(ShownAll(xs)) == multiset(ShownAll(ys)) {
      SameMultisetCovers(xs, ys);
    } else if |xs| == |ys| && Covered(xs, ys) {
      CoveringIsSameMultiset(xs, ys);
    }
  }

  ghost predicate InRange(items: seq<Item>) {
    forall i | 0 <= i < |items| :: IsScalar(items[i].quantity) && IsScalar(items[i].unitPrice)
  }

  lemma {:induction false} InRangeShowsContent(items: seq<Item>)
    requires InRange(items)
    ensures ShownAll(Active(items)) == Contents(Active(items))
  {
    if items != [] {
      assert forall i | 0 <= i < |items[1..]| :: items[1..][i] == items[i + 1];
      InRangeShowsContent(items[1..]);
      assert ([items[0]] + Active(items[1..]))[1..] == Active(items[1..]);
    }
  }

  /** Within the range of Unicode scalar values the comparison is exact: it reports a change exactly when
      the multiset of live contents is not the same any more. */
  lemma ChangeIsContent(old_: seq<Item>, new_: seq<Item>)
    requires CleanReferences(old_) && CleanReferences(new_) && OnePerKey(new_)
    requires InRange(old_) && InRange(new_)
    ensures ItemsChanged(old_, new_) <==> multiset(Contents(Active(old_))) != multiset(Contents(Active(new_)))
  {
    ChangeIsShownContent(old_, new_);
    InRangeShowsContent(old_);
    InRangeShowsContent(new_);
  }

  /** A change of quantity alone goes unreported exactly when both quantities show as the same rune. */
  lemma QuantityChangeSeen(item: Item, quantity: int)
    requires '|' !in item.reference && !item.Deleted()
    ensures ItemsChanged([item], [item.(quantity := quantity)]) <==> RuneOf(item.quantity) != RuneOf(quantity)
  {
    var other := item.(quantity := quantity);
    SignatureIsInjective(item, other);
    assert [item][1..] == [] && [other][1..] == [];
    assert Active([item]) == [item] && Active([other]) == [other];
    assert item in [item] && other in [other];
  }

  /** The number shows as the replacement character. */
  predicate ShowsReplacement(n: int) { RuneOf(n) == 0xFFFD }

  lemma SameRemainder(a: int, b: int)
    ensures Truncate32(a) == Truncate32(b) <==> (a - b) % 0x1_0000_0000 == 0
  {
    var x, y := (a + 0x8000_0000) / 0x1_0000_0000, (b + 0x8000_0000) / 0x1_0000_0000;
    assert a + 0x8000_0000 == x * 0x1_0000_0000 + (a + 0x8000_0000) % 0x1_0000_0000;
    assert b + 0x8000_0000 == y * 0x1_0000_0000 + (b + 0x8000_0000) % 0x1_0000_0000;
  }

  /** Two numbers show as the same rune exactly if they are equal modulo 2^32 or both show as the replacement
      character. */
  lemma SameRune(a: int, b: int)
    ensures RuneOf(a) == RuneOf(b) <==> (a - b) % 0x1_0000_0000 == 0 || (ShowsReplacement(a) && ShowsReplacement(b))
  {
    hide Truncate32;
    SameRemainder(a, b);
  }

  /** A change of quantity alone is lost exactly between numbers that are equal modulo 2^32 and between numbers that
      both show as the replacement character, as all do that are not Unicode scalar values once cut to 32 bits. */
  lemma OutOfRangeChangeIsLost(item: Item, quantity: int)
    requires '|' !in item.reference && !item.Deleted()
    ensures !ItemsChanged([item], [item.(quantity := quantity)]) <==>
      || (item.quantity - quantity) % 0x1_0000_0000 == 0
      || (ShowsReplacement(item.quantity) && ShowsReplacement(quantity))
    ensures !IsScalar(Truncate32(quantity)) ==> ShowsReplacement(quantity)
  {
    hide ItemsChanged;
    QuantityChangeSeen(item, quantity);
    SameRune(item.quantity, quantity);
  }
}
