/** What is charged for an order, and what a sequence of payment notices makes of one. */
module Billing {
  import opened Prelude
  import opened OrderStatus
  import opened Items
  import opened Orders
  import opened Effects
  import opened ServiceOrders

  // --- The charge ---

  /** A line of the order created at the payment provider; the price is in units of the currency. */
  datatype PaymentItem = PaymentItem(title: string, quantity: int, unitPrice: real)

  function Cents(amount: int): real { amount as real / 100.0 }

  function Charge(lines: seq<PaymentItem>): real {
    if lines == [] then 0.0
    else lines[0].quantity as real * lines[0].unitPrice + Charge(lines[1..])
  }

  lemma {:induction false} ChargeOfLast(lines: seq<PaymentItem>, line: PaymentItem)
    ensures Charge(lines + [line]) == Charge(lines) + line.quantity as real * line.unitPrice
  {
    if lines == [] {
      assert [line][1..] == [];
    } else {
      assert (lines + [line])[1..] == lines[1..] + [line];
      ChargeOfLast(lines[1..], line);
    }
  }

  /** The lines charged for an order. They charge exactly the order's total, whatever is deleted and also when
      nothing is left; there is always at least one line, and otherwise one per live item, in order. */
  method BuildOrderItems(order: ServiceOrder) returns (lines: seq<PaymentItem>)
    ensures Charge(lines) == Cents(Items.TotalAmount(order.View().items))
    ensures 100.0 * Charge(lines) == Items.TotalAmount(order.View().items) as real
    ensures var live := Active(order.View().items);
      if live == [] then
        |lines| == 1 && lines[0].quantity == 1 && lines[0].title == "Ordem de Servi\U{00E7}o " + order.id
      else
        && |lines| == |live|
        && forall i | 0 <= i < |live| ::
          lines[i] == PaymentItem(live[i].name, live[i].quantity, Cents(live[i].unitPrice))
  {
    hide Active, Items.TotalAmount, Charge, Cents;
    var items := order.items;
    lines := [];
    TotalOfNothing();
    InCents(Items.TotalAmount(order.View().items));
    for i := 0 to |items|
      invariant Charge(lines) == Cents(Items.TotalAmount(Views(items[..i])))
      invariant |lines| == |Active(Views(items[..i]))|
      invariant forall k | 0 <= k < |lines| ::
        var x := Active(Views(items[..i]))[k];
        lines[k] == PaymentItem(x.name, x.quantity, Cents(x.unitPrice))
    {
      ghost var done, item := Views(items[..i]), items[i].View();
      assert Views(items[..i + 1]) == done + [item];
      ActiveOfLast(done, item);
      TotalOfLast(done, item);
      if !items[i].IsDeleted() {
        var line := PaymentItem(items[i].name, items[i].quantity, Cents(items[i].unitPrice));
        ChargeOfLast(lines, line);
        LineAmount(Items.TotalAmount(done), items[i].quantity, items[i].unitPrice);
        lines := lines + [line];
      }
    }
    assert items[..|items|] == items;
    if |lines| == 0 {
      var total := order.TotalAmount();
      var line := PaymentItem("Ordem de Servi\U{00E7}o " + order.id, 1, Cents(total));
      ChargeOfLast([], line);
      TotalOfNothing();
      assert [] + [line] == [line];
      lines := [line];
    }
  }

  lemma TotalOfNothing()
    ensures Charge([]) == 0.0 == Cents(Items.TotalAmount([])) && Active([]) == []
  {
  }

  lemma InCents(amount: int)
    ensures 100.0 * Cents(amount) == amount as real
  {
  }

  lemma LineAmount(total: int, quantity: int, price: int)
    ensures Cents(total) + quantity as real * Cents(price) == Cents(total + quantity * price)
  {
    assert (quantity * price) as real == quantity as real * price as real;
  }

  // --- Notices ---

  /** A notice with its payment, what the provider reports about it, when it is handled, and which of the
      writes it leads to go through. */
  datatype Notice = Notice(payment: string, reported: PaymentStatus, at: Time, faults: Faults)

  /** The order and the new history entries after the notices, delivered one after the other. */
  function Notified(o: Order, notices: seq<Notice>): (Order, seq<Entry>)
    decreases |notices|
  {
    if notices == [] then (o, [])
    else
      var n := notices[0];
      var e := Webhook(o, n.payment, n.reported, n.at, n.faults);
      var rest := Notified(e.order, notices[1..]);
      (rest.0, e.entries + rest.1)
  }

  predicate Stores(n: Notice) { n.faults.historyOk && n.faults.saveOk }

  /** The notice settles a payment that is waited for; an approval must name its payment. */
  predicate Decides(n: Notice) {
    Stores(n) && (n.reported in {Rejected, Cancelled} || (n.reported == Approved && n.payment != ""))
  }

  predicate Refunds(n: Notice) { Stores(n) && n.reported == Effects.Refunded }

  /** The statuses the written entries move through. */
  function Recorded(entries: seq<Entry>): seq<(Status, Status)> {
    if entries == [] then []
    else (if entries[0].change.Some? then [entries[0].change.value] else []) + Recorded(entries[1..])
  }

  lemma {:induction false} NotifiedInTwo(o: Order, a: seq<Notice>, b: seq<Notice>)
    ensures Notified(o, a + b).0 == Notified(Notified(o, a).0, b).0
    ensures Notified(o, a + b).1 == Notified(o, a).1 + Notified(Notified(o, a).0, b).1
    decreases |a|
  {
    hide Webhook;
    if a == [] {
      assert a + b == b;
    } else {
      assert (a + b)[1..] == a[1..] + b;
      NotifiedInTwo(Webhook(o, a[0].payment, a[0].reported, a[0].at, a[0].faults).order, a[1..], b);
    }
  }

  /** One notice changes the order exactly when it settles the payment waited for, or gives back the one made. */
  lemma OneNotice(o: Order, n: Notice)
    requires o.closedAt.Some?
    ensures var e := Webhook(o, n.payment, n.reported, n.at, n.faults);
      var settled := o.CompleteSaga();
      && e.order == (
           if o.status == AwaitingPayment && Decides(n) then
             if n.reported == Approved then settled.(status := Paid, paymentId := Some(n.payment))
             else settled.(status := PaymentRejected)
           else if o.status == Paid && Refunds(n) then o.(status := Canceled)
           else o)
      && (Stores(n) ==> Recorded(e.entries) == if e.order == o then [] else [(o.status, e.order.status)])
      && (Stores(n) ==> |e.entries| == |Recorded(e.entries)|)
  {
    hide Sound, ProductLines;
    var e := Webhook(o, n.payment, n.reported, n.at, n.faults);
    assert e.entries != [] ==> e.entries == [e.entries[0]] && e.entries[1..] == [];
  }

  /** Notices of which none counts leave the order as it is. */
  lemma {:induction false} NoNoticeCounts(o: Order, notices: seq<Notice>)
    requires o.closedAt.Some?
    requires o.status == AwaitingPayment ==> forall i | 0 <= i < |notices| :: !Decides(notices[i])
    requires o.status == Paid ==> forall i | 0 <= i < |notices| :: !Refunds(notices[i])
    ensures Notified(o, notices).0 == o
    ensures (forall i | 0 <= i < |notices| :: Stores(notices[i])) ==> Notified(o, notices).1 == []
  {
    hide Webhook, Decides, Refunds, Stores;
    if notices != [] {
      OneNotice(o, notices[0]);
      assert forall i | 0 <= i < |notices[1..]| :: notices[1..][i] == notices[i + 1];
      NoNoticeCounts(o, notices[1..]);
    }
  }

  /** When the notice at i is the first that counts, the others before it might as well not have come. */
  lemma FirstThatCounts(o: Order, notices: seq<Notice>, i: nat)
    requires o.closedAt.Some? && i < |notices|
    requires o.status == AwaitingPayment ==> forall k | 0 <= k < i :: !Decides(notices[k])
    requires o.status == Paid ==> forall k | 0 <= k < i :: !Refunds(notices[k])
    ensures var n := notices[i];
      var e := Webhook(o, n.payment, n.reported, n.at, n.faults);
      var rest := Notified(e.order, notices[i + 1..]);
      && Notified(o, notices).0 == rest.0
      && ((forall k | 0 <= k < i :: Stores(notices[k])) ==> Notified(o, notices).1 == e.entries + rest.1)
  {
    hide Webhook, Decides, Refunds, Stores;
    assert notices == notices[..i] + notices[i..];
    NotifiedInTwo(o, notices[..i], notices[i..]);
    NoNoticeCounts(o, notices[..i]);
    assert notices[i..][0] == notices[i] && notices[i..][1..] == notices[i + 1..];
  }

  /** How the notices end: as long as none of the given notices decides, the payment is waited for; a rejection or
      cancellation that comes first leaves the payment rejected, whatever comes later, and an approval leaves the
      order paid by that payment, or canceled once a refund is reported after it. */
  ghost predicate EndsAs(o: Order, notices: seq<Notice>, result: Order) {
    || (result == o && forall k | 0 <= k < |notices| :: !Decides(notices[k]))
    || (exists i :: DecidedAt(o, notices, i, result))
  }

  ghost predicate DecidedAt(o: Order, notices: seq<Notice>, i: int, result: Order) {
    && 0 <= i < |notices| && Decides(notices[i]) && (forall k | 0 <= k < i :: !Decides(notices[k]))
    && var settled := o.CompleteSaga();
       if notices[i].reported != Approved then
         result == settled.(status := PaymentRejected)
       else
         var paid := settled.(status := Paid, paymentId := Some(notices[i].payment));
         if exists j | i < j < |notices| :: Refunds(notices[j]) then result == paid.(status := Canceled)
         else result == paid
  }

  lemma {:induction false} RecordedInTwo(a: seq<Entry>, b: seq<Entry>)
    ensures Recorded(a + b) == Recorded(a) + Recorded(b)
  {
    if a == [] {
      assert a + b == b;
    } else {
      RecordedInTwo(a[1..], b);
      assert (a + b)[0] == a[0] && (a + b)[1..] == a[1..] + b;
      var head := if a[0].change.Some? then [a[0].change.value] else [];
      assert Recorded(a + b) == head + Recorded(a[1..] + b);
      assert Recorded(a) == head + Recorded(a[1..]);
    }
  }

  ghost predicate AllStore(notices: seq<Notice>) {
    forall k | 0 <= k < |notices| :: Stores(notices[k])
  }

  ghost predicate SomeRefund(notices: seq<Notice>) {
    exists k | 0 <= k < |notices| :: Refunds(notices[k])
  }

  /** Once the payment is settled, only a refund reported on a paid order still counts, and only once. */
  lemma AfterSettling(o: Order, notices: seq<Notice>)
    requires o.closedAt.Some? && o.status in {Paid, PaymentRejected}
    ensures var canceled := o.status == Paid && SomeRefund(notices);
      && Notified(o, notices).0 == (if canceled then o.(status := Canceled) else o)
      && (AllStore(notices) ==>
            && |Notified(o, notices).1| == |Recorded(Notified(o, notices).1)|
            && Recorded(Notified(o, notices).1) == if canceled then [(Paid, Canceled)] else [])
  {
    hide Webhook, Decides, Refunds, Stores;
    if o.status == Paid && SomeRefund(notices) {
      var k := FirstRefund(notices);
      var n, rest := notices[k], notices[k + 1..];
      FirstThatCounts(o, notices, k);
      OneNotice(o, n);
      var e := Webhook(o, n.payment, n.reported, n.at, n.faults);
      assert forall i | 0 <= i < |rest| :: rest[i] == notices[k + 1 + i];
      NoNoticeCounts(e.order, rest);
      if AllStore(notices) {
        assert Notified(o, notices).1 == e.entries + [] == e.entries;
      }
    } else {
      NoNoticeCounts(o, notices);
    }
  }

  lemma FirstRefund(notices: seq<Notice>) returns (k: nat)
    requires SomeRefund(notices)
    ensures k < |notices| && Refunds(notices[k]) && forall i | 0 <= i < k :: !Refunds(notices[i])
  {
    var j :| 0 <= j < |notices| && Refunds(notices[j]);
    k := 0;
    while !Refunds(notices[k])
      invariant k <= j && forall i | 0 <= i < k :: !Refunds(notices[i])
      decreases j - k
    {
      k := k + 1;
    }
  }

  lemma FirstDecision(notices: seq<Notice>) returns (k: nat)
    requires exists i | 0 <= i < |notices| :: Decides(notices[i])
    ensures k < |notices| && Decides(notices[k]) && forall i | 0 <= i < k :: !Decides(notices[i])
  {
    var j :| 0 <= j < |notices| && Decides(notices[j]);
    k := 0;
    while !Decides(notices[k])
      invariant k <= j && forall i | 0 <= i < k :: !Decides(notices[i])
      decreases j - k
    {
      k := k + 1;
    }
  }

  /** The first notice that counts decides: for any sequence of notices to an order whose payment is waited for,
      with nothing else in between and any of the writes failing, this is how it ends. When no write fails, the
      history gets exactly the status changes made. */
  lemma NoticesDecide(o: Order, notices: seq<Notice>)
    requires o.closedAt.Some? && o.status == AwaitingPayment
    ensures EndsAs(o, notices, Notified(o, notices).0)
    ensures AllStore(notices) ==>
      var result, entries := Notified(o, notices).0, Notified(o, notices).1;
      && |entries| == |Recorded(entries)|
      && Recorded(entries) == match result.status
           case AwaitingPayment => []
           case Canceled => [(AwaitingPayment, Paid), (Paid, Canceled)]
           case final => [(AwaitingPayment, final)]
  {
    hide Webhook, Notified, Stores, Refunds, Recorded;
    if forall k | 0 <= k < |notices| :: !Decides(notices[k]) {
      NoNoticeCounts(o, notices);
      NothingRecorded();
    } else {
      var i := FirstDecision(notices);
      var n, rest := notices[i], notices[i + 1..];
      var e := Webhook(o, n.payment, n.reported, n.at, n.faults);
      FirstThatCounts(o, notices, i);
      OneNotice(o, n);
      assert forall k | 0 <= k < |rest| :: rest[k] == notices[i + 1 + k];
      AfterSettling(e.order, rest);
      LaterRefunds(notices, i);
      assert DecidedAt(o, notices, i, Notified(o, notices).0);
      RecordedInTwo(e.entries, Notified(e.order, rest).1);
    }
  }

  lemma NothingRecorded()
    ensures Recorded([]) == []
  {
  }

  lemma LaterRefunds(notices: seq<Notice>, i: nat)
    requires i < |notices|
    ensures SomeRefund(notices[i + 1..]) <==> exists j | i < j < |notices| :: Refunds(notices[j])
  {
  }
}
