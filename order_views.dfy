/** The purchase flow of the marketplace: placing an order for a listing
    (with the payment gateway's answer as a parameter), the gateway's return
    callback, the superadmin's payout record, and the superadmin order list
    that brings each completed order's upload flag in line with its listing. */
module OrderViews {
  import opened Common
  import opened EventModels
  import opened TicketModels
  import opened Marketplace
  import opened AccountModels

  /** `int(amount * 100)`: the amount in minor units, truncated toward zero. */
  function GatewayAmount(amount: real): (r: int)
    ensures amount >= 0.0 ==> 0 <= r && r as real <= amount * 100.0 < r as real + 1.0
    ensures amount < 0.0 ==> r <= 0 && r as real - 1.0 < amount * 100.0 <= r as real
  {
    var cents := amount * 100.0;
    if cents >= 0.0 then cents.Floor else -((-cents).Floor)
  }

  /** An amount with whole pence reaches the gateway exactly. */
  lemma GatewayAmountExact(pence: int)
    ensures GatewayAmount(pence as real / 100.0) == pence
  {
    var amount := pence as real / 100.0;
    assert amount * 100.0 == pence as real;
  }

  /** Half a penny is dropped, whatever the sign. */
  lemma GatewayAmountTruncates()
    ensures GatewayAmount(10.005) == 1000 && GatewayAmount(-10.005) == -1000
  {
  }

  /** What the payment gateway answers to `create_order`: an order with its
      id and checkout page, or an exception. */
  datatype GatewayOutcome = GatewayOrder(id: string, checkoutUrl: string) | GatewayError

  /** The order `CreateOrderView.post` creates: a copy of the listing and its
      event, the amount charged, no gateway data yet, pending. */
  function OrderSnapshot(t: Ticket, tk: TicketKey, ev: Event, sectionName: string, buyer: UserKey, amount: real): (o: Order)
    ensures o.status == Pending && !o.paidToReseller && o.ticketUploaded == (t.uploadChoice == UploadNow)
    ensures o.eventName == ev.name && o.eventDate == ev.date && o.eventTime == ev.time
    ensures o.ticketRef == tk && o.ticketSection == sectionName && o.ticketRow == t.row && o.ticketSeats == t.seats
    ensures o.numberOfTickets == t.numberOfTickets && o.ticketFaceValue == t.faceValue && o.ticketSellPrice == t.sellPrice
    ensures o.ticketUploadType == t.ticketType && o.ticketBenefits == t.benefits
    ensures o.buyer == buyer && o.amount == amount && o.gatewayOrderId == "" && o.checkoutUrl == ""
  {
    Order(ev.name, ev.date, ev.time, t.numberOfTickets, tk, sectionName, t.row, t.seats, t.faceValue, t.ticketType,
          t.benefits, t.sellPrice, buyer, amount, "", "", Pending, t.uploadChoice == UploadNow, false)
  }

  /** What a buyer pays for a whole listing: its quantity at the buyer's price. */
  function OrderAmount(t: Ticket, buyer: User): (r: real)
    ensures IsReseller(buyer) ==> r == t.numberOfTickets as real * t.priceForReseller
    ensures !IsReseller(buyer) ==> r == t.numberOfTickets as real * t.priceForNormal
  {
    t.numberOfTickets as real * PricePerTicket(t, PricingType(buyer))
  }

  /** The order created for the listing at `tk`. */
  function NewOrder(tickets: map<TicketKey, Ticket>, events: map<EventKey, Event>, sections: map<SectionKey, EventSection>,
                    tk: TicketKey, buyerKey: UserKey, buyer: User): (o: Order)
    requires tk in tickets && tickets[tk].event in events && tickets[tk].section in sections
  {
    var t := tickets[tk];
    OrderSnapshot(t, tk, events[t.event], sections[t.section].name, buyerKey, OrderAmount(t, buyer))
  }

  datatype CreateOrderOutcome =
    | ListingNotFound                            // 404: no such listing, or it is sold
    | Checkout(order: OrderKey, url: string)     // redirect to the gateway's checkout page
    | PaymentError                               // the gateway call raised; the order is gone

  /** `CreateOrderView.post`: only an unsold listing can be ordered. A pending
      order is created with the listing's data and the amount for the buyer's
      account type, and the gateway is asked for that amount in minor units
      (`charged`). If the gateway fails the order is deleted again; otherwise
      the order keeps the gateway's id and checkout page. Nothing else changes. */
  method CreateOrder(store: Store, tk: TicketKey, buyerKey: UserKey, buyer: User, gateway: GatewayOutcome)
    returns (res: CreateOrderOutcome, charged: Option<int>)
    requires store.Valid()
    modifies store`orders, store`nextOrder
    ensures store.Valid()
    ensures tk !in store.tickets || store.tickets[tk].sold ==>
              res == ListingNotFound && charged.None? && unchanged(store`orders, store`nextOrder)
    ensures tk in store.tickets && !store.tickets[tk].sold ==>
              charged == Some(GatewayAmount(OrderAmount(store.tickets[tk], buyer)))
    ensures tk in store.tickets && !store.tickets[tk].sold && gateway.GatewayError? ==>
              res == PaymentError && store.orders == old(store.orders)
    ensures tk in store.tickets && !store.tickets[tk].sold && gateway.GatewayOrder? ==>
              res == Checkout(old(store.nextOrder), gateway.checkoutUrl)
              && store.orders == old(store.orders)[old(store.nextOrder) :=
                   NewOrder(store.tickets, store.events, store.sections, tk, buyerKey, buyer).(gatewayOrderId := gateway.id, checkoutUrl := gateway.checkoutUrl)]
  {
    if tk !in store.tickets || store.tickets[tk].sold {
      return ListingNotFound, None;
    }
    var order := NewOrder(store.tickets, store.events, store.sections, tk, buyerKey, buyer);
    var k := store.AddOrder(order);
    charged := Some(GatewayAmount(order.amount));
    match gateway
    case GatewayError =>
      store.DeleteOrder(k);
      res := PaymentError;
    case GatewayOrder(id, url) =>
      store.SetOrder(k, order.(gatewayOrderId := id, checkoutUrl := url));
      res := Checkout(k, url);
  }

  datatype PaymentReturnOutcome =
    | InvalidOrder        // no such order of this buyer
    | PaymentSucceeded    // redirect to the buyer's orders
    | PaymentFailed       // redirect home
    | ListingGone         // the order was completed but its listing no longer exists: an uncaught error

  /** The order of `buyer` named by the callback, if there is one. */
  predicate OwnOrder(orders: map<OrderKey, Order>, orderId: Option<OrderKey>, buyer: UserKey) {
    orderId.Some? && orderId.value in orders && orders[orderId.value].buyer == buyer
  }

  /** The success branch of `PaymentReturnView.get` for a listing that
      exists: the listing is marked sold to the buyer's email, its quantity
      is added to the event's sold count, and the listing is saved, which
      recomputes its buyer prices, its section's range and the event's
      listed total. Orders and payouts are not touched. */
  method SellListing(store: Store, tk: TicketKey, buyerEmail: string)
    requires store.Valid() && tk in store.tickets
    modifies store
    ensures store.Valid()
    ensures var t := old(store.tickets)[tk];
            && store.tickets == old(store.tickets)[tk := PricedFor(t.(sold := true, buyer := Some(buyerEmail)), old(store.events)[t.event])]
            && store.events == old(store.events)[t.event := old(store.events)[t.event].(
                 soldTickets := old(store.events)[t.event].soldTickets + t.numberOfTickets,
                 totalTickets := EventTotal(store.tickets, t.event, store.nextTicket))]
    ensures var s := old(store.tickets)[tk].section;
            var range := PriceRange(store.tickets, s, store.nextTicket);
            store.sections == old(store.sections)[s := if range.Some? then UpdatePrices(old(store.sections)[s], range.value.0, range.value.1)
                                                       else old(store.sections)[s]]
    ensures unchanged(store`orders, store`sales, store`nextOrder, store`nextEvent, store`nextSection, store`nextTicket)
  {
    var t := store.tickets[tk];
    var ev := store.events[t.event];
    store.SetEvent(t.event, ev.(soldTickets := ev.soldTickets + t.numberOfTickets));
    ghost var counted := store.events[t.event];
    store.SaveTicket(tk, t.(sold := true, buyer := Some(buyerEmail)));
    assert PricedFor(t.(sold := true, buyer := Some(buyerEmail)), counted)
        == PricedFor(t.(sold := true, buyer := Some(buyerEmail)), ev);
  }

  /** `PaymentReturnView.get`. Only the buyer's own order is found. A
      'success' status completes the order and then sells its listing (see
      `SellListing`), whatever the order's earlier status. Any other status
      fails the order and leaves the listing alone. */
  method PaymentReturn(store: Store, orderId: Option<OrderKey>, buyerKey: UserKey, buyerEmail: string,
                       status: Option<string>)
    returns (res: PaymentReturnOutcome)
    requires store.Valid()
    modifies store
    ensures store.Valid()
    ensures res == InvalidOrder <==> !OwnOrder(old(store.orders), orderId, buyerKey)
    ensures res == InvalidOrder ==> unchanged(store)
    ensures res != InvalidOrder ==>
              var k := orderId.value;
              store.orders == old(store.orders)[k := old(store.orders)[k].(status := if status == Some("success") then Completed else Failed)]
    ensures res == PaymentFailed <==> OwnOrder(old(store.orders), orderId, buyerKey) && status != Some("success")
    ensures res == ListingGone <==> (&& OwnOrder(old(store.orders), orderId, buyerKey) && status == Some("success")
                                     && old(store.orders)[orderId.value].ticketRef !in old(store.tickets))
    ensures res == PaymentFailed || res == ListingGone ==>
              unchanged(store`tickets, store`events, store`sections, store`nextTicket)
    ensures res == PaymentSucceeded ==>
              var tk := old(store.orders)[orderId.value].ticketRef;
              var t := old(store.tickets)[tk];
              && store.tickets == old(store.tickets)[tk := PricedFor(t.(sold := true, buyer := Some(buyerEmail)), old(store.events)[t.event])]
              && store.events == old(store.events)[t.event := old(store.events)[t.event].(
                   soldTickets := old(store.events)[t.event].soldTickets + t.numberOfTickets,
                   totalTickets := EventTotal(store.tickets, t.event, store.nextTicket))]
    ensures res == PaymentSucceeded ==>
              var s := old(store.tickets)[old(store.orders)[orderId.value].ticketRef].section;
              var range := PriceRange(store.tickets, s, store.nextTicket);
              store.sections == old(store.sections)[s := if range.Some? then UpdatePrices(old(store.sections)[s], range.value.0, range.value.1)
                                                         else old(store.sections)[s]]
    ensures unchanged(store`sales, store`nextOrder, store`nextEvent, store`nextSection, store`nextTicket)
  {
    if !OwnOrder(store.orders, orderId, buyerKey) {
      return InvalidOrder;
    }
    var k := orderId.value;
    var order := store.orders[k];
    if status == Some("success") {
      store.SetOrder(k, order.(status := Completed));
      if order.ticketRef !in store.tickets {
        return ListingGone;
      }
      SellListing(store, order.ticketRef, buyerEmail);
      res := PaymentSucceeded;
    } else {
      store.SetOrder(k, order.(status := Failed));
      res := PaymentFailed;
    }
  }
  /** With no check of the order's status, a second 'success' callback for
      the same order adds the listing's quantity to the event's sold count
      again. */
  method ConfirmTwice(store: Store, orderId: OrderKey, buyerKey: UserKey, buyerEmail: string)
    returns (first: PaymentReturnOutcome, second: PaymentReturnOutcome)
    requires store.Valid() && OwnOrder(store.orders, Some(orderId), buyerKey)
    requires store.orders[orderId].ticketRef in store.tickets
    modifies store
    ensures first == PaymentSucceeded && second == PaymentSucceeded
    ensures var t := old(store.tickets)[old(store.orders)[orderId].ticketRef];
            t.event in store.events && store.events[t.event].soldTickets == old(store.events)[t.event].soldTickets + 2 * t.numberOfTickets
  {
    ghost var t := store.tickets[store.orders[orderId].ticketRef];
    first := PaymentReturn(store, Some(orderId), buyerKey, buyerEmail, Some("success"));
    second := PaymentReturn(store, Some(orderId), buyerKey, buyerEmail, Some("success"));
  }

  datatype MarkAsPaidOutcome =
    | OrderNotFound    // redirect with "Order not found"
    | MarkedPaid       // redirect with "Payment marked as completed"
    | ListingMissing   // the order's listing no longer exists: an uncaught error

  /** `MarkAsPaidView.process_payment`: the order's payout record is fetched
      or, the first time, created for the listing's seller with the listing's
      per-ticket seller price and today's date; the order is then marked paid
      to the reseller. A repeated call changes nothing more. */
  method MarkAsPaid(store: Store, orderId: Option<OrderKey>, today: Date) returns (res: MarkAsPaidOutcome)
    requires store.Valid()
    modifies store`orders, store`sales
    ensures store.Valid()
    ensures res == OrderNotFound <==> orderId.None? || orderId.value !in old(store.orders)
    ensures res == ListingMissing <==> (&& orderId.Some? && orderId.value in old(store.orders)
                                        && old(store.orders)[orderId.value].ticketRef !in store.tickets)
    ensures res != MarkedPaid ==> unchanged(store`orders, store`sales)
    ensures res == MarkedPaid ==>
              var k := orderId.value;
              var t := store.tickets[old(store.orders)[k].ticketRef];
              && store.orders == old(store.orders)[k := old(store.orders)[k].(paidToReseller := true)]
              && (k in old(store.sales) ==> store.sales == old(store.sales))
              && (k !in old(store.sales) ==> store.sales == old(store.sales)[k := Sale(k, t.seller, t.sellPrice, Some(today))])
  {
    if orderId.None? || orderId.value !in store.orders {
      return OrderNotFound;
    }
    var k := orderId.value;
    var order := store.orders[k];
    if order.ticketRef !in store.tickets {
      return ListingMissing;
    }
    var t := store.tickets[order.ticketRef];
    if k !in store.sales {
      store.AddSale(k, Sale(k, t.seller, t.sellPrice, Some(today)));
    }
    store.SetOrder(k, order.(paidToReseller := true));
    res := MarkedPaid;
  }

  /** Marking an order paid twice leaves one payout record, the one the first call made. */
  method MarkAsPaidTwice(store: Store, orderId: OrderKey, today: Date, later: Date)
    returns (first: MarkAsPaidOutcome, second: MarkAsPaidOutcome)
    requires store.Valid() && orderId in store.orders && orderId !in store.sales
    requires store.orders[orderId].ticketRef in store.tickets
    modifies store`orders, store`sales
    ensures first == MarkedPaid && second == MarkedPaid
    ensures var t := store.tickets[old(store.orders)[orderId].ticketRef];
            store.sales == old(store.sales)[orderId := Sale(orderId, t.seller, t.sellPrice, Some(today))]
  {
    first := MarkAsPaid(store, Some(orderId), today);
    second := MarkAsPaid(store, Some(orderId), later);
  }

  /** What the order list expects of an order's upload flag: set exactly
      when its listing still exists and was listed with 'Upload Now'. */
  predicate ExpectedUploaded(tickets: map<TicketKey, Ticket>, o: Order) {
    o.ticketRef in tickets && tickets[o.ticketRef].uploadChoice == UploadNow
  }

  /** An order as the order list leaves it: a completed order's upload flag
      follows its listing; other orders are untouched. */
  function Reconciled(tickets: map<TicketKey, Ticket>, o: Order): Order {
    if o.status == Completed then o.(ticketUploaded := ExpectedUploaded(tickets, o)) else o
  }


  /** The keys in [lo, n) of completed orders, largest first. */
  function CompletedFrom(orders: map<OrderKey, Order>, lo: nat, n: nat): seq<OrderKey>
    decreases n - lo
  {
    if lo >= n then []
    else CompletedFrom(orders, lo + 1, n) + (if lo in orders && orders[lo].status == Completed then [lo] else [])
  }

  /** `CompletedFrom` lists exactly the completed orders in range, newest first. */
  lemma {:induction false} CompletedFromListsCompleted(orders: map<OrderKey, Order>, lo: nat, n: nat)
    ensures forall k :: k in CompletedFrom(orders, lo, n) <==> lo <= k < n && k in orders && orders[k].status == Completed
    ensures NewestFirst(CompletedFrom(orders, lo, n))
    decreases n - lo
  {
    if lo < n {
      CompletedFromListsCompleted(orders, lo + 1, n);
      var rest := CompletedFrom(orders, lo + 1, n);
      var r := CompletedFrom(orders, lo, n);
      assert r == rest + (if lo in orders && orders[lo].status == Completed then [lo] else []);
      forall i, j | 0 <= i < j < |r|
        ensures r[i] > r[j]
      {
        assert r[i] == rest[i] && rest[i] in rest;
        if j < |rest| {
          assert r[j] == rest[j];
        } else {
          assert r[j] == lo;
        }
      }
    }
  }

  /** The loop of `SuperadminOrderListView.get_queryset` over the completed
      orders, newest first: it collects the orders whose upload flag differs
      from the expected one and corrects them; the list it returns is the
      completed orders, newest first. */
  method ReconcileUploads(orders: map<OrderKey, Order>, tickets: map<TicketKey, Ticket>, n: nat)
    returns (updated: map<OrderKey, Order>, listed: seq<OrderKey>, changed: nat)
    requires forall k :: k in orders ==> k < n
    ensures updated.Keys == orders.Keys
    ensures forall k :: k in orders ==> updated[k] == Reconciled(tickets, orders[k])
    ensures listed == CompletedFrom(orders, 0, n)
    ensures changed <= |listed|
    ensures changed == 0 ==> updated == orders
  {
    updated, listed, changed := orders, [], 0;
    var i := n;
    while i > 0
      invariant 0 <= i <= n
      invariant updated.Keys == orders.Keys
      invariant forall k :: k in orders && i <= k ==> updated[k] == Reconciled(tickets, orders[k])
      invariant forall k :: k in orders && k < i ==> updated[k] == orders[k]
      invariant listed == CompletedFrom(orders, i, n)
      invariant changed <= |listed|
      invariant changed == 0 ==> updated == orders
    {
      i := i - 1;
      if i in orders && orders[i].status == Completed {
        var o := orders[i];
        var expected := ExpectedUploaded(tickets, o);
        if o.ticketUploaded != expected {
          updated := updated[i := o.(ticketUploaded := expected)];
          changed := changed + 1;
        }
        listed := listed + [i];
      }
    }
  }

  /** `SuperadminOrderListView.get_queryset`: every completed order's upload
      flag is brought in line with its listing and saved; the completed
      orders are returned newest first. */
  method SuperadminOrderList(store: Store) returns (listed: seq<OrderKey>)
    requires store.Valid()
    modifies store`orders
    ensures store.Valid()
    ensures store.orders.Keys == old(store.orders).Keys
    ensures forall k :: k in store.orders ==> store.orders[k] == Reconciled(store.tickets, old(store.orders)[k])
    ensures forall k :: k in listed <==> k in store.orders && store.orders[k].status == Completed
    ensures NewestFirst(listed)
  {
    CompletedFromListsCompleted(store.orders, 0, store.nextOrder);
    var updated, changed;
    updated, listed, changed := ReconcileUploads(store.orders, store.tickets, store.nextOrder);
    if changed > 0 {
      store.SetOrders(updated);
    }
  }

  /** Reconciling twice changes nothing the second time. */
  lemma ReconciledIdempotent(tickets: map<TicketKey, Ticket>, o: Order)
    ensures Reconciled(tickets, Reconciled(tickets, o)) == Reconciled(tickets, o)
  {
  }
}
