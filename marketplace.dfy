/** The stored rows of the marketplace and the two operations that keep the
    derived columns in step with the listings: `Ticket.save` (buyer prices,
    the section's price range, the event's listed total) and `Ticket.delete`
    (the same aggregates recomputed without the listing). Rows are keyed by
    number; keys are handed out in creation order, so "newest first" is
    "largest key first". */
module Marketplace {
  import opened Common
  import opened EventModels
  import opened TicketModels

  /** The contribution of the row at `k` to the listed total of event `e`. */
  function EventShare(tickets: map<TicketKey, Ticket>, k: TicketKey, e: EventKey): nat {
    if k in tickets && tickets[k].event == e then tickets[k].numberOfTickets else 0
  }

  /** The number of tickets listed for event `e` by the rows with a key below
      `n`, sold rows included: `sum(t.number_of_tickets for t in event.tickets.all())`. */
  function EventTotal(tickets: map<TicketKey, Ticket>, e: EventKey, n: nat): nat
    decreases n
  {
    if n == 0 then 0 else EventTotal(tickets, e, n - 1) + EventShare(tickets, n - 1, e)
  }

  /** An event without rows below `n` has a total of 0. */
  lemma {:induction false} EventTotalNoRows(tickets: map<TicketKey, Ticket>, e: EventKey, n: nat)
    requires forall k :: k in tickets && k < n ==> tickets[k].event != e
    ensures EventTotal(tickets, e, n) == 0
    decreases n
  {
    if n > 0 {
      EventTotalNoRows(tickets, e, n - 1);
    }
  }

  /** Every row of the event counts in full towards its total. */
  lemma {:induction false} EventTotalCountsRow(tickets: map<TicketKey, Ticket>, e: EventKey, n: nat, k: TicketKey)
    requires k in tickets && k < n && tickets[k].event == e
    ensures tickets[k].numberOfTickets <= EventTotal(tickets, e, n)
    decreases n
  {
    if k < n - 1 {
      EventTotalCountsRow(tickets, e, n - 1, k);
    }
  }

  /** The least and greatest seller price among the rows of section `s` with a
      key below `n`; None when the section has no such row. */
  function PriceRange(tickets: map<TicketKey, Ticket>, s: SectionKey, n: nat): Option<(real, real)>
    decreases n
  {
    if n == 0 then None
    else
      var rest := PriceRange(tickets, s, n - 1);
      if n - 1 in tickets && tickets[n - 1].section == s then
        var p := tickets[n - 1].sellPrice;
        if rest.None? then Some((p, p))
        else Some((if p <= rest.value.0 then p else rest.value.0, if rest.value.1 <= p then p else rest.value.1))
      else rest
  }

  /** The range is None exactly when the section has no rows below `n`. */
  lemma {:induction false} PriceRangeNone(tickets: map<TicketKey, Ticket>, s: SectionKey, n: nat)
    ensures PriceRange(tickets, s, n).None? <==> forall k :: k in tickets && k < n ==> tickets[k].section != s
    decreases n
  {
    if n > 0 {
      PriceRangeNone(tickets, s, n - 1);
    }
  }

  /** Every row's price lies within the range, and the range is ordered. */
  lemma {:induction false} PriceRangeBounds(tickets: map<TicketKey, Ticket>, s: SectionKey, n: nat)
    requires PriceRange(tickets, s, n).Some?
    ensures var r := PriceRange(tickets, s, n).value; r.0 <= r.1
    ensures var r := PriceRange(tickets, s, n).value;
            forall k :: k in tickets && k < n && tickets[k].section == s ==> r.0 <= tickets[k].sellPrice <= r.1
    decreases n
  {
    if PriceRange(tickets, s, n - 1).Some? {
      PriceRangeBounds(tickets, s, n - 1);
    } else {
      PriceRangeNone(tickets, s, n - 1);
    }
  }

  /** Both ends of the range are the price of some row of the section. */
  lemma {:induction false} PriceRangeAttained(tickets: map<TicketKey, Ticket>, s: SectionKey, n: nat)
    requires PriceRange(tickets, s, n).Some?
    ensures var r := PriceRange(tickets, s, n).value;
            exists k :: k in tickets && k < n && tickets[k].section == s && tickets[k].sellPrice == r.0
    ensures var r := PriceRange(tickets, s, n).value;
            exists k :: k in tickets && k < n && tickets[k].section == s && tickets[k].sellPrice == r.1
    decreases n
  {
    if PriceRange(tickets, s, n - 1).Some? {
      PriceRangeAttained(tickets, s, n - 1);
    }
  }

  /** Replacing the row at `k` (below `n`) changes the event's total by the
      difference of the two rows' shares. */
  lemma {:induction false} EventTotalUpdate(tickets: map<TicketKey, Ticket>, k: TicketKey, t: Ticket, e: EventKey, n: nat)
    requires k < n
    ensures EventTotal(tickets[k := t], e, n) + EventShare(tickets, k, e)
            == EventTotal(tickets, e, n) + (if t.event == e then t.numberOfTickets else 0)
    decreases n
  {
    if n - 1 == k {
      EventTotalFrame(tickets, k, t, e, n - 1);
    } else {
      EventTotalUpdate(tickets, k, t, e, n - 1);
    }
  }

  /** A row at or beyond `n` does not count towards the total below `n`. */
  lemma {:induction false} EventTotalFrame(tickets: map<TicketKey, Ticket>, k: TicketKey, t: Ticket, e: EventKey, n: nat)
    requires n <= k
    ensures EventTotal(tickets[k := t], e, n) == EventTotal(tickets, e, n)
    decreases n
  {
    if n > 0 {
      EventTotalFrame(tickets, k, t, e, n - 1);
    }
  }

  /** Removing the row at `k` lowers the event's total by that row's share. */
  lemma {:induction false} EventTotalRemove(tickets: map<TicketKey, Ticket>, k: TicketKey, e: EventKey, n: nat)
    ensures EventTotal(tickets - {k}, e, n) + (if k < n then EventShare(tickets, k, e) else 0) == EventTotal(tickets, e, n)
    decreases n
  {
    if n > 0 {
      EventTotalRemove(tickets, k, e, n - 1);
    }
  }

  /** Section names are unique within an event (`unique_together`). */
  predicate UniqueSectionNames(sections: map<SectionKey, EventSection>) {
    forall a, b :: a in sections && b in sections && a != b && sections[a].event == sections[b].event
      ==> sections[a].name != sections[b].name
  }

  /** Rewriting a section's prices keeps section names unique. */
  lemma SectionUpdateKeepsNames(sections: map<SectionKey, EventSection>, s: SectionKey, section: EventSection)
    requires UniqueSectionNames(sections) && s in sections
    requires section.event == sections[s].event && section.name == sections[s].name
    ensures UniqueSectionNames(sections[s := section])
  {
  }

  /** The buyer prices `Ticket.save` stores, from the event's two rates. */
  function PricedFor(t: Ticket, e: Event): (r: Ticket)
    ensures r.priceForNormal == BuyerPrice(t.sellPrice, e.normalServiceCharge)
    ensures r.priceForReseller == BuyerPrice(t.sellPrice, e.resellerServiceCharge)
    ensures r.sellPrice == t.sellPrice && r.numberOfTickets == t.numberOfTickets && r.sold == t.sold
    ensures r.event == t.event && r.section == t.section && r.seller == t.seller && r.buyer == t.buyer
    ensures r.seats == t.seats && r.hasFile == t.hasFile
  {
    Priced(t, e.normalServiceCharge, e.resellerServiceCharge)
  }

  /** The event's listed total, counted row by row over the keys below `n`. */
  method CountEventTickets(tickets: map<TicketKey, Ticket>, e: EventKey, n: nat) returns (total: nat)
    ensures total == EventTotal(tickets, e, n)
  {
    total := 0;
    var k := 0;
    while k < n
      invariant 0 <= k <= n
      invariant total == EventTotal(tickets, e, k)
    {
      if k in tickets && tickets[k].event == e {
        total := total + tickets[k].numberOfTickets;
      }
      k := k + 1;
    }
  }

  /** The section's price range, collected row by row over the keys below `n`. */
  method SectionRange(tickets: map<TicketKey, Ticket>, s: SectionKey, n: nat) returns (range: Option<(real, real)>)
    ensures range == PriceRange(tickets, s, n)
  {
    range := None;
    var k := 0;
    while k < n
      invariant 0 <= k <= n
      invariant range == PriceRange(tickets, s, k)
    {
      if k in tickets && tickets[k].section == s {
        var p := tickets[k].sellPrice;
        if range.None? {
          range := Some((p, p));
        } else {
          range := Some((if p <= range.value.0 then p else range.value.0,
                         if range.value.1 <= p then p else range.value.1));
        }
      }
      k := k + 1;
    }
  }

  /** Every section belongs to a stored event and has a key below `n`. */
  ghost predicate SectionsValid(sections: map<SectionKey, EventSection>, events: set<EventKey>, n: nat) {
    (forall k :: k in sections ==> k < n && sections[k].event in events) && UniqueSectionNames(sections)
  }

  /** Every listing belongs to a stored event and section and has a key below `n`. */
  ghost predicate TicketsValid(tickets: map<TicketKey, Ticket>, events: set<EventKey>, sections: set<SectionKey>, n: nat) {
    forall k :: k in tickets ==> k < n && tickets[k].event in events && tickets[k].section in sections
  }

  /** Rewriting a section's prices keeps the sections valid. */
  lemma SectionsValidUpdate(sections: map<SectionKey, EventSection>, events: set<EventKey>, n: nat,
                            s: SectionKey, section: EventSection)
    requires SectionsValid(sections, events, n) && s in sections
    requires section.event == sections[s].event && section.name == sections[s].name
    ensures SectionsValid(sections[s := section], events, n)
    ensures sections[s := section].Keys == sections.Keys
  {
    SectionUpdateKeepsNames(sections, s, section);
  }

  /** Writing a row of a stored event and section at a used key, or at the
      next key, keeps the listings valid. */
  lemma TicketsValidSave(tickets: map<TicketKey, Ticket>, events: set<EventKey>, sections: set<SectionKey>, n: nat,
                         k: TicketKey, t: Ticket)
    requires TicketsValid(tickets, events, sections, n)
    requires k in tickets || k == n
    requires t.event in events && t.section in sections
    ensures TicketsValid(tickets[k := t], events, sections, if k == n then n + 1 else n)
  {
  }

  /** Removing a row keeps the listings valid. */
  lemma TicketsValidDelete(tickets: map<TicketKey, Ticket>, events: set<EventKey>, sections: set<SectionKey>, n: nat,
                           k: TicketKey)
    requires TicketsValid(tickets, events, sections, n)
    ensures TicketsValid(tickets - {k}, events, sections, n)
  {
  }

  /** The database: events, sections, listings, orders and payouts (keyed by
      their order), with the next key of each kind. */
  class Store {
    var events: map<EventKey, Event>
    var sections: map<SectionKey, EventSection>
    var tickets: map<TicketKey, Ticket>
    var orders: map<OrderKey, Order>
    var sales: map<OrderKey, Sale>
    var nextEvent: EventKey
    var nextSection: SectionKey
    var nextTicket: TicketKey
    var nextOrder: OrderKey

    /** Keys lie below their counters, foreign keys resolve, a payout belongs
        to exactly its order, and section names are unique per event. */
    ghost predicate Valid()
      reads this
    {
      && (forall k :: k in events ==> k < nextEvent)
      && SectionsValid(sections, events.Keys, nextSection)
      && TicketsValid(tickets, events.Keys, sections.Keys, nextTicket)
      && (forall k :: k in orders ==> k < nextOrder)
      && (forall k :: k in sales ==> k in orders && sales[k].order == k)
    }

    /** An empty database. */
    constructor ()
      ensures Valid()
      ensures events == map[] && sections == map[] && tickets == map[] && orders == map[] && sales == map[]
    {
      events, sections, tickets, orders, sales := map[], map[], map[], map[], map[];
      nextEvent, nextSection, nextTicket, nextOrder := 0, 0, 0, 0;
    }

    /** `super().save()` of the row `t` at key `k` (a new row takes the next
        key), after both buyer prices are set from its event's rates. */
    method WriteRow(k: TicketKey, t: Ticket)
      requires Valid()
      requires k in tickets || k == nextTicket
      requires t.event in events && t.section in sections
      modifies this`tickets, this`nextTicket
      ensures Valid()
      ensures tickets == old(tickets)[k := PricedFor(t, events[t.event])]
      ensures nextTicket == (if k == old(nextTicket) then old(nextTicket) + 1 else old(nextTicket))
    {
      TicketsValidSave(tickets, events.Keys, sections.Keys, nextTicket, k, PricedFor(t, events[t.event]));
      tickets := tickets[k := PricedFor(t, events[t.event])];
      if k == nextTicket {
        nextTicket := nextTicket + 1;
      }
    }

    /** `super().delete()`: the row at `k` is gone. */
    method RemoveRow(k: TicketKey)
      requires Valid()
      modifies this`tickets
      ensures Valid()
      ensures tickets == old(tickets) - {k}
    {
      TicketsValidDelete(tickets, events.Keys, sections.Keys, nextTicket, k);
      tickets := tickets - {k};
    }

    /** The section step of `save`: when the section has rows, its range
        becomes the least and greatest of their prices; otherwise it stays. */
    method RefreshSectionPrices(s: SectionKey)
      requires Valid()
      requires s in sections
      modifies this`sections
      ensures Valid()
      ensures var range := PriceRange(tickets, s, nextTicket);
              sections == old(sections)[s := if range.Some? then UpdatePrices(old(sections)[s], range.value.0, range.value.1)
                                             else old(sections)[s]]
    {
      var range := SectionRange(tickets, s, nextTicket);
      var section := if range.Some? then UpdatePrices(sections[s], range.value.0, range.value.1) else sections[s];
      SectionsValidUpdate(sections, events.Keys, nextSection, s, section);
      sections := sections[s := section];
    }

    /** `update_section_aggregates`: the section's range over its remaining
        rows, (0, 0) when none remain. */
    method UpdateSectionAggregates(s: SectionKey)
      requires Valid()
      requires s in sections
      modifies this`sections
      ensures Valid()
      ensures var range := PriceRange(tickets, s, nextTicket);
              sections == old(sections)[s := if range.Some? then UpdatePrices(old(sections)[s], range.value.0, range.value.1)
                                             else UpdatePrices(old(sections)[s], 0.0, 0.0)]
    {
      var range := SectionRange(tickets, s, nextTicket);
      var section := if range.Some? then UpdatePrices(sections[s], range.value.0, range.value.1)
                     else UpdatePrices(sections[s], 0.0, 0.0);
      SectionsValidUpdate(sections, events.Keys, nextSection, s, section);
      sections := sections[s := section];
    }

    /** The event step of `save` and `delete`: the event's listed total becomes
        the sum over its rows. */
    method RefreshEventTotal(e: EventKey)
      requires Valid()
      requires e in events
      modifies this`events
      ensures Valid()
      ensures events == old(events)[e := old(events)[e].(totalTickets := EventTotal(tickets, e, nextTicket))]
    {
      var total := CountEventTickets(tickets, e, nextTicket);
      assert events[e := events[e].(totalTickets := total)].Keys == events.Keys;
      events := events[e := events[e].(totalTickets := total)];
    }

    /** `update_event_section_aggregates` (defined but not called by `save`):
        the row's section range over its rows, (0, 0) when it has none, then
        its event's listed total. */
    method UpdateEventSectionAggregates(k: TicketKey)
      requires Valid() && k in tickets
      modifies this`sections, this`events
      ensures Valid()
      ensures var s := tickets[k].section;
              var range := PriceRange(tickets, s, nextTicket);
              sections == old(sections)[s := if range.Some? then UpdatePrices(old(sections)[s], range.value.0, range.value.1)
                                             else UpdatePrices(old(sections)[s], 0.0, 0.0)]
      ensures var e := tickets[k].event;
              events == old(events)[e := old(events)[e].(totalTickets := EventTotal(tickets, e, nextTicket))]
    {
      UpdateSectionAggregates(tickets[k].section);
      RefreshEventTotal(tickets[k].event);
    }

    /** `event.save()` of a stored event. */
    method SetEvent(e: EventKey, ev: Event)
      requires Valid() && e in events
      modifies this`events
      ensures Valid()
      ensures events == old(events)[e := ev]
    {
      assert events[e := ev].Keys == events.Keys;
      events := events[e := ev];
    }

    /** `event.save()` of a new event: it takes the next key. */
    method AddEvent(ev: Event) returns (k: EventKey)
      requires Valid()
      modifies this`events, this`nextEvent
      ensures Valid()
      ensures k == old(nextEvent) && k !in old(events)
      ensures events == old(events)[k := ev] && nextEvent == old(nextEvent) + 1
    {
      k := nextEvent;
      events := events[k := ev];
      nextEvent := nextEvent + 1;
    }

    /** Sections saved or created: no section is removed, keys stay below the
        new counter, every section belongs to a stored event, and names stay
        unique per event. */
    method SetSections(updated: map<SectionKey, EventSection>, next: SectionKey)
      requires Valid()
      requires nextSection <= next && sections.Keys <= updated.Keys
      requires SectionsValid(updated, events.Keys, next)
      modifies this`sections, this`nextSection
      ensures Valid()
      ensures sections == updated && nextSection == next
    {
      sections, nextSection := updated, next;
    }

    /** `section.delete()` of several sections: each goes, and with it (by the
        cascading foreign key, without `Ticket.delete`) every listing in it.
        No event total and no other section is recomputed. */
    method DeleteSections(gone: set<SectionKey>)
      requires Valid()
      modifies this`sections, this`tickets
      ensures Valid()
      ensures sections == old(sections) - gone
      ensures forall k :: k in tickets <==> k in old(tickets) && old(tickets)[k].section !in gone
      ensures forall k :: k in tickets ==> tickets[k] == old(tickets)[k]
    {
      sections := sections - gone;
      tickets := map k | k in tickets && tickets[k].section !in gone :: tickets[k];
    }

    /** `Order.objects.create`: the order takes the next key. */
    method AddOrder(o: Order) returns (k: OrderKey)
      requires Valid()
      modifies this`orders, this`nextOrder
      ensures Valid()
      ensures k == old(nextOrder) && k !in old(orders)
      ensures orders == old(orders)[k := o] && nextOrder == old(nextOrder) + 1
    {
      k := nextOrder;
      orders := orders[k := o];
      nextOrder := nextOrder + 1;
    }

    /** `order.save()` of a stored order. */
    method SetOrder(k: OrderKey, o: Order)
      requires Valid() && k in orders
      modifies this`orders
      ensures Valid()
      ensures orders == old(orders)[k := o]
    {
      orders := orders[k := o];
    }

    /** `order.delete()` of an order without a payout record (the payout's
        foreign key protects the order). */
    method DeleteOrder(k: OrderKey)
      requires Valid() && k !in sales
      modifies this`orders
      ensures Valid()
      ensures orders == old(orders) - {k}
    {
      orders := orders - {k};
    }

    /** `bulk_update` of orders: stored orders are replaced, none added or removed. */
    method SetOrders(updated: map<OrderKey, Order>)
      requires Valid() && updated.Keys == orders.Keys
      modifies this`orders
      ensures Valid()
      ensures orders == updated
    {
      orders := updated;
    }

    /** `Sale.objects.create` for an order that has no payout record yet. */
    method AddSale(k: OrderKey, sale: Sale)
      requires Valid() && k in orders && k !in sales && sale.order == k
      modifies this`sales
      ensures Valid()
      ensures sales == old(sales)[k := sale]
    {
      sales := sales[k := sale];
    }

    /** `Ticket.save`: the row is written with its buyer prices, then its
        section's range covers all the section's rows, sold ones included,
        then its event's listed total is recounted. Nothing else changes. */
    method SaveTicket(k: TicketKey, t: Ticket)
      requires Valid()
      requires k in tickets || k == nextTicket
      requires t.event in events && t.section in sections
      modifies this
      ensures Valid()
      ensures tickets == old(tickets)[k := PricedFor(t, old(events)[t.event])]
      ensures nextTicket == (if k == old(nextTicket) then old(nextTicket) + 1 else old(nextTicket))
      ensures var range := PriceRange(tickets, t.section, nextTicket);
              sections == old(sections)[t.section := if range.Some? then UpdatePrices(old(sections)[t.section], range.value.0, range.value.1)
                                                     else old(sections)[t.section]]
      ensures events == old(events)[t.event := old(events)[t.event].(totalTickets := EventTotal(tickets, t.event, nextTicket))]
      ensures unchanged(this`orders, this`sales, this`nextEvent, this`nextSection, this`nextOrder)
    {
      WriteRow(k, t);
      RefreshSectionPrices(t.section);
      RefreshEventTotal(t.event);
    }

    /** `Ticket.delete`: removes the row, then its event's listed total is the
        sum over the remaining rows (0 when none remain) and its section's
        range that of the remaining rows ((0, 0) when none remain). The
        event's sold count is left as it was. */
    method DeleteTicket(k: TicketKey)
      requires Valid()
      requires k in tickets
      modifies this
      ensures Valid()
      ensures tickets == old(tickets) - {k}
      ensures var e := old(tickets)[k].event;
              events == old(events)[e := old(events)[e].(totalTickets := EventTotal(tickets, e, nextTicket))]
      ensures var s := old(tickets)[k].section;
              var range := PriceRange(tickets, s, nextTicket);
              sections == old(sections)[s := if range.Some? then UpdatePrices(old(sections)[s], range.value.0, range.value.1)
                                             else UpdatePrices(old(sections)[s], 0.0, 0.0)]
      ensures unchanged(this`orders, this`sales, this`nextTicket, this`nextEvent, this`nextSection, this`nextOrder)
    {
      var e := tickets[k].event;
      var s := tickets[k].section;
      RemoveRow(k);
      RefreshEventTotal(e);
      UpdateSectionAggregates(s);
    }
  }

  /** Saving a new listing raises its event's listed total by exactly its
      quantity, when the total was in step before. */
  lemma NewListingAddsItsQuantity(tickets: map<TicketKey, Ticket>, n: nat, t: Ticket)
    requires forall k :: k in tickets ==> k < n
    ensures EventTotal(tickets[n := t], t.event, n + 1) == EventTotal(tickets, t.event, n) + t.numberOfTickets
  {
    EventTotalFrame(tickets, n, t, t.event, n);
  }

  /** Deleting a listing lowers its event's listed total by exactly its quantity. */
  lemma DeleteSubtractsItsQuantity(tickets: map<TicketKey, Ticket>, n: nat, k: TicketKey)
    requires k in tickets && k < n
    ensures EventTotal(tickets - {k}, tickets[k].event, n) + tickets[k].numberOfTickets == EventTotal(tickets, tickets[k].event, n)
  {
    EventTotalRemove(tickets, k, tickets[k].event, n);
  }

  /** Saving a row of a section puts its seller price inside the section's new range. */
  lemma SavedPriceInRange(tickets: map<TicketKey, Ticket>, n: nat, k: TicketKey, t: Ticket)
    requires k < n
    ensures PriceRange(tickets[k := t], t.section, n).Some?
    ensures var r := PriceRange(tickets[k := t], t.section, n).value; r.0 <= t.sellPrice <= r.1
  {
    var updated := tickets[k := t];
    assert updated[k].section == t.section;
    PriceRangeNone(updated, t.section, n);
    PriceRangeBounds(updated, t.section, n);
  }
}
