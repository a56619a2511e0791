/** The read-only event queries: the per-section availability of
    `EventSectionsAPIView` and the sorted event lists of `AllEventsView` and
    `AllEventsAPIView`. */
module EventQueries {
  import opened Common
  import opened EventModels
  import opened TicketModels
  import opened Marketplace

  // ---------------------------------------------------------------------
  // Section availability

  /** The unsold seats the row at `k` offers in section `s` of event `e`. */
  function UnsoldShare(tickets: map<TicketKey, Ticket>, k: TicketKey, e: EventKey, s: SectionKey): nat {
    if k in tickets && tickets[k].event == e && tickets[k].section == s && !tickets[k].sold
    then tickets[k].numberOfTickets else 0
  }

  /** `Sum('number_of_tickets')` over the unsold rows of section `s` of
      event `e` with a key below `n`, `or 0` when there is none. */
  function Available(tickets: map<TicketKey, Ticket>, e: EventKey, s: SectionKey, n: nat): nat
    decreases n
  {
    if n == 0 then 0 else Available(tickets, e, s, n - 1) + UnsoldShare(tickets, n - 1, e, s)
  }

  /** A section whose rows are all sold reports 0 available tickets. */
  lemma {:induction false} AvailableAllSold(tickets: map<TicketKey, Ticket>, e: EventKey, s: SectionKey, n: nat)
    requires forall k :: k in tickets && k < n && tickets[k].event == e && tickets[k].section == s ==> tickets[k].sold
    ensures Available(tickets, e, s, n) == 0
    decreases n
  {
    if n > 0 {
      AvailableAllSold(tickets, e, s, n - 1);
    }
  }

  /** Every unsold row of the section counts in full. */
  lemma {:induction false} AvailableCountsRow(tickets: map<TicketKey, Ticket>, e: EventKey, s: SectionKey, n: nat, k: TicketKey)
    requires k in tickets && k < n && tickets[k].event == e && tickets[k].section == s && !tickets[k].sold
    ensures tickets[k].numberOfTickets <= Available(tickets, e, s, n)
    decreases n
  {
    if k < n - 1 {
      AvailableCountsRow(tickets, e, s, n - 1, k);
    }
  }

  /** Selling an unsold row (as a successful payment return does) lowers the
      section's availability by exactly its quantity. */
  lemma {:induction false} AvailableAfterSale(tickets: map<TicketKey, Ticket>, e: EventKey, s: SectionKey, n: nat,
                                              k: TicketKey, sold: Ticket)
    requires k in tickets && k < n && tickets[k].event == e && tickets[k].section == s && !tickets[k].sold
    requires sold == tickets[k].(sold := true, buyer := sold.buyer)
    ensures Available(tickets[k := sold], e, s, n) + tickets[k].numberOfTickets == Available(tickets, e, s, n)
    decreases n
  {
    if k < n - 1 {
      AvailableAfterSale(tickets, e, s, n - 1, k, sold);
    } else {
      AvailableFrame(tickets, e, s, n - 1, k, sold);
    }
  }

  /** A change to a row at or above `n` does not affect the rows below it. */
  lemma {:induction false} AvailableFrame(tickets: map<TicketKey, Ticket>, e: EventKey, s: SectionKey, n: nat,
                                          k: TicketKey, t: Ticket)
    requires n <= k
    ensures Available(tickets[k := t], e, s, n) == Available(tickets, e, s, n)
    decreases n
  {
    if n > 0 {
      AvailableFrame(tickets, e, s, n - 1, k, t);
    }
  }

  /** One entry of the `sections` list: the stored prices and the seats still
      for sale. */
  datatype SectionRow = SectionRow(
    section: SectionKey,
    name: string,
    color: string,
    lowerPrice: real,
    upperPrice: real,
    availableTickets: nat)

  /** `EventSectionsAPIView.get`: 404 for an unknown event, otherwise one
      entry per section, in the order the database returns them (`keys`,
      the event's sections ordered by name). */
  method EventSections(store: Store, e: EventKey, keys: seq<SectionKey>) returns (r: Option<seq<SectionRow>>)
    requires forall i :: 0 <= i < |keys| ==> keys[i] in store.sections && store.sections[keys[i]].event == e
    requires forall k :: k in store.sections && store.sections[k].event == e ==> k in keys
    requires forall i, j :: 0 <= i < j < |keys| ==> keys[i] != keys[j]
    ensures r.None? <==> e !in store.events
    ensures r.Some? ==> |r.value| == |keys|
    ensures r.Some? ==> forall i :: 0 <= i < |keys| ==>
      var s := store.sections[keys[i]];
      r.value[i] == SectionRow(keys[i], s.name, s.color, s.lowerPrice, s.upperPrice,
                               Available(store.tickets, e, keys[i], store.nextTicket))
  {
    if e !in store.events {
      return None;
    }
    var rows: seq<SectionRow> := [];
    var i := 0;
    while i < |keys|
      invariant 0 <= i <= |keys| && |rows| == i
      invariant forall j :: 0 <= j < i ==>
        var s := store.sections[keys[j]];
        rows[j] == SectionRow(keys[j], s.name, s.color, s.lowerPrice, s.upperPrice,
                              Available(store.tickets, e, keys[j], store.nextTicket))
    {
      var s := store.sections[keys[i]];
      var available := Available(store.tickets, e, keys[i], store.nextTicket);
      rows := rows + [SectionRow(keys[i], s.name, s.color, s.lowerPrice, s.upperPrice, available)];
      i := i + 1;
    }
    return Some(rows);
  }

  // ---------------------------------------------------------------------
  // Event lists

  /** The sections of `e` among the keys below `n`. */
  function SectionCount(sections: map<SectionKey, EventSection>, e: EventKey, n: nat): nat
    decreases n
  {
    if n == 0 then 0
    else SectionCount(sections, e, n - 1) + (if n - 1 in sections && sections[n - 1].event == e then 1 else 0)
  }

  /** `Min('sections__lower_price')`: NULL (None) for an event without sections. */
  function MinLower(sections: map<SectionKey, EventSection>, e: EventKey, n: nat): (r: Option<real>)
    ensures r.None? <==> forall k :: k in sections && k < n ==> sections[k].event != e
    ensures r.Some? ==> forall k :: k in sections && k < n && sections[k].event == e ==> r.value <= sections[k].lowerPrice
    ensures r.Some? ==> exists k :: k in sections && k < n && sections[k].event == e && sections[k].lowerPrice == r.value
    decreases n
  {
    if n == 0 then None
    else
      var rest := MinLower(sections, e, n - 1);
      if n - 1 in sections && sections[n - 1].event == e then
        var p := sections[n - 1].lowerPrice;
        if rest.None? || p <= rest.value then Some(p) else rest
      else rest
  }

  /** `Max('sections__upper_price')`: NULL (None) for an event without sections. */
  function MaxUpper(sections: map<SectionKey, EventSection>, e: EventKey, n: nat): (r: Option<real>)
    ensures r.None? <==> forall k :: k in sections && k < n ==> sections[k].event != e
    ensures r.Some? ==> forall k :: k in sections && k < n && sections[k].event == e ==> sections[k].upperPrice <= r.value
    ensures r.Some? ==> exists k :: k in sections && k < n && sections[k].event == e && sections[k].upperPrice == r.value
    decreases n
  {
    if n == 0 then None
    else
      var rest := MaxUpper(sections, e, n - 1);
      if n - 1 in sections && sections[n - 1].event == e then
        var p := sections[n - 1].upperPrice;
        if rest.None? || rest.value <= p then Some(p) else rest
      else rest
  }

  /** An event as the list query annotates it. */
  datatype Row = Row(key: EventKey, ev: Event, minPrice: Option<real>, maxPrice: Option<real>, sectionCount: nat)

  /** The stored event `e` as the list query annotates it. */
  function AnnotatedRow(events: map<EventKey, Event>, sections: map<SectionKey, EventSection>, nSections: nat, e: EventKey)
    : Row
    requires e in events
  {
    Row(e, events[e], MinLower(sections, e, nSections), MaxUpper(sections, e, nSections), SectionCount(sections, e, nSections))
  }

  /** The annotated events with a key below `n`, in key order: each stored
      event once. */
  function Annotate(events: map<EventKey, Event>, sections: map<SectionKey, EventSection>, nSections: nat, n: nat)
    : (r: seq<Row>)
    ensures forall x :: x in r <==> x.key < n && x.key in events && x == AnnotatedRow(events, sections, nSections, x.key)
    ensures forall i, j :: 0 <= i < j < |r| ==> r[i].key < r[j].key
    decreases n
  {
    if n == 0 then []
    else
      var rest := Annotate(events, sections, nSections, n - 1);
      if n - 1 in events then
        var row := AnnotatedRow(events, sections, nSections, n - 1);
        assert forall i :: 0 <= i < |rest| ==> rest[i] in rest && rest[i].key < n - 1;
        rest + [row]
      else rest
  }

  /** Rows in strictly increasing key order are pairwise different, so each
      occurs at most once. */
  lemma {:induction false} IncreasingKeysOnce(rows: seq<Row>)
    requires forall i, j :: 0 <= i < j < |rows| ==> rows[i].key < rows[j].key
    ensures forall x :: multiset(rows)[x] <= 1
  {
    if rows != [] {
      IncreasingKeysOnce(rows[1..]);
      assert rows == [rows[0]] + rows[1..];
      assert rows[0] !in rows[1..] by {
        forall i | 0 <= i < |rows[1..]| ensures rows[1..][i] != rows[0] {
          assert rows[1..][i].key == rows[i + 1].key > rows[0].key;
        }
      }
    }
  }

  /** A sort key: SQL NULL or a number. */
  datatype Rank = Null | Value(v: real)

  /** Ascending order on ranks. Where NULL sorts depends on the database:
      `nullsLarge` puts it after every number (PostgreSQL), otherwise before
      (SQLite). */
  predicate RankLe(a: Rank, b: Rank, nullsLarge: bool) {
    match (a, b)
    case (Null, Null) => true
    case (Null, Value(_)) => !nullsLarge
    case (Value(_), Null) => nullsLarge
    case (Value(x), Value(y)) => x <= y
  }

  /** The column an order is by. */
  datatype Column = DateColumn | MinPriceColumn | MaxPriceColumn | SoldColumn | JoinedSoldColumn

  function RankOf(x: Row, c: Column): Rank {
    match c
    case DateColumn => Value(x.ev.date as real)
    case MinPriceColumn => if x.minPrice.Some? then Value(x.minPrice.value) else Null
    case MaxPriceColumn => if x.maxPrice.Some? then Value(x.maxPrice.value) else Null
    case SoldColumn => Value(x.ev.soldTickets as real)
    case JoinedSoldColumn => Value(TicketCountAsWritten(x) as real)
  }

  /** An `order_by`: a column, its direction, and the database's NULL placement. */
  datatype Ordering = Ordering(column: Column, descending: bool, nullsLarge: bool)

  /** `a` may come before `b`. */
  predicate Before(o: Ordering, a: Row, b: Row) {
    if o.descending then RankLe(RankOf(b, o.column), RankOf(a, o.column), o.nullsLarge)
    else RankLe(RankOf(a, o.column), RankOf(b, o.column), o.nullsLarge)
  }

  predicate Sorted(o: Ordering, s: seq<Row>) {
    forall i, j :: 0 <= i < j < |s| ==> Before(o, s[i], s[j])
  }

  /** `x` placed before the first element it may precede. */
  function Insert(o: Ordering, x: Row, s: seq<Row>): (r: seq<Row>)
    ensures multiset(r) == multiset(s) + multiset{x}
    ensures forall y :: y in r ==> y == x || y in s
  {
    if s == [] then [x]
    else if Before(o, x, s[0]) then [x] + s
    else
      var t := Insert(o, x, s[1..]);
      assert s == [s[0]] + s[1..];
      [s[0]] + t
  }

  /** Any two rows are ordered one way or the other. */
  lemma BeforeTotal(o: Ordering, a: Row, b: Row)
    ensures Before(o, a, b) || Before(o, b, a)
  {
  }

  lemma BeforeTrans(o: Ordering, a: Row, b: Row, c: Row)
    requires Before(o, a, b) && Before(o, b, c)
    ensures Before(o, a, c)
  {
  }

  /** Inserting into a sorted list keeps it sorted. */
  lemma {:induction false} InsertSorted(o: Ordering, x: Row, s: seq<Row>)
    requires Sorted(o, s)
    ensures Sorted(o, Insert(o, x, s))
    decreases |s|
  {
    if s == [] {
    } else if Before(o, x, s[0]) {
      var r := [x] + s;
      forall i, j | 0 <= i < j < |r| ensures Before(o, r[i], r[j]) {
        if i == 0 && j > 1 {
          BeforeTrans(o, x, s[0], s[j - 1]);
        }
      }
    } else {
      BeforeTotal(o, x, s[0]);
      var tail := s[1..];
      var t := Insert(o, x, tail);
      InsertSorted(o, x, tail);
      var r := [s[0]] + t;
      assert Insert(o, x, s) == r;
      forall i, j | 0 <= i < j < |r| ensures Before(o, r[i], r[j]) {
        if i == 0 {
          var y := t[j - 1];
          assert y in t;
          if y != x {
            var m :| 0 <= m < |tail| && tail[m] == y;
            assert s[m + 1] == y;
          }
        }
      }
    }
  }

  /** The database's `ORDER BY`, as a stable insertion sort: sorted, and a
      permutation of its input. */
  function SortRows(o: Ordering, s: seq<Row>): (r: seq<Row>)
    ensures Sorted(o, r)
    ensures multiset(r) == multiset(s)
  {
    if s == [] then []
    else
      assert s == [s[0]] + s[1..];
      var rest := SortRows(o, s[1..]);
      InsertSorted(o, s[0], rest);
      Insert(o, s[0], rest)
  }

  /** `Sum('sold_tickets')` evaluated over the join with the sections that
      the two price annotations introduce: an event's count is repeated once
      per section (once when it has none). */
  function TicketCountAsWritten(x: Row): (r: int)
    ensures x.sectionCount <= 1 ==> r == x.ev.soldTickets
    ensures x.ev.soldTickets >= 0 ==> r >= x.ev.soldTickets
  {
    x.ev.soldTickets * (if x.sectionCount == 0 then 1 else x.sectionCount)
  }

  /** The `sort` parameter; absent means 'upcoming'. */
  datatype SortMode = Upcoming | Popular | PriceLow | PriceHigh | UnknownSort

  function ParseSort(sort: Option<string>): (m: SortMode)
    ensures sort.None? || sort == Some("upcoming") ==> m == Upcoming
    ensures sort == Some("popular") ==> m == Popular
    ensures sort == Some("price_low") ==> m == PriceLow
    ensures sort == Some("price_high") ==> m == PriceHigh
  {
    var s := if sort.Some? then sort.value else "upcoming";
    if s == "upcoming" then Upcoming
    else if s == "popular" then Popular
    else if s == "price_low" then PriceLow
    else if s == "price_high" then PriceHigh
    else UnknownSort
  }

  /** The order `AllEventsView` gives each mode. An unknown mode has no
      `order_by`, and the grouping the price annotations add drops the
      model's default ordering, so the database returns the rows in an order
      of its own (None). */
  function PageOrdering(m: SortMode, nullsLarge: bool): (o: Option<Ordering>)
    ensures o.None? <==> m == UnknownSort
    ensures o.Some? ==> o.value.nullsLarge == nullsLarge
    ensures o.Some? ==> (o.value.descending <==> m == Popular || m == PriceHigh)
  {
    match m
    case Upcoming => Some(Ordering(DateColumn, false, nullsLarge))
    case Popular => Some(Ordering(SoldColumn, true, nullsLarge))
    case PriceLow => Some(Ordering(MinPriceColumn, false, nullsLarge))
    case PriceHigh => Some(Ordering(MaxPriceColumn, true, nullsLarge))
    case UnknownSort => None
  }

  /** The order `AllEventsAPIView` gives each mode: the page's order, and
      for an unknown mode the date alone, newest first. */
  function ApiOrdering(m: SortMode, nullsLarge: bool): (o: Ordering)
    ensures m != UnknownSort ==> Some(o) == PageOrdering(m, nullsLarge)
    ensures m == UnknownSort ==> o.column == DateColumn && o.descending
  {
    if m == UnknownSort then Ordering(DateColumn, true, nullsLarge) else PageOrdering(m, nullsLarge).value
  }

  /** `filter(date__gte=today)`. */
  function FromDay(rows: seq<Row>, today: Date): (r: seq<Row>)
    ensures forall x :: x in r <==> x in rows && x.ev.date >= today
    ensures multiset(r) <= multiset(rows)
  {
    if rows == [] then []
    else
      assert rows == [rows[0]] + rows[1..];
      (if rows[0].ev.date >= today then [rows[0]] else []) + FromDay(rows[1..], today)
  }

  /** `filter(category=category)`. */
  function InCategory(rows: seq<Row>, category: string): (r: seq<Row>)
    ensures forall x :: x in r <==> x in rows && x.ev.category == category
    ensures multiset(r) <= multiset(rows)
  {
    if rows == [] then []
    else
      assert rows == [rows[0]] + rows[1..];
      (if rows[0].ev.category == category then [rows[0]] else []) + InCategory(rows[1..], category)
  }

  /** The rows the page lists: with 'upcoming', those dated today or
      later; in every other mode all of them. */
  function PageSelection(rows: seq<Row>, sort: Option<string>, today: Date): (s: seq<Row>)
    ensures multiset(s) <= multiset(rows)
    ensures forall x :: x in s <==> x in rows && (ParseSort(sort) != Upcoming || x.ev.date >= today)
  {
    if ParseSort(sort) == Upcoming then FromDay(rows, today) else rows
  }

  /** The rows the API lists: the page's selection after the category
      filter, which a non-empty `category` applies. */
  function ApiSelection(rows: seq<Row>, sort: Option<string>, category: string, today: Date): (s: seq<Row>)
    ensures multiset(s) <= multiset(rows)
    ensures forall x :: x in s <==>
              x in rows && (category == "" || x.ev.category == category) && (ParseSort(sort) != Upcoming || x.ev.date >= today)
  {
    var inCat := if category == "" then rows else InCategory(rows, category);
    PageSelection(inCat, sort, today)
  }

  /** `AllEventsView.get_queryset` over the annotated events `rows`, which
      stand in the order the database returns them: the selected events,
      sorted in the mode's order when it has one. */
  function AllEventsPage(rows: seq<Row>, sort: Option<string>, today: Date, nullsLarge: bool): (r: seq<Row>)
    ensures PageOrdering(ParseSort(sort), nullsLarge).Some? ==> Sorted(PageOrdering(ParseSort(sort), nullsLarge).value, r)
    ensures multiset(r) == multiset(PageSelection(rows, sort, today))
  {
    var m := ParseSort(sort);
    match PageOrdering(m, nullsLarge)
    case None => rows
    case Some(o) => SortRows(o, PageSelection(rows, sort, today))
  }

  /** `AllEventsAPIView.get` before pagination: a non-empty `category`
      narrows the list first. */
  function AllEventsApi(rows: seq<Row>, sort: Option<string>, category: string, today: Date, nullsLarge: bool)
    : (r: seq<Row>)
    ensures Sorted(ApiOrdering(ParseSort(sort), nullsLarge), r)
    ensures multiset(r) == multiset(ApiSelection(rows, sort, category, today))
  {
    SortRows(ApiOrdering(ParseSort(sort), nullsLarge), ApiSelection(rows, sort, category, today))
  }

  /** A filter of rows that each occur at most once keeps each selected row
      exactly once: how often `x` occurs in `r` is 1 when `x` is in `sel`,
      else 0. */
  lemma SelectedOnce(rows: seq<Row>, sel: seq<Row>, r: seq<Row>)
    requires forall x :: multiset(rows)[x] <= 1
    requires multiset(sel) <= multiset(rows) && multiset(r) == multiset(sel)
    ensures forall x :: multiset(r)[x] == (if x in sel then 1 else 0)
  {
    forall x ensures multiset(r)[x] == (if x in sel then 1 else 0) {
      assert multiset(sel)[x] <= multiset(rows)[x];
      assert x in sel <==> x in multiset(sel);
    }
  }

  /** A list holding a selection of the annotated stored events, in any
      order: each stored event below `n` occurs once when its row was
      selected and not at all otherwise, and nothing else occurs. */
  lemma StoredOnce(events: map<EventKey, Event>, sections: map<SectionKey, EventSection>, nSections: nat, n: nat,
                   sel: seq<Row>, r: seq<Row>)
    requires multiset(sel) <= multiset(Annotate(events, sections, nSections, n)) && multiset(r) == multiset(sel)
    ensures forall e :: e in events && e < n ==>
              multiset(r)[AnnotatedRow(events, sections, nSections, e)]
                == if AnnotatedRow(events, sections, nSections, e) in sel then 1 else 0
    ensures forall x :: x in r ==> x.key in events && x.key < n && x == AnnotatedRow(events, sections, nSections, x.key)
  {
    var rows := Annotate(events, sections, nSections, n);
    IncreasingKeysOnce(rows);
    SelectedOnce(rows, sel, r);
    forall x | x in r ensures x.key in events && x.key < n && x == AnnotatedRow(events, sections, nSections, x.key) {
      assert x in multiset(r);
      assert x in multiset(sel);
      assert x in rows;
    }
  }

  /** The page over the stored events: each stored event below `n` that the
      mode selects (with 'upcoming', those dated today or later) is listed
      exactly once, the others not at all, and nothing else is listed. */
  lemma AllEventsPageListsStoredOnce(events: map<EventKey, Event>, sections: map<SectionKey, EventSection>,
                                     nSections: nat, n: nat, sort: Option<string>, today: Date, nullsLarge: bool)
    ensures var r := AllEventsPage(Annotate(events, sections, nSections, n), sort, today, nullsLarge);
      && (forall e :: e in events && e < n ==>
            multiset(r)[AnnotatedRow(events, sections, nSections, e)]
              == if ParseSort(sort) != Upcoming || events[e].date >= today then 1 else 0)
      && (forall x :: x in r ==> x.key in events && x.key < n && x == AnnotatedRow(events, sections, nSections, x.key))
  {
    var rows := Annotate(events, sections, nSections, n);
    var sel := PageSelection(rows, sort, today);
    StoredOnce(events, sections, nSections, n, sel, AllEventsPage(rows, sort, today, nullsLarge));
    forall e | e in events && e < n
      ensures AnnotatedRow(events, sections, nSections, e) in sel <==> ParseSort(sort) != Upcoming || events[e].date >= today
    {
      assert AnnotatedRow(events, sections, nSections, e) in rows;
    }
  }

  /** The API over the stored events: each stored event below `n` in the
      category (when one is given) that the mode selects is listed exactly
      once, the others not at all, and nothing else is listed. */
  lemma AllEventsApiListsStoredOnce(events: map<EventKey, Event>, sections: map<SectionKey, EventSection>,
                                    nSections: nat, n: nat, sort: Option<string>, category: string, today: Date,
                                    nullsLarge: bool)
    ensures var r := AllEventsApi(Annotate(events, sections, nSections, n), sort, category, today, nullsLarge);
      && (forall e :: e in events && e < n ==>
            multiset(r)[AnnotatedRow(events, sections, nSections, e)]
              == if (category == "" || events[e].category == category)
                    && (ParseSort(sort) != Upcoming || events[e].date >= today) then 1 else 0)
      && (forall x :: x in r ==> x.key in events && x.key < n && x == AnnotatedRow(events, sections, nSections, x.key))
  {
    var rows := Annotate(events, sections, nSections, n);
    StoredOnce(events, sections, nSections, n, ApiSelection(rows, sort, category, today),
               AllEventsApi(rows, sort, category, today, nullsLarge));
    ApiSelectsStored(events, sections, nSections, n, sort, category, today);
  }

  /** The API's selection keeps a stored event's row exactly when the
      event is in the category and the mode selects it. */
  lemma ApiSelectsStored(events: map<EventKey, Event>, sections: map<SectionKey, EventSection>,
                         nSections: nat, n: nat, sort: Option<string>, category: string, today: Date)
    ensures forall e :: e in events && e < n ==>
              var selected := AnnotatedRow(events, sections, nSections, e) in
                                ApiSelection(Annotate(events, sections, nSections, n), sort, category, today);
              selected <==> (category == "" || events[e].category == category) && (ParseSort(sort) != Upcoming || events[e].date >= today)
  {
    var rows := Annotate(events, sections, nSections, n);
    forall e | e in events && e < n
      ensures AnnotatedRow(events, sections, nSections, e) in ApiSelection(rows, sort, category, today) <==>
                (category == "" || events[e].category == category) && (ParseSort(sort) != Upcoming || events[e].date >= today)
    {
      var x := AnnotatedRow(events, sections, nSections, e);
      assert x in rows && x.ev == events[e];
    }
  }

  /** Sorted by date, earliest first. */
  lemma {:induction false} DateAscending(r: seq<Row>, nullsLarge: bool)
    requires Sorted(Ordering(DateColumn, false, nullsLarge), r)
    ensures forall i, j :: 0 <= i < j < |r| ==> r[i].ev.date <= r[j].ev.date
  {
    forall i, j | 0 <= i < j < |r| ensures r[i].ev.date <= r[j].ev.date {
      assert Before(Ordering(DateColumn, false, nullsLarge), r[i], r[j]);
    }
  }

  /** The default list: exactly the events dated today or later, earliest
      first. Both views agree on it. */
  lemma UpcomingByDefault(rows: seq<Row>, today: Date, nullsLarge: bool, category: string)
    ensures var r := AllEventsPage(rows, None, today, nullsLarge);
      && (forall x :: x in r <==> x in rows && x.ev.date >= today)
      && (forall i, j :: 0 <= i < j < |r| ==> r[i].ev.date <= r[j].ev.date)
    ensures AllEventsApi(rows, None, "", today, nullsLarge) == AllEventsPage(rows, None, today, nullsLarge)
  {
    var o := Ordering(DateColumn, false, nullsLarge);
    var f := FromDay(rows, today);
    var r := SortRows(o, f);
    assert ParseSort(None) == Upcoming;
    assert AllEventsPage(rows, None, today, nullsLarge) == r;
    assert AllEventsApi(rows, None, "", today, nullsLarge) == r;
    forall x ensures x in r <==> x in f {
      assert x in r <==> x in multiset(r);
      assert x in f <==> x in multiset(f);
    }
    DateAscending(r, nullsLarge);
  }

  /** 'popular' lists every event, the best sold first. */
  lemma {:induction false} PopularBestSoldFirst(rows: seq<Row>, today: Date, nullsLarge: bool)
    ensures var r := AllEventsPage(rows, Some("popular"), today, nullsLarge);
      && multiset(r) == multiset(rows)
      && (forall i, j :: 0 <= i < j < |r| ==> r[i].ev.soldTickets >= r[j].ev.soldTickets)
  {
    var r := AllEventsPage(rows, Some("popular"), today, nullsLarge);
    assert PageSelection(rows, Some("popular"), today) == rows;
    var o := Ordering(SoldColumn, true, nullsLarge);
    forall i, j | 0 <= i < j < |r| ensures r[i].ev.soldTickets >= r[j].ev.soldTickets {
      assert Before(o, r[i], r[j]);
    }
  }

  /** 'price_low' lists every event, by its cheapest section, cheapest
      first; events without sections sort all before or all after the others. */
  lemma {:induction false} PriceLowCheapestFirst(rows: seq<Row>, today: Date, nullsLarge: bool)
    ensures var r := AllEventsPage(rows, Some("price_low"), today, nullsLarge);
      && multiset(r) == multiset(rows)
      && (forall i, j :: 0 <= i < j < |r| && r[i].minPrice.Some? && r[j].minPrice.Some? ==>
            r[i].minPrice.value <= r[j].minPrice.value)
      && (forall i, j :: 0 <= i < j < |r| && r[i].minPrice.Some? != r[j].minPrice.Some? ==>
            r[i].minPrice.Some? == nullsLarge)
  {
    var r := AllEventsPage(rows, Some("price_low"), today, nullsLarge);
    assert PageSelection(rows, Some("price_low"), today) == rows;
    var o := Ordering(MinPriceColumn, false, nullsLarge);
    forall i, j | 0 <= i < j < |r|
      ensures r[i].minPrice.Some? && r[j].minPrice.Some? ==> r[i].minPrice.value <= r[j].minPrice.value
      ensures r[i].minPrice.Some? != r[j].minPrice.Some? ==> r[i].minPrice.Some? == nullsLarge
    {
      assert Before(o, r[i], r[j]);
    }
  }

  /** 'price_high' lists every event, by its dearest section, dearest first. */
  lemma {:induction false} PriceHighDearestFirst(rows: seq<Row>, today: Date, nullsLarge: bool)
    ensures var r := AllEventsPage(rows, Some("price_high"), today, nullsLarge);
      && multiset(r) == multiset(rows)
      && (forall i, j :: 0 <= i < j < |r| && r[i].maxPrice.Some? && r[j].maxPrice.Some? ==>
            r[i].maxPrice.value >= r[j].maxPrice.value)
  {
    var r := AllEventsPage(rows, Some("price_high"), today, nullsLarge);
    assert PageSelection(rows, Some("price_high"), today) == rows;
    var o := Ordering(MaxPriceColumn, true, nullsLarge);
    forall i, j | 0 <= i < j < |r| && r[i].maxPrice.Some? && r[j].maxPrice.Some?
      ensures r[i].maxPrice.value >= r[j].maxPrice.value
    {
      assert Before(o, r[i], r[j]);
    }
  }

  /** An unknown mode: the page lists every event in no promised order, the
      API lists them newest date first. */
  lemma {:induction false} UnknownSortNewestFirst(rows: seq<Row>, sort: string, category: string, today: Date, nullsLarge: bool)
    requires ParseSort(Some(sort)) == UnknownSort
    ensures multiset(AllEventsPage(rows, Some(sort), today, nullsLarge)) == multiset(rows)
    ensures var r := AllEventsApi(rows, Some(sort), category, today, nullsLarge);
      forall i, j :: 0 <= i < j < |r| ==> r[i].ev.date >= r[j].ev.date
  {
    var a := AllEventsApi(rows, Some(sort), category, today, nullsLarge);
    forall i, j | 0 <= i < j < |a| ensures a[i].ev.date >= a[j].ev.date {
      assert Before(Ordering(DateColumn, true, nullsLarge), a[i], a[j]);
    }
  }

  /** With a category the API lists only that category's events. */
  lemma ApiCategoryOnly(rows: seq<Row>, sort: Option<string>, category: string, today: Date, nullsLarge: bool)
    requires category != ""
    ensures forall x :: x in AllEventsApi(rows, sort, category, today, nullsLarge) ==> x in rows && x.ev.category == category
  {
    var r := AllEventsApi(rows, sort, category, today, nullsLarge);
    var inCat := InCategory(rows, category);
    forall x | x in r ensures x in rows && x.ev.category == category {
      assert x in multiset(r);
      if ParseSort(sort) == Upcoming {
        assert x in multiset(FromDay(inCat, today));
      }
      assert x in multiset(inCat);
    }
  }

  /** 'popular' as written orders by `TicketCountAsWritten`. Two events, one
      with 10 tickets sold and one section, one with 6 sold and two sections,
      come out with the smaller seller first. */
  lemma PopularAsWrittenMisorders(a: Row, b: Row, nullsLarge: bool)
    requires a.ev.soldTickets == 10 && a.sectionCount == 1
    requires b.ev.soldTickets == 6 && b.sectionCount == 2
    ensures SortRows(Ordering(JoinedSoldColumn, true, nullsLarge), [a, b]) == [b, a]
    ensures SortRows(PageOrdering(Popular, nullsLarge).value, [a, b]) == [a, b]
  {
    assert [a, b][1..] == [b];
    assert [b][1..] == [];
  }
}
