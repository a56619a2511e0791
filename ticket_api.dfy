/** The listing side of the ticket views: the JSON API that creates, updates
    and deletes listings (with its seat pre-processing), and the listing
    queries with their optional filters. */
module TicketApi {
  import opened Common
  import opened Strings
  import opened EventModels
  import opened TicketModels
  import opened TicketForms
  import opened Marketplace
  import opened AccountModels
  import opened PyRepr

  // ---------------------------------------------------------------------
  // Seats in a JSON body

  /** The `seats` member of a JSON body: a string, a list of strings, or absent. */
  datatype SeatsValue = SeatsText(text: string) | SeatsList(items: seq<string>) | SeatsMissing

  /** Each item quoted. */
  function QuoteAll(xs: seq<string>): (r: seq<string>)
    ensures |r| == |xs| && forall i :: 0 <= i < |xs| ==> r[i] == Quote(xs[i])
  {
    seq(|xs|, i requires 0 <= i < |xs| => Quote(xs[i]))
  }

  /** `str(list)` for a list of strings: the quoted items between brackets. */
  function ListRepr(xs: seq<string>): string {
    "[" + Join(QuoteAll(xs), ", ") + "]"
  }

  /** What the form's `CharField` makes of the `seats` member: a missing
      value or an empty list is "", any other value is `str()`'d. */
  function CharFieldText(v: SeatsValue): string {
    match v
    case SeatsText(s) => s
    case SeatsList(xs) => if xs == [] then "" else ListRepr(xs)
    case SeatsMissing => ""
  }

  /** The seats text the API hands to the form, as written: a string is
      first split into a list of seats, and the form then turns that list
      back into text with `str()`. */
  function ApiSeatsAsWritten(v: SeatsValue): string {
    match v
    case SeatsText(s) => CharFieldText(SeatsList(ParseSeats(s)))
    case _ => CharFieldText(v)
  }

  /** The seats text the API evidently means to hand to the form: the seats
      it split out, in the form's own ", "-separated format. */
  function ApiSeats(v: SeatsValue): string {
    match v
    case SeatsText(s) => Join(ParseSeats(s), ", ")
    case SeatsList(xs) => Join(xs, ", ")
    case SeatsMissing => ""
  }

  /** The seats the client meant. */
  function MeantSeats(v: SeatsValue): seq<string> {
    match v
    case SeatsText(s) => ParseSeats(s)
    case SeatsList(xs) => xs
    case SeatsMissing => []
  }

  /** `ys` with `pre` glued to the first item and `post` to the last. */
  function Wrap(ys: seq<string>, pre: string, post: string): (r: seq<string>)
    ensures |r| == |ys|
  {
    seq(|ys|, i requires 0 <= i < |ys| => (if i == 0 then pre else "") + ys[i] + (if i == |ys| - 1 then post else ""))
  }

  /** Text around a joined list is text around its first and last items. */
  lemma {:induction false} JoinWrap(ys: seq<string>, sep: string, pre: string, post: string)
    requires ys != []
    ensures pre + Join(ys, sep) + post == Join(Wrap(ys, pre, post), sep)
  {
    if |ys| == 1 {
      assert Wrap(ys, pre, post) == [pre + ys[0] + post];
    } else {
      JoinWrap(ys[1..], sep, "", post);
      var w := Wrap(ys, pre, post);
      assert w[1..] == Wrap(ys[1..], "", post);
      assert w[0] == pre + ys[0];
      assert "" + Join(ys[1..], sep) + post == Join(ys[1..], sep) + post;
    }
  }

  /** The quoted items with the brackets glued on are seats that parsing
      keeps as they are. */
  lemma WrappedQuotesWellFormed(xs: seq<string>)
    requires forall i :: 0 <= i < |xs| ==> ',' !in xs[i]
    ensures WellFormedSeats(Wrap(QuoteAll(xs), "[", "]"))
  {
    var w := Wrap(QuoteAll(xs), "[", "]");
    forall i | 0 <= i < |w|
      ensures w[i] != "" && IsTrimmed(w[i]) && ',' !in w[i]
    {
      var pre := if i == 0 then "[" else "";
      var post := if i == |w| - 1 then "]" else "";
      var q := Quote(xs[i]);
      assert w[i] == pre + q + post;
      assert w[i][0] == (if i == 0 then '[' else q[0]);
      assert w[i][|w[i]| - 1] == (if i == |w| - 1 then ']' else q[|q| - 1]);
      assert forall c :: c in w[i] <==> c in pre || c in q || c in post;
    }
  }

  /** `str()` of a list starts with '[' and ends with ']', so stripping keeps it. */
  lemma ListReprTrimmed(xs: seq<string>)
    ensures Strip(ListRepr(xs)) == ListRepr(xs)
  {
    var r := ListRepr(xs);
    assert r[0] == '[' && r[|r| - 1] == ']';
    StripTrimmed(r);
  }

  /** The seats the form stores for a non-empty list handed over as its
      `str()`: every seat quoted, the first with a leading '[' and the last
      with a trailing ']'. */
  lemma ParseListRepr(xs: seq<string>)
    requires xs != [] && forall i :: 0 <= i < |xs| ==> ',' !in xs[i]
    ensures ParseSeats(Strip(ListRepr(xs))) == Wrap(QuoteAll(xs), "[", "]")
  {
    JoinWrap(QuoteAll(xs), ", ", "[", "]");
    WrappedQuotesWellFormed(xs);
    ParseJoinRoundTrip(Wrap(QuoteAll(xs), "[", "]"));
    ListReprTrimmed(xs);
  }

  /** A seat list that `", ".join` and parsing carry through has its first
      item at the front and its last at the back of the joined text, so the
      joined text is already stripped. */
  lemma {:induction false} JoinTrimmed(xs: seq<string>)
    requires WellFormedSeats(xs)
    ensures IsTrimmed(Join(xs, ", "))
    ensures xs != [] ==> (var j := Join(xs, ", "); j[0] == xs[0][0] && j[|j| - 1] == xs[|xs| - 1][|xs[|xs| - 1]| - 1])
  {
    if |xs| > 1 {
      JoinTrimmed(xs[1..]);
      var j := Join(xs, ", ");
      assert j == xs[0] + ", " + Join(xs[1..], ", ");
    }
  }

  /** As written, the API never stores the seats it was sent: for any
      non-empty list of seats, sent as text or as a list, the form sees the
      list's `str()`, which still has the right number of seats (so the
      count check passes) but the first seat gains "['" and the last "']". */
  lemma ApiSeatsAsWrittenMangles(v: SeatsValue)
    requires v.SeatsText? || (v.SeatsList? && forall i :: 0 <= i < |v.items| ==> ',' !in v.items[i])
    requires MeantSeats(v) != []
    ensures var stored := ParseSeats(Strip(ApiSeatsAsWritten(v)));
            && |stored| == |MeantSeats(v)|
            && stored != MeantSeats(v)
            && stored == Wrap(QuoteAll(MeantSeats(v)), "[", "]")
  {
    var xs := MeantSeats(v);
    assert ApiSeatsAsWritten(v) == ListRepr(xs);
    ParseListRepr(xs);
    var stored := Wrap(QuoteAll(xs), "[", "]");
    assert |stored[0]| > |xs[0]|;
  }

  /** "A1, A2" sent as text is stored as the two seats "['A1'" and "'A2']". */
  lemma ApiSeatsAsWrittenExample()
    ensures ParseSeats(Strip(ApiSeatsAsWritten(SeatsText("A1, A2")))) == ["['A1'", "'A2']"]
  {
    var xs := ["A1", "A2"];
    ExampleSeats();
    ParseJoinRoundTrip(xs);
    assert ApiSeatsAsWritten(SeatsText("A1, A2")) == ListRepr(xs);
    ParseListRepr(xs);
    WrapExample();
  }

  lemma ExampleSeats()
    ensures Join(["A1", "A2"], ", ") == "A1, A2"
    ensures WellFormedSeats(["A1", "A2"])
  {
    assert Join(["A1", "A2"], ", ") == "A1" + ", " + "A2";
    assert !IsSpace('A') && !IsSpace('1') && !IsSpace('2');
  }

  lemma WrapExample()
    ensures Wrap(QuoteAll(["A1", "A2"]), "[", "]") == ["['A1'", "'A2']"]
  {
    var q := QuoteAll(["A1", "A2"]);
    assert q[0] == "'A1'" && q[1] == "'A2'";
    var w := Wrap(q, "[", "]");
    assert w[0] == "[" + q[0] + "";
    assert w[1] == "" + q[1] + "]";
    assert w[0] == "['A1'" && w[1] == "'A2']";
    assert w == [w[0], w[1]];
  }

  /** With the seats handed over in the form's own format, the form stores
      exactly the seats the client meant: those split out of a string, or a
      well-formed list as sent. */
  lemma ApiSeatsRoundTrip(v: SeatsValue)
    requires v.SeatsList? ==> WellFormedSeats(v.items)
    ensures ParseSeats(Strip(ApiSeats(v))) == MeantSeats(v)
    ensures ApiSeats(v) == "" <==> MeantSeats(v) == []
  {
    var xs := MeantSeats(v);
    assert ApiSeats(v) == Join(xs, ", ");
    JoinTrimmed(xs);
    StripTrimmed(Join(xs, ", "));
    ParseJoinRoundTrip(xs);
    if xs != [] {
      assert Join(xs, ", ")[0] == xs[0][0];
    }
  }

  // ---------------------------------------------------------------------
  // The JSON listing API

  /** A JSON body of the listing API: the listing fields, and the `seats`
      member as sent (the text in `fields.seats` is not used). */
  datatype ListingData = ListingData(fields: TicketInput, seats: SeatsValue)

  /** What the form receives from a JSON body: the corrected seats text and
      no file, since the API passes no uploaded files to the form. */
  function ApiInput(d: ListingData): (input: TicketInput)
    ensures !input.newFile && input.seats == ApiSeats(d.seats)
  {
    d.fields.(seats := ApiSeats(d.seats), newFile := false)
  }

  datatype ApiOutcome =
    | Created(ticket: TicketKey)          // 201
    | Updated                             // 200
    | Deleted                             // 200
    | Forbidden                           // 403
    | NotFound                            // 404
    | InvalidJson                         // 400 "Invalid JSON data"
    | Invalid(errors: seq<FieldError>)    // 400 with the form's errors
    | ServerError                         // 500: the form's validation raised

  /** May create listings: a Reseller account or a superadmin. */
  predicate CanList(u: User) {
    IsReseller(u) || u.isSuperadmin
  }

  /** May change or delete the listing: its seller or a superadmin. */
  predicate CanManage(t: Ticket, userKey: UserKey, u: User) {
    t.seller == userKey || u.isSuperadmin
  }

  /** The listing a `TicketForm` for `instance` (None for a new one) of
      event `e` writes from a submission whose field checks passed. */
  function FormWrite(instance: Option<Ticket>, e: EventKey, seller: UserKey, input: TicketInput): Ticket
    requires CleanQuantity(input.numberOfTickets).Some? && input.section.Some?
  {
    ApplyForm(FormInstance(instance, e), e, seller, input,
              CleanQuantity(input.numberOfTickets).value, input.section.value, ParseSeats(Strip(input.seats)))
  }

  /** What an accepted submission writes: a listing of the event, in one of
      its sections, with as many seats as tickets; a new listing belongs to
      the submitter and is unsold, an edited one keeps its seller, sale
      state and buyer. */
  lemma FormWriteAccepted(instance: Option<Ticket>, e: EventKey, sections: map<SectionKey, EventSection>, seller: UserKey,
                          input: TicketInput, eventDate: Date)
    requires FormAccepts(FormInstance(instance, e), SectionsOf(sections, e), eventDate, input)
    ensures CleanQuantity(input.numberOfTickets).Some? && input.section.Some?
    ensures var t := FormWrite(instance, e, seller, input);
            && t.event == e && t.section in sections && sections[t.section].event == e
            && t.seats == ParseSeats(Strip(input.seats)) && t.numberOfTickets == |t.seats|
            && t.hasFile == (input.newFile || (instance.Some? && instance.value.hasFile))
            && (instance.None? ==> t.seller == seller && !t.sold && t.buyer.None?)
            && (instance.Some? ==> t.seller == instance.value.seller && t.sold == instance.value.sold
                                   && t.buyer == instance.value.buyer)
  {
  }

  /** A `TicketForm` for the listing `instance` (None for a new one) of event
      `e`, validated and, when valid, saved without committing: what
      validation ended in, and the listing it would write. */
  method SubmitListing(instance: Option<Ticket>, e: EventKey, eventDate: Date, sections: map<SectionKey, EventSection>,
                       seller: UserKey, input: TicketInput)
    returns (outcome: Validation, t: Ticket)
    ensures outcome == FormValidation(FormInstance(instance, e), eventDate, SectionsOf(sections, e), input)
    ensures outcome == Checked([]) ==>
              CleanQuantity(input.numberOfTickets).Some? && input.section.Some? && t == FormWrite(instance, e, seller, input)
  {
    var form := new TicketForm(instance, e, eventDate, sections);
    outcome := form.IsValid(input);
    if outcome == Checked([]) {
      t := form.Save(input, seller);
    } else {
      t := NewTicket(Listing(e, seller, input.uploadChoice, false, None, 0, 0, "", [], 0.0, input.ticketType, [], 0.0));
    }
  }

  /** The section range and the event total after saving the listing `t`
      under `k`, as `Ticket.save` leaves them. */
  predicate SavedAggregates(store: Store, oldSections: map<SectionKey, EventSection>, oldEvents: map<EventKey, Event>,
                            t: Ticket)
    requires t.section in oldSections && t.event in oldEvents
    reads store
  {
    && (var range := PriceRange(store.tickets, t.section, store.nextTicket);
        store.sections == oldSections[t.section := if range.Some? then UpdatePrices(oldSections[t.section], range.value.0, range.value.1)
                                                   else oldSections[t.section]])
    && store.events == oldEvents[t.event := oldEvents[t.event].(totalTickets := EventTotal(store.tickets, t.event, store.nextTicket))]
  }

  /** `CreateListingAPIView.post`: 403 unless the caller may list, 404 for an
      unknown event, 400 for a body that is not JSON or that the form
      refuses, 500 when the form's validation raises; otherwise the listing
      the form builds, with the caller as seller, is saved under the next
      key with its buyer prices, and its section's range and its event's
      total are recomputed. */
  method ApiCreateListing(store: Store, userKey: UserKey, user: User, e: EventKey, body: Option<ListingData>)
    returns (res: ApiOutcome)
    requires store.Valid()
    modifies store
    ensures store.Valid()
    ensures res == Forbidden <==> !CanList(user)
    ensures res == NotFound <==> CanList(user) && e !in old(store.events)
    ensures res == InvalidJson <==> CanList(user) && e in old(store.events) && body.None?
    ensures res == ServerError <==>
              CanList(user) && e in old(store.events) && body.Some?
              && CleanCrashes(None, old(store.events)[e].date, ApiInput(body.value))
    ensures res.Invalid? <==>
              (&& CanList(user) && e in old(store.events) && body.Some?
               && !CleanCrashes(None, old(store.events)[e].date, ApiInput(body.value))
               && !FormAccepts(None, SectionsOf(old(store.sections), e), old(store.events)[e].date, ApiInput(body.value)))
    ensures res.Invalid? ==>
              Checked(res.errors) == FormValidation(None, old(store.events)[e].date, SectionsOf(old(store.sections), e),
                                                    ApiInput(body.value))
    ensures !res.Created? ==> unchanged(store)
    ensures res.Created? ==>
              && body.Some? && e in old(store.events)
              && FormAccepts(None, SectionsOf(old(store.sections), e), old(store.events)[e].date, ApiInput(body.value))
              && res.ticket == old(store.nextTicket) && res.ticket !in old(store.tickets)
              && store.nextTicket == old(store.nextTicket) + 1
              && var t := FormWrite(None, e, userKey, ApiInput(body.value));
                 && store.tickets == old(store.tickets)[res.ticket := PricedFor(t, old(store.events)[e])]
                 && t.section in old(store.sections) && SavedAggregates(store, old(store.sections), old(store.events), t)
                 && t.seller == userKey && t.event == e && !t.sold && t.buyer.None?
                 && t.seats == ParseSeats(Strip(ApiSeats(body.value.seats))) && t.numberOfTickets == |t.seats|
                 && old(store.sections)[t.section].event == e
    ensures res.Created? ==> unchanged(store`orders, store`sales)
  {
    if !CanList(user) {
      return Forbidden;
    }
    if e !in store.events {
      return NotFound;
    }
    if body.None? {
      return InvalidJson;
    }
    var input := ApiInput(body.value);
    var outcome, t := SubmitListing(None, e, store.events[e].date, store.sections, userKey, input);
    if outcome == ValidationCrashed {
      return ServerError;
    }
    if outcome != Checked([]) {
      return Invalid(outcome.errors);
    }
    FormWriteAccepted(None, e, store.sections, userKey, input, store.events[e].date);
    var k := store.nextTicket;
    store.SaveTicket(k, t);
    res := Created(k);
  }

  /** A JSON body can never create an upload-now listing: the API passes no
      file to the form, so the form asks for one (and does not crash). */
  lemma ApiCannotListUploadNow(d: ListingData, choices: set<SectionKey>, eventDate: Date)
    requires d.fields.uploadChoice == UploadNow
    ensures !FormAccepts(None, choices, eventDate, ApiInput(d))
    ensures FormValidation(None, eventDate, choices, ApiInput(d)).Checked?
  {
    assert UploadFileField in ErrorFields(UploadErrors(ApiInput(d), false, eventDate));
  }

  /** `TicketUpdateAPIView.post`: 404 for an unknown listing, 403 unless the
      caller is its seller or a superadmin (checked before the body is
      read), 400 for a body that is not JSON or that the form refuses;
      otherwise the listing is rewritten by the form and saved in place with
      its buyer prices, and its section's range and its event's total are
      recomputed. Validation never raises for an existing listing. */
  method ApiUpdateListing(store: Store, userKey: UserKey, user: User, tk: TicketKey, body: Option<ListingData>)
    returns (res: ApiOutcome)
    requires store.Valid()
    modifies store
    ensures store.Valid()
    ensures res != ServerError
    ensures res == NotFound <==> tk !in old(store.tickets)
    ensures res == Forbidden <==> tk in old(store.tickets) && !CanManage(old(store.tickets)[tk], userKey, user)
    ensures res == InvalidJson <==> tk in old(store.tickets) && CanManage(old(store.tickets)[tk], userKey, user) && body.None?
    ensures res.Invalid? <==>
              (&& tk in old(store.tickets) && CanManage(old(store.tickets)[tk], userKey, user) && body.Some?
               && var t := old(store.tickets)[tk];
                  !FormAccepts(Some(t), SectionsOf(old(store.sections), t.event), old(store.events)[t.event].date, ApiInput(body.value)))
    ensures res.Invalid? ==>
              var t := old(store.tickets)[tk];
              Checked(res.errors) == FormValidation(Some(t), old(store.events)[t.event].date,
                                                    SectionsOf(old(store.sections), t.event), ApiInput(body.value))
    ensures !res.Updated? ==> unchanged(store)
    ensures res.Updated? ==>
              && tk in old(store.tickets) && body.Some?
              && var t := old(store.tickets)[tk];
                 && FormAccepts(Some(t), SectionsOf(old(store.sections), t.event), old(store.events)[t.event].date, ApiInput(body.value))
                 && var u := FormWrite(Some(t), t.event, userKey, ApiInput(body.value));
                    && store.tickets == old(store.tickets)[tk := PricedFor(u, old(store.events)[t.event])]
                    && store.nextTicket == old(store.nextTicket)
                    && u.section in old(store.sections) && SavedAggregates(store, old(store.sections), old(store.events), u)
                    && u.seller == t.seller && u.event == t.event && u.sold == t.sold && u.buyer == t.buyer && u.hasFile == t.hasFile
                    && u.seats == ParseSeats(Strip(ApiSeats(body.value.seats))) && u.numberOfTickets == |u.seats|
    ensures res.Updated? ==> unchanged(store`orders, store`sales)
  {
    if tk !in store.tickets {
      return NotFound;
    }
    var t := store.tickets[tk];
    if !CanManage(t, userKey, user) {
      return Forbidden;
    }
    if body.None? {
      return InvalidJson;
    }
    var input := ApiInput(body.value);
    var outcome, updated := SubmitListing(Some(t), t.event, store.events[t.event].date, store.sections, userKey, input);
    if outcome != Checked([]) {
      return Invalid(outcome.errors);
    }
    FormWriteAccepted(Some(t), t.event, store.sections, userKey, input, store.events[t.event].date);
    store.SaveTicket(tk, updated);
    res := Updated;
  }

  /** `TicketDeleteAPIView.post`: 404 for an unknown listing, 403 unless the
      caller is its seller or a superadmin; otherwise `Ticket.delete`: its
      event's total is recounted over the remaining listings, its section's
      range is that of the remaining listings ((0, 0) when none remain), and
      the event's sold count is left as it was. */
  method ApiDeleteListing(store: Store, userKey: UserKey, user: User, tk: TicketKey) returns (res: ApiOutcome)
    requires store.Valid()
    modifies store
    ensures store.Valid()
    ensures res == NotFound <==> tk !in old(store.tickets)
    ensures res == Forbidden <==> tk in old(store.tickets) && !CanManage(old(store.tickets)[tk], userKey, user)
    ensures res == Deleted <==> tk in old(store.tickets) && CanManage(old(store.tickets)[tk], userKey, user)
    ensures res != Deleted ==> unchanged(store)
    ensures res == Deleted ==>
              && store.tickets == old(store.tickets) - {tk}
              && var e := old(store.tickets)[tk].event;
                 var s := old(store.tickets)[tk].section;
                 var range := PriceRange(store.tickets, s, store.nextTicket);
                 && store.events == old(store.events)[e := old(store.events)[e].(totalTickets := EventTotal(store.tickets, e, store.nextTicket))]
                 && store.sections == old(store.sections)[s := if range.Some? then UpdatePrices(old(store.sections)[s], range.value.0, range.value.1)
                                                              else UpdatePrices(old(store.sections)[s], 0.0, 0.0)]
    ensures res == Deleted ==> unchanged(store`orders, store`sales, store`nextTicket)
  {
    if tk !in store.tickets {
      return NotFound;
    }
    if !CanManage(store.tickets[tk], userKey, user) {
      return Forbidden;
    }
    store.DeleteTicket(tk);
    res := Deleted;
  }

  // ---------------------------------------------------------------------
  // Listing queries

  /** The optional query filters; an empty list or None means not given. */
  datatype ListingFilters = ListingFilters(
    sections: seq<SectionKey>,
    types: seq<TicketType>,
    minPrice: Option<real>,
    maxPrice: Option<real>,
    quantities: seq<int>)

  const NoFilters := ListingFilters([], [], None, None, [])

  /** Whether a listing passes every filter that was given. */
  predicate PassesFilters(t: Ticket, f: ListingFilters) {
    && (f.sections != [] ==> t.section in f.sections)
    && (f.types != [] ==> t.ticketType in f.types)
    && (f.minPrice.Some? ==> t.sellPrice >= f.minPrice.value)
    && (f.maxPrice.Some? ==> t.sellPrice <= f.maxPrice.value)
    && (f.quantities != [] ==> t.numberOfTickets as int in f.quantities)
  }

  /** Whether the listing at `k` is an unsold listing of event `e` passing `f`. */
  predicate Listed(tickets: map<TicketKey, Ticket>, e: EventKey, f: ListingFilters, k: TicketKey) {
    k in tickets && tickets[k].event == e && !tickets[k].sold && PassesFilters(tickets[k], f)
  }

  /** `EventTicketListView.get_queryset` and the query of
      `EventTicketListAPIView.get`: the keys below `n` of the unsold listings
      of event `e` that pass the filters, newest first. */
  function EventListing(tickets: map<TicketKey, Ticket>, e: EventKey, f: ListingFilters, n: nat): seq<TicketKey> {
    if n == 0 then []
    else (if Listed(tickets, e, f, n - 1) then [n - 1] else []) + EventListing(tickets, e, f, n - 1)
  }


  /** The query lists exactly the unsold listings of the event that pass the
      filters, each once, newest first. */
  lemma {:induction false} EventListingExact(tickets: map<TicketKey, Ticket>, e: EventKey, f: ListingFilters, n: nat)
    ensures forall k: TicketKey :: k in EventListing(tickets, e, f, n) <==> k < n && Listed(tickets, e, f, k)
    ensures NewestFirst(EventListing(tickets, e, f, n))
  {
    if n > 0 {
      EventListingExact(tickets, e, f, n - 1);
      var rest := EventListing(tickets, e, f, n - 1);
      var r := EventListing(tickets, e, f, n);
      assert r == (if Listed(tickets, e, f, n - 1) then [n - 1] else []) + rest;
      forall i, j | 0 <= i < j < |r|
        ensures r[i] > r[j]
      {
        if Listed(tickets, e, f, n - 1) {
          assert r[j] == rest[j - 1] && rest[j - 1] in rest;
          if i > 0 {
            assert r[i] == rest[i - 1];
          }
        } else {
          assert r[i] == rest[i] && r[j] == rest[j];
        }
      }
    }
  }

  /** Adding filters only narrows the result: whatever a filtered query
      lists, the unfiltered query lists too. */
  lemma FiltersOnlyNarrow(tickets: map<TicketKey, Ticket>, e: EventKey, f: ListingFilters, n: nat, k: TicketKey)
    requires k in EventListing(tickets, e, f, n)
    ensures k in EventListing(tickets, e, NoFilters, n)
    ensures k in tickets && !tickets[k].sold && tickets[k].event == e
  {
    EventListingExact(tickets, e, f, n);
    EventListingExact(tickets, e, NoFilters, n);
  }

  /** A sold listing is never listed, whatever the filters. */
  lemma SoldNeverListed(tickets: map<TicketKey, Ticket>, e: EventKey, f: ListingFilters, n: nat, k: TicketKey)
    requires k in tickets && tickets[k].sold
    ensures k !in EventListing(tickets, e, f, n)
  {
    EventListingExact(tickets, e, f, n);
  }

  /** The price per ticket `EventTicketListAPIView.get` shows: the Reseller
      price to a Reseller account or a superadmin, the normal price otherwise. */
  function ApiPricePerTicket(t: Ticket, u: User): (r: real)
    ensures CanList(u) ==> r == t.priceForReseller
    ensures !CanList(u) ==> r == t.priceForNormal
  {
    if IsReseller(u) || u.isSuperadmin then t.priceForReseller else t.priceForNormal
  }

  /** The listing API shows a superadmin the price a Reseller pays, while an
      order by a superadmin whose account type is not Reseller is charged the
      normal price. */
  lemma SuperadminSeesResellerPrice(t: Ticket, u: User)
    requires u.isSuperadmin && !IsReseller(u)
    ensures ApiPricePerTicket(t, u) == t.priceForReseller
    ensures PricePerTicket(t, PricingType(u)) == t.priceForNormal
  {
  }
}
