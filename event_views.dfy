/** The event views that write: creating and updating an event together
    with its sections, through the JSON API (`EventCreateAPIView`,
    `EventUpdateAPIView`) and the HTML forms (`EventCreateView`,
    `EventUpdateView`). Each runs inside one transaction: an exception rolls
    everything back, a returned error response keeps what was written. */
module EventViews {
  import opened Common
  import opened EventModels
  import opened EventForms
  import opened Marketplace
  import opened AccountModels
  import opened SectionSync

  /** The fields `EventCreationForm` edits (the two image URLs are not modelled). */
  datatype EventFields = EventFields(
    name: string,
    category: string,
    stadiumName: string,
    date: Date,
    time: Time,
    normalServiceCharge: real,
    resellerServiceCharge: real)

  /** The form saved over an event: the edited fields change, the public id,
      the owner and the counters stay. */
  function WithFields(ev: Event, f: EventFields): (r: Event)
    ensures r.name == f.name && r.category == f.category && r.stadiumName == f.stadiumName
    ensures r.date == f.date && r.time == f.time
    ensures r.normalServiceCharge == f.normalServiceCharge && r.resellerServiceCharge == f.resellerServiceCharge
    ensures r.eventId == ev.eventId && r.superadmin == ev.superadmin
    ensures r.totalTickets == ev.totalTickets && r.soldTickets == ev.soldTickets && r.totalSoldPrice == ev.totalSoldPrice
  {
    ev.(name := f.name, category := f.category, stadiumName := f.stadiumName, date := f.date, time := f.time,
        normalServiceCharge := f.normalServiceCharge, resellerServiceCharge := f.resellerServiceCharge)
  }

  /** `form.save(commit=False)` followed by `event.superadmin = user`: no
      public id yet and every counter at its default. */
  function NewEvent(f: EventFields, superadmin: UserKey): (r: Event)
    ensures r.eventId.None? && r.superadmin == superadmin
    ensures r.totalTickets == 0 && r.soldTickets == 0 && r.totalSoldPrice == 0.0
    ensures WithFields(r, f) == r
  {
    Event(None, superadmin, f.name, f.category, f.stadiumName, f.date, f.time,
          f.normalServiceCharge, f.resellerServiceCharge, 0, 0, 0.0)
  }

  /** The errors of an `EventCreationForm`: those of its fields, which are
      given, then those of `clean`, which sees a date or a time only when
      that field passed its own checks. With valid fields the form accepts
      exactly the events that have not started yet. */
  function EventFormErrors(f: EventFields, fieldErrors: seq<FieldError>, now: Instant): (r: seq<FieldError>)
    ensures r == [] <==> fieldErrors == [] && !IsExpired(f.date, f.time, now)
    ensures fieldErrors <= r
    ensures DateField in ErrorFields(fieldErrors) ==> r == fieldErrors
  {
    var date := if DateField in ErrorFields(fieldErrors) then None else Some(f.date);
    var time := if TimeField in ErrorFields(fieldErrors) then None else Some(f.time);
    fieldErrors + DateTimeErrors(date, time, now)
  }

  /** The public ids already taken. */
  function UsedIds(events: map<EventKey, Event>): set<int> {
    set k | k in events && events[k].eventId.Some? :: events[k].eventId.value
  }

  /** A decoded JSON body: the form fields and the popped `sections` list
      (an absent list is the empty list). */
  datatype EventBody = EventBody(fields: EventFields, sections: seq<SectionData>)

  /** The JSON views' responses. */
  datatype EventApiOutcome =
    | Forbidden                                 // 403: not a superadmin
    | EventNotFound                             // 404: no such event of this superadmin
    | InvalidJson                               // 400: the body is not JSON
    | FormErrors(errors: seq<FieldError>)       // 400: the event form refused
    | SectionErrors(errors: seq<FieldError>)    // 400: a section entry refused
    | ServerError                               // 500: an exception, rolled back
    | Created(event: EventKey)                  // 201
    | Updated                                   // 200

  /** The HTML views' responses. */
  datatype EventPageOutcome =
    | SignInRedirect                            // not a superadmin
    | PageNotFound                              // no such event
    | Redisplayed                               // `form_invalid`, nothing saved
    | Saved(event: EventKey)                    // redirect to the event list

  /** Writes a created event and the sections the loop produced for it: the
      event takes the next key. */
  method SaveNewEvent(store: Store, ev: Event, sync: SyncState, ghost ds: seq<SectionData>, ghost stopAtInvalid: bool)
    returns (k: EventKey)
    requires store.Valid()
    requires sync == SyncFor(store.sections, store.nextSection, store.nextEvent, ds, stopAtInvalid)
    modifies store`events, store`nextEvent, store`sections, store`nextSection
    ensures store.Valid()
    ensures k == old(store.nextEvent) && k !in old(store.events)
    ensures store.events == old(store.events)[k := ev] && store.nextEvent == k + 1
    ensures store.sections == sync.sections && store.nextSection == sync.next
  {
    SyncResultValid(store.sections, store.nextSection, store.events.Keys + {store.nextEvent}, store.nextEvent,
                    CheckAll(ds), stopAtInvalid);
    k := store.AddEvent(ev);
    store.SetSections(sync.sections, sync.next);
  }

  /** `EventCreateAPIView.post`. The event is saved with a fresh public id
      (the random draws are given), then the sections are created in order.
      A refused section answers 400 and keeps the event and the sections
      before it; a duplicate section name raises `IntegrityError`, which rolls
      everything back and answers 500. */
  method ApiCreateEvent(store: Store, userKey: UserKey, user: User, body: Option<EventBody>,
                        fieldErrors: seq<FieldError>, now: Instant, draws: seq<int>)
    returns (res: EventApiOutcome)
    requires store.Valid()
    requires forall i :: 0 <= i < |draws| ==> MinEventId <= draws[i] <= MaxEventId
    requires exists i :: 0 <= i < |draws| && draws[i] !in UsedIds(store.events)
    modifies store
    ensures store.Valid()
    ensures res == Forbidden <==> !user.isSuperadmin
    ensures res == InvalidJson <==> user.isSuperadmin && body.None?
    ensures res.FormErrors? <==> user.isSuperadmin && body.Some? && EventFormErrors(body.value.fields, fieldErrors, now) != []
    ensures res.FormErrors? ==> res.errors == EventFormErrors(body.value.fields, fieldErrors, now)
    ensures body.Some? ==>
      var sync := SyncFor(old(store.sections), old(store.nextSection), old(store.nextEvent), body.value.sections, true);
      && (res == ServerError <==> user.isSuperadmin && EventFormErrors(body.value.fields, fieldErrors, now) == [] && sync.status == NameClash)
      && (res.SectionErrors? ==> sync.status == Rejected(res.errors))
      && (res.Created? ==> res.event == old(store.nextEvent) && sync.status == Running)
      && (res.SectionErrors? || res.Created? ==> store.sections == sync.sections && store.nextSection == sync.next)
    ensures res.SectionErrors? || res.Created? ==>
      && store.events.Keys == old(store.events.Keys) + {old(store.nextEvent)}
      && store.events == old(store.events)[old(store.nextEvent) := store.events[old(store.nextEvent)]]
      && var ev := store.events[old(store.nextEvent)];
         && ev == NewEvent(body.value.fields, userKey).(eventId := ev.eventId)
         && ev.eventId.Some? && MinEventId <= ev.eventId.value <= MaxEventId
         && ev.eventId.value !in UsedIds(old(store.events))
    ensures res.SectionErrors? || res.Created? ==> unchanged(store`tickets, store`orders, store`sales)
    ensures !(res.SectionErrors? || res.Created?) ==> unchanged(store)
  {
    if !user.isSuperadmin { return Forbidden; }
    if body.None? { return InvalidJson; }
    var errors := EventFormErrors(body.value.fields, fieldErrors, now);
    if errors != [] { return FormErrors(errors); }
    var key := store.nextEvent;
    var ev := AssignEventId(NewEvent(body.value.fields, userKey), UsedIds(store.events), draws);
    var sync := SyncSections(store.sections, store.nextSection, key, body.value.sections, true);
    if sync.status == NameClash {
      return ServerError;
    }
    var k := SaveNewEvent(store, ev, sync, body.value.sections, true);
    if sync.status.Rejected? {
      return SectionErrors(sync.status.errors);
    }
    return Created(k);
  }

  /** `EventCreateView.form_valid`: as the API view, except that a refused
      section raises `ValueError`, so any failure (unreadable `sections`
      JSON, a refused section, a duplicate name) rolls everything back and
      redisplays the form. Sending the notification mail cannot fail it. */
  method PageCreateEvent(store: Store, userKey: UserKey, user: User, fields: EventFields,
                         fieldErrors: seq<FieldError>, sections: Option<seq<SectionData>>, now: Instant, draws: seq<int>)
    returns (res: EventPageOutcome)
    requires store.Valid()
    requires forall i :: 0 <= i < |draws| ==> MinEventId <= draws[i] <= MaxEventId
    requires exists i :: 0 <= i < |draws| && draws[i] !in UsedIds(store.events)
    modifies store
    ensures store.Valid()
    ensures res == SignInRedirect <==> !user.isSuperadmin
    ensures res != PageNotFound
    ensures res.Saved? <==>
      && user.isSuperadmin && EventFormErrors(fields, fieldErrors, now) == [] && sections.Some?
      && SyncFor(old(store.sections), old(store.nextSection), old(store.nextEvent), sections.value, true).status == Running
    ensures res.Saved? ==>
      var sync := SyncFor(old(store.sections), old(store.nextSection), old(store.nextEvent), sections.value, true);
      && res.event == old(store.nextEvent) && res.event in store.events
      && store.sections == sync.sections && store.nextSection == sync.next
      && var ev := store.events[res.event];
         && store.events == old(store.events)[res.event := ev]
         && ev == NewEvent(fields, userKey).(eventId := ev.eventId)
         && ev.eventId.Some? && ev.eventId.value !in UsedIds(old(store.events))
    ensures res.Saved? ==> unchanged(store`tickets, store`orders, store`sales)
    ensures !res.Saved? ==> unchanged(store)
  {
    if !user.isSuperadmin { return SignInRedirect; }
    if EventFormErrors(fields, fieldErrors, now) != [] || sections.None? { return Redisplayed; }
    var ev := AssignEventId(NewEvent(fields, userKey), UsedIds(store.events), draws);
    var sync := SyncSections(store.sections, store.nextSection, store.nextEvent, sections.value, true);
    if !sync.status.Running? {
      return Redisplayed;
    }
    var k := SaveNewEvent(store, ev, sync, sections.value, true);
    return Saved(k);
  }

  /** Writes an edited event and the sections the loop produced for it and,
      when `deleteLeftovers`, deletes the sections left unmatched together
      with their listings. */
  method SaveEventUpdate(store: Store, e: EventKey, ev: Event, sync: SyncState, ghost ds: seq<SectionData>,
                         ghost stopAtInvalid: bool, deleteLeftovers: bool)
    requires store.Valid() && e in store.events
    requires sync == SyncFor(store.sections, store.nextSection, e, ds, stopAtInvalid)
    modifies store`events, store`sections, store`nextSection, store`tickets
    ensures store.Valid()
    ensures store.events == old(store.events)[e := ev]
    ensures store.sections == (if deleteLeftovers then sync.sections - sync.pending else sync.sections)
    ensures store.nextSection == sync.next
    ensures forall k :: k in old(store.sections) && old(store.sections)[k].event != e ==>
              k in store.sections && store.sections[k] == old(store.sections)[k]
    ensures deleteLeftovers ==> forall k :: k in store.tickets <==> k in old(store.tickets) && old(store.tickets)[k].section !in sync.pending
    ensures !deleteLeftovers ==> store.tickets == old(store.tickets)
    ensures forall k :: k in store.tickets ==> store.tickets[k] == old(store.tickets)[k]
  {
    SyncResultValid(store.sections, store.nextSection, store.events.Keys, e, CheckAll(ds), stopAtInvalid);
    store.SetEvent(e, ev);
    store.SetSections(sync.sections, sync.next);
    if deleteLeftovers {
      store.DeleteSections(sync.pending);
    }
  }

  /** The transaction of `EventUpdateAPIView.post`, once the form is valid. */
  method UpdateInTransaction(store: Store, e: EventKey, body: EventBody) returns (res: EventApiOutcome)
    requires store.Valid() && e in store.events
    modifies store
    ensures store.Valid()
    ensures res == ServerError || res.SectionErrors? || res.Updated?
    ensures var sync := SyncFor(old(store.sections), old(store.nextSection), e, body.sections, true);
      && (res == ServerError <==> sync.status == NameClash)
      && (res.SectionErrors? <==> sync.status.Rejected?)
      && (res.SectionErrors? ==> sync.status == Rejected(res.errors) && store.sections == sync.sections
                                 && store.tickets == old(store.tickets))
      && (res.Updated? ==> store.sections == sync.sections - sync.pending
                           && (forall k :: k in store.tickets <==> k in old(store.tickets) && old(store.tickets)[k].section !in sync.pending))
      && (res != ServerError ==>
            store.events == old(store.events)[e := WithFields(old(store.events)[e], body.fields)]
            && store.nextSection == sync.next)
    ensures res != ServerError ==>
      && (forall k :: k in old(store.sections) && old(store.sections)[k].event != e ==>
            k in store.sections && store.sections[k] == old(store.sections)[k])
      && (forall k :: k in store.tickets ==> store.tickets[k] == old(store.tickets)[k])
      && unchanged(store`orders, store`sales, store`nextEvent)
    ensures res == ServerError ==> unchanged(store)
  {
    var sync := SyncSections(store.sections, store.nextSection, e, body.sections, true);
    if sync.status == NameClash {
      return ServerError;
    }
    SaveEventUpdate(store, e, WithFields(store.events[e], body.fields), sync, body.sections, true,
                    sync.status.Running?);
    if sync.status.Rejected? {
      return SectionErrors(sync.status.errors);
    }
    return Updated;
  }

  /** The API's lookup `Event.objects.get(event_id=..., superadmin=user)` finds `e`. */
  predicate Owns(events: map<EventKey, Event>, e: EventKey, userKey: UserKey) {
    e in events && events[e].superadmin == userKey
  }

  /** `EventUpdateAPIView.post` for the event `e` (looked up together with
      its owner). The form is saved, then the loop runs; a refused section
      answers 400 before any stored section is deleted; otherwise the
      sections of `e` no entry matched are deleted, and their listings with
      them. A duplicate name rolls everything back and answers 500. */
  method ApiUpdateEvent(store: Store, userKey: UserKey, user: User, e: EventKey, body: Option<EventBody>,
                        fieldErrors: seq<FieldError>, now: Instant)
    returns (res: EventApiOutcome)
    requires store.Valid()
    modifies store
    ensures store.Valid()
    ensures res == Forbidden <==> !user.isSuperadmin
    ensures res == EventNotFound <==> user.isSuperadmin && !Owns(old(store.events), e, userKey)
    ensures res == InvalidJson <==> user.isSuperadmin && Owns(old(store.events), e, userKey) && body.None?
    ensures res.FormErrors? <==>
      user.isSuperadmin && Owns(old(store.events), e, userKey) && body.Some? && EventFormErrors(body.value.fields, fieldErrors, now) != []
    ensures res.FormErrors? ==> res.errors == EventFormErrors(body.value.fields, fieldErrors, now)
    ensures !res.Created?
    ensures user.isSuperadmin && Owns(old(store.events), e, userKey) && body.Some? && EventFormErrors(body.value.fields, fieldErrors, now) == [] ==>
      var sync := SyncFor(old(store.sections), old(store.nextSection), e, body.value.sections, true);
      && (res == ServerError <==> sync.status == NameClash)
      && (res.SectionErrors? <==> sync.status.Rejected?)
      && (res.SectionErrors? ==> sync.status == Rejected(res.errors) && store.sections == sync.sections
                                 && store.tickets == old(store.tickets))
      && (res.Updated? ==> store.sections == sync.sections - sync.pending
                           && (forall k :: k in store.tickets <==> k in old(store.tickets) && old(store.tickets)[k].section !in sync.pending))
      && (res.Updated? || res.SectionErrors? ==>
            store.events == old(store.events)[e := WithFields(old(store.events)[e], body.value.fields)]
            && store.nextSection == sync.next)
    ensures res.Updated? || res.SectionErrors? ==>
      && (forall k :: k in old(store.sections) && old(store.sections)[k].event != e ==>
            k in store.sections && store.sections[k] == old(store.sections)[k])
      && (forall k :: k in store.tickets ==> store.tickets[k] == old(store.tickets)[k])
      && unchanged(store`orders, store`sales, store`nextEvent)
    ensures !(res.Updated? || res.SectionErrors?) ==> unchanged(store)
  {
    if !user.isSuperadmin { return Forbidden; }
    if !Owns(store.events, e, userKey) { return EventNotFound; }
    if body.None? { return InvalidJson; }
    var errors := EventFormErrors(body.value.fields, fieldErrors, now);
    if errors != [] { return FormErrors(errors); }
    res := UpdateInTransaction(store, e, body.value);
  }

  /** `EventUpdateView.form_valid` for the event `e`: any superadmin may edit
      any event. Refused entries are skipped, the unmatched sections are
      deleted; unreadable `sections` JSON or a duplicate name rolls
      everything back and redisplays the form. */
  method PageUpdateEvent(store: Store, user: User, e: EventKey, fields: EventFields, fieldErrors: seq<FieldError>,
                         sections: Option<seq<SectionData>>, now: Instant)
    returns (res: EventPageOutcome)
    requires store.Valid()
    modifies store
    ensures store.Valid()
    ensures res == SignInRedirect <==> !user.isSuperadmin
    ensures res == PageNotFound <==> user.isSuperadmin && e !in old(store.events)
    ensures res.Saved? <==>
      && user.isSuperadmin && e in old(store.events) && EventFormErrors(fields, fieldErrors, now) == [] && sections.Some?
      && SyncFor(old(store.sections), old(store.nextSection), e, sections.value, false).status == Running
    ensures res.Saved? ==>
      var sync := SyncFor(old(store.sections), old(store.nextSection), e, sections.value, false);
      && res.event == e
      && store.events == old(store.events)[e := WithFields(old(store.events)[e], fields)]
      && store.sections == sync.sections - sync.pending && store.nextSection == sync.next
      && (forall k :: k in old(store.sections) && old(store.sections)[k].event != e ==>
            k in store.sections && store.sections[k] == old(store.sections)[k])
      && (forall k :: k in store.tickets <==> k in old(store.tickets) && old(store.tickets)[k].section !in sync.pending)
      && (forall k :: k in store.tickets ==> store.tickets[k] == old(store.tickets)[k])
      && unchanged(store`orders, store`sales, store`nextEvent)
    ensures !res.Saved? ==> unchanged(store)
  {
    if !user.isSuperadmin { return SignInRedirect; }
    if e !in store.events { return PageNotFound; }
    if EventFormErrors(fields, fieldErrors, now) != [] || sections.None? { return Redisplayed; }
    var sync := SyncSections(store.sections, store.nextSection, e, sections.value, false);
    if !sync.status.Running? {
      return Redisplayed;
    }
    SaveEventUpdate(store, e, WithFields(store.events[e], fields), sync, sections.value, false, true);
    return Saved(e);
  }
}
