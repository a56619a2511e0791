/** The section list submitted with an event form, matched against the
    event's stored sections: the loop shared by `EventUpdateAPIView.post`,
    `EventUpdateView.form_valid` and the section loops of the two create
    views. Stored sections are collected in `existing_sections`, keyed by the
    text of their id; an entry whose id is still there pops that section and
    renames it, any other valid entry creates a section. */
module SectionSync {
  import opened Common
  import opened EventModels
  import opened EventForms
  import opened Marketplace

  /** The `id` of a submitted entry: the text of a section key
      (`str(section.id)`), or anything else (a JSON number, another string). */
  datatype SectionId = TextId(key: SectionKey) | OtherId

  /** One submitted entry: its optional `id` and the fields `SectionForm` reads. */
  datatype SectionData = SectionData(id: Option<SectionId>, entry: SectionEntry)

  /** An entry with the outcome of `SectionForm(section_data).is_valid()`. */
  datatype CheckedEntry = CheckedEntry(id: Option<SectionId>, form: SectionFormResult)

  /** Each entry validated by the section form, in order. */
  function CheckAll(ds: seq<SectionData>): (r: seq<CheckedEntry>)
    ensures |r| == |ds|
    ensures forall i :: 0 <= i < |ds| ==> r[i] == CheckedEntry(ds[i].id, CleanSection(ds[i].entry))
  {
    seq(|ds|, i requires 0 <= i < |ds| => CheckedEntry(ds[i].id, CleanSection(ds[i].entry)))
  }

  /** How the loop ended: it ran through, returned 400 at an invalid entry
      (`Rejected`), or the database refused a duplicate section name
      (`NameClash`, an `IntegrityError` that rolls the transaction back). */
  datatype SyncStatus = Running | Rejected(errors: seq<FieldError>) | NameClash

  /** The sections table with its next key, the still unmatched entries of
      `existing_sections`, and the status. */
  datatype SyncState = SyncState(
    sections: map<SectionKey, EventSection>,
    next: SectionKey,
    pending: set<SectionKey>,
    status: SyncStatus)

  /** Keys lie below the next key and the unmatched keys are sections of `e`. */
  predicate SyncWf(st: SyncState, e: EventKey) {
    && (forall k :: k in st.sections ==> k < st.next)
    && (forall k :: k in st.pending ==> k in st.sections && st.sections[k].event == e)
  }

  /** Before the loop: every stored section of `e` is waiting to be matched. */
  function Start(sections: map<SectionKey, EventSection>, next: SectionKey, e: EventKey): (st: SyncState)
    requires forall k :: k in sections ==> k < next
    ensures SyncWf(st, e) && st.status == Running
    ensures forall k :: k in st.pending <==> k in sections && sections[k].event == e
  {
    SyncState(sections, next, (set k | k in sections && sections[k].event == e), Running)
  }

  /** Some section of `e` other than `except` already has `name`: the
      `unique_together = ('event', 'name')` constraint. */
  predicate NameTaken(sections: map<SectionKey, EventSection>, e: EventKey, name: string, except: Option<SectionKey>) {
    exists k :: k in sections && sections[k].event == e && sections[k].name == name && except != Some(k)
  }

  /** The entry carries an id that is still a key of `existing_sections`. */
  predicate Matches(d: CheckedEntry, pending: set<SectionKey>) {
    d.id.Some? && d.id.value.TextId? && d.id.value.key in pending
  }

  /** A valid entry: if its id matches, its section is popped and renamed and
      recoloured; otherwise a section with an empty price range is created.
      A name another section of `e` already has is refused by the database. */
  function ApplyValid(st: SyncState, e: EventKey, id: Option<SectionId>, name: string, color: string): SyncState
    requires SyncWf(st, e)
  {
    if id.Some? && id.value.TextId? && id.value.key in st.pending then
      var k := id.value.key;
      if NameTaken(st.sections, e, name, Some(k)) then st.(pending := st.pending - {k}, status := NameClash)
      else st.(sections := st.sections[k := st.sections[k].(name := name, color := color)],
               pending := st.pending - {k})
    else if NameTaken(st.sections, e, name, None) then st.(status := NameClash)
    else st.(sections := st.sections[st.next := NewSection(e, name, color)], next := st.next + 1)
  }

  lemma ApplyValidWf(st: SyncState, e: EventKey, id: Option<SectionId>, name: string, color: string)
    requires SyncWf(st, e)
    ensures SyncWf(ApplyValid(st, e, id, name, color), e)
  {
    if id.Some? && id.value.TextId? && id.value.key in st.pending {
      var k := id.value.key;
      if !NameTaken(st.sections, e, name, Some(k)) {
        var r := ApplyValid(st, e, id, name, color);
        assert r.sections.Keys == st.sections.Keys;
        assert forall j :: j in r.pending ==> j in st.pending && r.sections[j].event == st.sections[j].event;
      }
    } else if !NameTaken(st.sections, e, name, None) {
      var r := ApplyValid(st, e, id, name, color);
      assert r.pending == st.pending;
      assert forall j :: j in r.pending ==> r.sections[j] == st.sections[j];
    }
  }

  /** One pass of the loop body. An invalid entry stops the loop when
      `stopAtInvalid` (the API's 400) and is skipped otherwise. */
  function SyncStep(st: SyncState, e: EventKey, d: CheckedEntry, stopAtInvalid: bool): (r: SyncState)
    requires SyncWf(st, e)
    ensures SyncWf(r, e)
  {
    if !st.status.Running? then st
    else match d.form
      case InvalidSection(errs) => if stopAtInvalid then st.(status := Rejected(errs)) else st
      case ValidSection(name, color) =>
        ApplyValidWf(st, e, d.id, name, color);
        ApplyValid(st, e, d.id, name, color)
  }

  /** The loop over the submitted entries, in order. */
  function SyncAll(init: SyncState, e: EventKey, ds: seq<CheckedEntry>, stopAtInvalid: bool): (r: SyncState)
    requires SyncWf(init, e)
    ensures SyncWf(r, e)
    decreases |ds|
  {
    if ds == [] then init
    else
      SyncStep(SyncAll(init, e, ds[..|ds| - 1], stopAtInvalid), e, ds[|ds| - 1], stopAtInvalid)
  }

  /** One more entry is one more pass. */
  lemma SyncAllSnoc(init: SyncState, e: EventKey, ds: seq<CheckedEntry>, d: CheckedEntry, stopAtInvalid: bool)
    requires SyncWf(init, e)
    ensures SyncAll(init, e, ds + [d], stopAtInvalid) == SyncStep(SyncAll(init, e, ds, stopAtInvalid), e, d, stopAtInvalid)
  {
    var longer := ds + [d];
    assert longer[..|longer| - 1] == ds && longer[|longer| - 1] == d;
  }

  /** The prefix of `i + 1` entries is one pass after the prefix of `i`. */
  lemma SyncAllPrefix(init: SyncState, e: EventKey, ds: seq<CheckedEntry>, i: nat, stopAtInvalid: bool)
    requires SyncWf(init, e) && i < |ds|
    ensures SyncAll(init, e, ds[..i + 1], stopAtInvalid) == SyncStep(SyncAll(init, e, ds[..i], stopAtInvalid), e, ds[i], stopAtInvalid)
  {
    var upto := ds[..i + 1];
    assert upto[..|upto| - 1] == ds[..i] && upto[|upto| - 1] == ds[i];
  }

  /** Once the loop has returned or raised, later entries change nothing. */
  lemma {:induction false} SyncStopped(init: SyncState, e: EventKey, ds: seq<CheckedEntry>, stopAtInvalid: bool, i: nat)
    requires SyncWf(init, e) && i <= |ds|
    requires !SyncAll(init, e, ds[..i], stopAtInvalid).status.Running?
    ensures SyncAll(init, e, ds, stopAtInvalid) == SyncAll(init, e, ds[..i], stopAtInvalid)
    decreases |ds|
  {
    if i < |ds| {
      var prefix := ds[..|ds| - 1];
      assert prefix[..i] == ds[..i];
      SyncStopped(init, e, prefix, stopAtInvalid, i);
    } else {
      assert ds[..i] == ds;
    }
  }

  /** What one pass leaves alone: keys are never removed, a section keeps its
      event and prices, only a popped section is rewritten, the unmatched set
      only shrinks, and every new key is a fresh section of `e`. */
  predicate SyncFrame(init: SyncState, r: SyncState, e: EventKey) {
    && init.next <= r.next
    && r.pending <= init.pending
    && (forall k :: k in init.sections ==>
          && k in r.sections && r.sections[k].event == init.sections[k].event
          && r.sections[k].lowerPrice == init.sections[k].lowerPrice
          && r.sections[k].upperPrice == init.sections[k].upperPrice)
    && (forall k :: k in init.sections && (k !in init.pending || k in r.pending) ==> r.sections[k] == init.sections[k])
    && (forall k :: k in r.sections && k !in init.sections ==>
          init.next <= k < r.next && r.sections[k] == NewSection(e, r.sections[k].name, r.sections[k].color))
  }

  lemma SyncStepFrame(st: SyncState, e: EventKey, d: CheckedEntry, stopAtInvalid: bool)
    requires SyncWf(st, e)
    ensures SyncFrame(st, SyncStep(st, e, d, stopAtInvalid), e)
  {
  }

  lemma SyncFrameTrans(a: SyncState, b: SyncState, c: SyncState, e: EventKey)
    requires SyncWf(a, e) && SyncFrame(a, b, e) && SyncFrame(b, c, e)
    ensures SyncFrame(a, c, e)
  {
    forall k | k in c.sections && k !in a.sections
      ensures a.next <= k < c.next && c.sections[k] == NewSection(e, c.sections[k].name, c.sections[k].color)
    {
      if k in b.sections {
        assert c.sections[k] == b.sections[k] by {
          assert k !in b.pending by { assert b.pending <= a.pending; }
        }
      }
    }
  }

  /** The whole loop keeps to the frame of a single pass. */
  lemma {:induction false} SyncAllFrame(init: SyncState, e: EventKey, ds: seq<CheckedEntry>, stopAtInvalid: bool)
    requires SyncWf(init, e)
    ensures SyncFrame(init, SyncAll(init, e, ds, stopAtInvalid), e)
    decreases |ds|
  {
    if ds != [] {
      var before := SyncAll(init, e, ds[..|ds| - 1], stopAtInvalid);
      SyncAllFrame(init, e, ds[..|ds| - 1], stopAtInvalid);
      SyncStepFrame(before, e, ds[|ds| - 1], stopAtInvalid);
      SyncFrameTrans(init, before, SyncAll(init, e, ds, stopAtInvalid), e);
    }
  }

  /** A pass never gives two sections of one event the same name. */
  lemma SyncStepKeepsUniqueNames(st: SyncState, e: EventKey, d: CheckedEntry, stopAtInvalid: bool)
    requires SyncWf(st, e) && UniqueSectionNames(st.sections)
    ensures UniqueSectionNames(SyncStep(st, e, d, stopAtInvalid).sections)
  {
    if st.status.Running? && d.form.ValidSection? {
      var name, color := d.form.name, d.form.color;
      var r := ApplyValid(st, e, d.id, name, color);
      if Matches(d, st.pending) && !NameTaken(st.sections, e, name, Some(d.id.value.key)) {
        var k := d.id.value.key;
        forall a, b | a in r.sections && b in r.sections && a != b && r.sections[a].event == r.sections[b].event
          ensures r.sections[a].name != r.sections[b].name
        {
          if a == k {
            assert !(st.sections[b].event == e && st.sections[b].name == name && Some(k) != Some(b));
          } else if b == k {
            assert !(st.sections[a].event == e && st.sections[a].name == name && Some(k) != Some(a));
          }
        }
      } else if !Matches(d, st.pending) && !NameTaken(st.sections, e, name, None) {
        forall a, b | a in r.sections && b in r.sections && a != b && r.sections[a].event == r.sections[b].event
          ensures r.sections[a].name != r.sections[b].name
        {
          if a == st.next {
            assert !(st.sections[b].event == e && st.sections[b].name == name && None != Some(b));
          } else if b == st.next {
            assert !(st.sections[a].event == e && st.sections[a].name == name && None != Some(a));
          }
        }
      }
    }
  }

  /** The loop keeps section names unique per event, as the database does. */
  lemma {:induction false} SyncKeepsUniqueNames(init: SyncState, e: EventKey, ds: seq<CheckedEntry>, stopAtInvalid: bool)
    requires SyncWf(init, e) && UniqueSectionNames(init.sections)
    ensures UniqueSectionNames(SyncAll(init, e, ds, stopAtInvalid).sections)
    decreases |ds|
  {
    if ds != [] {
      SyncKeepsUniqueNames(init, e, ds[..|ds| - 1], stopAtInvalid);
      SyncStepKeepsUniqueNames(SyncAll(init, e, ds[..|ds| - 1], stopAtInvalid), e, ds[|ds| - 1], stopAtInvalid);
    }
  }

  /** When every entry is valid, stopping and skipping agree: the API and the
      HTML view differ only on invalid entries. */
  lemma {:induction false} AllValidSameEitherWay(init: SyncState, e: EventKey, ds: seq<CheckedEntry>)
    requires SyncWf(init, e)
    requires forall j :: 0 <= j < |ds| ==> ds[j].form.ValidSection?
    ensures SyncAll(init, e, ds, true) == SyncAll(init, e, ds, false)
    decreases |ds|
  {
    if ds != [] {
      AllValidSameEitherWay(init, e, ds[..|ds| - 1]);
    }
  }

  /** The API returns at the first invalid entry: the changes of the entries
      before it stand and no later entry is looked at. */
  lemma ApiStopsAtFirstInvalid(init: SyncState, e: EventKey, ds: seq<CheckedEntry>, j: nat)
    requires SyncWf(init, e) && j < |ds|
    requires ds[j].form.InvalidSection?
    requires SyncAll(init, e, ds[..j], true).status.Running?
    ensures SyncAll(init, e, ds, true)
            == SyncAll(init, e, ds[..j], true).(status := Rejected(ds[j].form.errors))
  {
    var before := SyncAll(init, e, ds[..j], true);
    SyncAllPrefix(init, e, ds, j, true);
    assert SyncStep(before, e, ds[j], true) == before.(status := Rejected(ds[j].form.errors));
    SyncStopped(init, e, ds, true, j + 1);
  }

  /** The entries `SectionForm` accepts, in order. */
  function ValidEntries(ds: seq<CheckedEntry>): (r: seq<CheckedEntry>)
    decreases |ds|
  {
    if ds == [] then []
    else ValidEntries(ds[..|ds| - 1]) + (if ds[|ds| - 1].form.ValidSection? then [ds[|ds| - 1]] else [])
  }

  /** The HTML view skips invalid entries: the outcome is that of the valid
      entries alone. */
  lemma {:induction false} HtmlSkipsInvalid(init: SyncState, e: EventKey, ds: seq<CheckedEntry>)
    requires SyncWf(init, e)
    ensures SyncAll(init, e, ds, false) == SyncAll(init, e, ValidEntries(ds), false)
    decreases |ds|
  {
    if ds != [] {
      var front, last := ds[..|ds| - 1], ds[|ds| - 1];
      HtmlSkipsInvalid(init, e, front);
      assert ds == front + [last];
      SyncAllSnoc(init, e, front, last, false);
      if last.form.ValidSection? {
        assert ValidEntries(ds) == ValidEntries(front) + [last];
        SyncAllSnoc(init, e, ValidEntries(front), last, false);
      } else {
        assert ValidEntries(ds) == ValidEntries(front);
      }
    }
  }

  /** Because a matched section is popped, a second entry with the same id
      creates a new section instead of updating the first one again. */
  lemma DuplicateIdCreates(st: SyncState, e: EventKey, d1: CheckedEntry, d2: CheckedEntry, stopAtInvalid: bool)
    requires SyncWf(st, e) && st.status.Running?
    requires d1.id.Some? && d1.id.value.TextId? && d1.id.value.key in st.pending && d2.id == d1.id
    requires d1.form.ValidSection? && d2.form.ValidSection?
    requires d1.form.name != d2.form.name
    requires !NameTaken(st.sections, e, d1.form.name, Some(d1.id.value.key))
    requires !NameTaken(st.sections, e, d2.form.name, Some(d1.id.value.key))
    ensures var k, c1, c2 := d1.id.value.key, d1.form, d2.form;
            SyncAll(st, e, [d1, d2], stopAtInvalid)
            == SyncState(st.sections[k := st.sections[k].(name := c1.name, color := c1.color)][st.next := NewSection(e, c2.name, c2.color)],
                         st.next + 1, st.pending - {k}, Running)
  {
    var k, c1 := d1.id.value.key, d1.form;
    assert [d1, d2] == [d1] + [d2] && [d1] == [] + [d1];
    SyncAllSnoc(st, e, [], d1, stopAtInvalid);
    SyncAllSnoc(st, e, [d1], d2, stopAtInvalid);
    var mid := SyncAll(st, e, [d1], stopAtInvalid);
    assert mid == ApplyValid(st, e, d1.id, c1.name, c1.color);
    assert mid == SyncState(st.sections[k := st.sections[k].(name := c1.name, color := c1.color)], st.next, st.pending - {k}, Running);
    assert !Matches(d2, mid.pending);
  }

  /** The loop run over the submitted entries of event `e`, starting from the stored sections. */
  function SyncFor(sections: map<SectionKey, EventSection>, next: SectionKey, e: EventKey,
                   ds: seq<SectionData>, stopAtInvalid: bool): SyncState
    requires forall k :: k in sections ==> k < next
  {
    SyncAll(Start(sections, next, e), e, CheckAll(ds), stopAtInvalid)
  }

  /** The loop's result can be written back: keys below the new counter,
      sections of stored events (`e` among them) with names unique per event,
      and no section removed; sections of other events are untouched and
      only sections of `e` are left unmatched. */
  lemma SyncResultValid(sections: map<SectionKey, EventSection>, next: SectionKey, events: set<EventKey>, e: EventKey,
                        cs: seq<CheckedEntry>, stopAtInvalid: bool)
    requires SectionsValid(sections, events, next) && e in events
    ensures var r := SyncAll(Start(sections, next, e), e, cs, stopAtInvalid);
            SectionsValid(r.sections, events, r.next) && next <= r.next && sections.Keys <= r.sections.Keys
    ensures var r := SyncAll(Start(sections, next, e), e, cs, stopAtInvalid);
            forall k :: k in sections && sections[k].event != e ==> r.sections[k] == sections[k]
    ensures var r := SyncAll(Start(sections, next, e), e, cs, stopAtInvalid);
            forall k :: k in r.pending ==> k in sections && sections[k].event == e
  {
    var init := Start(sections, next, e);
    SyncAllFrame(init, e, cs, stopAtInvalid);
    SyncKeepsUniqueNames(init, e, cs, stopAtInvalid);
  }

  /** The body of the loop for a valid entry: `existing_sections.pop` and
      `section.save()` for a matching id, `EventSection.objects.create`
      otherwise; `clash` is the database's refusal of a duplicate name. */
  method PopOrCreate(secs: map<SectionKey, EventSection>, n: SectionKey, pending: set<SectionKey>, e: EventKey,
                     id: Option<SectionId>, name: string, color: string)
    returns (secs': map<SectionKey, EventSection>, n': SectionKey, pending': set<SectionKey>, clash: bool)
    requires SyncWf(SyncState(secs, n, pending, Running), e)
    ensures SyncState(secs', n', pending', if clash then NameClash else Running)
            == ApplyValid(SyncState(secs, n, pending, Running), e, id, name, color)
  {
    secs', n', pending', clash := secs, n, pending, false;
    if id.Some? && id.value.TextId? && id.value.key in pending {
      var k := id.value.key;
      pending' := pending - {k};
      if NameTaken(secs, e, name, Some(k)) {
        clash := true;
      } else {
        secs' := secs[k := secs[k].(name := name, color := color)];
      }
    } else if NameTaken(secs, e, name, None) {
      clash := true;
    } else {
      secs' := secs[n := NewSection(e, name, color)];
      n' := n + 1;
    }
  }

  /** The loop itself: `existing_sections` is popped as entries match, and
      the loop leaves at the first invalid entry when `stopAtInvalid`. */
  method SyncSections(sections: map<SectionKey, EventSection>, next: SectionKey, e: EventKey,
                      ds: seq<SectionData>, stopAtInvalid: bool) returns (st: SyncState)
    requires forall k :: k in sections ==> k < next
    ensures st == SyncFor(sections, next, e, ds, stopAtInvalid)
  {
    var init := Start(sections, next, e);
    ghost var checked := CheckAll(ds);
    var secs, n, pending, status := sections, next, init.pending, Running;
    var i := 0;
    while i < |ds| && status.Running?
      invariant 0 <= i <= |ds|
      invariant SyncState(secs, n, pending, status) == SyncAll(init, e, checked[..i], stopAtInvalid)
    {
      ghost var before := SyncState(secs, n, pending, status);
      SyncAllPrefix(init, e, checked, i, stopAtInvalid);
      var form := CleanSection(ds[i].entry);
      assert checked[i] == CheckedEntry(ds[i].id, form);
      match form {
        case InvalidSection(errs) =>
          if stopAtInvalid {
            status := Rejected(errs);
          }
        case ValidSection(name, color) =>
          var clash;
          secs, n, pending, clash := PopOrCreate(secs, n, pending, e, ds[i].id, name, color);
          if clash {
            status := NameClash;
          }
      }
      i := i + 1;
    }
    if i < |ds| {
      SyncStopped(init, e, checked, stopAtInvalid, i);
    } else {
      assert checked[..i] == checked;
    }
    st := SyncState(secs, n, pending, status);
  }
}
