/** The event catalogue's records (`Event`, `EventSection`) and the values
    derived from them on read: tickets left, price span, time left, expiry,
    and the six-digit public event id. */
module EventModels {
  import opened Common

  datatype Event = Event(
    eventId: Option<int>,          // the six-digit public id; None while still empty
    superadmin: UserKey,
    name: string,
    category: string,
    stadiumName: string,
    date: Date,
    time: Time,
    normalServiceCharge: real,     // percentage added for Normal buyers
    resellerServiceCharge: real,   // percentage added for Reseller buyers
    totalTickets: int,
    soldTickets: int,
    totalSoldPrice: real)

  datatype EventSection = EventSection(
    event: EventKey,
    name: string,
    color: string,
    lowerPrice: real,
    upperPrice: real)

  /** The hex codes of `EventSection.COLORS`, the only colours a section form accepts. */
  const ColorCodes: seq<string> := [
    "#E6194B", "#3CB44B", "#4363D8", "#911EB4", "#F58231", "#46F0F0", "#F032E6", "#FABED4",
    "#FFE119", "#808080", "#48869E", "#205269", "#D18D6D", "#5A5833", "#8F1D60", "#7FD469",
    "#BAD151", "#5663AD", "#AA7EB3", "#19B421", "#9E4877", "#1B507C", "#AAA42C", "#495216",
    "#24888B", "#46AA18", "#384B9E", "#2AA4A8", "#165711", "#FFFFFF", "#25A73B", "#C4D434",
    "#7A3164", "#E6E06E", "#698BD4", "#606E1D", "#AD5673", "#1B7C23", "#62A7D4", "#972D6B",
    "#AFA521", "#EEC615", "#238028", "#CEAC17", "#7C1B6C", "#A34B22", "#2C71AA", "#8A8418",
    "#8F2A68", "#C7A81F", "#219AAF", "#3ABB41", "#33A32F", "#EBA817", "#BB3AAA", "#B63818",
    "#2E839C", "#A12D33", "#D21EFF", "#B0B930", "#3287CD", "#D18718", "#CF2A4E", "#22791A",
    "#8D2D32", "#2B80E2", "#33A16E", "#8D1B1B", "#1A8817", "#A8551D", "#9E1B7D", "#AD371A",
    "#5080C7", "#707219", "#BB1655", "#68172B", "#7A2B76", "#CE5829", "#FFFFFE", "#A58D21"
  ]

  /** A new section starts with an empty price range. */
  function NewSection(event: EventKey, name: string, color: string): (s: EventSection)
    ensures s.event == event && s.name == name && s.color == color
    ensures s.lowerPrice == 0.0 && s.upperPrice == 0.0
  {
    EventSection(event, name, color, 0.0, 0.0)
  }

  /** `update_prices`: sets the two bounds and nothing else. */
  function UpdatePrices(s: EventSection, lower: real, upper: real): (r: EventSection)
    ensures r.lowerPrice == lower && r.upperPrice == upper
    ensures r.event == s.event && r.name == s.name && r.color == s.color
  {
    s.(lowerPrice := lower, upperPrice := upper)
  }

  /** `left_tickets`: listed minus sold, with no clamping at zero. */
  function LeftTickets(e: Event): (r: int)
    ensures r + e.soldTickets == e.totalTickets
    ensures r < 0 <==> e.soldTickets > e.totalTickets
  {
    e.totalTickets - e.soldTickets
  }

  /** The smallest non-zero lower bound among the sections, if any. */
  function MinNonZeroLower(secs: seq<EventSection>): (r: Option<real>)
    ensures r.None? <==> forall i :: 0 <= i < |secs| ==> secs[i].lowerPrice == 0.0
    ensures r.Some? ==> r.value != 0.0 && exists i :: 0 <= i < |secs| && secs[i].lowerPrice == r.value
    ensures r.Some? ==> forall i :: 0 <= i < |secs| && secs[i].lowerPrice != 0.0 ==> r.value <= secs[i].lowerPrice
  {
    if secs == [] then None
    else
      var rest := MinNonZeroLower(secs[1..]);
      var p := secs[0].lowerPrice;
      if p == 0.0 then rest
      else if rest.None? || p <= rest.value then Some(p)
      else rest
  }

  /** The largest non-zero upper bound among the sections, if any. */
  function MaxNonZeroUpper(secs: seq<EventSection>): (r: Option<real>)
    ensures r.None? <==> forall i :: 0 <= i < |secs| ==> secs[i].upperPrice == 0.0
    ensures r.Some? ==> r.value != 0.0 && exists i :: 0 <= i < |secs| && secs[i].upperPrice == r.value
    ensures r.Some? ==> forall i :: 0 <= i < |secs| && secs[i].upperPrice != 0.0 ==> secs[i].upperPrice <= r.value
  {
    if secs == [] then None
    else
      var rest := MaxNonZeroUpper(secs[1..]);
      var p := secs[0].upperPrice;
      if p == 0.0 then rest
      else if rest.None? || rest.value <= p then Some(p)
      else rest
  }

  /** `lowest_price`: the least non-zero section lower bound, or 0 when there is none. */
  function LowestPrice(secs: seq<EventSection>): (r: real)
    ensures r == 0.0 <==> forall i :: 0 <= i < |secs| ==> secs[i].lowerPrice == 0.0
    ensures r != 0.0 ==> exists i :: 0 <= i < |secs| && secs[i].lowerPrice == r
    ensures forall i :: 0 <= i < |secs| && secs[i].lowerPrice != 0.0 ==> r <= secs[i].lowerPrice
  {
    match MinNonZeroLower(secs)
    case None => 0.0
    case Some(m) => m
  }

  /** `highest_price`: the greatest non-zero section upper bound, or 0 when there is none. */
  function HighestPrice(secs: seq<EventSection>): (r: real)
    ensures r == 0.0 <==> forall i :: 0 <= i < |secs| ==> secs[i].upperPrice == 0.0
    ensures r != 0.0 ==> exists i :: 0 <= i < |secs| && secs[i].upperPrice == r
    ensures forall i :: 0 <= i < |secs| && secs[i].upperPrice != 0.0 ==> secs[i].upperPrice <= r
  {
    match MaxNonZeroUpper(secs)
    case None => 0.0
    case Some(m) => m
  }

  /** When every section's range is ordered, the event's lowest price does not
      exceed its highest price (prices of any sign). */
  lemma LowestNotAboveHighest(secs: seq<EventSection>)
    requires forall i :: 0 <= i < |secs| ==> secs[i].lowerPrice <= secs[i].upperPrice
    ensures LowestPrice(secs) <= HighestPrice(secs)
  {
    var lo, hi := LowestPrice(secs), HighestPrice(secs);
    if lo != 0.0 {
      var i :| 0 <= i < |secs| && secs[i].lowerPrice == lo;
      if lo > 0.0 {
        assert secs[i].upperPrice != 0.0;
      } else if hi != 0.0 {
        var j :| 0 <= j < |secs| && secs[j].upperPrice == hi;
        if hi < 0.0 {
          assert secs[j].lowerPrice != 0.0;
        }
      }
    } else if hi != 0.0 {
      var j :| 0 <= j < |secs| && secs[j].upperPrice == hi;
      assert secs[j].lowerPrice == 0.0;
    }
  }

  /** The three numbers `time_left` prints. */
  datatype TimeLeftParts = TimeLeftParts(months: int, days: int, hours: int)

  /** `time_left`: the signed time from `now` to the event, split the way
      `timedelta` does (whole days, then seconds in [0, 86400)), the days then
      split into 30-day months, the seconds into whole hours. */
  function TimeLeft(date: Date, time: Time, now: Instant): (r: TimeLeftParts)
    ensures 0 <= r.days < 30 && 0 <= r.hours < 24
    ensures var whole := (r.months * 30 + r.days) * SecondsPerDay + r.hours * 3600;
            whole <= Combine(date, time) - now < whole + 3600
  {
    var delta := Combine(date, time) - now;
    var deltaDays := delta / SecondsPerDay;      // floor division: the divisor is positive
    var deltaSeconds := delta % SecondsPerDay;
    TimeLeftParts(deltaDays / 30, deltaDays % 30, deltaSeconds / 3600)
  }

  /** `is_expired`: the event's start lies before `now`. */
  function IsExpired(date: Date, time: Time, now: Instant): (r: bool)
    ensures r <==> date < DateOf(now) || (date == DateOf(now) && time < TimeOf(now))
  {
    Combine(date, time) < now
  }

  const MinEventId: int := 100000
  const MaxEventId: int := 999999

  /** `generate_unique_event_id`: draws random six-digit ids until one is not
      in use. The random draws are the parameter `draws`; the loop stops at the
      first draw that is free. */
  method GenerateUniqueEventId(used: set<int>, draws: seq<int>) returns (id: int)
    requires forall i :: 0 <= i < |draws| ==> MinEventId <= draws[i] <= MaxEventId
    requires exists i :: 0 <= i < |draws| && draws[i] !in used
    ensures MinEventId <= id <= MaxEventId && id !in used
    ensures exists i :: 0 <= i < |draws| && draws[i] == id && forall j :: 0 <= j < i ==> draws[j] in used
  {
    var i := 0;
    while draws[i] in used
      invariant 0 <= i < |draws|
      invariant forall j :: 0 <= j < i ==> draws[j] in used
      invariant exists k :: i <= k < |draws| && draws[k] !in used
      decreases |draws| - i
    {
      i := i + 1;
    }
    id := draws[i];
  }

  /** `Event.save`: an event without an id receives a fresh one; an existing id is kept. */
  method AssignEventId(e: Event, used: set<int>, draws: seq<int>) returns (r: Event)
    requires forall i :: 0 <= i < |draws| ==> MinEventId <= draws[i] <= MaxEventId
    requires e.eventId.None? ==> exists i :: 0 <= i < |draws| && draws[i] !in used
    ensures e.eventId.Some? ==> r == e
    ensures e.eventId.None? ==> r.eventId.Some? && r == e.(eventId := r.eventId)
    ensures e.eventId.None? ==> MinEventId <= r.eventId.value <= MaxEventId && r.eventId.value !in used
  {
    if e.eventId.None? {
      var id := GenerateUniqueEventId(used, draws);
      r := e.(eventId := Some(id));
    } else {
      r := e;
    }
  }
}
