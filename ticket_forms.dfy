/** The listing form: seat-string parsing, the field and cross-field checks,
    the section choices it offers and how it writes a listing. */
module TicketForms {
  import opened Common
  import opened Strings
  import opened EventModels
  import opened TicketModels
  import opened FormFields

  /** Strips every piece and drops the pieces that strip to "". */
  function StripNonEmpty(pieces: seq<string>): (r: seq<string>)
    ensures |r| <= |pieces|
  {
    if pieces == [] then []
    else
      var p := Strip(pieces[0]);
      (if p != "" then [p] else []) + StripNonEmpty(pieces[1..])
  }

  /** Stripping the pieces of a concatenation piece by piece: the kept
      pieces of `a`, in order, then those of `b`. */
  lemma {:induction false} StripNonEmptyAppend(a: seq<string>, b: seq<string>)
    ensures StripNonEmpty(a + b) == StripNonEmpty(a) + StripNonEmpty(b)
  {
    if a != [] {
      assert (a + b)[0] == a[0];
      assert (a + b)[1..] == a[1..] + b;
      StripNonEmptyAppend(a[1..], b);
    } else {
      assert a + b == b;
    }
  }

  /** Every piece that does not strip to "" is kept, stripped: no kept piece
      is lost. */
  lemma {:induction false} StripNonEmptyKeeps(pieces: seq<string>, i: nat)
    requires i < |pieces| && Strip(pieces[i]) != ""
    ensures Strip(pieces[i]) in StripNonEmpty(pieces)
  {
    if i > 0 {
      StripNonEmptyKeeps(pieces[1..], i - 1);
    }
  }

  /** Every piece is non-empty and stripped. */
  predicate CleanPieces(xs: seq<string>) {
    forall i :: 0 <= i < |xs| ==> xs[i] != "" && IsTrimmed(xs[i])
  }

  lemma CleanPiecesAppend(a: seq<string>, b: seq<string>)
    requires CleanPieces(a) && CleanPieces(b)
    ensures CleanPieces(a + b)
  {
    forall i | 0 <= i < |a + b| ensures (a + b)[i] != "" && IsTrimmed((a + b)[i]) {
      if i < |a| {
        assert (a + b)[i] == a[i];
      } else {
        assert (a + b)[i] == b[i - |a|];
      }
    }
  }

  /** Every kept piece is non-empty and stripped. */
  lemma {:induction false} StripNonEmptyTrimmed(pieces: seq<string>)
    ensures CleanPieces(StripNonEmpty(pieces))
  {
    if pieces != [] {
      var p := Strip(pieces[0]);
      var rest := StripNonEmpty(pieces[1..]);
      StripNonEmptyTrimmed(pieces[1..]);
      if p != "" {
        assert IsTrimmed(p);
        assert CleanPieces([p]);
        CleanPiecesAppend([p], rest);
        assert StripNonEmpty(pieces) == [p] + rest;
      } else {
        assert StripNonEmpty(pieces) == rest;
      }
    }
  }

  /** A character absent from every piece is absent from every stripped piece. */
  lemma {:induction false} StripNonEmptyAbsent(pieces: seq<string>, c: char)
    requires forall i :: 0 <= i < |pieces| ==> c !in pieces[i]
    ensures forall i :: 0 <= i < |StripNonEmpty(pieces)| ==> c !in StripNonEmpty(pieces)[i]
  {
    if pieces != [] {
      StripAbsent(pieces[0], c);
      StripNonEmptyAbsent(pieces[1..], c);
    }
  }

  /** `[s.strip() for s in seats.split(',') if s.strip()]`: non-empty,
      stripped seats without commas. */
  function ParseSeats(s: string): (r: seq<string>)
    ensures forall i :: 0 <= i < |r| ==> r[i] != "" && IsTrimmed(r[i]) && ',' !in r[i]
  {
    StripNonEmptyAbsent(Split(s, ','), ',');
    StripNonEmptyTrimmed(Split(s, ','));
    StripNonEmpty(Split(s, ','))
  }

  /** A seat list that `", ".join` and `ParseSeats` carry through unchanged. */
  predicate WellFormedSeats(xs: seq<string>) {
    forall i :: 0 <= i < |xs| ==> xs[i] != "" && IsTrimmed(xs[i]) && ',' !in xs[i]
  }

  lemma StripNonEmptyCons(p: string, rest: seq<string>)
    ensures StripNonEmpty([p] + rest) == (if Strip(p) != "" then [Strip(p)] else []) + StripNonEmpty(rest)
  {
    assert ([p] + rest)[1..] == rest;
  }

  /** A piece that differs from another only by a leading space strips to the same seat. */
  lemma StripNonEmptySpacePrefix(p: string, rest: seq<string>)
    ensures StripNonEmpty([[' '] + p] + rest) == StripNonEmpty([p] + rest)
  {
    StripNonEmptyCons([' '] + p, rest);
    StripSpacePrefix(' ', p);
    StripNonEmptyCons(p, rest);
  }

  /** A leading space does not change the parsed seats. */
  lemma ParseSpaceCons(rest: string)
    ensures ParseSeats([' '] + rest) == ParseSeats(rest)
  {
    var pieces := Split(rest, ',');
    calc {
      ParseSeats([' '] + rest);
      StripNonEmpty(Split([' '] + rest, ','));
      { SplitConsChar(' ', rest, ','); }
      StripNonEmpty([[' '] + pieces[0]] + pieces[1..]);
      { StripNonEmptySpacePrefix(pieces[0], pieces[1..]); }
      StripNonEmpty([pieces[0]] + pieces[1..]);
      { assert [pieces[0]] + pieces[1..] == pieces; }
      StripNonEmpty(pieces);
    }
  }

  /** A well-formed seat followed by ", " parses to that seat, then the seats of the rest. */
  lemma ParseCons(a: string, rest: string)
    requires a != "" && IsTrimmed(a) && ',' !in a
    ensures ParseSeats(a + ", " + rest) == [a] + ParseSeats(rest)
  {
    var tail := [' '] + rest;
    assert a + ", " + rest == a + [','] + tail;
    SplitAtSeparator(a, ',', tail);
    StripTrimmed(a);
    StripNonEmptyCons(a, Split(tail, ','));
    ParseSpaceCons(rest);
  }

  /** Joining well-formed seats with ", " and parsing the result gives the
      seats back: the initial text the form shows re-parses to the stored list. */
  lemma {:induction false} ParseJoinRoundTrip(xs: seq<string>)
    requires WellFormedSeats(xs)
    ensures ParseSeats(Join(xs, ", ")) == xs
  {
    if xs == [] {
    } else if |xs| == 1 {
      SplitNoSeparator(xs[0], ',');
      StripTrimmed(xs[0]);
      StripNonEmptyCons(xs[0], []);
    } else {
      ParseCons(xs[0], Join(xs[1..], ", "));
      ParseJoinRoundTrip(xs[1..]);
    }
  }

  /** `clean_seats`: the parsed seats, or None when their number differs from
      the cleaned quantity (0 when the quantity did not validate). */
  function CleanSeats(seats: string, quantity: Option<int>): (r: Option<seq<string>>)
    ensures r.Some? <==> |ParseSeats(seats)| == (if quantity.Some? then quantity.value else 0)
    ensures r.Some? ==> r.value == ParseSeats(seats) && WellFormedSeats(r.value)
  {
    var parsed := ParseSeats(seats);
    if |parsed| == (if quantity.Some? then quantity.value else 0) then Some(parsed) else None
  }

  /** The errors of the fields whose checks are Django's own and are not
      modelled here: `face_value`, `ticket_type`, `benefits_and_Restrictions`
      and `sell_price`, in field order. */
  type OtherFieldErrors = errs: seq<FieldError> | forall i :: 0 <= i < |errs| ==> errs[i].field in OtherFields

  const OtherFields: set<Field> := {FaceValueField, TicketTypeField, BenefitsField, SellPriceField}

  /** The submitted listing fields, already converted to their types; a
      quantity or section that is missing is None. */
  datatype TicketInput = TicketInput(
    uploadChoice: UploadChoice,
    newFile: bool,                 // a PDF was uploaded with this submission
    uploadBy: Option<Date>,
    numberOfTickets: Option<int>,
    section: Option<SectionKey>,
    row: string,
    seats: string,
    faceValue: real,
    ticketType: TicketType,
    benefits: seq<string>,
    sellPrice: real,
    otherErrors: OtherFieldErrors)

  /** The cleaned quantity: present and at least 1. */
  function CleanQuantity(q: Option<int>): (r: Option<nat>)
    ensures r.Some? <==> q.Some? && q.value >= 1
    ensures r.Some? ==> r.value == q.value
  {
    if q.Some? && q.value >= 1 then Some(q.value) else None
  }

  /** The errors of the `number_of_tickets` field: required, at least 1. */
  function QuantityErrors(q: Option<int>): (r: seq<FieldError>)
    ensures r == [] <==> CleanQuantity(q).Some?
    ensures |r| <= 1 && forall i :: 0 <= i < |r| ==> r[i].field == NumberOfTicketsField
  {
    if q.None? then [FieldError(NumberOfTicketsField, Required)]
    else if q.value < 1 then [FieldError(NumberOfTicketsField, MinValue(1))]
    else []
  }

  /** The errors of the `section` field: required, one of the offered choices. */
  function SectionErrors(section: Option<SectionKey>, choices: set<SectionKey>): (r: seq<FieldError>)
    ensures r == [] <==> section.Some? && section.value in choices
    ensures |r| <= 1 && forall i :: 0 <= i < |r| ==> r[i].field == SectionField
  {
    if section.None? then [FieldError(SectionField, Required)]
    else if section.value !in choices then [FieldError(SectionField, InvalidModelChoice)]
    else []
  }

  const RowMaxLength: nat := 20

  /** A row the form accepts: once stripped, non-empty, at most 20
      characters and without NUL characters. */
  predicate RowAccepted(row: string) {
    Strip(row) != "" && |Strip(row)| <= RowMaxLength && '\0' !in Strip(row)
  }

  /** Seats the form accepts for the cleaned quantity `q`: once stripped,
      non-empty, without NUL characters, and as many seats as tickets. */
  predicate SeatsAccepted(seats: string, q: Option<nat>) {
    Strip(seats) != "" && '\0' !in Strip(seats) && |ParseSeats(Strip(seats))| == (if q.Some? then q.value else 0)
  }

  /** The errors of the `row` field: a required, stripped text of at most 20
      characters without NUL characters. */
  function RowErrors(row: string): (r: seq<FieldError>)
    ensures r == [] <==> RowAccepted(row)
    ensures |r| <= 2 && forall i :: 0 <= i < |r| ==> r[i].field == RowField
  {
    TextFieldErrors(RowField, row, Some(RowMaxLength))
  }

  /** The errors of the `seats` field: a required, stripped text without NUL
      characters, then `clean_seats`: as many seats as the cleaned quantity. */
  function SeatErrors(seats: string, q: Option<nat>): (r: seq<FieldError>)
    ensures r == [] <==> SeatsAccepted(seats, q)
    ensures |r| <= 1 && forall i :: 0 <= i < |r| ==> r[i].field == SeatsField
  {
    var text := TextFieldErrors(SeatsField, seats, None);
    if text != [] then text
    else if CleanSeats(Strip(seats), q).None? then [FieldError(SeatsField, SeatCount)]
    else []
  }

  /** The errors of the field checks, in field order: quantity, section, row,
      seats, then those of the other fields. */
  function FieldErrors(input: TicketInput, choices: set<SectionKey>): (r: seq<FieldError>)
    ensures r == [] <==>
              && CleanQuantity(input.numberOfTickets).Some?
              && input.section.Some? && input.section.value in choices
              && RowAccepted(input.row)
              && SeatsAccepted(input.seats, CleanQuantity(input.numberOfTickets))
              && input.otherErrors == []
    ensures NoFormWideError(r)
  {
    var q := QuantityErrors(input.numberOfTickets);
    var s := SectionErrors(input.section, choices);
    var w := RowErrors(input.row);
    var t := SeatErrors(input.seats, CleanQuantity(input.numberOfTickets));
    var o: seq<FieldError> := input.otherErrors;
    ConcatFieldErrors(q, s, w, t, o, CleanQuantity(input.numberOfTickets).Some?,
                      input.section.Some? && input.section.value in choices, RowAccepted(input.row),
                      SeatsAccepted(input.seats, CleanQuantity(input.numberOfTickets)));
    q + s + w + t + o
  }

  /** Five lists of field errors joined: empty exactly when each is, and
      with no error of the whole form when none of them has one. */
  lemma ConcatFieldErrors(q: seq<FieldError>, s: seq<FieldError>, w: seq<FieldError>, t: seq<FieldError>,
                          o: seq<FieldError>, qOk: bool, sOk: bool, wOk: bool, tOk: bool)
    requires NoFormWideError(q) && NoFormWideError(s) && NoFormWideError(w) && NoFormWideError(t)
    requires NoFormWideError(o)
    requires (q == []) == qOk && (s == []) == sOk && (w == []) == wOk && (t == []) == tOk
    ensures NoFormWideError(q + s + w + t + o)
    ensures q + s + w + t + o == [] <==> qOk && sOk && wOk && tOk && o == []
  {
    NoFormWideErrorAppend(q, s);
    NoFormWideErrorAppend(q + s, w);
    NoFormWideErrorAppend(q + s + w, t);
    NoFormWideErrorAppend(q + s + w + t, o);
    assert |q + s + w + t + o| == |q| + |s| + |w| + |t| + |o|;
  }

  /** None of the errors is an error of the whole form. */
  predicate NoFormWideError(errs: seq<FieldError>) {
    forall i :: 0 <= i < |errs| ==> errs[i].field != NonField
  }

  lemma NoFormWideErrorAppend(a: seq<FieldError>, b: seq<FieldError>)
    requires NoFormWideError(a) && NoFormWideError(b)
    ensures NoFormWideError(a + b)
  {
    forall i | 0 <= i < |a + b| ensures (a + b)[i].field != NonField {
      if i < |a| {
        assert (a + b)[i] == a[i];
      } else {
        assert (a + b)[i] == b[i - |a|];
      }
    }
  }

  /** An error of the whole form is among the errors exactly when one of them is. */
  lemma {:induction false} FormWideErrorIn(errs: seq<FieldError>)
    ensures NonField in ErrorFields(errs) <==> !NoFormWideError(errs)
  {
    var fs := ErrorFields(errs);
    if NonField in fs {
      var i :| 0 <= i < |fs| && fs[i] == NonField;
      assert errs[i].field == NonField;
    }
    if !NoFormWideError(errs) {
      var i :| 0 <= i < |errs| && errs[i].field == NonField;
      assert fs[i] == NonField;
    }
  }

  /** The errors `TicketForm.clean` adds. `hasFile` is whether the cleaned
      file field holds a file: one uploaded now or the listing's existing one.
      The upload-now branch never looks at `upload_by`. */
  function UploadErrors(input: TicketInput, hasFile: bool, eventDate: Date): (r: seq<FieldError>)
    ensures |r| <= 1
    ensures UploadFileField in ErrorFields(r) <==> input.uploadChoice == UploadNow && !hasFile
    ensures UploadByField in ErrorFields(r) <==>
              input.uploadChoice == UploadLater && (input.uploadBy.None? || input.uploadBy.value >= eventDate)
    ensures r == [] <==>
              (input.uploadChoice == UploadNow ==> hasFile)
              && (input.uploadChoice == UploadLater ==> input.uploadBy.Some? && input.uploadBy.value < eventDate)
    ensures NoFormWideError(r)
  {
    if input.uploadChoice == UploadNow && !hasFile then
      [FieldError(UploadFileField, UploadNowRequired)]
    else if input.uploadChoice == UploadLater && input.uploadBy.None? then
      [FieldError(UploadByField, UploadByRequired)]
    else if input.uploadChoice == UploadLater && input.uploadBy.value >= eventDate then
      [FieldError(UploadByField, UploadByNotBefore)]
    else []
  }

  /** The largest value a `PositiveIntegerField` column holds on PostgreSQL. */
  const MaxPositiveInteger: nat := 2147483647
  const SeatMaxLength: nat := 10

  /** The model's own check of the `number_of_tickets` column. */
  function QuantityColumnErrors(q: nat): (r: seq<FieldError>)
    ensures r == [] <==> q <= MaxPositiveInteger
    ensures |r| <= 1 && NoFormWideError(r)
  {
    if q > MaxPositiveInteger then [FieldError(NumberOfTicketsField, MaxValue(MaxPositiveInteger))] else []
  }

  /** The index of the first seat longer than `SeatMaxLength`, if any. */
  function FirstLongSeat(xs: seq<string>): (r: Option<nat>)
    ensures r.None? <==> forall i :: 0 <= i < |xs| ==> |xs[i]| <= SeatMaxLength
    ensures r.Some? ==> r.value < |xs| && |xs[r.value]| > SeatMaxLength
                        && forall j :: 0 <= j < r.value ==> |xs[j]| <= SeatMaxLength
  {
    if xs == [] then None
    else if |xs[0]| > SeatMaxLength then Some(0)
    else
      match FirstLongSeat(xs[1..])
      case None => None
      case Some(i) => Some(i + 1)
  }

  /** The model's own check of the `seats` column
      (`ArrayField(CharField(max_length=10))`, not blank): an empty list is
      blank, otherwise the first seat over 10 characters is reported. */
  function SeatColumnErrors(xs: seq<string>): (r: seq<FieldError>)
    ensures r == [] <==> xs != [] && forall i :: 0 <= i < |xs| ==> |xs[i]| <= SeatMaxLength
    ensures |r| <= 1 && forall i :: 0 <= i < |r| ==> r[i].field == SeatsField
  {
    if xs == [] then [FieldError(SeatsField, Blank)]
    else
      match FirstLongSeat(xs)
      case None => []
      case Some(i) => [FieldError(SeatsField, ItemInvalid(i + 1, MaxLength(SeatMaxLength, |xs[i]|)))]
  }

  /** Every seat fits the column. */
  predicate SeatsFit(xs: seq<string>) {
    forall i :: 0 <= i < |xs| ==> |xs[i]| <= SeatMaxLength
  }

  /** Whether the cleaned file field holds a file: one uploaded now or the
      listing's own. */
  function HasFile(instance: Option<Ticket>, input: TicketInput): bool {
    input.newFile || (instance.Some? && instance.value.hasFile)
  }

  /** The instance as `construct_instance` leaves it for the model's checks:
      a field that passed the form's checks holds its cleaned value, one that
      failed keeps the instance's own value, which is unset on a new listing.
      The upload choice and the file always come from the form. */
  function Constructed(instance: Option<Ticket>, eventDate: Date, input: TicketInput): (d: Draft)
    ensures d.uploadChoice == input.uploadChoice && d.hasFile == HasFile(instance, input)
    ensures QuantityErrors(input.numberOfTickets) == [] ==> d.numberOfTickets == CleanQuantity(input.numberOfTickets)
    ensures SeatErrors(input.seats, CleanQuantity(input.numberOfTickets)) == [] ==>
              d.seats == Some(ParseSeats(Strip(input.seats)))
    ensures UploadErrors(input, HasFile(instance, input), eventDate) == [] ==> d.uploadBy == input.uploadBy
    ensures instance.None? ==>
              (d.seats.None? <==> SeatErrors(input.seats, CleanQuantity(input.numberOfTickets)) != [])
              && (d.uploadBy.None? <==>
                    input.uploadBy.None? || UploadByField in ErrorFields(UploadErrors(input, HasFile(instance, input), eventDate)))
  {
    var prior := if instance.Some? then DraftOf(instance.value) else Draft(input.uploadChoice, false, None, None, None);
    var q := CleanQuantity(input.numberOfTickets);
    var uploadErrors := UploadErrors(input, HasFile(instance, input), eventDate);
    Draft(input.uploadChoice, HasFile(instance, input),
          if UploadByField in ErrorFields(uploadErrors) then prior.uploadBy else input.uploadBy,
          if QuantityErrors(input.numberOfTickets) == [] then q else prior.numberOfTickets,
          if SeatErrors(input.seats, q) == [] then Some(ParseSeats(Strip(input.seats))) else prior.seats)
  }

  /** What `is_valid` ends in: the errors found, or the `TypeError` that
      `Ticket.clean` raises. */
  datatype Validation = Checked(errors: seq<FieldError>) | ValidationCrashed

  /** A submission `is_valid` accepts: the field checks and `clean` pass,
      the quantity and every seat fit their columns, and it is not an
      upload-now listing with an `upload_by` date on or after the event. */
  predicate FormAccepts(instance: Option<Ticket>, choices: set<SectionKey>, eventDate: Date, input: TicketInput) {
    && FieldErrors(input, choices) == []
    && UploadErrors(input, HasFile(instance, input), eventDate) == []
    && input.numberOfTickets.Some? && input.numberOfTickets.value <= MaxPositiveInteger
    && SeatsFit(ParseSeats(Strip(input.seats)))
    && !(input.uploadChoice == UploadNow && input.uploadBy.Some? && input.uploadBy.value >= eventDate)
  }

  /** A new listing whose seat field failed keeps its seats unset, and once
      the three upload checks of `Ticket.clean` pass, that `clean` calls
      `len(None)`. */
  predicate CleanCrashes(instance: Option<Ticket>, eventDate: Date, input: TicketInput) {
    && instance.None?
    && SeatErrors(input.seats, CleanQuantity(input.numberOfTickets)) != []
    && UploadErrors(input, HasFile(instance, input), eventDate) == []
    && !(input.uploadBy.Some? && input.uploadBy.value >= eventDate)
  }

  /** The column checks `full_clean` runs on the quantity and the seats,
      for those of the two whose field passed. */
  function ColumnErrors(input: TicketInput): (r: seq<FieldError>)
    ensures NoFormWideError(r)
    ensures CleanQuantity(input.numberOfTickets).Some? && SeatErrors(input.seats, CleanQuantity(input.numberOfTickets)) == [] ==>
              (r == [] <==> input.numberOfTickets.value <= MaxPositiveInteger && SeatsFit(ParseSeats(Strip(input.seats))))
  {
    var q := CleanQuantity(input.numberOfTickets);
    var quantityColumn := if q.Some? then QuantityColumnErrors(q.value) else [];
    var seatsColumn := if SeatErrors(input.seats, q) == [] then SeatColumnErrors(ParseSeats(Strip(input.seats))) else [];
    JoinErrors(quantityColumn, seatsColumn, quantityColumn == [], seatsColumn == []);
    quantityColumn + seatsColumn
  }

  /** The errors found before `Ticket.clean` runs: those of the field checks
      and `clean`, then the column checks. */
  function CheckedErrors(instance: Option<Ticket>, eventDate: Date, choices: set<SectionKey>, input: TicketInput)
    : (r: seq<FieldError>)
    ensures FieldErrors(input, choices) + UploadErrors(input, HasFile(instance, input), eventDate) <= r
    ensures NoFormWideError(r)
    ensures r == [] <==>
              && FieldErrors(input, choices) == [] && UploadErrors(input, HasFile(instance, input), eventDate) == []
              && input.numberOfTickets.Some? && input.numberOfTickets.value <= MaxPositiveInteger
              && SeatsFit(ParseSeats(Strip(input.seats)))
  {
    var fieldErrors := FieldErrors(input, choices);
    var uploadErrors := UploadErrors(input, HasFile(instance, input), eventDate);
    var columnErrors := ColumnErrors(input);
    JoinErrors(fieldErrors, uploadErrors, fieldErrors == [], uploadErrors == []);
    JoinErrors(fieldErrors + uploadErrors, columnErrors, fieldErrors == [] && uploadErrors == [], columnErrors == []);
    fieldErrors + uploadErrors + columnErrors
  }

  /** Two lists of errors of single fields, joined. */
  lemma JoinErrors(a: seq<FieldError>, b: seq<FieldError>, aOk: bool, bOk: bool)
    requires NoFormWideError(a) && NoFormWideError(b)
    requires (a == []) == aOk && (b == []) == bOk
    ensures NoFormWideError(a + b) && a <= a + b
    ensures (a + b == []) == (aOk && bOk)
  {
    NoFormWideErrorAppend(a, b);
    assert |a + b| == |a| + |b|;
  }

  /** `is_valid` on a `TicketForm` for `instance` (None for a new listing):
      the field checks with `clean_seats`, then `clean`, then `_post_clean`:
      the column checks of the fields that passed and `Ticket.clean` on the
      instance the form filled in, whose failure is an error of the whole
      form. It crashes exactly on a new listing whose seat field failed while
      the upload checks pass; otherwise the field and `clean` errors come
      first, and an error of the whole form is reported exactly when
      `Ticket.clean` refuses, which it also does when other fields failed. */
  function FormValidation(instance: Option<Ticket>, eventDate: Date, choices: set<SectionKey>, input: TicketInput)
    : (r: Validation)
    ensures r == ValidationCrashed <==> CleanCrashes(instance, eventDate, input)
    ensures r.Checked? ==> FieldErrors(input, choices) + UploadErrors(input, HasFile(instance, input), eventDate) <= r.errors
    ensures r.Checked? ==>
              (NonField in ErrorFields(r.errors) <==> ModelClean(Constructed(instance, eventDate, input), eventDate).Refused?)
    ensures r == Checked([]) <==> FormAccepts(instance, choices, eventDate, input)
  {
    var checked := CheckedErrors(instance, eventDate, choices, input);
    FormWideErrorIn(checked);
    CrashesExactly(instance, eventDate, input);
    ModelCleanAfterFormChecks(instance, eventDate, choices, input);
    match ModelClean(Constructed(instance, eventDate, input), eventDate)
    case Crashed => ValidationCrashed
    case Refused(e) =>
      var clean := [FieldError(NonField, CleanErrorMessage(e))];
      ErrorFieldsAppend(checked, clean);
      assert ErrorFields(clean) == [NonField];
      Checked(checked + clean)
    case Passed => Checked(checked)
  }

  /** An accepted submission has a cleaned quantity and a section, which is
      what saving it needs. */
  lemma AcceptedHasFields(instance: Option<Ticket>, eventDate: Date, choices: set<SectionKey>, input: TicketInput)
    requires FormAccepts(instance, choices, eventDate, input)
    ensures CleanQuantity(input.numberOfTickets).Some? && input.section.Some?
  {
    assert FieldErrors(input, choices) == [];
  }

  /** `Ticket.clean` crashes on the instance the form filled in exactly in
      the case `CleanCrashes` names. */
  lemma CrashesExactly(instance: Option<Ticket>, eventDate: Date, input: TicketInput)
    ensures ModelClean(Constructed(instance, eventDate, input), eventDate).Crashed? <==> CleanCrashes(instance, eventDate, input)
  {
    var d := Constructed(instance, eventDate, input);
    if instance.Some? {
      assert d.seats.Some?;
    }
  }

  /** Once the field checks and `clean` have passed, the instance holds the
      cleaned values, and `Ticket.clean` fails only for an upload-now listing
      whose `upload_by` date is not before the event: the form ignores that
      date for 'now', the model does not. */
  lemma ModelCleanAfterFormChecks(instance: Option<Ticket>, eventDate: Date, choices: set<SectionKey>, input: TicketInput)
    ensures FieldErrors(input, choices) == [] && UploadErrors(input, HasFile(instance, input), eventDate) == [] ==>
              && Constructed(instance, eventDate, input)
                 == Draft(input.uploadChoice, HasFile(instance, input), input.uploadBy,
                          CleanQuantity(input.numberOfTickets), Some(ParseSeats(Strip(input.seats))))
              && ((ModelClean(Constructed(instance, eventDate, input), eventDate) == Passed)
                  <==> !(input.uploadChoice == UploadNow && input.uploadBy.Some? && input.uploadBy.value >= eventDate))
  {
    if FieldErrors(input, choices) == [] && UploadErrors(input, HasFile(instance, input), eventDate) == [] {
      assert SeatErrors(input.seats, CleanQuantity(input.numberOfTickets)) == [];
    }
  }

  /** A new listing of 2 tickets with the one seat "A1", to be uploaded the
      day before the event, makes `is_valid` crash instead of reporting the
      seat count. */
  lemma NewListingSeatCountCrashes(eventDate: Date, choices: set<SectionKey>, input: TicketInput)
    requires input.numberOfTickets == Some(2) && input.seats == "A1"
    requires input.uploadChoice == UploadLater && input.uploadBy == Some(eventDate - 1)
    ensures FormValidation(None, eventDate, choices, input) == ValidationCrashed
  {
    assert Join(["A1"], ", ") == "A1";
    assert !IsSpace('A') && !IsSpace('1');
    ParseJoinRoundTrip(["A1"]);
    StripTrimmed("A1");
    assert SeatErrors(input.seats, CleanQuantity(input.numberOfTickets)) != [];
  }

  /** The sections of `event`: the only section choices the form offers. */
  function SectionsOf(sections: map<SectionKey, EventSection>, event: EventKey): (r: set<SectionKey>)
    ensures forall k :: k in r <==> k in sections && sections[k].event == event
  {
    set k | k in sections && sections[k].event == event
  }

  /** The listing a valid form writes: the instance (or a new listing by
      `seller`) with the submitted values; the row is stripped, the seats
      become the cleaned list and the file is replaced only when a new one
      was uploaded. */
  function ApplyForm(instance: Option<Ticket>, event: EventKey, seller: UserKey, input: TicketInput,
                     quantity: nat, section: SectionKey, seats: seq<string>): (t: Ticket)
    ensures t.seats == seats && t.numberOfTickets == quantity && t.section == section && t.event == event
    ensures t.hasFile == HasFile(instance, input) && t.row == Strip(input.row)
    ensures t.uploadChoice == input.uploadChoice && t.uploadBy == input.uploadBy && t.sellPrice == input.sellPrice
    ensures instance.None? ==> !t.sold && !t.checked && !t.ordered && t.buyer.None? && t.seller == seller
    ensures instance.Some? ==> t.sold == instance.value.sold && t.buyer == instance.value.buyer
                               && t.seller == instance.value.seller
  {
    var base := if instance.Some? then instance.value
                else NewTicket(Listing(event, seller, input.uploadChoice, false, input.uploadBy, quantity, section,
                                       input.row, seats, input.faceValue, input.ticketType, input.benefits,
                                       input.sellPrice));
    base.(event := event, uploadChoice := input.uploadChoice,
          hasFile := input.newFile || base.hasFile, uploadBy := input.uploadBy,
          numberOfTickets := quantity, section := section, row := Strip(input.row), seats := seats,
          faceValue := input.faceValue, ticketType := input.ticketType, benefits := input.benefits,
          sellPrice := input.sellPrice)
  }

  /** The text the seat box starts with: the stored seats joined with ", ". */
  function InitialSeats(instance: Option<Ticket>): (r: Option<string>)
    ensures r.Some? <==> instance.Some? && instance.value.seats != []
  {
    if instance.Some? && instance.value.seats != [] then Some(Join(instance.value.seats, ", ")) else None
  }

  /** Submitting the initial seat text unchanged gives back the stored seats. */
  lemma InitialSeatsReparse(instance: Option<Ticket>)
    requires instance.Some? && instance.value.seats != [] && WellFormedSeats(instance.value.seats)
    ensures ParseSeats(InitialSeats(instance).value) == instance.value.seats
  {
    ParseJoinRoundTrip(instance.value.seats);
  }

  /** A `TicketForm` bound to an event: the listing it edits (None for a new
      one), the section choices, the initial seat text and the errors found. */
  /** The instance a `TicketForm` bound to event `e` works on. */
  function FormInstance(instance: Option<Ticket>, e: EventKey): (r: Option<Ticket>)
    ensures r.Some? <==> instance.Some?
    ensures instance.Some? ==> r.value.event == e && r.value.seller == instance.value.seller
                               && r.value.hasFile == instance.value.hasFile
    ensures instance.Some? && instance.value.event == e ==> r == instance
  {
    if instance.Some? then Some(instance.value.(event := e)) else None
  }

  class TicketForm {
    var instance: Option<Ticket>
    const event: EventKey
    const eventDate: Date
    const sectionChoices: set<SectionKey>
    const initialSeats: Option<string>
    var errors: seq<FieldError>

    /** `__init__`: joins the stored seats for display, attaches the event to
        the listing and restricts the section choices to the event's sections. */
    constructor (instance: Option<Ticket>, event: EventKey, eventDate: Date, sections: map<SectionKey, EventSection>)
      ensures this.event == event && this.eventDate == eventDate
      ensures this.instance == FormInstance(instance, event)
      ensures sectionChoices == SectionsOf(sections, event)
      ensures initialSeats == InitialSeats(instance)
      ensures errors == []
    {
      this.initialSeats := InitialSeats(instance);
      this.event := event;
      this.eventDate := eventDate;
      this.instance := FormInstance(instance, event);
      this.sectionChoices := SectionsOf(sections, event);
      this.errors := [];
    }

    /** `is_valid`: records the errors found; a crash records nothing. */
    method IsValid(input: TicketInput) returns (outcome: Validation)
      modifies this`errors
      ensures outcome == FormValidation(instance, eventDate, sectionChoices, input)
      ensures outcome.Checked? ==> errors == outcome.errors
      ensures outcome.ValidationCrashed? ==> errors == old(errors)
    {
      outcome := FormValidation(instance, eventDate, sectionChoices, input);
      if outcome.Checked? {
        errors := outcome.errors;
      }
    }

    /** `save`: the listing with the cleaned seats; the file is replaced only
        when a new one was uploaded. */
    method Save(input: TicketInput, seller: UserKey) returns (t: Ticket)
      requires errors == [] && FormAccepts(instance, sectionChoices, eventDate, input)
      modifies this`instance
      ensures CleanQuantity(input.numberOfTickets).Some? && input.section.Some?
      ensures t == ApplyForm(old(instance), event, seller, input, CleanQuantity(input.numberOfTickets).value,
                             input.section.value, ParseSeats(Strip(input.seats)))
      ensures instance == Some(t)
    {
      AcceptedHasFields(instance, eventDate, sectionChoices, input);
      t := ApplyForm(instance, event, seller, input, CleanQuantity(input.numberOfTickets).value, input.section.value,
                     ParseSeats(Strip(input.seats)));
      instance := Some(t);
    }
  }
}
