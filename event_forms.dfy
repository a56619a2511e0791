/** The event creation form (date/time checks, the section list it
    accumulates) and the section form that validates one section entry. */
module EventForms {
  import opened Common
  import opened Strings
  import opened EventModels
  import opened FormFields


  /** The errors `EventCreationForm.clean` adds: a date before today is an
      error on 'date'; today's date with a time before now is an error on 'time'. */
  function DateTimeErrors(date: Option<Date>, time: Option<Time>, now: Instant): (r: seq<FieldError>)
    ensures |r| <= 1
    ensures DateField in ErrorFields(r) <==> date.Some? && date.value < DateOf(now)
    ensures TimeField in ErrorFields(r) <==> date == Some(DateOf(now)) && time.Some? && time.value < TimeOf(now)
    ensures date.Some? && date.value > DateOf(now) ==> r == []
    ensures date.None? ==> r == []
  {
    var today := DateOf(now);
    var dateErrors := if date.Some? && date.value < today then [FieldError(DateField, PastDate)] else [];
    var timeErrors := if date == Some(today) && time.Some? && time.value < TimeOf(now)
                      then [FieldError(TimeField, PastTime)] else [];
    ErrorFieldsAppend(dateErrors, timeErrors);
    dateErrors + timeErrors
  }

  /** One section entry as submitted: `name` and `color` may be absent. */
  datatype SectionEntry = SectionEntry(name: Option<string>, color: Option<string>)

  /** A JSON value the `sections` field can hold: `null`, a list (of
      section entries), or any other value (an object, a string, a number or
      a boolean). */
  datatype SectionsJson = JsonNull | JsonList(items: seq<SectionEntry>) | JsonOther

  /** What the hidden `sections` input carried. */
  datatype SectionsInput =
    | SectionsAbsent                // no value, or the empty string
    | SectionsText(json: SectionsJson)  // text that parses as JSON
    | SectionsMalformed             // text that is not JSON

  /** `JSONField.clean`: an empty input cleans to None (`JsonNull`), JSON
      text to its value, and malformed text fails the field, which then has
      no cleaned value. */
  function CleanSectionsField(input: SectionsInput): (r: Option<SectionsJson>)
    ensures r.None? <==> input == SectionsMalformed
    ensures input == SectionsAbsent ==> r == Some(JsonNull)
  {
    match input
    case SectionsAbsent => Some(JsonNull)
    case SectionsText(json) => Some(json)
    case SectionsMalformed => None
  }

  /** The list `add_section` appends to: `cleaned_data.get('sections', [])`
      falls back to a new empty list only when the key is missing; a cleaned
      value that is not a list has no `append`. */
  function AppendTarget(cleaned: Option<SectionsJson>): Option<seq<SectionEntry>> {
    match cleaned
    case None => Some([])
    case Some(JsonList(items)) => Some(items)
    case Some(_) => None
  }

  datatype AddSectionOutcome = SectionAdded | AddSectionCrashed  // `AttributeError`: no `append`

  /** The state of an `EventCreationForm` that its methods change: the errors
      added so far and the cleaned value of `sections` (None when the field
      failed and `cleaned_data` has no such key). */
  class EventCreationForm {
    var errors: seq<FieldError>
    var sections: Option<SectionsJson>

    /** A bound form after its fields were cleaned: `sections` holds what
        `JSONField` made of the input, and malformed JSON is the field's one
        error (the other fields' errors are not kept here). */
    constructor (input: SectionsInput)
      ensures sections == CleanSectionsField(input)
      ensures errors == (if input == SectionsMalformed then [FieldError(SectionsField, NotValidJson)] else [])
    {
      sections := CleanSectionsField(input);
      errors := if input == SectionsMalformed then [FieldError(SectionsField, NotValidJson)] else [];
    }

    /** `clean`: adds the date/time errors and keeps the sections. */
    method Clean(date: Option<Date>, time: Option<Time>, now: Instant)
      modifies this
      ensures errors == old(errors) + DateTimeErrors(date, time, now)
      ensures sections == old(sections)
    {
      errors := errors + DateTimeErrors(date, time, now);
    }

    /** `add_section`: appends the entry's name and colour to the cleaned
        list, or to a new list when the field had no cleaned value; a cleaned
        `null` or non-list value raises, changing nothing. */
    method AddSection(data: SectionEntry) returns (outcome: AddSectionOutcome)
      modifies this
      ensures outcome == AddSectionCrashed <==> old(sections).Some? && !old(sections).value.JsonList?
      ensures outcome == AddSectionCrashed ==> sections == old(sections)
      ensures outcome == SectionAdded ==>
                sections == Some(JsonList(AppendTarget(old(sections)).value + [SectionEntry(data.name, data.color)]))
      ensures errors == old(errors)
    {
      var target := AppendTarget(sections);
      if target.None? {
        return AddSectionCrashed;
      }
      sections := Some(JsonList(target.value + [SectionEntry(data.name, data.color)]));
      outcome := SectionAdded;
    }
  }

  /** On a form whose `sections` input was empty, as it is when no section
      was submitted, `add_section` raises. */
  lemma EmptySectionsCannotAdd(input: SectionsInput)
    requires input == SectionsAbsent || input == SectionsText(JsonNull)
    ensures AppendTarget(CleanSectionsField(input)).None?
  {
  }

  /** Appending keeps the submitted entries in front, in order, and adds
      exactly one entry. */
  lemma AppendKeepsEntries(cleaned: Option<SectionsJson>, entry: SectionEntry)
    requires AppendTarget(cleaned).Some?
    ensures var r := AppendTarget(cleaned).value + [entry];
            && |r| == |AppendTarget(cleaned).value| + 1 && r[|r| - 1] == entry
            && (cleaned.Some? ==> cleaned.value.JsonList? && r[..|r| - 1] == cleaned.value.items)
            && (cleaned.None? ==> r == [entry])
  {
  }

  const SectionNameMaxLength: nat := 100

  /** The outcome of validating one section entry. */
  datatype SectionFormResult =
    | ValidSection(name: string, color: string)
    | InvalidSection(errors: seq<FieldError>)

  /** The errors of the section form's `name` field (a required, stripped
      `CharField` of at most 100 characters without NUL characters). */
  function SectionNameErrors(raw: Option<string>): (r: seq<FieldError>)
    ensures r == [] <==> raw.Some? && Strip(raw.value) != "" && |Strip(raw.value)| <= SectionNameMaxLength
                         && '\0' !in Strip(raw.value)
    ensures forall i :: 0 <= i < |r| ==> r[i].field == NameField
  {
    if raw.None? then [FieldError(NameField, Required)]
    else TextFieldErrors(NameField, raw.value, Some(SectionNameMaxLength))
  }

  /** The errors of the section form's `color` field (a required choice among
      `EventSection.COLORS`). */
  function SectionColorErrors(raw: Option<string>): (r: seq<FieldError>)
    ensures r == [] <==> raw.Some? && raw.value != "" && raw.value in ColorCodes
    ensures forall i :: 0 <= i < |r| ==> r[i].field == ColorField
  {
    if raw.None? || raw.value == "" then [FieldError(ColorField, Required)]
    else if raw.value !in ColorCodes then [FieldError(ColorField, InvalidChoice(raw.value))]
    else []
  }

  /** `SectionForm(entry).is_valid()` and its cleaned data. */
  function CleanSection(entry: SectionEntry): (r: SectionFormResult)
    ensures r.ValidSection? <==> SectionNameErrors(entry.name) == [] && SectionColorErrors(entry.color) == []
    ensures r.ValidSection? ==> r.name == Strip(entry.name.value) && r.color == entry.color.value
    ensures r.ValidSection? ==> r.name != "" && |r.name| <= SectionNameMaxLength && IsTrimmed(r.name) && r.color in ColorCodes
    ensures r.InvalidSection? ==> r.errors != []
  {
    var errs := SectionNameErrors(entry.name) + SectionColorErrors(entry.color);
    if errs == [] then ValidSection(Strip(entry.name.value), entry.color.value)
    else InvalidSection(errs)
  }
}
