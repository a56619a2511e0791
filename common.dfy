/** Shared vocabulary: optional values, calendar values and the identifiers
    of stored rows. */
module Common {

  datatype Option<+T> = None | Some(value: T)

  /** The outcome of an operation that can be refused with an error of type `E`. */
  datatype Result<+T, +E> = Success(value: T) | Failure(error: E)

  /** A calendar date, as a day number. */
  type Date = int

  /** A time of day, in seconds since midnight. */
  type Time = t: int | 0 <= t < SecondsPerDay

  /** An instant, in seconds on the same (UTC) scale as `Date * SecondsPerDay`. */
  type Instant = int

  const SecondsPerDay: int := 86400

  /** `datetime.combine(date, time)` made timezone-aware in UTC. */
  function Combine(d: Date, t: Time): (r: Instant)
    ensures r / SecondsPerDay == d && r % SecondsPerDay == t
  {
    d * SecondsPerDay + t
  }

  /** The calendar date of an instant (`now.date()`). */
  function DateOf(i: Instant): Date {
    i / SecondsPerDay
  }

  /** The time of day of an instant (`now.time()`). */
  function TimeOf(i: Instant): Time {
    i % SecondsPerDay
  }

  /** Primary keys of stored rows. */
  type UserKey = nat
  type EventKey = nat
  type SectionKey = nat
  type TicketKey = nat
  type OrderKey = nat

  /** Keys listed newest (largest) first: keys are handed out in creation
      order, so this is `order_by('-created_at')`. */
  predicate NewestFirst(keys: seq<nat>) {
    forall i, j :: 0 <= i < j < |keys| ==> keys[i] > keys[j]
  }

  /** The two account kinds of `User.user_type`. */
  datatype UserType = Normal | Reseller

  /** The form fields errors are attached to; `NonField` is Django's
      `'__all__'`, an error of the whole form. */
  datatype Field =
    | NonField
    | DateField | TimeField | NameField | ColorField
    | UploadFileField | UploadByField | NumberOfTicketsField | SectionField | RowField | SeatsField
    | FaceValueField | TicketTypeField | BenefitsField | SellPriceField
    | EmailField | Password2Field | CountryField | CityField | StreetNoField
    | SectionsField

  /** The messages form validation reports; `MessageText` gives each one's
      wording. */
  datatype Message =
    | Required                              // any required field left empty
    | MinValue(limit: nat)                  // `MinValueValidator`
    | MaxValue(limit: nat)                  // `MaxValueValidator`
    | MaxLength(limit: nat, length: nat)    // `MaxLengthValidator`
    | NullCharacters                        // `ProhibitNullCharactersValidator`
    | Blank                                 // a model field with blank=False
    | InvalidChoice(value: string)          // `ChoiceField`
    | InvalidModelChoice                    // `ModelChoiceField`
    | ItemInvalid(nth: nat, item: Message)  // one item of an `ArrayField`
    | PastDate | PastTime                   // `EventForm.clean`
    | SeatCount | UploadNowRequired | UploadByRequired | UploadByNotBefore   // `TicketForm`
    | CleanMissingFile | CleanMissingUploadBy | CleanUploadByLate | CleanSeatCount   // `Ticket.clean`
    | PasswordMismatch | ResellerAddressRequired   // `UserSignUpForm.clean`
    | NotValidJson                          // `JSONField`

  /** The decimal digits of `n`, as `str(n)` writes them. */
  function DecimalText(n: nat): (r: string)
    ensures r != [] && forall i :: 0 <= i < |r| ==> '0' <= r[i] <= '9'
    ensures n >= 10 ==> r[0] != '0'
    decreases n
  {
    if n < 10 then [('0' as int + n) as char]
    else DecimalText(n / 10) + [('0' as int + n % 10) as char]
  }

  /** The text the user sees. */
  function MessageText(m: Message): string {
    match m
    case Required => "This field is required."
    case MinValue(limit) => "Ensure this value is greater than or equal to " + DecimalText(limit) + "."
    case MaxValue(limit) => "Ensure this value is less than or equal to " + DecimalText(limit) + "."
    case MaxLength(limit, length) =>
      "Ensure this value has at most " + DecimalText(limit) + " characters (it has " + DecimalText(length) + ")."
    case NullCharacters => "Null characters are not allowed."
    case Blank => "This field cannot be blank."
    case InvalidChoice(value) => "Select a valid choice. " + value + " is not one of the available choices."
    case InvalidModelChoice => "Select a valid choice. That choice is not one of the available choices."
    case ItemInvalid(nth, item) => "Item " + DecimalText(nth) + " in the array did not validate: " + MessageText(item)
    case PastDate => "Event date cannot be in the past"
    case PastTime => "Event time cannot be in the past for today"
    case SeatCount => "Number of seats must equal number of tickets."
    case UploadNowRequired => "Please upload the PDF now."
    case UploadByRequired => "Please select a date to upload before the event."
    case UploadByNotBefore => "Upload date must be before the event date."
    case CleanMissingFile => "PDF file must be uploaded if 'Upload Now' is selected."
    case CleanMissingUploadBy => "Upload by date is required if 'Upload Later' is selected."
    case CleanUploadByLate => "Upload date must be before the event date."
    case CleanSeatCount => "Number of seats must match the number of tickets."
    case PasswordMismatch => "Passwords do not match"
    case ResellerAddressRequired => "This field is required for Reseller accounts"
    case NotValidJson => "Enter a valid JSON."
  }

  /** An error attached to a form field. */
  datatype FieldError = FieldError(field: Field, message: Message)

  /** Fields of a list of errors, in the order they were added. */
  function ErrorFields(errs: seq<FieldError>): (r: seq<Field>)
    ensures |r| == |errs|
    ensures forall i :: 0 <= i < |errs| ==> r[i] == errs[i].field
  {
    if errs == [] then [] else [errs[0].field] + ErrorFields(errs[1..])
  }

  lemma {:induction false} ErrorFieldsAppend(a: seq<FieldError>, b: seq<FieldError>)
    ensures ErrorFields(a + b) == ErrorFields(a) + ErrorFields(b)
  {
    if a != [] {
      assert (a + b)[1..] == a[1..] + b;
      ErrorFieldsAppend(a[1..], b);
    }
  }
}
