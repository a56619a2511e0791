# Ticket marketplace core, modelled in Dafny

This project models the core of a Django ticket resale marketplace.

- **Sellers and listings.** Sellers list tickets for an event. A listing (`Ticket`) is a block of seats in one section of an event, sold together at an asking price.
- **Derived prices and counters.** Buyer prices come from the asking price and the event's two service-charge rates. Every save or delete of a listing recomputes its section's price range and the event's listed total.
- **Orders and payouts.** A buyer places an order for a listing and pays through an external gateway. The gateway's return callback completes or fails the order. A superadmin records the seller's payout as a `Sale`.
- **Events and sections.** Superadmins create and edit events together with their sections. The submitted section list is matched against the stored sections by id: matched sections are updated, new ones are created, and unmatched ones are deleted.
- **Read side.** Event lists can be sorted by date, popularity or price. Section names and stadium names are normalised to the keys of the seat-map pictures.
- **Accounts.** Users sign up and verify their email through one-time tokens. The login view gates who may enter, a password can be reset by a one-time link, and the JSON API authenticates a request by a user id sent in the `Authorization` header.

The stored tables are classes over maps keyed by natural numbers, with a counter for the next key. Keys are handed out in creation order, so "newest first" means "largest key first". Views that change rows are methods on those classes, each proved against a specification function. The rest is datatypes, functions and lemmas:
- money is an exact `real`;
- a date is a day number;
- a time of day is seconds since midnight;
- an instant is seconds, in UTC.

Several views run inside one database transaction. There, an exception rolls back everything the view wrote. A returned error response instead keeps what was written before it. Three behaviours of the code shape the model:
- a section's price range is taken over all of its listings, sold ones included, and becomes (0, 0) only when a delete removes its last listing;
- the gateway's success callback is not idempotent: a second call adds the listing's seats to the sold count again;
- no code implements bundled or split sales, so they are not modelled.

The modules, one file each:
- `Common` (common.dfy) and `Strings` (strings.dfy): shared values and the texts of the error messages, and Python's `strip`, `lower`, `split` and `replace`.
- `PyRepr` (py_repr.dfy): Python's `repr` of a string, which `str()` of a list applies to each item.
- `FormFields` (form_fields.dfy): the checks of Django's required text form field.
- `EventModels` (event_models.dfy): events/models.py.
- `EventForms` (event_forms.dfy): events/forms.py.
- `TicketModels` (ticket_models.dfy): the records, price formula and `clean` of tickets/models.py.
- `Marketplace` (marketplace.dfy): `save`, `delete` and the aggregate updates of tickets/models.py, over a store of rows.
- `TicketForms` (ticket_forms.dfy): tickets/forms.py.
- `OrderViews` (order_views.dfy): the order, payment-return, payout and order-list views of tickets/views.py.
- `TicketApi` (ticket_api.dfy): the listing JSON API and listing queries of tickets/views.py.
- `SectionSync` (section_sync.dfy): the section-list loop of events/views.py.
- `EventViews` (event_views.dfy): the event create and update views of events/views.py.
- `EventQueries` (event_queries.dfy): section availability and the sorted event lists of events/views.py.
- `StadiumConfig` (stadium_config.dfy): events/stadium_config.py.
- `AccountModels`, `AccountForms`, `AccountUtils`, `AccountViews` (account_*.dfy): accounts/models.py, forms.py, utils.py and views.py.

## Model

| member | source | states |
|---|---|---|
| Common.Combine | events/models.py:78-80 | combining a date and a time of day gives the instant whose day is the date and whose offset into that day is the time |
| Common.DecimalText | tickets/forms.py:38-39 | `str()` of a natural number: a non-empty string of decimal digits, without a leading zero unless it is the single digit |
| Common.ErrorFields | tickets/forms.py:143-148 | the fields of a list of errors, one per error and in the order the errors were added |
| Common.ErrorFieldsAppend | tickets/forms.py:143-148 | the fields of two joined lists of errors are the fields of the first followed by those of the second |
| EventModels.NewSection | events/models.py:192-198 | a new section belongs to the given event with the given name and colour, and both price bounds start at 0 |
| EventModels.UpdatePrices | events/models.py:207-210 | only the lower and upper price change; event, name and colour are kept |
| EventModels.LeftTickets | events/models.py:89-91 | tickets left plus tickets sold equals tickets listed; the result is negative exactly when more were sold than listed (no clamping) |
| EventModels.MinNonZeroLower | events/models.py:93-95 | None exactly when every section's lower price is 0; otherwise a non-zero lower price some section has, and no larger than any other non-zero lower price |
| EventModels.MaxNonZeroUpper | events/models.py:97-99 | None exactly when every upper price is 0; otherwise a non-zero upper price some section has, and no smaller than any other non-zero upper price |
| EventModels.LowestPrice | events/models.py:93-95 | 0 exactly when no section has a non-zero lower price; otherwise the least non-zero lower price, attained by a section |
| EventModels.HighestPrice | events/models.py:97-99 | 0 exactly when no section has a non-zero upper price; otherwise the greatest non-zero upper price, attained by a section |
| EventModels.LowestNotAboveHighest | events/models.py:93-99 | if every section has lower price at most upper price, the event's lowest price is at most its highest price |
| EventModels.TimeLeft | events/models.py:75-87 | days lie in [0, 30) and hours in [0, 24); months·30 + days whole days plus the hours is the floor of the time to the event, to the hour |
| EventModels.IsExpired | events/models.py:102-107 | expired exactly when the event's date is before today, or is today and its time is before the current time of day |
| EventModels.GenerateUniqueEventId | events/models.py:69-73 | the id is a six-digit number in [100000, 999999] not already in use, and it is the first unused draw |
| EventModels.AssignEventId | events/models.py:64-67 | an event that has an id keeps it unchanged; an event without one gets a fresh six-digit unused id and nothing else changes |
| EventForms.DateTimeErrors | events/forms.py:96-109 | at most one error; an error on 'date' exactly when the date is before today; an error on 'time' exactly when the date is today and the time is before now; a future or missing date gives no error |
| EventForms.EventCreationForm.constructor | events/forms.py:86-94 | the `sections` field is cleaned as `JSONField` cleans it: an empty input becomes JSON null, JSON text becomes its value, and malformed text leaves no cleaned value and the one error 'Enter a valid JSON.' on 'sections'; otherwise the form starts without errors |
| EventForms.CleanSectionsField | events/forms.py:86-90 | no cleaned value exactly when the text is not JSON; an empty input cleans to JSON null, never to an empty list |
| EventForms.EventCreationForm.Clean | events/forms.py:96-109 | appends exactly the date/time errors and leaves the section list as it was |
| EventForms.EventCreationForm.AddSection | events/forms.py:111-117 | raises `AttributeError` exactly when the cleaned sections are a JSON value other than a list, JSON null included, and then nothing changes; otherwise the list it starts from (the submitted list, or an empty one when the field failed) gains exactly the entry with the given name and colour at its end; the errors are kept |
| EventForms.EmptySectionsCannotAdd | events/forms.py:111-113 | a form submitted without sections, or with JSON null, cannot add a section: `.get('sections', [])` returns None, not the default |
| EventForms.AppendKeepsEntries | events/forms.py:111-117 | adding keeps the submitted entries in front and in order and adds exactly one entry at the end; when the field failed the list is just the new entry |
| EventForms.SectionNameErrors | events/forms.py:120-127 | no error exactly when the stripped name is non-empty, at most 100 characters and free of NUL; every error is on 'name' |
| EventForms.SectionColorErrors | events/forms.py:128-133 | no error exactly when the colour is present and one of the hex codes of `EventSection.COLORS`; every error is on 'color' |
| EventForms.CleanSection | events/forms.py:119-133 | the entry is valid exactly when neither field has an error; a valid entry yields the stripped name (non-empty, trimmed, at most 100 characters) and a listed colour; an invalid one carries at least one error |
| FormFields.StrippedTextErrors | tickets/forms.py:55-61 | for an already stripped value: no error exactly when it is non-empty, within the maximum length when there is one, and free of NUL characters; at most two errors, all on the given field |
| FormFields.TextFieldErrors | tickets/forms.py:55-61 | a required text field strips its value first: no error exactly when the stripped value is non-empty, within the maximum length and free of NUL characters |
| TicketModels.NewTicket | tickets/models.py:79-81 | a new listing has no buyer and is not checked, not ordered and not sold; the seller's fields are copied |
| TicketModels.BuyerPrice | tickets/models.py:117-118 | the buyer price exceeds the seller price by exactly `rate` percent of it; a 0 rate gives the seller price; a non-negative rate never lowers a non-negative price |
| TicketModels.BuyerPriceMonotone | tickets/models.py:117-118 | for a non-negative seller price, a higher rate never gives a lower buyer price |
| TicketModels.BuyerPriceExample | tickets/models.py:117-118 | 100.00 at the rates 20 and 12 gives 120.00 and 112.00 |
| TicketModels.Priced | tickets/models.py:116-118 | the normal and reseller prices are the buyer prices at the event's two rates; every other field is kept |
| TicketModels.DraftOf | tickets/models.py:106-114 | what `clean` reads of a stored listing: its upload choice, file, upload date, quantity and seats, unchanged |
| TicketModels.ModelClean | tickets/models.py:106-114 | each failure is reported exactly when its condition holds and no earlier check failed ('now' without a file; 'later' without a date; an upload date on or after the event; a seat count different from the quantity); unset seats with the first three checks passing raise `TypeError` from `len(None)`; no error exactly when all four checks pass |
| TicketModels.TotalPrice | tickets/models.py:163-167 | quantity times the reseller price when the seller is a Reseller, else quantity times the normal price |
| TicketModels.PricePerTicket | tickets/views.py:349-350 | defines the price per ticket charged to a buyer: the reseller price for a Reseller, the normal price otherwise |
| Marketplace.EventTotalNoRows | tickets/models.py:99-101 | an event without listings has a listed total of 0 |
| Marketplace.EventTotal | tickets/models.py:130 | defines the listed total of an event as the sum of the quantities of all its listings, sold ones included; its properties are the lemmas below |
| Marketplace.EventTotalCountsRow | tickets/models.py:130 | every listing of the event, sold or not, counts in full towards its listed total |
| Marketplace.PriceRangeNone | tickets/models.py:125-141 | a section has no price range exactly when it has no listings |
| Marketplace.PriceRangeBounds | tickets/models.py:126-141 | the range is ordered and every listing of the section, sold ones included, has its seller price inside it |
| Marketplace.PriceRangeAttained | tickets/models.py:126-141 | both ends of the range are the seller price of some listing of the section |
| Marketplace.EventTotalUpdate | tickets/models.py:130 | rewriting one listing changes its event's listed total by the difference of the old and new quantities |
| Marketplace.EventTotalFrame | tickets/models.py:130 | a listing at a key not yet counted does not change the total |
| Marketplace.EventTotalRemove | tickets/models.py:97-101 | removing a listing lowers its event's listed total by exactly its quantity |
| Marketplace.PriceRange | tickets/models.py:123-128 | defines the price range of a section as the least and greatest seller price over its listings, None without any; its properties are the lemmas below |
| Marketplace.SectionUpdateKeepsNames | events/models.py:200-201 | rewriting a section's prices keeps section names unique per event |
| Marketplace.PricedFor | tickets/models.py:117-118 | the stored buyer prices use the listing's event's two rates; every other field is kept |
| Marketplace.CountEventTickets | tickets/models.py:130 | the loop's count equals the event's listed total over all its listings |
| Marketplace.SectionRange | tickets/models.py:123-128 | the loop's range equals the least and greatest seller price of the section's listings, None when it has none |
| Marketplace.SectionsValidUpdate | events/models.py:192-201 | rewriting a section's prices keeps every section attached to a stored event with unique names |
| Marketplace.TicketsValidSave | tickets/models.py:58-67 | writing a listing of a stored event and section keeps every listing attached to stored rows |
| Marketplace.TicketsValidDelete | tickets/models.py:94-97 | removing a listing keeps the others attached to stored rows |
| Marketplace.Store.constructor | tickets/models.py:54-211 | an empty database with no rows of any kind |
| Marketplace.Store.WriteRow | tickets/models.py:116-119 | the row is stored with both buyer prices from its event's rates; a new row takes the next key |
| Marketplace.Store.RemoveRow | tickets/models.py:97 | the row is gone and nothing else changes |
| Marketplace.Store.RefreshSectionPrices | tickets/models.py:121-129 | when the section has listings its range becomes their least and greatest seller price; otherwise it is left as it was |
| Marketplace.Store.UpdateSectionAggregates | tickets/models.py:135-142 | the section's range becomes that of its listings, or (0, 0) when it has none |
| Marketplace.Store.RefreshEventTotal | tickets/models.py:130-131 | the event's listed total becomes the sum of quantities over all its listings; nothing else changes |
| Marketplace.Store.UpdateEventSectionAggregates | tickets/models.py:144-161 | the listing's section range over its listings, or (0, 0) without any, then its event's listed total |
| Marketplace.Store.SetEvent | events/models.py:64-67 | the stored event is replaced; the store stays valid |
| Marketplace.Store.AddEvent | events/models.py:64-67 | a new event is stored under a fresh key |
| Marketplace.Store.SetSections | events/models.py:192-201 | the sections become the given map, which keeps every old key, attaches each section to a stored event and keeps names unique |
| Marketplace.Store.DeleteSections | events/models.py:192 | the sections go, and with them exactly the listings in them; remaining listings are unchanged and no total or range is recomputed |
| Marketplace.Store.AddOrder | tickets/models.py:173-198 | a new order is stored under a fresh key |
| Marketplace.Store.SetOrder | tickets/models.py:173-198 | the stored order is replaced |
| Marketplace.Store.DeleteOrder | tickets/models.py:187-204 | an order without a payout record is removed |
| Marketplace.Store.SetOrders | tickets/models.py:173-198 | stored orders are replaced; none is added or removed |
| Marketplace.Store.AddSale | tickets/models.py:203-208 | a payout record is stored for an order that had none; at most one per order |
| Marketplace.Store.SaveTicket | tickets/models.py:116-131 | the listing is stored with its buyer prices; its section's range covers all the section's listings, sold ones included (left alone if it has none); its event's listed total is the sum over its listings; orders and payouts are unchanged |
| Marketplace.Store.DeleteTicket | tickets/models.py:94-142 | the listing is removed; its event's listed total is the sum over the remaining listings (0 if none) and its section's range that of the remaining ones ((0, 0) if none); the sold count is not touched |
| Marketplace.NewListingAddsItsQuantity | tickets/models.py:130 | saving a new listing raises its event's listed total by exactly its quantity |
| Marketplace.DeleteSubtractsItsQuantity | tickets/models.py:99-101 | deleting a listing lowers its event's listed total by exactly its quantity |
| Marketplace.SavedPriceInRange | tickets/models.py:125-128 | after a save the section has a range and the saved seller price lies inside it |
| TicketForms.StripNonEmpty | tickets/forms.py:131 | no more seats than pieces |
| TicketForms.StripNonEmptyTrimmed | tickets/forms.py:131 | every kept seat is non-empty and stripped |
| TicketForms.StripNonEmptyAppend | tickets/forms.py:131 | the seats of joined pieces are the seats of the first pieces followed by those of the rest: the order of the pieces is kept |
| TicketForms.StripNonEmptyKeeps | tickets/forms.py:131 | every piece that does not strip to the empty string is kept, stripped: no seat is dropped |
| TicketForms.ParseSeats | tickets/forms.py:130-131 | every parsed seat is non-empty, trimmed and free of commas |
| TicketForms.ParseJoinRoundTrip | tickets/forms.py:116-131 | joining non-empty, trimmed, comma-free seats with ", " and parsing the text gives the same seats back |
| TicketForms.CleanSeats | tickets/forms.py:129-134 | accepted exactly when the number of parsed seats equals the cleaned quantity (0 when the quantity did not validate); an accepted result is the parsed list |
| TicketForms.CleanQuantity | tickets/forms.py:38-45 | a quantity is accepted exactly when it is present and at least 1 |
| TicketForms.QuantityErrors | tickets/forms.py:38-45 | no error exactly when the quantity cleans; at most one error, on 'number_of_tickets' |
| TicketForms.SectionErrors | tickets/forms.py:47-53 | no error exactly when a section is given and is one of the offered choices; at most one error, on 'section' |
| TicketForms.RowErrors | tickets/forms.py:55-61 | no error exactly when the stripped row is non-empty, at most 20 characters and free of NUL characters; every error is on 'row' |
| TicketForms.SeatErrors | tickets/forms.py:63-69 | no error exactly when the stripped seat text is non-empty, free of NUL characters, and has as many seats as the cleaned quantity; at most one error, on 'seats' |
| TicketForms.FieldErrors | tickets/forms.py:38-101 | no field error exactly when the quantity, section, row and seats checks pass and the other fields (face value, type, benefits, sell price) report none; no error belongs to the whole form |
| TicketForms.UploadErrors | tickets/forms.py:136-150 | an error on 'upload_file' exactly for 'now' without a file; an error on 'upload_by' exactly for 'later' with no date or a date on or after the event; 'now' never looks at the date |
| TicketForms.QuantityColumnErrors | tickets/models.py:66 | the quantity column accepts exactly the values up to 2147483647, the largest `PositiveIntegerField` value |
| TicketForms.FirstLongSeat | tickets/models.py:69 | None exactly when every seat has at most 10 characters; otherwise the first seat that is longer |
| TicketForms.SeatColumnErrors | tickets/models.py:69 | the seats column accepts exactly a non-empty list of seats of at most 10 characters each; at most one error, on 'seats' |
| TicketForms.Constructed | tickets/models.py:106-114 | the listing `clean` sees: each field that passed its form check holds the cleaned value; a new listing whose seat field failed has no seats, and no upload date when that field failed or was empty |
| TicketForms.ColumnErrors | tickets/models.py:66-69 | when quantity and seats passed the form, no column error exactly when the quantity is at most 2147483647 and every seat fits in 10 characters |
| TicketForms.CheckedErrors | tickets/forms.py:129-150 | the field errors and the errors of `clean` come first; none of them is an error of the whole form; no error exactly when all field, `clean` and column checks pass |
| TicketForms.FormValidation | tickets/forms.py:129-150 | validation raises exactly for a new listing whose seat field failed while the upload checks pass; otherwise the field and `clean` errors come first, an error of the whole form appears exactly when the model's `clean` refuses the filled-in listing (also when other fields failed), and no error exactly when the form accepts the submission |
| TicketForms.CrashesExactly | tickets/models.py:106-114 | the model's `clean` raises on the filled-in listing exactly for a new listing whose seat field failed while the three upload checks pass |
| TicketForms.NewListingSeatCountCrashes | tickets/models.py:113-114 | a new listing of 2 tickets with the one seat "A1", to be uploaded the day before the event, makes validation raise instead of reporting the seat count |
| TicketForms.SectionsOf | tickets/forms.py:121-123 | the offered sections are exactly the sections of the form's event |
| TicketForms.ApplyForm | tickets/forms.py:152-156 | the written listing holds the cleaned seats, quantity and section; it keeps its file unless a new one was uploaded; a new listing is unsold with no buyer, an edited one keeps its sold flag, buyer and seller |
| TicketForms.InitialSeats | tickets/forms.py:116-117 | the seat box is pre-filled exactly when the listing exists and has seats |
| TicketForms.InitialSeatsReparse | tickets/forms.py:116-131 | submitting the pre-filled seat text unchanged gives back the stored seats |
| TicketForms.TicketForm.constructor | tickets/forms.py:111-125 | the form is bound to the event, the listing is attached to it, the section choices are the event's sections and the seat box shows the joined seats |
| TicketForms.TicketForm.IsValid | tickets/forms.py:129-150 | the outcome is the specified validation of the form's listing, event date and section choices; its errors are recorded, and a raising validation records nothing |
| TicketForms.TicketForm.Save | tickets/forms.py:152-156 | callable only on a form whose validation accepted the submission (Django's `save` raises otherwise); the accepted submission has a quantity and a section, and the listing the form describes is returned and stored as the form's instance |
| TicketForms.AcceptedHasFields | tickets/forms.py:38-53 | a submission the form accepts has a cleaned quantity and a chosen section |
| TicketForms.ModelCleanAfterFormChecks | tickets/forms.py:136-150 | once the field checks and `clean` pass, the filled-in listing holds the cleaned values, and the model's `clean` refuses it exactly for an upload-now listing whose upload date is not before the event |
| OrderViews.GatewayAmount | tickets/views.py:317 | the amount in minor units truncated toward zero: for a non-negative amount, the largest whole number of pence not above it; for a negative one, the mirror image |
| OrderViews.GatewayAmountExact | tickets/views.py:317 | an amount of whole pence reaches the gateway exactly |
| OrderViews.GatewayAmountTruncates | tickets/views.py:317 | 10.005 becomes 1000 and -10.005 becomes -1000: half a penny is dropped whatever the sign |
| OrderViews.OrderSnapshot | tickets/views.py:351-372 | a new order copies the event's name, date and time and the listing's section name, row, seats, quantity, face value, type, benefits and seller price; it is pending, not paid out, has no gateway data, and is marked uploaded exactly for an 'Upload Now' listing |
| OrderViews.OrderAmount | tickets/views.py:349-350 | the quantity times the reseller price for a Reseller buyer, else times the normal price |
| OrderViews.NewOrder | tickets/views.py:345-372 | defines the order created for a listing: the listing's snapshot with the amount for the buyer's account type |
| OrderViews.CreateOrder | tickets/views.py:345-393 | a missing or sold listing is refused with nothing changed; otherwise the gateway is asked for the truncated minor-unit amount; on a gateway failure the orders are as before; on success exactly one new pending order holds the listing's snapshot and the gateway's id and URL |
| OrderViews.SellListing | tickets/views.py:407-412 | the listing becomes sold to the buyer's email and is re-saved (buyer prices, section range, event total); the event's sold count grows by exactly the listing's quantity; orders and payouts are untouched |
| OrderViews.OwnOrder | tickets/views.py:398-401 | defines the order the callback finds: the one with the given id whose buyer is the signed-in user |
| OrderViews.PaymentReturn | tickets/views.py:395-427 | only the buyer's own order is found, otherwise nothing changes; 'success' completes the order and sells the listing, whatever the earlier status, and the listing's section gets its price range recomputed over its listings (the other sections are kept); any other status fails the order and leaves listings, events and sections alone; a completed order whose listing is gone ends in an error after the status is saved |
| OrderViews.ConfirmTwice | tickets/views.py:400-412 | two 'success' callbacks for the same order both succeed and add the listing's quantity to the event's sold count twice |
| OrderViews.MarkAsPaid | tickets/views.py:591-620 | an unknown order changes nothing; the first call creates one payout record for the listing's seller with the per-ticket seller price and today's date, a later call keeps the existing record; the order is marked paid to the reseller |
| OrderViews.MarkAsPaidTwice | tickets/views.py:596-606 | marking an order paid twice leaves exactly one payout record, the one made by the first call |
| OrderViews.CompletedFromListsCompleted | tickets/views.py:553 | the listed keys are exactly the completed orders, newest first |
| OrderViews.ReconcileUploads | tickets/views.py:553-572 | every completed order's upload flag becomes "its listing exists and was 'Upload Now'"; other orders are untouched; the listed orders are the completed ones newest first; with no correction nothing changes |
| OrderViews.SuperadminOrderList | tickets/views.py:552-573 | the stored orders are reconciled (no order added or removed) and the result lists exactly the completed orders, newest first |
| OrderViews.ReconciledIdempotent | tickets/views.py:555-572 | reconciling an order a second time changes nothing |
| OrderViews.ExpectedUploaded | tickets/views.py:557-567 | defines the upload flag the order list expects of an order: set exactly when its listing still exists and was listed with 'Upload Now' |
| OrderViews.Reconciled | tickets/views.py:555-572 | defines an order as the order list leaves it: a completed order's upload flag follows its listing, any other order is untouched |
| PyRepr.ReprDelimiter | tickets/views.py:643-644 | `repr` uses a double quote exactly when the text holds a single quote and no double quote, a single quote otherwise |
| PyRepr.ReprChar | tickets/views.py:643-644 | a character is written as itself or as an escape starting with a backslash; the result holds a comma exactly when the character is one |
| PyRepr.ReprBody | tickets/views.py:643-644 | the written text is at least as long as the seat and holds a comma exactly when the seat does |
| PyRepr.Quote | tickets/views.py:643-644 | `repr` of a seat starts and ends with the chosen quote, is at least two characters longer than the seat, and holds a comma exactly when the seat does |
| PyRepr.UnreprChar | tickets/views.py:643-644 | reading back one written character, escape or not, yields that character and leaves the rest to read |
| PyRepr.UnreprBody | tickets/views.py:643-644 | reading back the written text yields the seat, for either quote |
| PyRepr.QuoteInjective | tickets/views.py:643-644 | two seats with the same `repr` are the same seat |
| PyRepr.QuoteSingleQuoteExample | tickets/views.py:643-644 | the seat A'1 is written between double quotes with the single quote unescaped |
| PyRepr.QuoteBackslashExample | tickets/views.py:643-644 | a backslash in a seat is doubled, between single quotes |
| TicketApi.QuoteAll | tickets/views.py:643-644 | each seat is written as Python's `repr` writes it, and the count is kept |
| TicketApi.ListRepr | tickets/views.py:643-644 | defines `str()` of a list of strings: the items as `repr` writes them, joined with ", " between '[' and ']' |
| TicketApi.CharFieldText | tickets/views.py:643-644 | defines what the text field makes of the `seats` member: text as given, `str()` of a non-empty list, and "" for an empty list or a missing value |
| TicketApi.ApiSeatsAsWritten | tickets/views.py:643-644 | defines the seat text the API hands the form as written: the text split into a list, then `str()` of that list |
| TicketApi.ApiSeats | tickets/views.py:643-644 | defines the seat text the API evidently means to hand the form: the seats it split out, joined with ", " |
| TicketApi.Wrap | tickets/views.py:643-644 | the brackets are glued onto the first and last seats; the number of seats is kept |
| TicketApi.JoinWrap | tickets/views.py:643-644 | text around a joined list is text around its first and last items |
| TicketApi.WrappedQuotesWellFormed | tickets/views.py:643-644 | the quoted, bracketed seats are seats the form's parser keeps as they are |
| TicketApi.ListReprTrimmed | tickets/views.py:643-644 | `str()` of a list starts with '[' and ends with ']', so stripping keeps it |
| TicketApi.ParseListRepr | tickets/views.py:643-644 | the form parses `str()` of a non-empty comma-free list into the quoted items, with '[' on the first and ']' on the last |
| TicketApi.JoinTrimmed | tickets/forms.py:116-117 | the ", "-join of non-empty trimmed seats is itself trimmed |
| TicketApi.ApiSeatsAsWrittenMangles | tickets/views.py:643-644 | as written, any non-empty seat list sent to the API is stored with the right count but different seats: each as `repr` writes it, with '[' glued to the first and ']' to the last |
| TicketApi.ApiSeatsAsWrittenExample | tickets/views.py:643-644 | as written, "A1, A2" is stored as the two seats "['A1'" and "'A2']" |
| TicketApi.ApiSeatsRoundTrip | tickets/views.py:643-644 | with the seats handed to the form in its own ", " format, the form stores exactly the seats the client meant, and the text is empty exactly when there are none |
| TicketApi.ApiInput | tickets/views.py:643-650 | the form receives no uploaded file and, as corrected, the seats in its own ", " format rather than the `str()` of a list |
| TicketApi.CanList | tickets/views.py:630-631 | defines who may create listings: a Reseller account or a superadmin |
| TicketApi.CanManage | tickets/views.py:725-726 | defines who may change or delete a listing: its seller or a superadmin |
| TicketForms.FormInstance | tickets/forms.py:121-122 | the form works on the given listing with its event set to the form's event; seller and file are kept, and a listing of that event is unchanged |
| TicketApi.FormWriteAccepted | tickets/forms.py:121-156 | an accepted submission writes a listing of the event in one of its sections with as many seats as tickets; a new listing belongs to the submitter and is unsold; an edited one keeps seller, sold flag and buyer |
| TicketApi.SubmitListing | tickets/forms.py:111-156 | the outcome is the specified validation of the listing for the event's sections; with no error the listing returned is the one the form writes |
| TicketApi.ApiCreateListing | tickets/views.py:629-671 | 403 unless the caller is a Reseller or a superadmin; 404 for an unknown event; 400 for a body that is not JSON; 500 exactly when validation raises; 400 with the validation's errors exactly when the form refuses; nothing changes on any refusal; otherwise exactly one new listing, the caller's and unsold, in a section of the event, holding the seats sent (as corrected), with its buyer prices, its section's range and its event's total recomputed; orders and payouts are untouched |
| TicketApi.ApiCannotListUploadNow | tickets/views.py:650 | the API passes no file to the form, so it never accepts an upload-now listing |
| TicketApi.ApiUpdateListing | tickets/views.py:721-755 | 404 for an unknown listing; 403 unless the caller is its seller or a superadmin; 400 for a bad body, or with the validation's errors when the form refuses, with nothing changed; validation never raises; otherwise only that listing is rewritten in place, keeping seller, event, sold flag, buyer and file, with the seats sent (as corrected), and its section's range and event's total are recomputed; orders and payouts are untouched |
| TicketApi.ApiDeleteListing | tickets/views.py:842-858 | 404 for an unknown listing; 403 unless the caller is its seller or a superadmin, with nothing changed; otherwise the listing is deleted, its event's total becomes the sum over the remaining listings and its section's range that of the remaining ones, (0, 0) when none remain; orders, payouts and the sold count are untouched |
| TicketApi.EventListing | tickets/views.py:112-132 | defines the listing query: the unsold listings of the event that pass every given filter, newest first |
| TicketApi.EventListingExact | tickets/views.py:112-132 | the query lists exactly the unsold listings of the event that pass every given filter, each once, newest first |
| TicketApi.FiltersOnlyNarrow | tickets/views.py:117-131 | whatever a filtered query lists, the unfiltered query lists too, and it is an unsold listing of the event |
| TicketApi.SoldNeverListed | tickets/views.py:113-116 | a sold listing is never listed, whatever the filters |
| TicketApi.ApiPricePerTicket | tickets/views.py:976-984 | the reseller price for a Reseller account or a superadmin, the normal price otherwise |
| TicketApi.SuperadminSeesResellerPrice | tickets/views.py:976-984 | a superadmin who is not a Reseller is shown the reseller price by the listing API but charged the normal price when ordering |
| SectionSync.CheckAll | events/views.py:226-275 | each submitted entry is validated by the section form, in order |
| SectionSync.Start | events/views.py:224-270 | before the loop exactly the stored sections of the event wait to be matched |
| SectionSync.NameTaken | events/models.py:200-201 | defines the uniqueness constraint: another section of the same event already has the name |
| SectionSync.ApplyValid | events/views.py:229-239 | defines one valid entry: a matching id pops and renames its section, any other entry creates a section with an empty price range, and a name another section of the event has is refused |
| SectionSync.ApplyValidWf | events/views.py:229-292 | a valid entry keeps keys below the counter and leaves only sections of the event unmatched |
| SectionSync.SyncStep | events/views.py:226-292 | one pass of the loop body keeps the loop state well formed |
| SectionSync.SyncAll | events/views.py:226-292 | the loop over all entries keeps the loop state well formed |
| SectionSync.SyncAllSnoc | events/views.py:226 | one more entry is one more pass |
| SectionSync.SyncAllPrefix | events/views.py:226 | the first i + 1 entries are one pass after the first i |
| SectionSync.SyncStopped | events/views.py:240-253 | once the loop has answered or raised, later entries change nothing |
| SectionSync.SyncStepFrame | events/views.py:229-239 | one pass removes no section, changes no section's event or prices, rewrites only the section it pops, only shrinks the unmatched set, and creates only fresh sections of the event with an empty price range |
| SectionSync.SyncFrameTrans | events/views.py:226-239 | those guarantees compose across passes |
| SectionSync.SyncAllFrame | events/views.py:224-292 | the whole loop keeps the guarantees of a single pass |
| SectionSync.SyncStepKeepsUniqueNames | events/models.py:200-201 | a pass never gives two sections of one event the same name: the database refuses such a write |
| SectionSync.SyncKeepsUniqueNames | events/models.py:200-201 | the loop keeps section names unique per event |
| SectionSync.AllValidSameEitherWay | events/views.py:240-292 | when every entry is valid, the API's loop and the HTML view's loop give the same result |
| SectionSync.ApiStopsAtFirstInvalid | events/views.py:240-241 | the API answers 400 at the first invalid entry: the entries before it stand and no later entry is looked at |
| SectionSync.HtmlSkipsInvalid | events/views.py:273-292 | the HTML view's outcome is that of the valid entries alone |
| SectionSync.DuplicateIdCreates | events/views.py:229-239 | a second entry with an already matched id creates a new section instead of updating the first one again |
| SectionSync.SyncResultValid | events/views.py:224-244 | the loop's result can be written back: keys below the new counter, sections of stored events with unique names, no section removed, other events' sections untouched, only the event's own sections left unmatched |
| SectionSync.PopOrCreate | events/views.py:229-292 | a matching id pops and renames its section; any other valid entry creates a section with an empty price range; a duplicate name is refused |
| SectionSync.SyncSections | events/views.py:224-292 | the loop computes exactly the specified sync, stopping at the first invalid entry when asked to |
| EventViews.WithFields | events/views.py:216-222 | the edited fields change; public id, owner and counters stay |
| EventViews.NewEvent | events/views.py:54-55 | a new event has no public id yet, belongs to the superadmin and starts with zero counters |
| EventViews.EventFormErrors | events/forms.py:96-109 | with valid fields the form accepts exactly the events that have not started; field errors are kept in front |
| EventViews.SaveNewEvent | events/views.py:53-65 | the new event takes the next key and the sections become those the loop produced, and the store stays valid |
| EventViews.ApiCreateEvent | events/views.py:36-76 | 403 for a non-superadmin; 400 for bad JSON or form errors; a duplicate section name answers 500 with nothing changed; otherwise the event is saved with a fresh unused six-digit id and the sections are created in order; a refused section answers 400 but keeps the event and the sections before it |
| EventViews.PageCreateEvent | events/views.py:78-113 | saved exactly when the caller is a superadmin, the form is valid, the section list is readable and every section is accepted; then the event has a fresh unused id and exactly the loop's sections; any failure changes nothing |
| EventViews.SaveEventUpdate | events/views.py:222-244 | the event is rewritten, the sections become the loop's result less (when asked) the unmatched ones, whose listings go too; other events' sections and all remaining listings are unchanged |
| EventViews.UpdateInTransaction | events/views.py:220-253 | a duplicate name answers 500 with nothing changed; a refused section answers 400 keeping earlier changes and deleting nothing; otherwise unmatched sections and their listings are deleted |
| EventViews.ApiUpdateEvent | events/views.py:199-253 | 403 for a non-superadmin; 404 unless the event is the caller's; 400 for bad JSON or form errors with nothing changed; then the transaction's outcome |
| EventViews.PageUpdateEvent | events/views.py:254-302 | any superadmin may edit any stored event; saved exactly when the form is valid, the section list is readable and no name clashes; invalid entries are skipped, unmatched sections of the event are deleted with their listings; a failure changes nothing |
| EventViews.Owns | events/views.py:204 | defines the API's lookup `Event.objects.get(event_id=..., superadmin=user)`: the event exists and the user created it |
| EventQueries.Available | events/views.py:687-693 | defines the availability of a section: the sum of quantities over the unsold listings of the section of the event, 0 without any |
| EventQueries.AvailableAllSold | events/views.py:687-693 | a section whose listings are all sold (or that has none) reports 0 available tickets |
| EventQueries.AvailableCountsRow | events/views.py:687-693 | every unsold listing of the section counts in full towards its availability |
| EventQueries.AvailableAfterSale | events/views.py:687-693 | selling an unsold listing lowers its section's availability by exactly its quantity |
| EventQueries.AvailableFrame | events/views.py:687-693 | a listing at a key not yet counted does not change the availability |
| EventQueries.EventSections | events/views.py:674-713 | 404 exactly for an unknown event; otherwise one entry per section of the event, in the order given, with its stored name, colour and prices and the sum of quantities over its unsold listings |
| EventQueries.MinLower | events/views.py:363-366 | NULL exactly for an event without sections; otherwise the least lower price of its sections, attained by one of them |
| EventQueries.MaxUpper | events/views.py:363-366 | NULL exactly for an event without sections; otherwise the greatest upper price of its sections, attained by one of them |
| EventQueries.Annotate | events/views.py:363-366 | exactly the stored events with a key below the counter, each annotated with its section price span and section count, in strictly increasing key order (so each once) |
| EventQueries.IncreasingKeysOnce | events/views.py:363-366 | rows in strictly increasing key order occur at most once each |
| EventQueries.Insert | events/views.py:368-377 | inserting adds exactly the one row |
| EventQueries.BeforeTotal | events/views.py:368-377 | any two rows are ordered one way or the other |
| EventQueries.BeforeTrans | events/views.py:368-377 | the order is transitive |
| EventQueries.InsertSorted | events/views.py:368-377 | inserting into a sorted list keeps it sorted |
| EventQueries.SortRows | events/views.py:368-377 | the result is sorted by the chosen order and is a permutation of the input |
| EventQueries.TicketCountAsWritten | events/views.py:371 | as written, the 'popular' count equals the sold count for an event with at most one section, and is never below it |
| EventQueries.ParseSort | events/views.py:361 | a missing sort means 'upcoming'; each known mode is recognised |
| EventQueries.PageOrdering | events/views.py:368-377 | the page's order: none for an unknown mode (the query has no `order_by`); descending exactly for 'popular' and 'price_high'; 'popular' orders by the event's own sold count, as corrected |
| EventQueries.ApiOrdering | events/views.py:487-496 | the API's order: that of the page for a known mode, and the date, newest first, for an unknown mode |
| EventQueries.FromDay | events/views.py:369 | keeps exactly the events dated today or later |
| EventQueries.InCategory | events/views.py:484-485 | keeps exactly the events of the category |
| EventQueries.AllEventsPage | events/views.py:360-377 | the same rows as the mode's selection, each as often (a permutation), sorted in the mode's order when the mode has one; an unknown mode promises no order; 'popular' uses the corrected sold count |
| EventQueries.AllEventsApi | events/views.py:475-496 | the same rows as the API's selection, each as often (a permutation), sorted in the API's order; an unknown mode sorts by date, newest first; 'popular' uses the corrected sold count |
| EventQueries.PageSelection | events/views.py:368-377 | the page's selection: the rows dated today or later for 'upcoming', all rows otherwise; no row occurs more often than in the input |
| EventQueries.ApiSelection | events/views.py:484-488 | the API's selection: the rows in the category when one is given, and dated today or later for 'upcoming'; no row occurs more often than in the input |
| EventQueries.SelectedOnce | events/views.py:360-377 | when no input row repeats, a rearranged selection holds each selected row exactly once and no other row |
| EventQueries.StoredOnce | events/views.py:363-366 | a rearranged selection of the annotated events holds each stored event once when selected and not at all otherwise, and only annotated stored events |
| EventQueries.AllEventsPageListsStoredOnce | events/views.py:360-377 | over the stored events, the page lists each event the mode selects exactly once, no other event, and nothing that is not a stored event |
| EventQueries.ApiSelectsStored | events/views.py:475-488 | a stored event's row is in the API's selection exactly when the event is in the category (when one is given) and the mode selects it |
| EventQueries.AllEventsApiListsStoredOnce | events/views.py:475-496 | over the stored events, the API lists each event in the category that the mode selects exactly once, no other event, and nothing that is not a stored event |
| EventQueries.DateAscending | events/views.py:369 | a list sorted by date ascending has non-decreasing dates |
| EventQueries.UpcomingByDefault | events/views.py:361-369 | with no sort, exactly the events dated today or later, earliest first; page and API agree |
| EventQueries.PopularBestSoldFirst | events/views.py:370-371 | 'popular', as intended, lists every event with the sold counts non-increasing |
| EventQueries.PriceLowCheapestFirst | events/views.py:372-373 | 'price_low' lists every event by its cheapest section, cheapest first; events without sections all come first or all last, as the database places NULL |
| EventQueries.PriceHighDearestFirst | events/views.py:374-375 | 'price_high' lists every event by its dearest section, dearest first |
| EventQueries.UnknownSortNewestFirst | events/views.py:377 | an unknown mode: the page lists every event, in no promised order; the API lists them newest date first |
| EventQueries.ApiCategoryOnly | events/views.py:484-485 | with a category, the API lists only events of that category |
| EventQueries.PopularAsWrittenMisorders | events/views.py:371 | as written, an event with 10 sold and one section is listed after one with 6 sold and two sections; the intended order puts it first |
| EventQueries.UnsoldShare | events/views.py:687-693 | defines what one listing adds to a section's available count: its quantity when it is an unsold listing of that event and section, else 0 |
| EventQueries.SectionCount | events/views.py:371 | defines the number of sections of an event, which is how many times the join behind `Sum('sold_tickets')` repeats the event's row |
| StadiumConfig.LastKeyFor | events/stadium_config.py:130-133 | the key kept for a name is that of the last entry, in declaration order, listing it; none exactly when no entry lists it |
| StadiumConfig.AddVariationsAt | events/stadium_config.py:132-133 | the inner loop binds each lowercased variation of one entry to its key and leaves every other name as it was |
| StadiumConfig.BuildReverseAt | events/stadium_config.py:130-133 | the reverse map holds exactly the lowercased variations, each bound to the key of the last entry listing it |
| StadiumConfig.LastKeyIs | events/stadium_config.py:131-133 | an entry that lists the name, with no later entry listing it, gives the kept key |
| StadiumConfig.FirstPartial | events/stadium_config.py:157-160 | the first key, in declaration order, with a variation containing the name or contained in it; none exactly when no entry has such a variation |
| StadiumConfig.KebabCase | events/stadium_config.py:164 | same length, no space or underscore left, every other character kept |
| StadiumConfig.Normalize | events/stadium_config.py:136-164 | none exactly for a missing or empty name; otherwise a picture key of the table or the kebab-case form of the cleaned name |
| StadiumConfig.NormalizeExact | events/stadium_config.py:150-154 | a cleaned name equal to a variation resolves to the key of the last entry listing it |
| StadiumConfig.NormalizePartial | events/stadium_config.py:156-160 | without an exact match the first entry with a partial match decides |
| StadiumConfig.NormalizeFallback | events/stadium_config.py:162-164 | with no match of either kind the result is the kebab-case form of the cleaned name |
| StadiumConfig.NotVariation | events/stadium_config.py:133 | a list with no entry of the name's length and first letter does not list the name |
| StadiumConfig.NoLaterPremiumSeating | events/stadium_config.py:44-127 | no entry after `premium-level-hospitality` lists "premium seating" |
| StadiumConfig.LowerPremiumSeating | events/stadium_config.py:40-47 | "Premium Seating" lowercases to "premium seating" |
| StadiumConfig.PremiumSeatingCleans | events/stadium_config.py:150 | "Premium Seating" cleans to "premium seating" |
| StadiumConfig.PremiumSeatingLastKey | events/stadium_config.py:37-47 | "premium seating", listed under two keys, is bound to the later one, `premium-level-hospitality` |
| StadiumConfig.NoEmptyVariation | events/stadium_config.py:132-133 | a list of non-empty variations does not list the empty name |
| StadiumConfig.NoEmptySectionVariation | events/stadium_config.py:6-127 | no variation in the section table is empty |
| StadiumConfig.WhitespaceNameResolvesToFirstKey | events/stadium_config.py:146-160 | a name of whitespace only is not refused: it cleans to the empty name, which every variation contains, so the first key wins |
| StadiumConfig.WhitespaceSectionName | events/stadium_config.py:146-160 | with the section table a whitespace-only name becomes `longside-lower-tier` |
| StadiumConfig.ExactStadium | events/stadium_config.py:205-206 | the value of the entry whose key is the name; none exactly when no key equals it |
| StadiumConfig.PartialStadium | events/stadium_config.py:209-211 | the value of the first entry whose key occurs in the name; none exactly when no key does |
| StadiumConfig.SvgKeyFromStadiumName | events/stadium_config.py:167-213 | none for a missing or empty name; an exact match wins over a partial one; every answer is a known stadium key |
| StadiumConfig.UnknownStadium | events/stadium_config.py:209-213 | a name containing no known stadium key is not recognised |
| StadiumConfig.AddVariations | events/stadium_config.py:132-133 | defines the inner loop of the reverse map: each variation, lowercased, is bound to the section key |
| StadiumConfig.BuildReverse | events/stadium_config.py:130-133 | defines the reverse map: the entries in declaration order, each adding its variations |
| StadiumConfig.CleanName | events/stadium_config.py:150 | defines the name as it is looked up: stripped, then lowercased |
| Strings.Strip | events/stadium_config.py:150 | the stripped string is no longer than its input, starts and ends with a non-space, and is empty exactly when the input is all whitespace |
| Strings.StripAbsent | tickets/forms.py:131 | stripping adds no character: one absent from the input is absent from the result |
| Strings.StripBounds | events/stadium_config.py:150 | the stripped string is the slice of its input between two positions, with only whitespace before the first and after the second |
| Strings.StripIsInfix | events/stadium_config.py:150 | `strip()` returns an infix of its input and removes only whitespace around it |
| Strings.Lower | events/stadium_config.py:150 | same length, each character lowercased in place |
| Strings.Split | tickets/forms.py:131 | at least one piece and no piece contains the separator |
| Strings.SplitAtSeparator | tickets/forms.py:131 | a separator ends the first piece and splitting resumes after it |
| Strings.Join | tickets/forms.py:117 | defines `sep.join(xs)`: the items with `sep` between neighbours |
| Strings.ReplaceChar | events/stadium_config.py:164 | defines `s.replace(a, b)` for one character: same length, each `a` turned into `b` and every other character kept |
| Strings.StartsWith | accounts/utils.py:15 | defines `s.startswith(prefix)` |
| Strings.Contains | events/stadium_config.py:159 | defines Python's substring test `a in b`: `a` occurs in `b` at some position |
| AccountModels.PricingType | tickets/views.py:340-349 | Reseller prices apply exactly to a user whose type is Reseller; everyone else, a blank type included, pays Normal prices |
| AccountModels.OrDefault | accounts/models.py:14 | a keyword argument that was given wins; otherwise the field's default |
| AccountModels.NewUser | accounts/models.py:10-17 | refused exactly for an empty email; otherwise the user has the given email, password and keyword arguments, is active, and takes the model defaults for the rest |
| AccountModels.SuperuserFields | accounts/models.py:19-29 | missing flags default to True and the type to Reseller, given ones are kept; an explicit False for staff is refused first, then one for superadmin |
| AccountModels.NewSuperuser | accounts/models.py:19-31 | defines `create_superuser` up to the save: the superuser checks, then `create_user` with the filled-in flags |
| AccountModels.SuperuserDefaults | accounts/models.py:19-31 | without keyword arguments a superuser is a verified, active staff superadmin with a verified Reseller account, refused only for an empty email |
| AccountModels.SuperuserKeepsCallerFlags | accounts/models.py:19-31 | flags the caller passes survive `create_superuser`; staff=False is refused before the email is looked at |
| AccountModels.IsValid | accounts/models.py:89-90 | a token is valid exactly when unused and expiring strictly after now |
| AccountModels.Accounts.constructor | accounts/models.py:33-90 | the tables start empty |
| AccountModels.Accounts.AddUser | accounts/models.py:16 | a new user takes a fresh key; nothing else changes |
| AccountModels.Accounts.SetUser | accounts/views.py:65 | only the saved user's row changes |
| AccountModels.Accounts.CreateUser | accounts/models.py:10-17 | an empty email is refused; otherwise an email some stored user already has is refused (the save's `IntegrityError`, the field being unique at accounts/models.py:40); a refusal stores nothing; otherwise exactly the new user is added under a fresh key |
| AccountModels.Accounts.CreateSuperuser | accounts/models.py:19-31 | refused with the superuser checks' or the email check's error when those refuse; otherwise refused exactly when a stored user already has the email (the save's `IntegrityError`); a refusal stores nothing; otherwise exactly the superuser is added under a fresh key |
| AccountModels.Accounts.CreateToken | accounts/views.py:34-38 | a fresh unused token of the given type for a stored user, expiring one day after now |
| AccountModels.Accounts.SetToken | accounts/views.py:152 | only the saved token changes, and it keeps its user |
| AccountModels.Accounts.DeleteUser | accounts/views.py:436 | the user goes, and by the cascading foreign key exactly that user's tokens; every other token is unchanged |
| AccountForms.AddressErrorsExact | accounts/forms.py:119-124 | exactly the empty address fields get an error, each with the Reseller message |
| AccountForms.SignUpErrorsExact | accounts/forms.py:109-126 | 'password2' gets an error exactly when both passwords are given and differ; for a Reseller each empty country, city or street field gets its own error; a Normal user gets only the password error; the social media link is never required |
| AccountForms.UserSignUpForm.constructor | accounts/forms.py:64-107 | the form starts with the errors of its own field validation |
| AccountForms.UserSignUpForm.Clean | accounts/forms.py:109-126 | the errors after `clean` are those before followed by the sign-up errors |
| AccountForms.UserSignUpForm.RequireAddress | accounts/forms.py:119-124 | the loop appends the address errors, in field order |
| AccountForms.UserSignUpForm.IsValid | accounts/forms.py:109-126 | the form is valid exactly when it has no error |
| AccountForms.WithoutAbsent | accounts/forms.py:228-231 | deleting a field that is not there changes nothing |
| AccountForms.WithoutAt | accounts/forms.py:228-231 | deleting a field removes exactly that field and keeps the others in order |
| AccountForms.UserProfileForm.constructor | accounts/forms.py:203-239 | a Normal user's form keeps first name, last name and phone, then gets 'country' back at the end as a choice field; any other user keeps all seven fields in order, with 'country' replaced in place |
| AccountForms.MismatchErrors | accounts/forms.py:115-116 | defines the password check of the sign-up form's `clean`: an error on password2 exactly when both passwords are given and differ |
| AccountForms.AddressErrors | accounts/forms.py:119-124 | defines the loop of the reseller check in `clean`: one error, with the Reseller message, on each empty field among those given, in order (`SignUpErrors` gives it country, city and street number) |
| AccountForms.SignUpErrors | accounts/forms.py:109-126 | defines the errors of the sign-up form's `clean`: the password mismatch error, then the reseller address errors |
| AccountUtils.HeaderSplits | accounts/utils.py:15-18 | a header starting with "Token " splits into "Token" and the pieces of what follows |
| AccountUtils.HeaderToken | accounts/utils.py:15-20 | another scheme gives no id; an id, when there is one, is non-empty, stripped and free of spaces |
| AccountUtils.HeaderTokenFirstWord | accounts/utils.py:18-20 | the id is the stripped word right after "Token "; whatever follows the next space is ignored |
| AccountUtils.EmptyFieldGivesNone | accounts/utils.py:18-20 | "Token " alone, or followed by a second space, gives no id |
| AccountUtils.HeaderRoundTrip | accounts/utils.py:15-20 | an id without whitespace put after "Token " is read back unchanged |
| AccountUtils.Authenticate | accounts/utils.py:9-29 | a user exactly when the header carries an id that names a stored, active user, and then that user |
| AccountUtils.Request.constructor | accounts/utils.py:34 | a request starts without an authenticated user |
| AccountUtils.ApiLoginRequired | accounts/utils.py:32-48 | 401 with the request untouched exactly when authentication fails; otherwise the request's user is the authenticated one and the view runs |
| AccountUtils.RequireUserType | accounts/utils.py:51-60 | the view runs exactly when the user's type is the required one; otherwise 403 |
| AccountViews.SignUpUser | accounts/views.py:62-72 | a new user is inactive, unverified, not an approved seller, not staff and not a superadmin, with the submitted email, password and type; the address is copied only for a Reseller |
| AccountViews.SignUp | accounts/views.py:54-82 | a signed-in user is sent away; otherwise refused, with nothing written, exactly when the field or `clean` errors are not empty; else the inactive user is stored under a fresh key and a one-day signup token is created for them |
| AccountViews.LoginStep | accounts/views.py:95-115 | refusals in order: superadmin, then unverified, then a Reseller awaiting approval; an admitted user is verified and, if a Reseller, approved |
| AccountViews.LoginAsWritten | accounts/views.py:90-117 | the login form fails exactly when the credentials or the active flag fail it; an unverified user crashes the request |
| AccountViews.UnverifiedLoginCrashes | accounts/views.py:101-102 | an active, unverified, non-superadmin user with the right password gets an error, not a new link |
| AccountViews.Login | accounts/views.py:90-117 | as intended: the form fails as above; otherwise the login steps decide; an unverified user is refused and exactly one new one-day signup token is created for them; no other outcome writes anything |
| AccountViews.LoginAgreesOtherwise | accounts/views.py:95-115 | apart from the unverified case the login as written never crashes |
| AccountViews.VerifyAcceptsBoundary | accounts/views.py:148-149 | the link is accepted exactly when the token is valid or is unused and expires at this very second |
| AccountViews.VerifyEmail | accounts/views.py:145-175 | an unknown, used or expired token changes nothing; an accepted one is marked used; a superadmin or signup token verifies and activates its user; a password-reset token is consumed and then refused |
| AccountViews.AfterResetGetAsWritten | accounts/views.py:239-248 | showing the reset page keeps the token's user, expiry and type |
| AccountViews.ResetGetAsWritten | accounts/views.py:237-257 | the form is shown exactly for an unused, unexpired password-reset token, which is then marked used; nothing else changes |
| AccountViews.ResetAfterGetRefused | accounts/views.py:239-267 | after the page was shown, a later submission of its form is always refused |
| AccountViews.ResetGet | accounts/views.py:237-257 | as intended: the form is shown exactly for an unused, unexpired password-reset token, and nothing is written |
| AccountViews.ResetStaysUsable | accounts/views.py:261-270 | with the intended page, a form submitted before the token expires is accepted |
| AccountViews.ResetPost | accounts/views.py:259-286 | refused with nothing written unless the token is an unused, unexpired password-reset token; an invalid form writes nothing; otherwise the user's password is replaced and the token is marked used |
| AccountViews.ResetIsOneTime | accounts/views.py:261-275 | a token that has reset a password cannot reset it again |
| AccountViews.DeleteUserAsSuperadmin | accounts/views.py:421-438 | refused exactly when the requester is not a signed-in superadmin; the user is deleted exactly when the refusal does not apply, the user exists, is not the requester, and is not the buyer of an order or the seller of a payout (that case is a 500 and nothing changes); a deletion removes the user and exactly their tokens, and the remaining tokens keep their values; a refusal changes nothing |
| AccountViews.VerifyAccepts | accounts/views.py:148 | defines the test `verify_email` applies to a token: not used and not expired, a token expiring at the current instant still counting |
| AccountViews.ResetUsable | accounts/views.py:239-245 | defines the lookup of the reset page: a password-reset token, not used and not expired, one expiring at the current instant still counting |

## Left out

- Email: `send_mail` and the messages it sends are not modelled. A "sent" verification or reset link is the token created for it.
- Payment gateway: the HTTP call is not modelled. Its answer is a parameter: success with an id and URL, or failure. Only the `int(amount * 100)` conversion is kept. tickets/stripe_utils.py is not part of this model.
- Clock and randomness: the current instant is a parameter `now`, today's date is `today`, and the random event ids are a parameter `draws`.
- EventModels.GenerateUniqueEventId: requires that some draw is free. The source keeps drawing forever when every six-digit id is in use.
- Identifiers: UUID primary keys, the random token UUIDs and the public `ticket_id` are modelled as map keys. The lookup of an id given as text is a parameter `parse`, which yields nothing for text that is not an id. A malformed UUID raises `ValidationError` in Django, a 500 rather than a clean refusal; the model treats it like an unknown id.
- Field validation done by Django or libraries is a parameter: `fieldErrors` for the event and sign-up forms, and `otherErrors` for the listing form's face value, ticket type, benefits and sell price fields. It covers required values, types, choices, email, phone and URL formats, and the name regular expressions. The listing form's quantity, section, row and seats checks are modelled. The listing form's `upload_choice` and `upload_by` arrive already typed: a missing or unknown upload choice, and an `upload_by` that is not a date, can be represented only by an entry in `otherErrors`, never by the field's own value. Password hashing and `normalize_email` are not modelled; a user's password is the text that was set.
- Database ordering details: where NULL values sort (`nullsLarge`) depends on the database engine, and the order among equal keys is not fixed. The sorted event lists are proved for any such choice. The name order of a section list is a parameter, because it depends on the collation.
- Transactions, concurrency and locking: calls are sequential. The absence of locking around "unsold, then sold" is not modelled.
- Decimal storage: prices are exact reals. Rounding to two decimal places when a row is stored is not modelled.
- Floating point: the `float()` conversions in JSON responses and the `int()` in the section price view are presentation and are not modelled.
- PyRepr.ReprChar: Python's `repr` also escapes the non-ASCII characters it does not print (for example U+00A0 as `\xa0` and U+2028 as `\u2028`); the model writes them as they are. The seat-mangling finding below holds either way, since the first seat still gains '['.
- Strings.Lower: Python's `lower` folds all of Unicode; the model lowercases ASCII letters only. `Strip` removes exactly the characters for which Python's `isspace` holds.
- Images and files: the event image URLs and the uploaded ticket documents are not modelled, beyond the upload choice and its date checks.
- Pagination, templates, messages and redirects: a view's result is an outcome value naming the response.
- The `benefits_and_Restrictions` list of the JSON API is pre-split and turned back into text like the seats. Its stored text is not modelled; the listing keeps the benefits as given.
- `resend_verification` (accounts/views.py:177-198) has the same missing-argument call as the login view and is not modelled. The superadmin login view and the forgot-password view are not modelled; the tokens they create are `CreateToken` calls.
- Deleting a user: the model removes the user and their tokens, and refuses a user named by an order or a payout, as the protecting foreign keys do. The cascade, in the database, to the events a superadmin created (with their sections and listings) and to the listings a user sells is not modelled; `referencedByOrderOrSale` is a parameter.
- EventQueries.AllEventsPage: 'popular' sorts by the event's own sold count, the corrected order; as written the sum is taken over the join with the sections (see Findings).
- EventQueries.AllEventsApi: 'popular' sorts by the event's own sold count, the corrected order; as written the sum is taken over the join with the sections (see Findings).
- EventQueries.PageOrdering: 'popular' sorts by the event's own sold count, the corrected order; as written the sum is taken over the join with the sections (see Findings).
- TicketApi.ApiInput: the seats reach the form in its own ", " format, the corrected behaviour; as written they arrive as `str()` of a list and are stored mangled (see Findings).
- TicketApi.ApiCreateListing: the seats reach the form in its own ", " format, the corrected behaviour; as written they arrive as `str()` of a list and are stored mangled (see Findings).
- TicketApi.ApiUpdateListing: the seats reach the form in its own ", " format, the corrected behaviour; as written they arrive as `str()` of a list and are stored mangled (see Findings).
- AccountModels.Accounts.CreateUser: the unique constraint on `phone` (accounts/models.py:47) is not modelled, since the model's user carries no phone number; a second user with the same phone, or a second user left with the empty default, makes the save raise `IntegrityError`, which the model does not refuse. `normalize_email` is not modelled either: emails are compared as given.
- AccountModels.Accounts.CreateSuperuser: the same as `CreateUser` for the unique `phone` and for `normalize_email`.
- Permission gates: `SuperAdminRequiredMixin` (tickets/views.py:35-37) on `SuperadminOrderListView` and `MarkAsPaidView` (tickets/views.py:520, 584) and `LoginRequiredMixin` on `CreateOrderView` and `PaymentReturnView` (tickets/views.py:345, 395) are not modelled: `OrderViews.MarkAsPaid` and `OrderViews.SuperadminOrderList` take no caller, and the order-creating members assume a signed-in buyer.
- Admin classes, URL routing, settings, migrations, repair scripts and static JavaScript are not modelled.

## Findings

| source | as written | input that shows it | evidently intended | confidence | as-written member | corrected member |
|---|---|---|---|---|---|---|
| accounts/views.py:101-102 | `send_verification_email(user, 'signup')` omits the `request` argument, so the call raises `TypeError` | an active, unverified, non-superadmin user logs in with the right password | refuse the login and send a fresh signup link | high, not executed | AccountViews.UnverifiedLoginCrashes | AccountViews.Login |
| tickets/views.py:643-644 | the seats text is split into a Python list, which the form's text field turns back into text with `str()`; the update API repeats this at tickets/views.py:733-734 | seats "A1, A2" are stored as "['A1'" and "'A2']" | pass the seats to the form as comma-separated text | high, not executed | TicketApi.ApiSeatsAsWrittenExample | TicketApi.ApiSeatsRoundTrip |
| events/views.py:371 | `Sum('sold_tickets')` is taken after the join on sections, so an event counts once per section; the API repeats this at events/views.py:490 | event A sold 10 seats and has 1 section; event B sold 6 seats and has 2; B ranks before A | order by the sold count itself | medium, not executed | EventQueries.PopularAsWrittenMisorders | EventQueries.PopularBestSoldFirst |
| accounts/views.py:239-265 | showing the reset page marks the token used, and the form's submission accepts only unused tokens | open a fresh reset link, then submit the new password | show the form without consuming the token; consume it when the password is set | high, not executed | AccountViews.ResetAfterGetRefused | AccountViews.ResetStaysUsable |
