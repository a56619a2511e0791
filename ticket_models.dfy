/** The listing, order and payout records of the marketplace (`Ticket`,
    `Order`, `Sale`), the buyer-price formula, the model-level `clean`
    checks and the total price of a listing. */
module TicketModels {
  import opened Common

  datatype UploadChoice = UploadNow | UploadLater

  /** `TICKET_TYPES`. */
  datatype TicketType = ETicket | Paper | MobileTransfer

  /** A listing: `number_of_tickets` seats sold together by one seller. */
  datatype Ticket = Ticket(
    event: EventKey,
    seller: UserKey,
    buyer: Option<string>,          // the buyer's email once sold
    uploadChoice: UploadChoice,
    hasFile: bool,                  // an uploaded PDF is attached
    uploadBy: Option<Date>,
    numberOfTickets: nat,
    section: SectionKey,
    row: string,
    seats: seq<string>,
    faceValue: real,
    ticketType: TicketType,
    benefits: seq<string>,
    sellPrice: real,                // what the seller receives per ticket
    priceForNormal: real,           // what a Normal buyer pays per ticket
    priceForReseller: real,         // what a Reseller buyer pays per ticket
    checked: bool,
    ordered: bool,
    sold: bool)

  /** What a seller fills in; the rest of a `Ticket` takes its defaults. */
  datatype Listing = Listing(
    event: EventKey,
    seller: UserKey,
    uploadChoice: UploadChoice,
    hasFile: bool,
    uploadBy: Option<Date>,
    numberOfTickets: nat,
    section: SectionKey,
    row: string,
    seats: seq<string>,
    faceValue: real,
    ticketType: TicketType,
    benefits: seq<string>,
    sellPrice: real)

  /** A new listing: no buyer, not checked, not ordered, not sold. The two
      buyer prices are set by the first save. */
  function NewTicket(l: Listing): (t: Ticket)
    ensures !t.checked && !t.ordered && !t.sold && t.buyer.None?
    ensures t.event == l.event && t.seller == l.seller && t.section == l.section
    ensures t.numberOfTickets == l.numberOfTickets && t.seats == l.seats && t.sellPrice == l.sellPrice
    ensures t.uploadChoice == l.uploadChoice && t.hasFile == l.hasFile && t.uploadBy == l.uploadBy
  {
    Ticket(l.event, l.seller, None, l.uploadChoice, l.hasFile, l.uploadBy, l.numberOfTickets, l.section,
           l.row, l.seats, l.faceValue, l.ticketType, l.benefits, l.sellPrice, l.sellPrice, l.sellPrice,
           false, false, false)
  }

  /** A buyer price: the seller's price plus `rate` percent of it. */
  function BuyerPrice(sellPrice: real, rate: real): (r: real)
    ensures r - sellPrice == sellPrice * rate / 100.0
    ensures rate == 0.0 ==> r == sellPrice
    ensures sellPrice >= 0.0 && rate >= 0.0 ==> r >= sellPrice
  {
    sellPrice + sellPrice * rate / 100.0
  }

  /** A higher rate never gives a lower price, for a non-negative seller price. */
  lemma BuyerPriceMonotone(sellPrice: real, rate1: real, rate2: real)
    requires sellPrice >= 0.0 && rate1 <= rate2
    ensures BuyerPrice(sellPrice, rate1) <= BuyerPrice(sellPrice, rate2)
  {
    assert sellPrice * rate1 <= sellPrice * rate2;
  }

  /** 100.00 at the rates 20 and 12 gives 120.00 and 112.00. */
  lemma BuyerPriceExample()
    ensures BuyerPrice(100.0, 20.0) == 120.0 && BuyerPrice(100.0, 12.0) == 112.0
  {
  }

  /** The first step of `Ticket.save`: both buyer prices from the event's two rates. */
  function Priced(t: Ticket, normalRate: real, resellerRate: real): (r: Ticket)
    ensures r.priceForNormal == BuyerPrice(t.sellPrice, normalRate)
    ensures r.priceForReseller == BuyerPrice(t.sellPrice, resellerRate)
    ensures r == t.(priceForNormal := r.priceForNormal, priceForReseller := r.priceForReseller)
  {
    t.(priceForNormal := BuyerPrice(t.sellPrice, normalRate),
       priceForReseller := BuyerPrice(t.sellPrice, resellerRate))
  }

  /** The first check of `Ticket.clean` that fails. */
  datatype CleanError = MissingFile | MissingUploadBy | UploadByNotBeforeEvent | SeatCountMismatch

  /** The message `Ticket.clean` raises for each failure. */
  function CleanErrorMessage(e: CleanError): Message {
    match e
    case MissingFile => CleanMissingFile
    case MissingUploadBy => CleanMissingUploadBy
    case UploadByNotBeforeEvent => CleanUploadByLate
    case SeatCountMismatch => CleanSeatCount
  }

  /** The fields `Ticket.clean` reads, as they stand on the instance a form
      validates. On a new listing the quantity, the seats and `upload_by`
      stay unset (None) until the form assigns them. */
  datatype Draft = Draft(
    uploadChoice: UploadChoice,
    hasFile: bool,
    uploadBy: Option<Date>,
    numberOfTickets: Option<nat>,
    seats: Option<seq<string>>)

  /** The fields `Ticket.clean` reads of a stored listing. */
  function DraftOf(t: Ticket): (d: Draft)
    ensures d.numberOfTickets == Some(t.numberOfTickets) && d.seats == Some(t.seats)
    ensures d.uploadChoice == t.uploadChoice && d.hasFile == t.hasFile && d.uploadBy == t.uploadBy
  {
    Draft(t.uploadChoice, t.hasFile, t.uploadBy, Some(t.numberOfTickets), Some(t.seats))
  }

  /** The three upload checks of `Ticket.clean` pass. */
  predicate UploadChecksPass(d: Draft, eventDate: Date) {
    && (d.uploadChoice == UploadNow ==> d.hasFile)
    && (d.uploadChoice == UploadLater ==> d.uploadBy.Some?)
    && (d.uploadBy.Some? ==> d.uploadBy.value < eventDate)
  }

  /** What `Ticket.clean` does: it passes, raises the `ValidationError` of the
      first check that fails, or raises `TypeError` when it reaches the seat
      count with the seats unset (`len(None)`). */
  datatype CleanResult = Passed | Refused(error: CleanError) | Crashed

  /** `Ticket.clean`: the checks in order. An unset quantity never equals a
      seat count. */
  function ModelClean(d: Draft, eventDate: Date): (r: CleanResult)
    ensures r == Refused(MissingFile) <==> d.uploadChoice == UploadNow && !d.hasFile
    ensures r == Refused(MissingUploadBy) <==> d.uploadChoice == UploadLater && d.uploadBy.None?
    ensures r == Refused(UploadByNotBeforeEvent) <==>
              d.uploadBy.Some? && d.uploadBy.value >= eventDate
              && !(d.uploadChoice == UploadNow && !d.hasFile)
    ensures r == Crashed <==> UploadChecksPass(d, eventDate) && d.seats.None?
    ensures r == Refused(SeatCountMismatch) <==>
              UploadChecksPass(d, eventDate) && d.seats.Some? && d.numberOfTickets != Some(|d.seats.value|)
    ensures r == Passed <==>
              UploadChecksPass(d, eventDate) && d.seats.Some? && d.numberOfTickets == Some(|d.seats.value|)
  {
    if d.uploadChoice == UploadNow && !d.hasFile then Refused(MissingFile)
    else if d.uploadChoice == UploadLater && d.uploadBy.None? then Refused(MissingUploadBy)
    else if d.uploadBy.Some? && d.uploadBy.value >= eventDate then Refused(UploadByNotBeforeEvent)
    else if d.seats.None? then Crashed
    else if d.numberOfTickets != Some(|d.seats.value|) then Refused(SeatCountMismatch)
    else Passed
  }

  /** `get_total_price`: the quantity times the buyer price that matches the
      SELLER's account type. */
  function TotalPrice(t: Ticket, sellerType: UserType): (r: real)
    ensures sellerType == Reseller ==> r == t.numberOfTickets as real * t.priceForReseller
    ensures sellerType == Normal ==> r == t.numberOfTickets as real * t.priceForNormal
    ensures t.numberOfTickets == 0 ==> r == 0.0
  {
    t.numberOfTickets as real * (if sellerType == Reseller then t.priceForReseller else t.priceForNormal)
  }

  /** The price per ticket a buyer of type `buyerType` is charged. */
  function PricePerTicket(t: Ticket, buyerType: UserType): real {
    if buyerType == Reseller then t.priceForReseller else t.priceForNormal
  }

  datatype OrderStatus = Pending | Completed | Failed

  /** A purchase: a snapshot of the listing at the time of ordering. */
  datatype Order = Order(
    eventName: string,
    eventDate: Date,
    eventTime: Time,
    numberOfTickets: nat,
    ticketRef: TicketKey,
    ticketSection: string,
    ticketRow: string,
    ticketSeats: seq<string>,
    ticketFaceValue: real,
    ticketUploadType: TicketType,
    ticketBenefits: seq<string>,
    ticketSellPrice: real,
    buyer: UserKey,
    amount: real,
    gatewayOrderId: string,
    checkoutUrl: string,
    status: OrderStatus,
    ticketUploaded: bool,
    paidToReseller: bool)

  /** The payout record of a completed order; at most one per order. */
  datatype Sale = Sale(order: OrderKey, seller: UserKey, amount: real, payoutDate: Option<Date>)
}
