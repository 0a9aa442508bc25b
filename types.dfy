/** The records the job tracker keeps in its store, and the JavaScript truthiness
    tests the pages apply to their optional fields. */
module Types {

  datatype Option<+T> = None | Some(value: T)

  /** A calendar day, counted from an arbitrary epoch. */
  type Day = int

  datatype JobStatus = Draft | Quoting | Quoted | Accepted | InProgress | Complete | Invoiced | Paid

  /** The enumeration in its declared order, as the status buttons list it. */
  const AllStatuses: seq<JobStatus> :=
    [Draft, Quoting, Quoted, Accepted, InProgress, Complete, Invoiced, Paid]

  /** The string the store and the pages use for a status. */
  function StatusName(s: JobStatus): string
  {
    match s
    case Draft => "draft"
    case Quoting => "quoting"
    case Quoted => "quoted"
    case Accepted => "accepted"
    case InProgress => "in_progress"
    case Complete => "complete"
    case Invoiced => "invoiced"
    case Paid => "paid"
  }

  /** The status a string names, if any. */
  function ParseStatus(name: string): (r: Option<JobStatus>)
    ensures r.Some? ==> StatusName(r.value) == name
  {
    if name == "draft" then Some(Draft)
    else if name == "quoting" then Some(Quoting)
    else if name == "quoted" then Some(Quoted)
    else if name == "accepted" then Some(Accepted)
    else if name == "in_progress" then Some(InProgress)
    else if name == "complete" then Some(Complete)
    else if name == "invoiced" then Some(Invoiced)
    else if name == "paid" then Some(Paid)
    else None
  }

  /** Every status is in the status list (JobsList.ListedOnce: exactly once), and its name
      reads back as itself. */
  lemma StatusNameRoundTrip(s: JobStatus)
    ensures ParseStatus(StatusName(s)) == Some(s)
    ensures s in AllStatuses
  {
  }

  datatype Customer = Customer(
    id: string,
    createdAt: string,
    name: string,
    phone: Option<string>,
    email: Option<string>,
    address: Option<string>,
    notes: Option<string>)

  datatype Job = Job(
    id: string,
    createdAt: string,
    customerId: string,
    title: string,
    description: Option<string>,
    notes: Option<string>,
    status: JobStatus,
    // dates
    quoteDate: Option<Day>,
    quoteValidUntil: Option<Day>,
    startDate: Option<Day>,
    endDate: Option<Day>,
    invoiceDate: Option<Day>,
    paidDate: Option<Day>,
    // location
    jobAddress: Option<string>,
    // materials
    materialsNotes: Option<string>,
    materialsCost: Option<real>,
    // labour
    labourDays: Option<real>,
    labourDayRate: Option<real>,
    labourCost: Option<real>,
    // other
    otherCosts: Option<real>,
    otherCostsNotes: Option<string>,
    // totals, as of the last save
    subtotal: Option<real>,
    vatAmount: Option<real>,
    total: Option<real>,
    // invoice specific
    invoiceNumber: Option<int>,
    paymentReference: Option<string>)

  datatype Settings = Settings(
    id: string,
    userId: string,
    // business details
    businessName: Option<string>,
    contactName: Option<string>,
    phone: Option<string>,
    email: Option<string>,
    address: Option<string>,
    logoUrl: Option<string>,
    // financial
    defaultDayRate: Option<real>,
    vatRegistered: bool,
    vatNumber: Option<string>,
    bankDetails: Option<string>,
    // message templates
    quoteMessageTemplate: Option<string>,
    invoiceMessageTemplate: Option<string>,
    // quote settings
    defaultQuoteValidityDays: int)

  /** A string field is truthy when it is present and not empty. */
  predicate Present(s: Option<string>)
  {
    s.Some? && s.value != ""
  }

  /** A number field is truthy when it is present and not zero. */
  predicate NonZero(n: Option<real>)
  {
    n.Some? && n.value != 0.0
  }

  /** `n && n > 0`: a number field that is present and positive. */
  predicate Positive(n: Option<real>)
  {
    n.Some? && n.value > 0.0
  }

  /** `n || 0`: a missing number reads as zero. */
  function OrZero(n: Option<real>): (r: real)
    ensures n.None? ==> r == 0.0
    ensures n.Some? ==> r == n.value
  {
    if n.Some? then n.value else 0.0
  }

  /** An integer field (the invoice number) is truthy when present and not zero. */
  predicate IntPresent(n: Option<int>)
  {
    n.Some? && n.value != 0
  }

  /** Positive amounts are exactly the truthy ones that exceed zero. */
  lemma PositiveIsTruthy(n: Option<real>)
    ensures Positive(n) <==> NonZero(n) && n.value > 0.0
  {
  }
}
