/** The job page: the dates a job is given before its quote is drawn, the status
    buttons, the badge colours, the date cells and the names of the downloaded files. */
module JobDetail {
  import opened Types
  import opened Strings
  import opened PdfGenerator
  import PdfComposer

  /** A quote stays valid for thirty days from the day it is drawn. */
  const QuoteValidDays: int := 30

  /** The `updates` object sent to the store before a quote is drawn. */
  datatype JobPatch = JobPatch(quoteDate: Day, quoteValidUntil: Day, status: Option<JobStatus>)

  /** `['draft', 'quoting'].includes(status)`: the job has not been quoted yet. */
  predicate Unquoted(s: JobStatus)
  {
    s == Draft || s == Quoting
  }

  /** The guard on the pre-quote update: no quote date yet, or not quoted yet. */
  predicate NeedsQuoteDates(job: Job)
    // an undated job, or a draft or quoting one, is due; a dated job past quoting is not
    ensures job.quoteDate.None? ==> NeedsQuoteDates(job)
    ensures job.status == Draft || job.status == Quoting ==> NeedsQuoteDates(job)
    ensures job.quoteDate.Some? && job.status != Draft && job.status != Quoting ==> !NeedsQuoteDates(job)
  {
    job.quoteDate.None? || Unquoted(job.status)
  }

  /** The store's `update(updates)` on a row: the patched columns, nothing else. */
  function ApplyPatch(row: Job, p: JobPatch): (r: Job)
    ensures r.quoteDate == Some(p.quoteDate) && r.quoteValidUntil == Some(p.quoteValidUntil)
    ensures p.status.Some? ==> r.status == p.status.value
    ensures p.status.None? ==> r.status == row.status
    ensures SameRecord(row, r)
  {
    row.(quoteDate := Some(p.quoteDate), quoteValidUntil := Some(p.quoteValidUntil),
         status := if p.status.Some? then p.status.value else row.status)
  }

  /** Two rows agree on every column but the status and the two quote dates. */
  predicate SameRecord(a: Job, b: Job)
  {
    && a.id == b.id && a.createdAt == b.createdAt && a.customerId == b.customerId
    && a.title == b.title && a.description == b.description && a.notes == b.notes
    && a.startDate == b.startDate && a.endDate == b.endDate
    && a.invoiceDate == b.invoiceDate && a.paidDate == b.paidDate
    && a.jobAddress == b.jobAddress
    && a.materialsNotes == b.materialsNotes && a.materialsCost == b.materialsCost
    && a.labourDays == b.labourDays && a.labourDayRate == b.labourDayRate && a.labourCost == b.labourCost
    && a.otherCosts == b.otherCosts && a.otherCostsNotes == b.otherCostsNotes
    && a.subtotal == b.subtotal && a.vatAmount == b.vatAmount && a.total == b.total
    && a.invoiceNumber == b.invoiceNumber && a.paymentReference == b.paymentReference
  }

  /** The update `handleGenerateQuote` sends on day `now`, when its guard holds. */
  function QuoteUpdates(job: Job, now: Day): (u: Option<JobPatch>)
    ensures u.Some? <==> NeedsQuoteDates(job)
    // the quote date is kept when there is one and is today otherwise
    ensures u.Some? && job.quoteDate.Some? ==> u.value.quoteDate == job.quoteDate.value
    ensures u.Some? && job.quoteDate.None? ==> u.value.quoteDate == now
    // valid-until counts from today, not from the quote date
    ensures u.Some? ==> u.value.quoteValidUntil == now + QuoteValidDays
    // the status is set only for draft and quoting jobs, and then to quoted
    ensures u.Some? ==> (u.value.status.Some? <==> Unquoted(job.status))
    ensures u.Some? && u.value.status.Some? ==> u.value.status.value == Quoted
  {
    if NeedsQuoteDates(job) then
      var quoteDate := if job.quoteDate.Some? then job.quoteDate.value else now;
      Some(JobPatch(quoteDate, now + QuoteValidDays, if Unquoted(job.status) then Some(Quoted) else None))
    else None
  }

  /** The row as the store holds it once the pre-quote update (if any) went through. */
  function QuotedJob(job: Job, now: Day): (r: Job)
    // the row changes exactly when the guard holds
    ensures r == job <==> !NeedsQuoteDates(job)
    // an existing quote date is kept, a missing one becomes today
    ensures job.quoteDate.Some? ==> r.quoteDate == job.quoteDate
    ensures job.quoteDate.None? ==> r.quoteDate == Some(now)
    // the validity is restarted from today, whatever it was
    ensures NeedsQuoteDates(job) ==> r.quoteValidUntil == Some(now + QuoteValidDays)
    // draft and quoting jobs become quoted, every other status stays
    ensures Unquoted(job.status) ==> r.status == Quoted
    ensures !Unquoted(job.status) ==> r.status == job.status
    ensures SameRecord(job, r)
    // a quoted row needs no second update
    ensures !NeedsQuoteDates(r)
  {
    match QuoteUpdates(job, now)
    case None => job
    case Some(p) => ApplyPatch(job, p)
  }

  /** Drawing the quote again, on any later day, leaves the row as the first quote left it. */
  lemma QuoteDatesSettle(job: Job, now: Day, later: Day)
    ensures QuotedJob(QuotedJob(job, now), later) == QuotedJob(job, now)
  {
  }

  /** The part of a file name that names the job: its invoice number when that is
      truthy, otherwise its id. */
  function DocumentKey(job: Job): (key: string)
    ensures !IntPresent(job.invoiceNumber) ==> key == job.id
  {
    if IntPresent(job.invoiceNumber) then IntToString(job.invoiceNumber.value) else job.id
  }

  /** A truthy invoice number reads back from the key. */
  lemma DocumentKeyReadsBack(job: Job)
    requires IntPresent(job.invoiceNumber)
    ensures ParseInt(DocumentKey(job)) == job.invoiceNumber.value
  {
    IntToStringRoundTrip(job.invoiceNumber.value);
  }

  /** `<kind>-<invoice number or id>-<customer name>.pdf`. */
  function DownloadName(kind: string, job: Job, customer: Customer): (f: string)
    ensures |f| == |kind| + |DocumentKey(job)| + |customer.name| + 6
    ensures f[..|kind| + 1] == kind + "-"
    ensures f[|kind| + 1..|kind| + 1 + |DocumentKey(job)|] == DocumentKey(job)
    ensures f[|f| - |customer.name| - 5..] == "-" + customer.name + ".pdf"
  {
    NameParts(kind, DocumentKey(job), customer.name);
    kind + "-" + DocumentKey(job) + "-" + customer.name + ".pdf"
  }

  lemma NameParts(kind: string, key: string, name: string)
    ensures var f := kind + "-" + key + "-" + name + ".pdf";
      && f[..|kind| + 1] == kind + "-"
      && f[|kind| + 1..|kind| + 1 + |key|] == key
      && f[|f| - |name| - 5..] == "-" + name + ".pdf"
  {
    var f := kind + "-" + key + "-" + name + ".pdf";
    assert f[..|kind| + 1] == kind + "-";
    assert f[|kind| + 1..|kind| + 1 + |key|] == key;
    assert f[|f| - |name| - 5..] == "-" + name + ".pdf";
  }

  function QuoteFilename(job: Job, customer: Customer): (f: string)
    ensures |f| == |DocumentKey(job)| + |customer.name| + 11
    ensures f[..6] == "Quote-"
    ensures f[6..6 + |DocumentKey(job)|] == DocumentKey(job)
    ensures f[|f| - |customer.name| - 5..] == "-" + customer.name + ".pdf"
  {
    DownloadName("Quote", job, customer)
  }

  function InvoiceFilename(job: Job, customer: Customer): (f: string)
    ensures |f| == |DocumentKey(job)| + |customer.name| + 13
    ensures f[..8] == "Invoice-"
    ensures f[8..8 + |DocumentKey(job)|] == DocumentKey(job)
    ensures f[|f| - |customer.name| - 5..] == "-" + customer.name + ".pdf"
  {
    DownloadName("Invoice", job, customer)
  }

  /** For one customer, the file name gives back the part that names the job. */
  lemma {:induction false} DownloadNameKey(kind: string, a: Job, b: Job, customer: Customer)
    requires DownloadName(kind, a, customer) == DownloadName(kind, b, customer)
    ensures DocumentKey(a) == DocumentKey(b)
  {
    var f := DownloadName(kind, a, customer);
    assert |DocumentKey(a)| == |DocumentKey(b)|;
    assert DocumentKey(a) == f[|kind| + 1..|kind| + 1 + |DocumentKey(a)|];
  }

  /** Two invoiced jobs of one customer download under different names unless
      they carry the same invoice number. */
  lemma QuoteFilenameNamesInvoice(a: Job, b: Job, customer: Customer)
    requires IntPresent(a.invoiceNumber) && IntPresent(b.invoiceNumber)
    ensures QuoteFilename(a, customer) == QuoteFilename(b, customer) <==> a.invoiceNumber == b.invoiceNumber
  {
    if QuoteFilename(a, customer) == QuoteFilename(b, customer) {
      DownloadNameKey("Quote", a, b, customer);
      IntToStringInjective(a.invoiceNumber.value, b.invoiceNumber.value);
    }
  }

  /** The same holds for invoices, and the id stands in when there is no number. */
  lemma InvoiceFilenameKey(a: Job, b: Job, customer: Customer)
    ensures InvoiceFilename(a, customer) == InvoiceFilename(b, customer) <==> DocumentKey(a) == DocumentKey(b)
    ensures !IntPresent(a.invoiceNumber) ==> DocumentKey(a) == a.id
  {
    if InvoiceFilename(a, customer) == InvoiceFilename(b, customer) {
      DownloadNameKey("Invoice", a, b, customer);
    }
  }

  /** A quote file and an invoice file never share a name. */
  lemma QuoteAndInvoiceNamesDiffer(a: Job, b: Job, customer: Customer)
    ensures QuoteFilename(a, customer) != InvoiceFilename(b, customer)
  {
    assert QuoteFilename(a, customer)[0] == 'Q';
    assert InvoiceFilename(b, customer)[0] == 'I';
  }

  /** The badge classes of the known statuses. */
  function ColorOf(s: JobStatus): (c: string)
    // accepted and paid are the two green badges, draft the gray one
    ensures c == "bg-green-100 text-green-700" <==> s == Accepted || s == Paid
    ensures c == "bg-gray-100 text-gray-700" <==> s == Draft
  {
    match s
    case Draft => "bg-gray-100 text-gray-700"
    case Quoting => "bg-blue-100 text-blue-700"
    case Quoted => "bg-purple-100 text-purple-700"
    case Accepted => "bg-green-100 text-green-700"
    case InProgress => "bg-yellow-100 text-yellow-700"
    case Complete => "bg-teal-100 text-teal-700"
    case Invoiced => "bg-orange-100 text-orange-700"
    case Paid => "bg-green-100 text-green-700"
  }

  /** The fallback badge, the same gray as a draft. */
  const DefaultColor: string := "bg-gray-100 text-gray-700"

  /** `getStatusColor(status)`: the class of a status name, gray for anything else. */
  function StatusColor(status: string): (c: string)
    ensures ParseStatus(status).None? ==> c == DefaultColor
    ensures ParseStatus(status).Some? ==> c == ColorOf(ParseStatus(status).value)
  {
    match ParseStatus(status)
    case Some(s) => ColorOf(s)
    case None => DefaultColor
  }

  /** Every status name gets its own class; only accepted and paid share one, and
      only a draft looks like an unknown status. */
  lemma StatusColors(s: JobStatus, t: JobStatus, name: string)
    ensures StatusColor(StatusName(s)) == ColorOf(s)
    ensures ColorOf(s) == ColorOf(t) <==> s == t || (s in {Accepted, Paid} && t in {Accepted, Paid})
    ensures ColorOf(s) == DefaultColor <==> s == Draft
    ensures ParseStatus(name).None? ==> StatusColor(name) == ColorOf(Draft)
  {
    StatusNameRoundTrip(s);
  }

  /** `formatDate`: a dash for a missing date, otherwise the locale's rendering. */
  function FormatDate(date: Option<Day>, localeDate: Day -> string): (s: string)
    ensures date.None? ==> s == "-"
    ensures date.Some? ==> s == localeDate(date.value)
  {
    if date.None? then "-" else localeDate(date.value)
  }

  /** The six cells of the Dates card, in the page's order. */
  function DateCells(job: Job, localeDate: Day -> string): (cells: seq<string>)
    ensures |cells| == 6
    // in order: quote date, valid until, start, end, invoice date, paid date
    ensures job.quoteDate.None? ==> cells[0] == "-"
    ensures job.quoteDate.Some? ==> cells[0] == localeDate(job.quoteDate.value)
    ensures job.quoteValidUntil.None? ==> cells[1] == "-"
    ensures job.quoteValidUntil.Some? ==> cells[1] == localeDate(job.quoteValidUntil.value)
    ensures job.startDate.None? ==> cells[2] == "-"
    ensures job.startDate.Some? ==> cells[2] == localeDate(job.startDate.value)
    ensures job.endDate.None? ==> cells[3] == "-"
    ensures job.endDate.Some? ==> cells[3] == localeDate(job.endDate.value)
    ensures job.invoiceDate.None? ==> cells[4] == "-"
    ensures job.invoiceDate.Some? ==> cells[4] == localeDate(job.invoiceDate.value)
    ensures job.paidDate.None? ==> cells[5] == "-"
    ensures job.paidDate.Some? ==> cells[5] == localeDate(job.paidDate.value)
  {
    [FormatDate(job.quoteDate, localeDate), FormatDate(job.quoteValidUntil, localeDate),
     FormatDate(job.startDate, localeDate), FormatDate(job.endDate, localeDate),
     FormatDate(job.invoiceDate, localeDate), FormatDate(job.paidDate, localeDate)]
  }

  /** The job held by the page, with its customer. */
  datatype JobWithCustomer = JobWithCustomer(job: Job, customer: Customer)

  /** What the store answers to an update. */
  datatype UpdateReply =
    | UpdateFailed   // the store reported an error
    | NoRow          // no error, and no row came back
    | Updated        // the updated row came back

  /** What a click on a download button led to. */
  datatype Outcome =
    | Skipped                                     // no job or no settings yet
    | Failed                                      // an error, reported by an alert
    | Downloaded(doc: seq<Op>, filename: string)

  /** The state of the job page. */
  class JobDetailPage {
    /** The `id` route parameter. */
    const routeId: string
    var loaded: Option<JobWithCustomer>
    var settings: Option<Settings>

    constructor (routeId: string)
      ensures this.routeId == routeId && loaded == None && settings == None
    {
      this.routeId := routeId;
      loaded := None;
      settings := None;
    }

    /** `loadJob`, given the job row and the settings row the store returned. */
    method Load(row: Option<JobWithCustomer>, settingsRow: Option<Settings>)
      modifies this
      ensures loaded == row && settings == settingsRow
    {
      loaded := row;
      settings := settingsRow;
    }

    /** `handleGenerateQuote`: give the job its quote dates when its guard holds,
        then draw the quote of the job as it now stands.  The store is taken to
        answer `Updated` with its row patched by the update. */
    method GenerateQuote(now: Day, reply: UpdateReply, logoLoaded: bool, lineCount: LineCount)
      returns (outcome: Outcome)
      modifies this
      ensures settings == old(settings)
      ensures old(loaded).None? || old(settings).None? ==> outcome == Skipped && loaded == old(loaded)
      ensures old(loaded).Some? && old(settings).Some? ==>
        var job := old(loaded).value.job;
        var customer := old(loaded).value.customer;
        var s := old(settings).value;
        if !NeedsQuoteDates(job) || reply == NoRow then
          loaded == old(loaded)
          && outcome == Downloaded(QuoteDoc(job, customer, s, logoLoaded, lineCount).ops, QuoteFilename(job, customer))
        else if reply == UpdateFailed then
          loaded == old(loaded) && outcome == Failed
        else
          var quoted := QuotedJob(job, now);
          loaded == Some(JobWithCustomer(quoted, customer))
          && outcome == Downloaded(QuoteDoc(quoted, customer, s, logoLoaded, lineCount).ops, QuoteFilename(quoted, customer))
    {
      if loaded.None? || settings.None? {
        return Skipped;
      }
      var job := loaded.value.job;
      var customer := loaded.value.customer;
      var updatedJob, failed := UpdateQuoteDates(now, reply);
      if failed {
        return Failed;
      }
      var pdf := PdfComposer.GenerateQuote(updatedJob, customer, settings.value, logoLoaded, lineCount);
      outcome := Downloaded(pdf.ops, QuoteFilename(updatedJob, customer));
    }

    /** The first half of `handleGenerateQuote`: when the guard holds, send the
        update and, once the store answers with the row, hold the quoted job. */
    method UpdateQuoteDates(now: Day, reply: UpdateReply) returns (updatedJob: Job, failed: bool)
      requires loaded.Some?
      modifies this
      ensures settings == old(settings)
      ensures var job := old(loaded).value.job;
        && failed == (NeedsQuoteDates(job) && reply == UpdateFailed)
        && (if NeedsQuoteDates(job) && reply == Updated then
              updatedJob == QuotedJob(job, now) && loaded == Some(old(loaded).value.(job := updatedJob))
            else
              updatedJob == job && loaded == old(loaded))
    {
      var job := loaded.value.job;
      updatedJob := job;
      failed := false;
      if job.quoteDate.None? || Unquoted(job.status) {
        var quoteDate := if job.quoteDate.Some? then job.quoteDate.value else now;
        var validUntil := now + QuoteValidDays;
        var updates := JobPatch(quoteDate, validUntil, None);
        if Unquoted(job.status) {
          updates := updates.(status := Some(Quoted));
        }
        assert QuoteUpdates(job, now) == Some(updates);
        if reply == UpdateFailed {
          failed := true;
        } else if reply == Updated {
          updatedJob := ApplyPatch(job, updates);
          loaded := Some(loaded.value.(job := updatedJob));
        }
      }
    }

    /** `handleGenerateInvoice`: draw the invoice of the job as it stands; the job is
        not touched. */
    method GenerateInvoice(logoLoaded: bool, lineCount: LineCount) returns (outcome: Outcome)
      ensures loaded.None? || settings.None? ==> outcome == Skipped
      ensures loaded.Some? && settings.Some? ==>
        var job := loaded.value.job;
        var customer := loaded.value.customer;
        outcome == Downloaded(InvoiceDoc(job, customer, settings.value, logoLoaded, lineCount).ops,
                              InvoiceFilename(job, customer))
    {
      if loaded.None? || settings.None? {
        return Skipped;
      }
      var job := loaded.value.job;
      var customer := loaded.value.customer;
      var pdf := PdfComposer.GenerateInvoice(job, customer, settings.value, logoLoaded, lineCount);
      outcome := Downloaded(pdf.ops, InvoiceFilename(job, customer));
    }

    /** `handleStatusChange`: once the store accepts the new status, the page's job
        takes it and keeps everything else. */
    method ChangeStatus(newStatus: JobStatus, stored: bool)
      modifies this
      ensures settings == old(settings)
      ensures routeId == "" || !stored ==> loaded == old(loaded)
      ensures loaded.Some? <==> old(loaded).Some?
      ensures routeId != "" && stored && old(loaded).Some? ==>
        && loaded.value.customer == old(loaded).value.customer
        && loaded.value.job == WithStatus(old(loaded).value.job, newStatus)
    {
      if routeId == "" {
        return;
      }
      if !stored {
        return;
      }
      if loaded.Some? {
        loaded := Some(loaded.value.(job := WithStatus(loaded.value.job, newStatus)));
      }
    }
  }

  /** `{ ...prev, status: newStatus }`. */
  function WithStatus(job: Job, s: JobStatus): (r: Job)
    ensures r.status == s
    ensures r.quoteDate == job.quoteDate && r.quoteValidUntil == job.quoteValidUntil
    ensures SameRecord(job, r)
  {
    job.(status := s)
  }

  /** Setting a job back to draft by hand makes the next quote restart its validity
      and mark it quoted again, while its first quote date stays. */
  lemma RequoteAfterReset(job: Job, now: Day)
    requires job.quoteDate.Some?
    ensures var r := QuotedJob(WithStatus(job, Draft), now);
      r.status == Quoted && r.quoteDate == job.quoteDate && r.quoteValidUntil == Some(now + QuoteValidDays)
  {
  }
}
