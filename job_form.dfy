/** The job editor: its form state, the live cost breakdown, the record written on
    save, the form rebuilt on load, the two one-shot defaults, and the quick-add of
    a customer. */
module JobForm {
  import opened Types

  datatype LabourType = Days | Fixed

  /** A numeric text box, described by what `parseFloat` makes of its text:
      nothing typed, text that is not a number, or text that reads as `value`. */
  datatype NumText = Blank | Unparseable | Numeral(value: real)

  /** `parseFloat(text)`; None is NaN. */
  function ParseFloat(t: NumText): Option<real>
  {
    if t.Numeral? then Some(t.value) else None
  }

  /** `parseFloat(text) || 0`: NaN and zero both give zero. */
  function ParseOrZero(t: NumText): (v: real)
    ensures v != 0.0 ==> ParseFloat(t) == Some(v)
    ensures v == 0.0 <==> ParseFloat(t).None? || ParseFloat(t) == Some(0.0)
  {
    match ParseFloat(t)
    case Some(v) => v
    case None => 0.0
  }

  /** `parseFloat(text) || null`: NaN and zero both give null. */
  function ParseOrNull(t: NumText): (r: Option<real>)
    ensures r.Some? ==> ParseFloat(t) == r && r.value != 0.0
    ensures r.None? <==> ParseFloat(t).None? || ParseFloat(t) == Some(0.0)
  {
    match ParseFloat(t)
    case Some(v) => if v != 0.0 then Some(v) else None
    case None => None
  }

  /** `n?.toString() || ''`: a stored number back into a text box. */
  function NumberText(n: Option<real>): (t: NumText)
    ensures ParseFloat(t) == n
    ensures n.None? ==> t == Blank
  {
    if n.Some? then Numeral(n.value) else Blank
  }

  /** An empty or unparseable box counts as zero. */
  lemma BlankIsZero()
    ensures ParseOrZero(Blank) == 0.0 && ParseOrZero(Unparseable) == 0.0
    ensures ParseOrNull(Blank) == None && ParseOrNull(Unparseable) == None
  {
  }

  /** The two forgiving parses agree: null exactly when the amount is zero. */
  lemma ParseOrNullAgrees(t: NumText)
    ensures ParseOrNull(t) == None <==> ParseOrZero(t) == 0.0
    ensures ParseOrNull(t).Some? ==> ParseOrNull(t).value == ParseOrZero(t)
  {
  }

  /** A stored number shown in a box reads back as the same amount. */
  lemma NumberTextRoundTrip(n: Option<real>)
    ensures ParseFloat(NumberText(n)) == n
    ensures ParseOrZero(NumberText(n)) == OrZero(n)
  {
  }

  /** The editor's form. Date boxes hold a day or nothing (the empty string). */
  datatype FormData = FormData(
    customerId: string,
    title: string,
    description: string,
    notes: string,
    status: JobStatus,
    jobAddress: string,
    // dates
    quoteDate: Option<Day>,
    quoteValidUntil: Option<Day>,
    startDate: Option<Day>,
    endDate: Option<Day>,
    invoiceDate: Option<Day>,
    paidDate: Option<Day>,
    // materials
    materialsNotes: string,
    materialsCost: NumText,
    // labour
    labourType: LabourType,
    labourDays: NumText,
    labourDayRate: NumText,
    labourFixedCost: NumText,
    // other
    otherCosts: NumText,
    otherCostsNotes: string)

  /** The form of a new job; the customer may be preselected by the page address. */
  function InitialForm(preselectedCustomer: Option<string>): (f: FormData)
    ensures f.labourType == Days && f.status == Draft
    ensures f.customerId == (if preselectedCustomer.Some? then preselectedCustomer.value else "")
  {
    FormData(
      if preselectedCustomer.Some? then preselectedCustomer.value else "",
      "", "", "", Draft, "",
      None, None, None, None, None, None,
      "", Blank,
      Days, Blank, Blank, Blank,
      Blank, "")
  }

  // ---------------------------------------------------------------- costs

  /** The single VAT rate the business charges. */
  const VatRate: real := 0.20

  datatype Breakdown = Breakdown(
    materials: real, labour: real, other: real,
    subtotal: real, vat: real, total: real)

  predicate VatRegistered(settings: Option<Settings>)
  {
    settings.Some? && settings.value.vatRegistered
  }

  /** The labour amount of the mode in use. */
  function LabourTotal(f: FormData): (r: real)
    // days mode multiplies the two day boxes, fixed mode takes the fixed box
    ensures f.labourType == Days ==> r == ParseOrZero(f.labourDays) * ParseOrZero(f.labourDayRate)
    ensures f.labourType != Days ==> r == ParseOrZero(f.labourFixedCost)
    // a blank box in use gives no labour, and non-negative boxes never give less
    ensures f.labourType == Days && (f.labourDays == Blank || f.labourDayRate == Blank) ==> r == 0.0
    ensures f.labourType != Days && f.labourFixedCost == Blank ==> r == 0.0
    ensures (ParseOrZero(f.labourDays) >= 0.0 && ParseOrZero(f.labourDayRate) >= 0.0
             && ParseOrZero(f.labourFixedCost) >= 0.0) ==> r >= 0.0
  {
    if f.labourType == Days then ParseOrZero(f.labourDays) * ParseOrZero(f.labourDayRate)
    else ParseOrZero(f.labourFixedCost)
  }

  /** The live breakdown under the form. */
  function ComputeBreakdown(f: FormData, settings: Option<Settings>): (b: Breakdown)
    ensures b.materials == ParseOrZero(f.materialsCost) && b.other == ParseOrZero(f.otherCosts)
    ensures f.labourType == Days ==> b.labour == ParseOrZero(f.labourDays) * ParseOrZero(f.labourDayRate)
    ensures f.labourType == Fixed ==> b.labour == ParseOrZero(f.labourFixedCost)
    ensures b.subtotal == b.materials + b.labour + b.other
    ensures b.vat == if VatRegistered(settings) then VatRate * b.subtotal else 0.0
    ensures b.total == b.subtotal + b.vat
  {
    var materials := ParseOrZero(f.materialsCost);
    var labour := LabourTotal(f);
    var other := ParseOrZero(f.otherCosts);
    var subtotal := materials + labour + other;
    var vat := if VatRegistered(settings) then subtotal * VatRate else 0.0;
    Breakdown(materials, labour, other, subtotal, vat, subtotal + vat)
  }

  /** The boxes of the mode not in use do not affect the breakdown. */
  lemma UnusedLabourFieldsIgnored(f: FormData, settings: Option<Settings>, days: NumText, rate: NumText, fixed: NumText)
    ensures f.labourType == Days ==>
      ComputeBreakdown(f.(labourFixedCost := fixed), settings) == ComputeBreakdown(f, settings)
    ensures f.labourType == Fixed ==>
      ComputeBreakdown(f.(labourDays := days, labourDayRate := rate), settings) == ComputeBreakdown(f, settings)
  {
  }

  /** With non-negative amounts, VAT and total are non-negative and the total is
      the subtotal grossed up by the rate when registered, the subtotal otherwise. */
  lemma NonNegativeAmounts(f: FormData, settings: Option<Settings>)
    requires ParseOrZero(f.materialsCost) >= 0.0 && ParseOrZero(f.otherCosts) >= 0.0
    requires ParseOrZero(f.labourDays) >= 0.0 && ParseOrZero(f.labourDayRate) >= 0.0
    requires ParseOrZero(f.labourFixedCost) >= 0.0
    ensures var b := ComputeBreakdown(f, settings);
      && 0.0 <= b.subtotal <= b.total
      && 0.0 <= b.vat
      && b.total == (if VatRegistered(settings) then 1.2 * b.subtotal else b.subtotal)
  {
    var d, r := ParseOrZero(f.labourDays), ParseOrZero(f.labourDayRate);
    assert 0.0 <= d * r;
  }

  /** Materials 100, two days at 150, other costs 50, VAT registered. */
  lemma WorkedExample(f: FormData, s: Settings)
    requires f.materialsCost == Numeral(100.0) && f.otherCosts == Numeral(50.0)
    requires f.labourType == Days && f.labourDays == Numeral(2.0) && f.labourDayRate == Numeral(150.0)
    requires s.vatRegistered
    ensures ComputeBreakdown(f, Some(s)) == Breakdown(100.0, 300.0, 50.0, 450.0, 90.0, 540.0)
  {
  }

  // ---------------------------------------------------------------- save

  /** The record `handleSubmit` sends to the store. The form's labour mode and
      fixed-cost box have no column and are not part of it. */
  datatype Payload = Payload(
    userId: string,
    customerId: string,
    title: string,
    description: string,
    notes: string,
    status: JobStatus,
    jobAddress: string,
    quoteDate: Option<Day>,
    quoteValidUntil: Option<Day>,
    startDate: Option<Day>,
    endDate: Option<Day>,
    invoiceDate: Option<Day>,
    paidDate: Option<Day>,
    materialsNotes: string,
    materialsCost: Option<real>,
    labourDays: Option<real>,
    labourDayRate: Option<real>,
    labourCost: Option<real>,
    otherCosts: Option<real>,
    otherCostsNotes: string,
    subtotal: real,
    vatAmount: real,
    total: real)

  /** `jobData`: zero or unparseable amounts become null, the unused labour mode is
      cleared, empty dates become null and the computed totals are stored. */
  function SavePayload(f: FormData, settings: Option<Settings>, userId: string): (p: Payload)
    ensures f.labourType == Fixed ==> p.labourDays == None && p.labourDayRate == None
    ensures f.labourType == Days ==> p.labourDays == ParseOrNull(f.labourDays) && p.labourDayRate == ParseOrNull(f.labourDayRate)
    ensures p.materialsCost == None <==> ParseOrZero(f.materialsCost) == 0.0
    ensures p.otherCosts == None <==> ParseOrZero(f.otherCosts) == 0.0
    ensures p.labourCost == None <==> LabourTotal(f) == 0.0
    ensures p.materialsCost.Some? ==> p.materialsCost.value == ParseOrZero(f.materialsCost)
    ensures p.otherCosts.Some? ==> p.otherCosts.value == ParseOrZero(f.otherCosts)
    ensures p.labourCost.Some? ==> p.labourCost.value == LabourTotal(f)
    ensures p.quoteDate == f.quoteDate && p.quoteValidUntil == f.quoteValidUntil
    ensures p.startDate == f.startDate && p.endDate == f.endDate
    ensures p.invoiceDate == f.invoiceDate && p.paidDate == f.paidDate
    ensures var b := ComputeBreakdown(f, settings);
      p.subtotal == b.subtotal && p.vatAmount == b.vat && p.total == b.total
  {
    var b := ComputeBreakdown(f, settings);
    var labour := LabourTotal(f);
    Payload(
      userId, f.customerId, f.title, f.description, f.notes, f.status, f.jobAddress,
      f.quoteDate, f.quoteValidUntil, f.startDate, f.endDate, f.invoiceDate, f.paidDate,
      f.materialsNotes,
      ParseOrNull(f.materialsCost),
      if f.labourType == Days then ParseOrNull(f.labourDays) else None,
      if f.labourType == Days then ParseOrNull(f.labourDayRate) else None,
      if labour != 0.0 then Some(labour) else None,
      ParseOrNull(f.otherCosts),
      f.otherCostsNotes,
      b.subtotal, b.vat, b.total)
  }

  /** The stored row after the store applies `update(payload)`: every column the
      payload carries is replaced, the others are kept. */
  function StoreUpdate(row: Job, p: Payload): (j: Job)
    ensures j.id == row.id && j.createdAt == row.createdAt
    ensures j.invoiceNumber == row.invoiceNumber && j.paymentReference == row.paymentReference
  {
    row.(
      customerId := p.customerId, title := p.title,
      description := Some(p.description), notes := Some(p.notes),
      status := p.status, jobAddress := Some(p.jobAddress),
      quoteDate := p.quoteDate, quoteValidUntil := p.quoteValidUntil,
      startDate := p.startDate, endDate := p.endDate,
      invoiceDate := p.invoiceDate, paidDate := p.paidDate,
      materialsNotes := Some(p.materialsNotes), materialsCost := p.materialsCost,
      labourDays := p.labourDays, labourDayRate := p.labourDayRate, labourCost := p.labourCost,
      otherCosts := p.otherCosts, otherCostsNotes := Some(p.otherCostsNotes),
      subtotal := Some(p.subtotal), vatAmount := Some(p.vatAmount), total := Some(p.total))
  }

  // ---------------------------------------------------------------- load

  function TextOr(s: Option<string>): string
  {
    if s.Some? then s.value else ""
  }

  /** `loadData` for an existing job: the labour mode is re-derived from which
      labour columns are truthy; the fixed-cost box is filled only in fixed mode. */
  function FormFromJob(j: Job): (f: FormData)
    ensures f.labourType == Days <==> NonZero(j.labourDays) && NonZero(j.labourDayRate)
    ensures f.labourFixedCost == if f.labourType == Fixed then NumberText(j.labourCost) else Blank
    ensures f.labourDays == NumberText(j.labourDays) && f.labourDayRate == NumberText(j.labourDayRate)
    ensures f.materialsCost == NumberText(j.materialsCost) && f.otherCosts == NumberText(j.otherCosts)
  {
    var labourType := if NonZero(j.labourDays) && NonZero(j.labourDayRate) then Days else Fixed;
    FormData(
      j.customerId, j.title, TextOr(j.description), TextOr(j.notes), j.status, TextOr(j.jobAddress),
      j.quoteDate, j.quoteValidUntil, j.startDate, j.endDate, j.invoiceDate, j.paidDate,
      TextOr(j.materialsNotes), NumberText(j.materialsCost),
      labourType, NumberText(j.labourDays), NumberText(j.labourDayRate),
      if labourType == Fixed then NumberText(j.labourCost) else Blank,
      NumberText(j.otherCosts), TextOr(j.otherCostsNotes))
  }

  /** Saving and reloading keeps the days mode and its values when both are non-zero. */
  lemma SaveLoadDaysMode(f: FormData, settings: Option<Settings>, userId: string, row: Job)
    requires f.labourType == Days
    requires ParseOrZero(f.labourDays) != 0.0 && ParseOrZero(f.labourDayRate) != 0.0
    ensures var g := FormFromJob(StoreUpdate(row, SavePayload(f, settings, userId)));
      && g.labourType == Days
      && ParseOrZero(g.labourDays) == ParseOrZero(f.labourDays)
      && ParseOrZero(g.labourDayRate) == ParseOrZero(f.labourDayRate)
  {
  }

  /** Saving and reloading keeps the fixed mode, with the stored labour cost as its amount. */
  lemma SaveLoadFixedMode(f: FormData, settings: Option<Settings>, userId: string, row: Job)
    requires f.labourType == Fixed
    ensures var saved := StoreUpdate(row, SavePayload(f, settings, userId));
      var g := FormFromJob(saved);
      && g.labourType == Fixed
      && ParseFloat(g.labourFixedCost) == saved.labourCost
      && ParseOrZero(g.labourFixedCost) == ParseOrZero(f.labourFixedCost)
      && g.labourDays == Blank && g.labourDayRate == Blank
  {
  }

  /** The reloaded form's labour amount is the one saved. */
  lemma SaveLoadKeepsLabour(f: FormData, settings: Option<Settings>, userId: string, row: Job)
    ensures LabourTotal(FormFromJob(StoreUpdate(row, SavePayload(f, settings, userId)))) == LabourTotal(f)
  {
    var saved := StoreUpdate(row, SavePayload(f, settings, userId));
    var g := FormFromJob(saved);
    var d, r := ParseOrZero(f.labourDays), ParseOrZero(f.labourDayRate);
    if f.labourType == Days && d != 0.0 && r != 0.0 {
      assert d * r != 0.0;
      assert saved.labourDays == Some(d) && saved.labourDayRate == Some(r);
      assert g.labourType == Days;
    } else {
      assert f.labourType == Days ==> d * r == 0.0;
      assert g.labourType == Fixed;
      assert g.labourFixedCost == NumberText(saved.labourCost);
    }
  }

  /** Whatever the form held, the reloaded form shows the same breakdown, and the
      totals stored with the row are that breakdown. */
  lemma {:induction false} SaveLoadKeepsBreakdown(f: FormData, settings: Option<Settings>, userId: string, row: Job)
    ensures var saved := StoreUpdate(row, SavePayload(f, settings, userId));
      var b := ComputeBreakdown(FormFromJob(saved), settings);
      && b == ComputeBreakdown(f, settings)
      && saved.subtotal == Some(b.subtotal) && saved.vatAmount == Some(b.vat) && saved.total == Some(b.total)
  {
    SaveLoadKeepsLabour(f, settings, userId, row);
  }

  /** Text boxes, status and dates come back as they were saved. */
  lemma SaveLoadKeepsFields(f: FormData, settings: Option<Settings>, userId: string, row: Job)
    ensures var g := FormFromJob(StoreUpdate(row, SavePayload(f, settings, userId)));
      && g.customerId == f.customerId && g.title == f.title && g.description == f.description
      && g.notes == f.notes && g.status == f.status && g.jobAddress == f.jobAddress
      && g.materialsNotes == f.materialsNotes && g.otherCostsNotes == f.otherCostsNotes
      && g.quoteDate == f.quoteDate && g.quoteValidUntil == f.quoteValidUntil
      && g.startDate == f.startDate && g.endDate == f.endDate
      && g.invoiceDate == f.invoiceDate && g.paidDate == f.paidDate
  {
  }

  // ---------------------------------------------------------------- defaults

  /** What `loadData` leaves in the form: the stored job when editing, otherwise the
      previous form with the default day rate filled in when the settings have one. */
  function LoadedForm(prev: FormData, isEditing: bool, settings: Option<Settings>, job: Option<Job>): (f: FormData)
    ensures isEditing && job.Some? ==> f == FormFromJob(job.value)
    ensures isEditing && job.None? ==> f == prev
    ensures !isEditing ==> f == prev.(labourDayRate := f.labourDayRate)
    ensures !isEditing && settings.Some? && NonZero(settings.value.defaultDayRate) ==>
      f.labourDayRate == Numeral(settings.value.defaultDayRate.value)
    ensures !isEditing && !(settings.Some? && NonZero(settings.value.defaultDayRate)) ==> f == prev
  {
    if isEditing then
      if job.Some? then FormFromJob(job.value) else prev
    else if settings.Some? && NonZero(settings.value.defaultDayRate) then
      prev.(labourDayRate := NumberText(settings.value.defaultDayRate))
    else prev
  }

  /** An edited job is never prefilled: its form does not depend on the settings. */
  lemma EditedJobNotPrefilled(prev: FormData, s1: Option<Settings>, s2: Option<Settings>, job: Option<Job>)
    ensures LoadedForm(prev, true, s1, job) == LoadedForm(prev, true, s2, job)
  {
  }

  predicate HasValidityDays(settings: Option<Settings>)
  {
    settings.Some? && settings.value.defaultQuoteValidityDays != 0
  }

  /** The valid-until effect: with a quote date set, no valid-until date yet and a
      truthy validity setting, valid-until becomes the quote date plus that many days. */
  function QuoteValidityDefault(f: FormData, settings: Option<Settings>): (r: FormData)
    ensures r == f.(quoteValidUntil := r.quoteValidUntil)
    ensures f.quoteValidUntil.Some? ==> r == f
    ensures r.quoteValidUntil.Some?
      <==> f.quoteValidUntil.Some? || (f.quoteDate.Some? && HasValidityDays(settings))
    ensures f.quoteValidUntil.None? && r.quoteValidUntil.Some? ==>
      r.quoteValidUntil.value == f.quoteDate.value + settings.value.defaultQuoteValidityDays
  {
    if f.quoteDate.Some? && f.quoteValidUntil.None? && HasValidityDays(settings) then
      f.(quoteValidUntil := Some(f.quoteDate.value + settings.value.defaultQuoteValidityDays))
    else f
  }

  /** Running the effect again changes nothing. */
  lemma QuoteValidityDefaultIdempotent(f: FormData, settings: Option<Settings>)
    ensures QuoteValidityDefault(QuoteValidityDefault(f, settings), settings) == QuoteValidityDefault(f, settings)
  {
  }

  /** The effect runs after a render in which the quote date changed. */
  function AfterRender(before: FormData, after: FormData, settings: Option<Settings>): (r: FormData)
    // only valid-until can change, and only after the quote date changed
    ensures r == after.(quoteValidUntil := r.quoteValidUntil)
    ensures after.quoteDate == before.quoteDate ==> r == after
    // a valid-until already there is never overwritten
    ensures after.quoteValidUntil.Some? ==> r == after
    // a new quote date with no valid-until gets the default validity
    ensures (after.quoteDate != before.quoteDate && after.quoteDate.Some? && after.quoteValidUntil.None?
             && HasValidityDays(settings)) ==>
      r.quoteValidUntil == Some(after.quoteDate.value + settings.value.defaultQuoteValidityDays)
  {
    if after.quoteDate != before.quoteDate then QuoteValidityDefault(after, settings) else after
  }

  // ---------------------------------------------------------------- customers

  /** `a.localeCompare(b) <= 0`, taken as the code-unit order on names. */
  predicate NameLe(a: string, b: string)
  {
    a == [] || (b != [] && (a[0] < b[0] || (a[0] == b[0] && NameLe(a[1..], b[1..]))))
  }

  lemma {:induction false} NameLeTotal(a: string, b: string)
    ensures NameLe(a, b) || NameLe(b, a)
  {
    if a != [] && b != [] && a[0] == b[0] {
      NameLeTotal(a[1..], b[1..]);
    }
  }

  lemma {:induction false} NameLeTransitive(a: string, b: string, c: string)
    requires NameLe(a, b) && NameLe(b, c)
    ensures NameLe(a, c)
  {
    if a != [] && a[0] == b[0] && b[0] == c[0] {
      NameLeTransitive(a[1..], b[1..], c[1..]);
    }
  }

  ghost predicate SortedByName(cs: seq<Customer>)
  {
    forall i, j :: 0 <= i < j < |cs| ==> NameLe(cs[i].name, cs[j].name)
  }

  /** Places `c` after every customer whose name does not sort after it. */
  function InsertByName(c: Customer, sorted: seq<Customer>): (r: seq<Customer>)
    ensures multiset(r) == multiset(sorted) + multiset{c}
  {
    if sorted == [] then [c]
    else if !NameLe(sorted[0].name, c.name) then [c] + sorted
    else
      assert sorted == [sorted[0]] + sorted[1..];
      [sorted[0]] + InsertByName(c, sorted[1..])
  }

  /** `[...customers].sort((a, b) => a.name.localeCompare(b.name))`. */
  function SortByName(cs: seq<Customer>): (r: seq<Customer>)
    ensures multiset(r) == multiset(cs)
  {
    if cs == [] then []
    else
      assert cs == cs[..|cs| - 1] + [cs[|cs| - 1]];
      InsertByName(cs[|cs| - 1], SortByName(cs[..|cs| - 1]))
  }

  lemma {:induction false} InsertByNameSorted(c: Customer, sorted: seq<Customer>)
    requires SortedByName(sorted)
    ensures SortedByName(InsertByName(c, sorted))
  {
    if sorted != [] {
      var h := sorted[0];
      if !NameLe(h.name, c.name) {
        NameLeTotal(h.name, c.name);
        forall j | 0 <= j < |sorted|
          ensures NameLe(c.name, sorted[j].name)
        {
          if j > 0 { NameLeTransitive(c.name, h.name, sorted[j].name); }
        }
      } else {
        InsertByNameSorted(c, sorted[1..]);
        var tail := InsertByName(c, sorted[1..]);
        InsertByNameBounded(h.name, c, sorted[1..]);
        var r := [h] + tail;
        forall i, j | 0 <= i < j < |r|
          ensures NameLe(r[i].name, r[j].name)
        {
          if i == 0 {
            assert r[j] == tail[j - 1];
            assert r[j] in tail;
          } else {
            assert r[i] == tail[i - 1] && r[j] == tail[j - 1];
          }
        }
      }
    }
  }

  /** A name that sorts before `c` and before every customer of a list sorts before
      every customer of the list with `c` inserted. */
  lemma InsertByNameBounded(low: string, c: Customer, cs: seq<Customer>)
    requires NameLe(low, c.name)
    requires forall k :: 0 <= k < |cs| ==> NameLe(low, cs[k].name)
    ensures forall x :: x in InsertByName(c, cs) ==> NameLe(low, x.name)
  {
    forall x | x in InsertByName(c, cs)
      ensures NameLe(low, x.name)
    {
      assert x in multiset(InsertByName(c, cs));
      if x != c {
        assert x in multiset(cs);
        var k :| 0 <= k < |cs| && cs[k] == x;
      }
    }
  }

  lemma {:induction false} SortByNameSorted(cs: seq<Customer>)
    ensures SortedByName(SortByName(cs))
  {
    if cs != [] {
      SortByNameSorted(cs[..|cs| - 1]);
      InsertByNameSorted(cs[|cs| - 1], SortByName(cs[..|cs| - 1]));
    }
  }

  /** The list after a quick-add: the old customers and the new one, sorted by name. */
  function WithNewCustomer(customers: seq<Customer>, created: Customer): seq<Customer>
  {
    SortByName(customers + [created])
  }

  lemma WithNewCustomerSpec(customers: seq<Customer>, created: Customer)
    ensures var r := WithNewCustomer(customers, created);
      && created in r
      && multiset(r) == multiset(customers) + multiset{created}
      && SortedByName(r)
  {
    var r := WithNewCustomer(customers, created);
    SortByNameSorted(customers + [created]);
    assert created in multiset(r);
  }

  /** The quick-add dialog's fields. */
  datatype CustomerDraft = CustomerDraft(name: string, phone: string, email: string, address: string)

  const EmptyDraft := CustomerDraft("", "", "", "")

  datatype QuickAddOutcome = NameRequired | InsertFailed | Added(id: string)

  /** The choice in the customer menu that opens the quick-add dialog. */
  const CreateNewChoice := "CREATE_NEW"

  /** The editor page's state. */
  class JobEditor {
    const isEditing: bool
    var form: FormData
    var customers: seq<Customer>
    var settings: Option<Settings>
    var showCustomerModal: bool
    var newCustomer: CustomerDraft

    constructor (preselectedCustomer: Option<string>, isEditing: bool)
      ensures this.isEditing == isEditing
      ensures form == InitialForm(preselectedCustomer)
      ensures customers == [] && settings == None
      ensures !showCustomerModal && newCustomer == EmptyDraft
    {
      this.isEditing := isEditing;
      form := InitialForm(preselectedCustomer);
      customers := [];
      settings := None;
      showCustomerModal := false;
      newCustomer := EmptyDraft;
    }

    /** The live breakdown shown under the form. */
    function Totals(): Breakdown
      reads this
    {
      ComputeBreakdown(form, settings)
    }

    /** `loadData`, given what the store returned: customers ordered by name, the
        settings row, and the job when editing. */
    method LoadData(customersData: seq<Customer>, settingsData: Option<Settings>, jobData: Option<Job>)
      modifies this`customers, this`settings, this`form
      ensures customers == customersData && settings == settingsData
      ensures form == AfterRender(old(form), LoadedForm(old(form), isEditing, settingsData, jobData), settingsData)
    {
      var before := form;
      customers := customersData;
      settings := settingsData;
      if isEditing {
        if jobData.Some? {
          form := FormFromJob(jobData.value);
        }
      } else if settingsData.Some? && NonZero(settingsData.value.defaultDayRate) {
        form := form.(labourDayRate := NumberText(settingsData.value.defaultDayRate));
      }
      RunQuoteDateEffect(before);
    }

    /** The effect on `quote_date`, after a render whose previous form was `before`. */
    method RunQuoteDateEffect(before: FormData)
      modifies this`form
      ensures form == AfterRender(before, old(form), settings)
    {
      if form.quoteDate != before.quoteDate
        && form.quoteDate.Some? && form.quoteValidUntil.None? && HasValidityDays(settings)
      {
        form := form.(quoteValidUntil := Some(form.quoteDate.value + settings.value.defaultQuoteValidityDays));
      }
    }

    /** Editing the quote date box. */
    method SetQuoteDate(d: Option<Day>)
      modifies this`form
      ensures form == AfterRender(old(form), old(form).(quoteDate := d), settings)
    {
      var before := form;
      form := form.(quoteDate := d);
      RunQuoteDateEffect(before);
    }

    /** The labour mode toggle; the other mode's boxes keep their text. */
    method SetLabourType(t: LabourType)
      modifies this`form
      ensures form == old(form).(labourType := t)
    {
      form := form.(labourType := t);
    }

    /** `handleCustomerSelectChange`. */
    method SelectCustomer(value: string)
      modifies this`form, this`showCustomerModal
      ensures value == CreateNewChoice ==> showCustomerModal && form == old(form)
      ensures value != CreateNewChoice ==>
        showCustomerModal == old(showCustomerModal) && form == old(form).(customerId := value)
    {
      if value == CreateNewChoice {
        showCustomerModal := true;
      } else {
        form := form.(customerId := value);
      }
    }

    /** Typing in the quick-add dialog. */
    method SetDraft(d: CustomerDraft)
      modifies this`newCustomer
      ensures newCustomer == d
    {
      newCustomer := d;
    }

    /** `handleCreateCustomer`; `inserted` is the row the store returns for the
        draft, or None when the insert fails. */
    method CreateCustomer(inserted: Option<Customer>) returns (outcome: QuickAddOutcome)
      modifies this`customers, this`form, this`showCustomerModal, this`newCustomer
      ensures old(newCustomer).name == "" ==> outcome == NameRequired
      ensures outcome.Added? <==> old(newCustomer).name != "" && inserted.Some?
      ensures outcome.Added? ==>
        && outcome.id == inserted.value.id
        && customers == WithNewCustomer(old(customers), inserted.value)
        && form == old(form).(customerId := inserted.value.id)
        && !showCustomerModal && newCustomer == EmptyDraft
      ensures !outcome.Added? ==>
        && customers == old(customers) && form == old(form)
        && showCustomerModal == old(showCustomerModal) && newCustomer == old(newCustomer)
    {
      if newCustomer.name == "" {
        return NameRequired;
      }
      if inserted.None? {
        return InsertFailed;
      }
      var created := inserted.value;
      customers := WithNewCustomer(customers, created);
      form := form.(customerId := created.id);
      showCustomerModal := false;
      newCustomer := EmptyDraft;
      outcome := Added(created.id);
    }

    /** The record `handleSubmit` writes, for both an insert and an update. */
    function SubmitPayload(userId: string): (p: Payload)
      reads this
      // the row is owned by the signed-in user and stores the breakdown the form shows
      ensures p.userId == userId
      ensures var b := ComputeBreakdown(form, settings);
        p.subtotal == b.subtotal && p.vatAmount == b.vat && p.total == b.total
      ensures p.labourCost == None <==> LabourTotal(form) == 0.0
      ensures form.labourType == Fixed ==> p.labourDays == None && p.labourDayRate == None
      ensures p.quoteDate == form.quoteDate && p.quoteValidUntil == form.quoteValidUntil
    {
      SavePayload(form, settings, userId)
    }
  }
}
