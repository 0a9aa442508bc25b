/** The quote and invoice documents, as the drawing operations the generator issues
    on a page, in order, with the running vertical cursor that places them.
    Each block of the generator is a layout function from the cursor on entry
    to the operations it draws and the cursor on exit; the `Composer` class
    issues the same operations one at a time into its buffer. */
module PdfGenerator {
  import opened Types
  import Strings

  datatype FontStyle = Normal | Bold | Italic

  datatype Align = Left | Center | Right

  /** A fragment of a text line. Amounts are shown with `toFixed(2)` behind a pound
      sign and dates with the locale's date format; the renderer does both. */
  datatype Piece = Str(s: string) | Num(n: real) | Money(amount: real) | Date(day: Day)

  datatype Op =
    | SetFillGray(gray: int)
    | SetTextGray(gray: int)
    | SetFontSize(size: int)
    | SetFont(style: FontStyle)
    | FillRect(x: int, y: int, w: int, h: int)
    | DrawLine(x: int, y: int, x2: int, y2: int)
    | PlaceImage(x: int, y: int, w: int)
    | Text(pieces: seq<Piece>, x: int, y: int, align: Align)
      /** A text wrapped to `width` and drawn as one block of lines. */
    | WrappedText(text: string, width: int, x: int, y: int)

  /** The operations of a block and the cursor after it. */
  datatype Laid = Laid(ops: seq<Op>, y: int)

  /** The number of lines `splitTextToSize` wraps a text into at a given width. */
  type LineCount = (string, int) -> nat

  /** The default jsPDF page, A4 portrait, in millimetres. */
  const PageWidth: int := 210

  /** The cursor at the top of every document. */
  const TopMargin: int := 15

  function TextOp(s: string, x: int, y: int): Op
  {
    Text([Str(s)], x, y, Left)
  }

  // ---------------------------------------------------------------- profiles

  /** What a block may draw where a reader looks for it: the texts in the row-caption
      column (x = 25), in the note column (x = 30) and at the page centre (x = 105),
      the texts made of more than one piece, the wrapped texts with their column,
      and whether it places an image. */
  datatype Profile = Profile(
    captions: set<seq<Piece>>,
    notes: set<seq<Piece>>,
    centred: set<seq<Piece>>,
    compound: set<seq<Piece>>,
    wrapped: set<(string, int)>,
    image: bool)

  const Nothing: Profile := Profile({}, {}, {}, {}, {}, false)

  /** What `op` draws in those places is allowed by `p`. */
  predicate Allowed(op: Op, p: Profile)
  {
    match op
    case Text(pieces, x, _, _) =>
      && (x == 25 ==> pieces in p.captions)
      && (x == 30 ==> pieces in p.notes)
      && (x == 105 ==> pieces in p.centred)
      && (|pieces| > 1 ==> pieces in p.compound)
    case WrappedText(text, _, x, _) => (text, x) in p.wrapped
    case PlaceImage(_, _, _) => p.image
    case _ => true
  }

  /** Everything `ops` draws in those places is allowed by `p`. */
  predicate Within(ops: seq<Op>, p: Profile)
  {
    forall op :: op in ops ==> Allowed(op, p)
  }

  /** `q` allows everything `p` allows. */
  predicate Covers(q: Profile, p: Profile)
  {
    && p.captions <= q.captions && p.notes <= q.notes && p.centred <= q.centred
    && p.compound <= q.compound && p.wrapped <= q.wrapped && (p.image ==> q.image)
  }

  lemma WithinConcat(a: seq<Op>, b: seq<Op>, p: Profile)
    requires Within(a, p) && Within(b, p)
    ensures Within(a + b, p)
  {
  }

  lemma WithinCovered(ops: seq<Op>, p: Profile, q: Profile)
    requires Within(ops, p) && Covers(q, p)
    ensures Within(ops, q)
  {
    forall op | op in ops
      ensures Allowed(op, q)
    {
      assert Allowed(op, p);
    }
  }

  // ---------------------------------------------------------------- header

  /** `Math.floor((i / 15) * 255)`. */
  function Gray(i: int): (g: int)
    ensures g == 17 * i
  {
    assert (i as real / 15.0) * 255.0 == (17 * i) as real;
    ((i as real / 15.0) * 255.0).Floor
  }

  /** The grays of the fade start black, grow by 17 and never reach white. */
  lemma GrayValues(i: int, j: int)
    ensures Gray(i) == 17 * i
    ensures Gray(0) == 0
    ensures i <= j ==> Gray(i) <= Gray(j)
    ensures 0 <= i < 15 ==> 0 <= Gray(i) < 255
  {
    assert (i as real / 15.0) * 255.0 == (17 * i) as real;
    assert (j as real / 15.0) * 255.0 == (17 * j) as real;
    assert (0 as real / 15.0) * 255.0 == 0.0;
  }

  /** The first `n` one-unit bands of the fade below the black band. */
  function GradientBands(n: nat): (r: seq<Op>)
    ensures |r| == 2 * n
    ensures forall i :: 0 <= i < n ==>
      r[2 * i] == SetFillGray(Gray(i)) && r[2 * i + 1] == FillRect(0, 50 + i, PageWidth, 1)
    ensures forall op :: op in r ==> op.SetFillGray? || op.FillRect?
  {
    seq(2 * n, k => if k % 2 == 0 then SetFillGray(Gray(k / 2)) else FillRect(0, 50 + k / 2, PageWidth, 1))
  }

  /** One more turn of the fade loop draws one more band. */
  lemma GradientBandsSnoc(n: nat)
    ensures GradientBands(n + 1) == GradientBands(n) + [SetFillGray(Gray(n)), FillRect(0, 50 + n, PageWidth, 1)]
  {
    var a, b := GradientBands(n + 1), GradientBands(n) + [SetFillGray(Gray(n)), FillRect(0, 50 + n, PageWidth, 1)];
    assert |a| == |b|;
    forall k | 0 <= k < |a|
      ensures a[k] == b[k]
    {
      if k < 2 * n {
        assert b[k] == GradientBands(n)[k];
      }
    }
  }

  /** The black band across the top and the fade beneath it. */
  function HeaderOps(): (r: seq<Op>)
  {
    [SetFillGray(0), FillRect(0, 0, PageWidth, 50)] + GradientBands(15)
  }

  lemma HeaderOpsWithin()
    ensures Within(HeaderOps(), Nothing)
  {
  }

  /** One solid band of height 50, then fifteen one-unit bands at 50..64 whose grays
      start at black and grow. */
  lemma HeaderLayout()
    ensures |HeaderOps()| == 32
    ensures HeaderOps()[0] == SetFillGray(0) && HeaderOps()[1] == FillRect(0, 0, PageWidth, 50)
    ensures forall i :: 0 <= i < 15 ==>
      HeaderOps()[2 + 2 * i] == SetFillGray(17 * i) && HeaderOps()[3 + 2 * i] == FillRect(0, 50 + i, PageWidth, 1)
  {
    forall i | 0 <= i < 15
      ensures HeaderOps()[2 + 2 * i] == SetFillGray(17 * i)
    {
      GrayValues(i, i);
    }
  }

  // ---------------------------------------------------------------- blocks

  /** The text drawn in place of the logo: the business name, or a placeholder. */
  function FallbackName(businessName: Option<string>): (name: string)
    ensures |name| > 0
    ensures Present(businessName) ==> name == businessName.value
  {
    if Present(businessName) then businessName.value else "Business Name"
  }

  /** The logo, or the business name in white when the logo cannot be loaded. */
  function Logo(y: int, loaded: bool, businessName: Option<string>): (r: Laid)
    ensures r.y == y + (if loaded then 50 else 10)
    ensures loaded ==> PlaceImage(20, y, 60) in r.ops
    ensures !loaded ==> TextOp(FallbackName(businessName), 20, y) in r.ops
  {
    if loaded then Laid([PlaceImage(20, y, 60)], y + 50)
    else
      Laid([SetFontSize(20), SetFont(Bold), SetTextGray(255),
            TextOp(FallbackName(businessName), 20, y), SetTextGray(0)], y + 10)
  }

  lemma LogoWithin(y: int, loaded: bool, businessName: Option<string>)
    ensures Within(Logo(y, loaded, businessName).ops, Nothing.(image := loaded))
  {
  }

  /** The centred title of a quote. */
  function QuoteTitle(y: int): (r: Laid)
    ensures r.y == y + 15
    ensures Text([Str("QUOTATION")], PageWidth / 2, r.y, Center) in r.ops
  {
    Laid([SetFontSize(24), SetFont(Bold), Text([Str("QUOTATION")], PageWidth / 2, y + 15, Center)], y + 15)
  }

  lemma QuoteTitleWithin(y: int)
    ensures Within(QuoteTitle(y).ops, Nothing.(centred := {[Str("QUOTATION")]}))
  {
  }

  /** `Invoice #<n>`. */
  function InvoiceNumberText(n: int): (t: string)
    ensures |t| > 9 && t[..9] == "Invoice #"
  {
    "Invoice #" + Strings.IntToString(n)
  }

  /** What follows `Invoice #` reads back as the number. */
  lemma InvoiceNumberTextReadsBack(n: int)
    ensures Strings.ParseInt(InvoiceNumberText(n)[9..]) == n
  {
    assert InvoiceNumberText(n)[9..] == Strings.IntToString(n);
    Strings.IntToStringRoundTrip(n);
  }

  /** The number line names the number, and is never the title. */
  lemma InvoiceNumberTextInjective(m: int, n: int)
    ensures InvoiceNumberText(m) == InvoiceNumberText(n) ==> m == n
    ensures InvoiceNumberText(n) != "INVOICE"
  {
    if InvoiceNumberText(m) == InvoiceNumberText(n) {
      assert InvoiceNumberText(m)[9..] == Strings.IntToString(m);
      assert InvoiceNumberText(n)[9..] == Strings.IntToString(n);
      Strings.IntToStringInjective(m, n);
    }
    assert InvoiceNumberText(n)[1] == 'n';
  }

  function InvoiceNumberSet(invoiceNumber: Option<int>): set<seq<Piece>>
  {
    if IntPresent(invoiceNumber) then {[Str(InvoiceNumberText(invoiceNumber.value))]} else {}
  }

  /** The centred title of an invoice, and its number below it when it has one;
      the cursor moves past the number line either way. */
  function InvoiceTitle(y: int, invoiceNumber: Option<int>): (r: Laid)
    ensures r.y == y + 25
    ensures Text([Str("INVOICE")], PageWidth / 2, y + 15, Center) in r.ops
    ensures IntPresent(invoiceNumber) ==>
      Text([Str(InvoiceNumberText(invoiceNumber.value))], PageWidth / 2, y + 25, Center) in r.ops
  {
    Laid([SetFontSize(24), SetFont(Bold), Text([Str("INVOICE")], PageWidth / 2, y + 15, Center), SetFontSize(12)]
         + (if IntPresent(invoiceNumber)
            then [Text([Str(InvoiceNumberText(invoiceNumber.value))], PageWidth / 2, y + 25, Center)]
            else []),
         y + 25)
  }

  lemma InvoiceTitleWithin(y: int, invoiceNumber: Option<int>)
    ensures Within(InvoiceTitle(y, invoiceNumber).ops, Nothing.(centred := {[Str("INVOICE")]} + InvoiceNumberSet(invoiceNumber)))
  {
  }

  /** The `k`th of `lines` at the left margin, 5 below the one before, from `top`. */
  function LineOps(lines: seq<string>, top: int): (r: seq<Op>)
    ensures |r| == |lines|
  {
    if lines == [] then [] else [TextOp(lines[0], 20, top)] + LineOps(lines[1..], top + 5)
  }

  lemma {:induction false} LineOpsAt(lines: seq<string>, top: int)
    ensures forall k :: 0 <= k < |lines| ==> LineOps(lines, top)[k] == TextOp(lines[k], 20, top + 5 * k)
  {
    if lines != [] {
      LineOpsAt(lines[1..], top + 5);
    }
  }

  lemma LineOpsWithin(lines: seq<string>, top: int)
    ensures Within(LineOps(lines, top), Nothing)
  {
    LineOpsAt(lines, top);
    forall op | op in LineOps(lines, top)
      ensures Allowed(op, Nothing)
    {
      var k :| 0 <= k < |lines| && LineOps(lines, top)[k] == op;
    }
  }

  lemma LineOpsSnoc(lines: seq<string>, top: int, k: nat)
    requires k < |lines|
    ensures LineOps(lines[..k + 1], top) == LineOps(lines[..k], top) + [TextOp(lines[k], 20, top + 5 * k)]
  {
    var a, b := LineOps(lines[..k + 1], top), LineOps(lines[..k], top) + [TextOp(lines[k], 20, top + 5 * k)];
    LineOpsAt(lines[..k + 1], top);
    LineOpsAt(lines[..k], top);
    assert |a| == |b|;
    forall i | 0 <= i < |a|
      ensures a[i] == b[i]
    {
      assert lines[..k + 1][i] == lines[i];
      if i < k { assert lines[..k][i] == lines[i]; }
    }
  }

  /** The lines of a multi-line field, or none when the field is empty. */
  function FieldLines(s: Option<string>): seq<string>
  {
    if Present(s) then Strings.Split(s.value, '\n') else []
  }

  /** The customer's heading, name and address, one line per address segment. */
  function CustomerBlock(y: int, heading: string, customer: Customer): (r: Laid)
    ensures r.y == y + 22 + 5 * |FieldLines(customer.address)|
    ensures TextOp(heading, 20, y + 15) in r.ops && TextOp(customer.name, 20, y + 22) in r.ops
  {
    var lines := FieldLines(customer.address);
    Laid([SetFontSize(12), SetFont(Bold), TextOp(heading, 20, y + 15), SetFont(Normal),
          TextOp(customer.name, 20, y + 22)] + LineOps(lines, y + 27),
         y + 22 + 5 * |lines|)
  }

  lemma CustomerBlockWithin(y: int, heading: string, customer: Customer)
    ensures Within(CustomerBlock(y, heading, customer).ops, Nothing)
  {
    LineOpsWithin(FieldLines(customer.address), y + 27);
  }

  /** The address is drawn as one text per segment of its split on newlines, in order,
      each 5 below the one before, and the segments put back together are the address. */
  lemma CustomerAddressLines(y: int, heading: string, customer: Customer)
    requires Present(customer.address)
    ensures var r := CustomerBlock(y, heading, customer);
      var lines := Strings.Split(customer.address.value, '\n');
      && |r.ops| == 5 + |lines|
      && (forall k :: 0 <= k < |lines| ==> r.ops[5 + k] == TextOp(lines[k], 20, y + 27 + 5 * k))
      && Strings.Join(lines, '\n') == customer.address.value
  {
    Strings.JoinSplit(customer.address.value, '\n');
    LineOpsAt(Strings.Split(customer.address.value, '\n'), y + 27);
  }

  function DescriptionSet(description: Option<string>): set<(string, int)>
  {
    if Present(description) then {(description.value, 20)} else {}
  }

  /** The job description wrapped to the text width, when there is one. */
  function DescriptionBlock(y: int, gap: int, description: Option<string>, lineCount: LineCount): (r: Laid)
    requires gap >= 0
    ensures r.y >= y
    ensures Present(description) ==>
      r.ops == [WrappedText(description.value, 170, 20, y + gap)]
      && r.y == y + gap + 5 * lineCount(description.value, 170)
    ensures !Present(description) ==> r == Laid([], y)
  {
    if Present(description) then
      Laid([WrappedText(description.value, 170, 20, y + gap)], y + gap + 5 * lineCount(description.value, 170))
    else Laid([], y)
  }

  lemma DescriptionBlockWithin(y: int, gap: int, description: Option<string>, lineCount: LineCount)
    requires gap >= 0
    ensures Within(DescriptionBlock(y, gap, description, lineCount).ops, Nothing.(wrapped := DescriptionSet(description)))
  {
  }

  /** The quote's job heading, title, description and location. */
  function QuoteJobBlock(y: int, job: Job, lineCount: LineCount): (r: Laid)
    ensures r.y >= y + 17
    ensures TextOp(job.title, 20, y + 17) in r.ops
    ensures Present(job.description) ==> WrappedText(job.description.value, 170, 20, y + 24) in r.ops
  {
    var head := [SetFont(Bold), TextOp("Job:", 20, y + 10), SetFont(Normal), TextOp(job.title, 20, y + 17)];
    var desc := DescriptionBlock(y + 17, 7, job.description, lineCount);
    var loc := LocationBlock(desc.y, job.jobAddress);
    Laid(head + desc.ops + loc.ops, loc.y)
  }

  /** The location heading and the job address, one line per segment, when the
      address is truthy. */
  function LocationBlock(y: int, address: Option<string>): (r: Laid)
    ensures !Present(address) ==> r == Laid([], y)
    ensures Present(address) ==> r.y == y + 12 + 5 * |FieldLines(address)|
  {
    if Present(address) then
      var lines := FieldLines(address);
      Laid([SetFont(Bold), TextOp("Location:", 20, y + 7), SetFont(Normal)] + LineOps(lines, y + 17),
           y + 12 + 5 * |lines|)
    else Laid([], y)
  }

  lemma LocationBlockWithin(y: int, address: Option<string>)
    ensures Within(LocationBlock(y, address).ops, Nothing)
  {
    LineOpsWithin(FieldLines(address), y + 17);
  }

  lemma QuoteJobBlockWithin(y: int, job: Job, lineCount: LineCount)
    ensures Within(QuoteJobBlock(y, job, lineCount).ops, Nothing.(wrapped := DescriptionSet(job.description)))
  {
    DescriptionBlockWithin(y + 17, 7, job.description, lineCount);
    var desc := DescriptionBlock(y + 17, 7, job.description, lineCount);
    LocationBlockWithin(desc.y, job.jobAddress);
  }

  function QuoteDatePieces(d: Day): seq<Piece>
  {
    [Str("Quote Date: "), Date(d)]
  }

  function QuoteDateSet(quoteDate: Option<Day>): set<seq<Piece>>
  {
    if quoteDate.Some? then {QuoteDatePieces(quoteDate.value)} else {}
  }

  /** The quote date line, when the quote has a date. */
  function QuoteDateLine(y: int, quoteDate: Option<Day>): (r: Laid)
    ensures r.y == y + (if quoteDate.Some? then 15 else 10)
    ensures quoteDate.Some? ==> Text(QuoteDatePieces(quoteDate.value), 20, y + 10, Left) in r.ops
  {
    if quoteDate.Some? then Laid([Text(QuoteDatePieces(quoteDate.value), 20, y + 10, Left)], y + 15)
    else Laid([], y + 10)
  }

  lemma QuoteDateLineWithin(y: int, quoteDate: Option<Day>)
    ensures Within(QuoteDateLine(y, quoteDate).ops, Nothing.(compound := QuoteDateSet(quoteDate)))
  {
  }

  /** The section heading and the shaded header row of the cost table. */
  function TableHeader(y: int, gap: int, heading: string): (r: Laid)
    ensures r.y == y + gap + 20
  {
    var top := y + gap;
    Laid([SetFont(Bold), SetFontSize(14), TextOp(heading, 20, top)]
         + [SetFontSize(10), SetFont(Normal), SetFillGray(240), FillRect(20, top + 5, 170, 8)]
         + [SetFont(Bold), TextOp("Item", 25, top + 10), Text([Str("Amount")], 160, top + 10, Right), SetFont(Normal)],
         top + 20)
  }

  lemma TableHeaderWithin(y: int, gap: int, heading: string)
    ensures Within(TableHeader(y, gap, heading).ops, Nothing.(captions := {[Str("Item")]}))
  {
  }

  /** A row of the cost table: the caption on the left, the amount right-aligned. */
  function RowOps(y: int, caption: string, amount: real): (r: seq<Op>)
    ensures |r| == 2 && InRow(r, y, caption, amount)
  {
    [TextOp(caption, 25, y), Text([Money(amount)], 185, y, Right)]
  }

  /** Both halves of a row are drawn at height `y`. */
  predicate InRow(ops: seq<Op>, y: int, caption: string, amount: real)
  {
    TextOp(caption, 25, y) in ops && Text([Money(amount)], 185, y, Right) in ops
  }

  /** A row with this caption and amount is drawn somewhere. */
  ghost predicate ShowsRow(ops: seq<Op>, caption: string, amount: real)
  {
    exists y :: InRow(ops, y, caption, amount)
  }

  /** Some text made of exactly these pieces is drawn at column `x`. */
  predicate ShowsAt(ops: seq<Op>, pieces: seq<Piece>, x: int)
  {
    exists op :: op in ops && op.Text? && op.pieces == pieces && op.x == x
  }

  /** This text is drawn wrapped, at column `x`. */
  predicate WrapsAt(ops: seq<Op>, text: string, x: int)
  {
    exists op :: op in ops && op.WrappedText? && op.text == text && op.x == x
  }

  /** Some image is placed on the page. */
  predicate PlacesImage(ops: seq<Op>)
  {
    exists op :: op in ops && op.PlaceImage?
  }

  function NotesSet(amount: Option<real>, notes: Option<string>): set<(string, int)>
  {
    if Positive(amount) && Present(notes) then {(notes.value, 30)} else {}
  }

  /** Small gray notes under a quote row, wrapped to the notes width. */
  function NotesBlock(y: int, notes: Option<string>, lineCount: LineCount): (r: Laid)
    ensures r.y >= y
    ensures Present(notes) ==> WrappedText(notes.value, 140, 30, y) in r.ops
    ensures !Present(notes) ==> r == Laid([], y)
  {
    if Present(notes) then
      Laid([SetFontSize(8), SetTextGray(100), WrappedText(notes.value, 140, 30, y), SetFontSize(10), SetTextGray(0)],
           y + 4 * lineCount(notes.value, 140))
    else Laid([], y)
  }

  function CaptionSet(caption: string, amount: Option<real>): set<seq<Piece>>
  {
    if Positive(amount) then {[Str(caption)]} else {}
  }

  /** A quote row with the notes beneath it, when the amount is positive. */
  function QuoteNotedRow(y: int, gap: int, caption: string, amount: Option<real>, notes: Option<string>, lineCount: LineCount): (r: Laid)
    requires gap >= 0
    ensures r.y >= y
    ensures Positive(amount) ==> InRow(r.ops, y + gap, caption, amount.value)
    ensures Positive(amount) && Present(notes) ==> WrappedText(notes.value, 140, 30, y + gap + 6) in r.ops
  {
    if Positive(amount) then
      var n := NotesBlock(y + gap + 6, notes, lineCount);
      Laid(RowOps(y + gap, caption, amount.value) + n.ops, n.y)
    else Laid([], y)
  }

  lemma QuoteNotedRowWithin(y: int, gap: int, caption: string, amount: Option<real>, notes: Option<string>, lineCount: LineCount)
    requires gap >= 0
    ensures Within(QuoteNotedRow(y, gap, caption, amount, notes, lineCount).ops, Nothing.(captions := CaptionSet(caption, amount), wrapped := NotesSet(amount, notes)))
  {
  }

  /** `<days> days @ £<rate>/day`. */
  function DaysAtRate(days: real, rate: real): (r: seq<Piece>)
    // four pieces, so never one of the two-piece dated or VAT lines; it carries both numbers
    ensures |r| == 4 && r[0] == Num(days) && r[2] == Money(rate)
  {
    [Num(days), Str(" days @ "), Money(rate), Str("/day")]
  }

  predicate HasDaysAtRate(job: Job)
  {
    Positive(job.labourCost) && NonZero(job.labourDays) && NonZero(job.labourDayRate)
  }

  function DaysAtRateSet(job: Job): set<seq<Piece>>
  {
    if HasDaysAtRate(job) then {DaysAtRate(job.labourDays.value, job.labourDayRate.value)} else {}
  }

  /** The labour row of a quote with its days-at-rate caption. */
  function QuoteLabourRow(y: int, job: Job): (r: Laid)
    ensures Positive(job.labourCost) ==> InRow(r.ops, y + 3, "Labour", job.labourCost.value)
    ensures r.y == y + (if !Positive(job.labourCost) then 0 else if HasDaysAtRate(job) then 13 else 9)
    ensures HasDaysAtRate(job) ==>
      Text(DaysAtRate(job.labourDays.value, job.labourDayRate.value), 30, y + 9, Left) in r.ops
  {
    if Positive(job.labourCost) then
      var row := RowOps(y + 3, "Labour", job.labourCost.value);
      if HasDaysAtRate(job) then
        Laid(row + [SetFontSize(8), SetTextGray(100),
                    Text(DaysAtRate(job.labourDays.value, job.labourDayRate.value), 30, y + 9, Left),
                    SetFontSize(10), SetTextGray(0)],
             y + 13)
      else Laid(row, y + 9)
    else Laid([], y)
  }

  lemma QuoteLabourRowWithin(y: int, job: Job)
    ensures Within(QuoteLabourRow(y, job).ops, Nothing.(captions := CaptionSet("Labour", job.labourCost),
                                                       notes := DaysAtRateSet(job), compound := DaysAtRateSet(job)))
  {
  }

  /** The captions of the rows whose amounts are positive. */
  function RowCaptions(job: Job): set<seq<Piece>>
  {
    CaptionSet("Materials", job.materialsCost) + CaptionSet("Labour", job.labourCost)
    + CaptionSet("Other Costs", job.otherCosts)
  }

  function QuoteNotes(job: Job): set<(string, int)>
  {
    NotesSet(job.materialsCost, job.materialsNotes) + NotesSet(job.otherCosts, job.otherCostsNotes)
  }

  /** The three rows of a quote's cost table. */
  function QuoteCostRows(y: int, job: Job, lineCount: LineCount): (r: Laid)
    ensures r.y >= y
  {
    var materials := QuoteNotedRow(y, 0, "Materials", job.materialsCost, job.materialsNotes, lineCount);
    var labour := QuoteLabourRow(materials.y, job);
    var other := QuoteNotedRow(labour.y, 3, "Other Costs", job.otherCosts, job.otherCostsNotes, lineCount);
    Laid(materials.ops + labour.ops + other.ops, other.y)
  }

  lemma QuoteCostRowsWithin(y: int, job: Job, lineCount: LineCount)
    ensures Within(QuoteCostRows(y, job, lineCount).ops, Profile(RowCaptions(job), DaysAtRateSet(job), {}, DaysAtRateSet(job), QuoteNotes(job), false))
  {
    var materials := QuoteNotedRow(y, 0, "Materials", job.materialsCost, job.materialsNotes, lineCount);
    var labour := QuoteLabourRow(materials.y, job);
    var other := QuoteNotedRow(labour.y, 3, "Other Costs", job.otherCosts, job.otherCostsNotes, lineCount);
    var p := Profile(RowCaptions(job), DaysAtRateSet(job), {}, DaysAtRateSet(job), QuoteNotes(job), false);
    QuoteNotedRowWithin(y, 0, "Materials", job.materialsCost, job.materialsNotes, lineCount);
    QuoteLabourRowWithin(materials.y, job);
    QuoteNotedRowWithin(labour.y, 3, "Other Costs", job.otherCosts, job.otherCostsNotes, lineCount);
    WithinCovered(materials.ops, Nothing.(captions := CaptionSet("Materials", job.materialsCost),
                                          wrapped := NotesSet(job.materialsCost, job.materialsNotes)), p);
    WithinCovered(labour.ops, Nothing.(captions := CaptionSet("Labour", job.labourCost),
                                       notes := DaysAtRateSet(job), compound := DaysAtRateSet(job)), p);
    WithinCovered(other.ops, Nothing.(captions := CaptionSet("Other Costs", job.otherCosts),
                                      wrapped := NotesSet(job.otherCosts, job.otherCostsNotes)), p);
    WithinConcat(materials.ops, labour.ops, p);
    WithinConcat(materials.ops + labour.ops, other.ops, p);
  }

  /** An invoice row: no notes, and a fixed step. */
  function InvoiceRow(y: int, caption: string, amount: Option<real>): (r: Laid)
    ensures Positive(amount) ==> r == Laid(RowOps(y, caption, amount.value), y + 7)
    ensures !Positive(amount) ==> r == Laid([], y)
  {
    if Positive(amount) then Laid(RowOps(y, caption, amount.value), y + 7) else Laid([], y)
  }

  lemma InvoiceRowWithin(y: int, caption: string, amount: Option<real>)
    ensures Within(InvoiceRow(y, caption, amount).ops, Nothing.(captions := CaptionSet(caption, amount)))
  {
  }

  /** The three rows of an invoice's cost table. */
  function InvoiceCostRows(y: int, job: Job): (r: Laid)
    ensures r.y >= y
  {
    var materials := InvoiceRow(y, "Materials", job.materialsCost);
    var labour := InvoiceRow(materials.y, "Labour", job.labourCost);
    var other := InvoiceRow(labour.y, "Other Costs", job.otherCosts);
    Laid(materials.ops + labour.ops + other.ops, other.y)
  }

  lemma InvoiceCostRowsWithin(y: int, job: Job)
    ensures Within(InvoiceCostRows(y, job).ops, Nothing.(captions := RowCaptions(job)))
  {
  }

  /** The rule under the rows and the subtotal, which is shown even when missing. */
  function SubtotalBlock(y: int, job: Job): (r: Laid)
    ensures r.y == y + 13
    ensures InRow(r.ops, r.y, "Subtotal:", OrZero(job.subtotal))
  {
    Laid([DrawLine(20, y + 5, 190, y + 5), SetFont(Bold)] + RowOps(y + 13, "Subtotal:", OrZero(job.subtotal)), y + 13)
  }

  lemma SubtotalBlockWithin(y: int, job: Job)
    ensures Within(SubtotalBlock(y, job).ops, Nothing.(captions := {[Str("Subtotal:")]}))
  {
  }

  /** The VAT line, when the stored VAT is positive. */
  function VatBlock(y: int, job: Job): (r: Laid)
    ensures r.y == y + (if Positive(job.vatAmount) then 7 else 0)
    ensures Positive(job.vatAmount) ==> InRow(r.ops, r.y, "VAT (20%):", job.vatAmount.value)
  {
    if Positive(job.vatAmount) then
      Laid([SetFont(Normal)] + RowOps(y + 7, "VAT (20%):", job.vatAmount.value), y + 7)
    else Laid([], y)
  }

  lemma VatBlockWithin(y: int, job: Job)
    ensures Within(VatBlock(y, job).ops, Nothing.(captions := CaptionSet("VAT (20%):", job.vatAmount)))
  {
  }

  /** The shaded total, which is shown even when missing. */
  function TotalBlock(y: int, job: Job, totalCaption: string, totalSize: int): (r: Laid)
    ensures r.y == y + 10
    ensures InRow(r.ops, r.y, totalCaption, OrZero(job.total))
  {
    Laid([SetFillGray(240), FillRect(20, y + 5, 170, 10), SetFont(Bold), SetFontSize(totalSize)]
         + RowOps(y + 10, totalCaption, OrZero(job.total)),
         y + 10)
  }

  lemma TotalBlockWithin(y: int, job: Job, totalCaption: string, totalSize: int)
    ensures Within(TotalBlock(y, job, totalCaption, totalSize).ops, Nothing.(captions := {[Str(totalCaption)]}))
  {
  }

  function VatNumberPieces(vatNumber: string): seq<Piece>
  {
    [Str("VAT Registration Number: "), Str(vatNumber)]
  }

  predicate ShowsVatNumber(settings: Settings)
  {
    settings.vatRegistered && Present(settings.vatNumber)
  }

  function VatNumberSet(settings: Settings): set<seq<Piece>>
  {
    if ShowsVatNumber(settings) then {VatNumberPieces(settings.vatNumber.value)} else {}
  }

  function ValidityPieces(d: Day): seq<Piece>
  {
    [Str("Valid for 30 days from "), Date(d)]
  }

  function ValiditySet(quoteDate: Option<Day>): set<seq<Piece>>
  {
    if quoteDate.Some? then {ValidityPieces(quoteDate.value)} else {}
  }

  const PaymentTerms: string := "Payment terms and conditions apply upon acceptance."

  const Thanks: string := "Thank you for your business!"

  /** The quote's VAT registration line, validity line and payment terms. */
  function QuoteFooter(y: int, job: Job, settings: Settings): (r: Laid)
    ensures r.y >= y + 10
    ensures |r.ops| > 0 && r.ops[|r.ops| - 1] == TextOp(PaymentTerms, 20, r.y)
    ensures ShowsVatNumber(settings) ==> Text(VatNumberPieces(settings.vatNumber.value), 20, y + 15, Left) in r.ops
    ensures job.quoteDate.Some? ==>
      Text(ValidityPieces(job.quoteDate.value), 20, if ShowsVatNumber(settings) then y + 25 else y + 10, Left) in r.ops
  {
    var vat := VatLine(y, settings);
    var valid := ValidityLine(vat.y + 10, job.quoteDate);
    Laid(vat.ops + [SetFontSize(9), SetFont(Italic)] + valid.ops + [TextOp(PaymentTerms, 20, valid.y)],
         valid.y)
  }

  /** The VAT registration line under the totals, for a registered business with a
      number: 15 below the cursor, in small print. */
  function VatLine(y: int, settings: Settings): (r: Laid)
    ensures ShowsVatNumber(settings) ==>
      r.y == y + 15 && Text(VatNumberPieces(settings.vatNumber.value), 20, y + 15, Left) in r.ops
    ensures !ShowsVatNumber(settings) ==> r == Laid([], y)
  {
    if ShowsVatNumber(settings)
    then Laid([SetFontSize(8), SetFont(Normal), Text(VatNumberPieces(settings.vatNumber.value), 20, y + 15, Left)], y + 15)
    else Laid([], y)
  }

  /** The validity line of a dated quote, at the cursor; the cursor moves 5 on. */
  function ValidityLine(y: int, quoteDate: Option<Day>): (r: Laid)
    ensures quoteDate.Some? ==> r.y == y + 5 && r.ops == [Text(ValidityPieces(quoteDate.value), 20, y, Left)]
    ensures quoteDate.None? ==> r == Laid([], y)
  {
    if quoteDate.Some? then Laid([Text(ValidityPieces(quoteDate.value), 20, y, Left)], y + 5) else Laid([], y)
  }

  lemma QuoteFooterWithin(y: int, job: Job, settings: Settings)
    ensures Within(QuoteFooter(y, job, settings).ops, Nothing.(compound := VatNumberSet(settings) + ValiditySet(job.quoteDate)))
  {
  }

  function InvoiceDatePieces(d: Day): seq<Piece>
  {
    [Str("Invoice Date: "), Date(d)]
  }

  function InvoiceDateSet(invoiceDate: Option<Day>): set<seq<Piece>>
  {
    if invoiceDate.Some? then {InvoiceDatePieces(invoiceDate.value)} else {}
  }

  /** The invoice date, the job heading and title, and the description. */
  function InvoiceDetails(y: int, job: Job, lineCount: LineCount): (r: Laid)
    ensures r.y >= y + 16
    ensures TextOp(job.title, 20, if job.invoiceDate.Some? then y + 22 else y + 16) in r.ops
    ensures job.invoiceDate.Some? ==> Text(InvoiceDatePieces(job.invoiceDate.value), 20, y + 10, Left) in r.ops
    ensures Present(job.description) ==> WrapsAt(r.ops, job.description.value, 20)
  {
    var date := if job.invoiceDate.Some?
      then Laid([Text(InvoiceDatePieces(job.invoiceDate.value), 20, y + 10, Left)], y + 16)
      else Laid([], y + 10);
    var desc := DescriptionBlock(date.y + 6, 6, job.description, lineCount);
    Laid(date.ops + [SetFont(Bold), TextOp("For:", 20, date.y), SetFont(Normal), TextOp(job.title, 20, date.y + 6)]
         + desc.ops,
         desc.y)
  }

  lemma InvoiceDetailsWithin(y: int, job: Job, lineCount: LineCount)
    ensures Within(InvoiceDetails(y, job, lineCount).ops, Nothing.(compound := InvoiceDateSet(job.invoiceDate), wrapped := DescriptionSet(job.description)))
  {
    var dateY := if job.invoiceDate.Some? then y + 16 else y + 10;
    DescriptionBlockWithin(dateY + 6, 6, job.description, lineCount);
  }

  /** The payment heading and the bank details, one line per segment. */
  function PaymentDetails(y: int, settings: Settings): (r: Laid)
    ensures r.y == y + 28 + 5 * |FieldLines(settings.bankDetails)|
  {
    var lines := FieldLines(settings.bankDetails);
    Laid([SetFontSize(12), TextOp("Payment Details", 20, y + 20), SetFontSize(10), SetFont(Normal)]
         + LineOps(lines, y + 28),
         y + 28 + 5 * |lines|)
  }

  lemma PaymentDetailsWithin(y: int, settings: Settings)
    ensures Within(PaymentDetails(y, settings).ops, Nothing)
  {
    LineOpsWithin(FieldLines(settings.bankDetails), y + 28);
  }

  /** Each bank-details segment is drawn in order, the first at the cursor after the
      heading, each 5 below the one before. */
  lemma BankDetailLines(y: int, settings: Settings)
    requires Present(settings.bankDetails)
    ensures var r := PaymentDetails(y, settings);
      var lines := Strings.Split(settings.bankDetails.value, '\n');
      && |r.ops| == 4 + |lines|
      && (forall k :: 0 <= k < |lines| ==> r.ops[4 + k] == TextOp(lines[k], 20, y + 28 + 5 * k))
      && Strings.Join(lines, '\n') == settings.bankDetails.value
  {
    Strings.JoinSplit(settings.bankDetails.value, '\n');
    LineOpsAt(Strings.Split(settings.bankDetails.value, '\n'), y + 28);
  }

  /** The invoice's VAT registration line and the closing thanks. */
  function InvoiceFooter(y: int, settings: Settings): (r: Laid)
    ensures r.y >= y + 10
    ensures |r.ops| > 0 && r.ops[|r.ops| - 1] == TextOp(Thanks, 20, r.y)
    ensures ShowsVatNumber(settings) ==> Text(VatNumberPieces(settings.vatNumber.value), 20, y + 10, Left) in r.ops
  {
    var vat := if ShowsVatNumber(settings)
      then Laid([SetFontSize(8), Text(VatNumberPieces(settings.vatNumber.value), 20, y + 10, Left)], y + 10)
      else Laid([], y);
    Laid(vat.ops + [SetFontSize(9), SetFont(Italic), TextOp(Thanks, 20, vat.y + 10)], vat.y + 10)
  }

  lemma InvoiceFooterWithin(y: int, settings: Settings)
    ensures Within(InvoiceFooter(y, settings).ops, Nothing.(compound := VatNumberSet(settings)))
  {
  }

  // ---------------------------------------------------------------- documents

  /** The blocks of a quote, each laid out from the cursor the one before left. */
  datatype QuoteBlocks = QuoteBlocks(
    logo: Laid, title: Laid, customer: Laid, job: Laid, date: Laid, table: Laid,
    rows: Laid, subtotal: Laid, vat: Laid, total: Laid, footer: Laid)

  function LayQuote(job: Job, customer: Customer, settings: Settings, logoLoaded: bool, lineCount: LineCount): QuoteBlocks
  {
    var logo := Logo(TopMargin, logoLoaded, settings.businessName);
    var title := QuoteTitle(logo.y);
    var cust := CustomerBlock(title.y, "Customer:", customer);
    var jobBlock := QuoteJobBlock(cust.y, job, lineCount);
    var date := QuoteDateLine(jobBlock.y, job.quoteDate);
    var table := TableHeader(date.y, 10, "Cost Breakdown");
    var rows := QuoteCostRows(table.y, job, lineCount);
    var subtotal := SubtotalBlock(rows.y, job);
    var vat := VatBlock(subtotal.y, job);
    var total := TotalBlock(vat.y, job, "TOTAL:", 12);
    var footer := QuoteFooter(total.y, job, settings);
    QuoteBlocks(logo, title, cust, jobBlock, date, table, rows, subtotal, vat, total, footer)
  }

  /** `generateQuotePDF`. */
  function QuoteDoc(job: Job, customer: Customer, settings: Settings, logoLoaded: bool, lineCount: LineCount): (d: Laid)
    ensures d.y >= TopMargin
  {
    var b := LayQuote(job, customer, settings, logoLoaded, lineCount);
    Laid(HeaderOps() + b.logo.ops + b.title.ops + b.customer.ops + b.job.ops + b.date.ops + b.table.ops
         + b.rows.ops + b.subtotal.ops + b.vat.ops + b.total.ops + b.footer.ops,
         b.footer.y)
  }

  /** The blocks of an invoice, each laid out from the cursor the one before left. */
  datatype InvoiceBlocks = InvoiceBlocks(
    logo: Laid, title: Laid, customer: Laid, details: Laid, table: Laid,
    rows: Laid, subtotal: Laid, vat: Laid, total: Laid, payment: Laid, footer: Laid)

  function LayInvoice(job: Job, customer: Customer, settings: Settings, logoLoaded: bool, lineCount: LineCount): InvoiceBlocks
  {
    var logo := Logo(TopMargin, logoLoaded, settings.businessName);
    var title := InvoiceTitle(logo.y, job.invoiceNumber);
    var cust := CustomerBlock(title.y, "Bill To:", customer);
    var details := InvoiceDetails(cust.y, job, lineCount);
    var table := TableHeader(details.y, 15, "Invoice Details");
    var rows := InvoiceCostRows(table.y, job);
    var subtotal := SubtotalBlock(rows.y, job);
    var vat := VatBlock(subtotal.y, job);
    var total := TotalBlock(vat.y, job, "TOTAL DUE:", 14);
    var payment := PaymentDetails(total.y, settings);
    var footer := InvoiceFooter(payment.y, settings);
    InvoiceBlocks(logo, title, cust, details, table, rows, subtotal, vat, total, payment, footer)
  }

  /** `generateInvoicePDF`. */
  function InvoiceDoc(job: Job, customer: Customer, settings: Settings, logoLoaded: bool, lineCount: LineCount): (d: Laid)
    ensures d.y >= TopMargin
  {
    var b := LayInvoice(job, customer, settings, logoLoaded, lineCount);
    Laid(HeaderOps() + b.logo.ops + b.title.ops + b.customer.ops + b.details.ops + b.table.ops
         + b.rows.ops + b.subtotal.ops + b.vat.ops + b.total.ops + b.payment.ops + b.footer.ops,
         b.footer.y)
  }

  // ---------------------------------------------------------------- what each document shows

  /** Everything a quote may show where a reader looks for it. */
  function QuoteProfile(job: Job, settings: Settings, logoLoaded: bool): Profile
  {
    Profile(
      FixedCaptions(job, "TOTAL:") + RowCaptions(job),
      DaysAtRateSet(job),
      {[Str("QUOTATION")]},
      QuoteDateSet(job.quoteDate) + DaysAtRateSet(job) + VatNumberSet(settings) + ValiditySet(job.quoteDate),
      DescriptionSet(job.description) + QuoteNotes(job),
      logoLoaded)
  }

  /** Everything an invoice may show where a reader looks for it. */
  function InvoiceProfile(job: Job, settings: Settings, logoLoaded: bool): Profile
  {
    Profile(
      FixedCaptions(job, "TOTAL DUE:") + RowCaptions(job),
      {},
      {[Str("INVOICE")]} + InvoiceNumberSet(job.invoiceNumber),
      InvoiceDateSet(job.invoiceDate) + VatNumberSet(settings),
      DescriptionSet(job.description),
      logoLoaded)
  }

  /** The blocks above a quote's cost table keep to the quote's profile. */
  lemma QuoteHeadWithin(job: Job, customer: Customer, settings: Settings, logoLoaded: bool, lineCount: LineCount)
    ensures var p := QuoteProfile(job, settings, logoLoaded);
      var b := LayQuote(job, customer, settings, logoLoaded, lineCount);
      && Within(HeaderOps(), p) && Within(b.logo.ops, p) && Within(b.title.ops, p)
      && Within(b.customer.ops, p) && Within(b.job.ops, p) && Within(b.date.ops, p)
  {
    var p := QuoteProfile(job, settings, logoLoaded);
    var b := LayQuote(job, customer, settings, logoLoaded, lineCount);
    HeaderOpsWithin();
    LogoWithin(TopMargin, logoLoaded, settings.businessName);
    QuoteTitleWithin(b.logo.y);
    CustomerBlockWithin(b.title.y, "Customer:", customer);
    QuoteJobBlockWithin(b.customer.y, job, lineCount);
    QuoteDateLineWithin(b.job.y, job.quoteDate);
    WithinCovered(HeaderOps(), Nothing, p);
    WithinCovered(b.logo.ops, Nothing.(image := logoLoaded), p);
    WithinCovered(b.title.ops, Nothing.(centred := {[Str("QUOTATION")]}), p);
    WithinCovered(b.customer.ops, Nothing, p);
    WithinCovered(b.job.ops, Nothing.(wrapped := DescriptionSet(job.description)), p);
    WithinCovered(b.date.ops, Nothing.(compound := QuoteDateSet(job.quoteDate)), p);
  }

  /** The cost table of a quote and everything under it keep to the quote's profile. */
  lemma QuoteTableWithin(job: Job, customer: Customer, settings: Settings, logoLoaded: bool, lineCount: LineCount)
    ensures var p := QuoteProfile(job, settings, logoLoaded);
      var b := LayQuote(job, customer, settings, logoLoaded, lineCount);
      && Within(b.table.ops, p) && Within(b.rows.ops, p) && Within(b.subtotal.ops, p)
      && Within(b.vat.ops, p) && Within(b.total.ops, p) && Within(b.footer.ops, p)
  {
    var p := QuoteProfile(job, settings, logoLoaded);
    var b := LayQuote(job, customer, settings, logoLoaded, lineCount);
    TableHeaderWithin(b.date.y, 10, "Cost Breakdown");
    QuoteCostRowsWithin(b.table.y, job, lineCount);
    SubtotalBlockWithin(b.rows.y, job);
    VatBlockWithin(b.subtotal.y, job);
    TotalBlockWithin(b.vat.y, job, "TOTAL:", 12);
    QuoteFooterWithin(b.total.y, job, settings);
    WithinCovered(b.table.ops, Nothing.(captions := {[Str("Item")]}), p);
    WithinCovered(b.rows.ops, Profile(RowCaptions(job), DaysAtRateSet(job), {}, DaysAtRateSet(job), QuoteNotes(job), false), p);
    WithinCovered(b.subtotal.ops, Nothing.(captions := {[Str("Subtotal:")]}), p);
    WithinCovered(b.vat.ops, Nothing.(captions := CaptionSet("VAT (20%):", job.vatAmount)), p);
    WithinCovered(b.total.ops, Nothing.(captions := {[Str("TOTAL:")]}), p);
    WithinCovered(b.footer.ops, Nothing.(compound := VatNumberSet(settings) + ValiditySet(job.quoteDate)), p);
  }

  lemma QuoteWithin(job: Job, customer: Customer, settings: Settings, logoLoaded: bool, lineCount: LineCount)
    ensures Within(QuoteDoc(job, customer, settings, logoLoaded, lineCount).ops, QuoteProfile(job, settings, logoLoaded))
  {
    var p := QuoteProfile(job, settings, logoLoaded);
    var b := LayQuote(job, customer, settings, logoLoaded, lineCount);
    QuoteHeadWithin(job, customer, settings, logoLoaded, lineCount);
    QuoteTableWithin(job, customer, settings, logoLoaded, lineCount);
    var drawn := HeaderOps();
    WithinConcat(drawn, b.logo.ops, p);
    drawn := drawn + b.logo.ops;
    WithinConcat(drawn, b.title.ops, p);
    drawn := drawn + b.title.ops;
    WithinConcat(drawn, b.customer.ops, p);
    drawn := drawn + b.customer.ops;
    WithinConcat(drawn, b.job.ops, p);
    drawn := drawn + b.job.ops;
    WithinConcat(drawn, b.date.ops, p);
    drawn := drawn + b.date.ops;
    WithinConcat(drawn, b.table.ops, p);
    drawn := drawn + b.table.ops;
    WithinConcat(drawn, b.rows.ops, p);
    drawn := drawn + b.rows.ops;
    WithinConcat(drawn, b.subtotal.ops, p);
    drawn := drawn + b.subtotal.ops;
    WithinConcat(drawn, b.vat.ops, p);
    drawn := drawn + b.vat.ops;
    WithinConcat(drawn, b.total.ops, p);
    drawn := drawn + b.total.ops;
    WithinConcat(drawn, b.footer.ops, p);
    drawn := drawn + b.footer.ops;
  }

  /** The blocks above an invoice's cost table keep to the invoice's profile. */
  lemma InvoiceHeadWithin(job: Job, customer: Customer, settings: Settings, logoLoaded: bool, lineCount: LineCount)
    ensures var p := InvoiceProfile(job, settings, logoLoaded);
      var b := LayInvoice(job, customer, settings, logoLoaded, lineCount);
      && Within(HeaderOps(), p) && Within(b.logo.ops, p) && Within(b.title.ops, p)
      && Within(b.customer.ops, p) && Within(b.details.ops, p)
  {
    var p := InvoiceProfile(job, settings, logoLoaded);
    var b := LayInvoice(job, customer, settings, logoLoaded, lineCount);
    HeaderOpsWithin();
    LogoWithin(TopMargin, logoLoaded, settings.businessName);
    InvoiceTitleWithin(b.logo.y, job.invoiceNumber);
    CustomerBlockWithin(b.title.y, "Bill To:", customer);
    InvoiceDetailsWithin(b.customer.y, job, lineCount);
    WithinCovered(HeaderOps(), Nothing, p);
    WithinCovered(b.logo.ops, Nothing.(image := logoLoaded), p);
    WithinCovered(b.title.ops, Nothing.(centred := {[Str("INVOICE")]} + InvoiceNumberSet(job.invoiceNumber)), p);
    WithinCovered(b.customer.ops, Nothing, p);
    WithinCovered(b.details.ops, Nothing.(compound := InvoiceDateSet(job.invoiceDate), wrapped := DescriptionSet(job.description)), p);
  }

  /** The cost table of an invoice and everything under it keep to the invoice's profile. */
  lemma InvoiceTableWithin(job: Job, customer: Customer, settings: Settings, logoLoaded: bool, lineCount: LineCount)
    ensures var p := InvoiceProfile(job, settings, logoLoaded);
      var b := LayInvoice(job, customer, settings, logoLoaded, lineCount);
      && Within(b.table.ops, p) && Within(b.rows.ops, p) && Within(b.subtotal.ops, p)
      && Within(b.vat.ops, p) && Within(b.total.ops, p) && Within(b.payment.ops, p) && Within(b.footer.ops, p)
  {
    var p := InvoiceProfile(job, settings, logoLoaded);
    var b := LayInvoice(job, customer, settings, logoLoaded, lineCount);
    TableHeaderWithin(b.details.y, 15, "Invoice Details");
    InvoiceCostRowsWithin(b.table.y, job);
    SubtotalBlockWithin(b.rows.y, job);
    VatBlockWithin(b.subtotal.y, job);
    TotalBlockWithin(b.vat.y, job, "TOTAL DUE:", 14);
    PaymentDetailsWithin(b.total.y, settings);
    InvoiceFooterWithin(b.payment.y, settings);
    WithinCovered(b.table.ops, Nothing.(captions := {[Str("Item")]}), p);
    WithinCovered(b.rows.ops, Nothing.(captions := RowCaptions(job)), p);
    WithinCovered(b.subtotal.ops, Nothing.(captions := {[Str("Subtotal:")]}), p);
    WithinCovered(b.vat.ops, Nothing.(captions := CaptionSet("VAT (20%):", job.vatAmount)), p);
    WithinCovered(b.total.ops, Nothing.(captions := {[Str("TOTAL DUE:")]}), p);
    WithinCovered(b.payment.ops, Nothing, p);
    WithinCovered(b.footer.ops, Nothing.(compound := VatNumberSet(settings)), p);
  }

  lemma InvoiceWithin(job: Job, customer: Customer, settings: Settings, logoLoaded: bool, lineCount: LineCount)
    ensures Within(InvoiceDoc(job, customer, settings, logoLoaded, lineCount).ops, InvoiceProfile(job, settings, logoLoaded))
  {
    var p := InvoiceProfile(job, settings, logoLoaded);
    var b := LayInvoice(job, customer, settings, logoLoaded, lineCount);
    InvoiceHeadWithin(job, customer, settings, logoLoaded, lineCount);
    InvoiceTableWithin(job, customer, settings, logoLoaded, lineCount);
    var drawn := HeaderOps();
    WithinConcat(drawn, b.logo.ops, p);
    drawn := drawn + b.logo.ops;
    WithinConcat(drawn, b.title.ops, p);
    drawn := drawn + b.title.ops;
    WithinConcat(drawn, b.customer.ops, p);
    drawn := drawn + b.customer.ops;
    WithinConcat(drawn, b.details.ops, p);
    drawn := drawn + b.details.ops;
    WithinConcat(drawn, b.table.ops, p);
    drawn := drawn + b.table.ops;
    WithinConcat(drawn, b.rows.ops, p);
    drawn := drawn + b.rows.ops;
    WithinConcat(drawn, b.subtotal.ops, p);
    drawn := drawn + b.subtotal.ops;
    WithinConcat(drawn, b.vat.ops, p);
    drawn := drawn + b.vat.ops;
    WithinConcat(drawn, b.total.ops, p);
    drawn := drawn + b.total.ops;
    WithinConcat(drawn, b.payment.ops, p);
    drawn := drawn + b.payment.ops;
    WithinConcat(drawn, b.footer.ops, p);
    drawn := drawn + b.footer.ops;
  }

  // ---------------------------------------------------------------- document properties

  /** The rows of a quote's cost table that have a positive amount, and their notes. */
  lemma QuoteCostRowsShow(y: int, job: Job, lineCount: LineCount)
    ensures var ops := QuoteCostRows(y, job, lineCount).ops;
      && (Positive(job.materialsCost) ==> ShowsRow(ops, "Materials", job.materialsCost.value))
      && (Positive(job.labourCost) ==> ShowsRow(ops, "Labour", job.labourCost.value))
      && (Positive(job.otherCosts) ==> ShowsRow(ops, "Other Costs", job.otherCosts.value))
      && (HasDaysAtRate(job) ==> ShowsAt(ops, DaysAtRate(job.labourDays.value, job.labourDayRate.value), 30))
      && (Positive(job.materialsCost) && Present(job.materialsNotes) ==> WrapsAt(ops, job.materialsNotes.value, 30))
      && (Positive(job.otherCosts) && Present(job.otherCostsNotes) ==> WrapsAt(ops, job.otherCostsNotes.value, 30))
  {
    var materials := QuoteNotedRow(y, 0, "Materials", job.materialsCost, job.materialsNotes, lineCount);
    var labour := QuoteLabourRow(materials.y, job);
    var other := QuoteNotedRow(labour.y, 3, "Other Costs", job.otherCosts, job.otherCostsNotes, lineCount);
    var ops := materials.ops + labour.ops + other.ops;
    assert ops == QuoteCostRows(y, job, lineCount).ops;
    if Positive(job.materialsCost) {
      assert InRow(ops, y, "Materials", job.materialsCost.value);
      if Present(job.materialsNotes) {
        assert WrappedText(job.materialsNotes.value, 140, 30, y + 6) in ops;
      }
    }
    if Positive(job.labourCost) {
      assert InRow(ops, materials.y + 3, "Labour", job.labourCost.value);
    }
    if HasDaysAtRate(job) {
      assert Text(DaysAtRate(job.labourDays.value, job.labourDayRate.value), 30, materials.y + 9, Left) in ops;
    }
    if Positive(job.otherCosts) {
      assert InRow(ops, labour.y + 3, "Other Costs", job.otherCosts.value);
      if Present(job.otherCostsNotes) {
        assert WrappedText(job.otherCostsNotes.value, 140, 30, labour.y + 9) in ops;
      }
    }
  }

  /** Every operation of `a` is also in `ops`. */
  predicate Contains(ops: seq<Op>, a: seq<Op>)
  {
    forall op :: op in a ==> op in ops
  }

  /** What a document within a profile draws in the watched places, the profile allows. */
  lemma ShownAllowed(ops: seq<Op>, p: Profile, pieces: seq<Piece>, x: int)
    requires Within(ops, p) && ShowsAt(ops, pieces, x)
    ensures x == 25 ==> pieces in p.captions
    ensures x == 30 ==> pieces in p.notes
    ensures x == 105 ==> pieces in p.centred
    ensures |pieces| > 1 ==> pieces in p.compound
  {
    var op :| op in ops && op.Text? && op.pieces == pieces && op.x == x;
    assert Allowed(op, p);
  }

  lemma WrappedAllowed(ops: seq<Op>, p: Profile, text: string, x: int)
    requires Within(ops, p) && WrapsAt(ops, text, x)
    ensures (text, x) in p.wrapped
  {
    var op :| op in ops && op.WrappedText? && op.text == text && op.x == x;
    assert Allowed(op, p);
  }

  lemma ShowsRowContained(ops: seq<Op>, a: seq<Op>, caption: string, amount: real)
    requires Contains(ops, a) && ShowsRow(a, caption, amount)
    ensures ShowsRow(ops, caption, amount)
  {
    var y :| InRow(a, y, caption, amount);
    assert InRow(ops, y, caption, amount);
  }

  lemma ShowsAtContained(ops: seq<Op>, a: seq<Op>, pieces: seq<Piece>, x: int)
    requires Contains(ops, a) && ShowsAt(a, pieces, x)
    ensures ShowsAt(ops, pieces, x)
  {
    var op :| op in a && op.Text? && op.pieces == pieces && op.x == x;
    assert op in ops;
  }

  lemma WrapsAtContained(ops: seq<Op>, a: seq<Op>, text: string, x: int)
    requires Contains(ops, a) && WrapsAt(a, text, x)
    ensures WrapsAt(ops, text, x)
  {
    var op :| op in a && op.WrappedText? && op.text == text && op.x == x;
    assert op in ops;
  }

  /** Each block of a quote is drawn in the quote. */
  lemma QuoteContainsBlocks(job: Job, customer: Customer, settings: Settings, logoLoaded: bool, lineCount: LineCount)
    ensures var ops := QuoteDoc(job, customer, settings, logoLoaded, lineCount).ops;
      var b := LayQuote(job, customer, settings, logoLoaded, lineCount);
      && Contains(ops, b.logo.ops) && Contains(ops, b.title.ops) && Contains(ops, b.customer.ops)
      && Contains(ops, b.job.ops) && Contains(ops, b.date.ops) && Contains(ops, b.rows.ops)
      && Contains(ops, b.subtotal.ops) && Contains(ops, b.vat.ops) && Contains(ops, b.total.ops)
      && Contains(ops, b.footer.ops)
  {
  }

  /** A quote's cost table has a row for each positive amount and no other row caption:
      a caption is drawn in the caption column exactly when its amount is positive. */
  lemma QuoteRows(job: Job, customer: Customer, settings: Settings, logoLoaded: bool, lineCount: LineCount)
    ensures var ops := QuoteDoc(job, customer, settings, logoLoaded, lineCount).ops;
      && (ShowsAt(ops, [Str("Materials")], 25) <==> Positive(job.materialsCost))
      && (ShowsAt(ops, [Str("Labour")], 25) <==> Positive(job.labourCost))
      && (ShowsAt(ops, [Str("Other Costs")], 25) <==> Positive(job.otherCosts))
      && (Positive(job.materialsCost) ==> ShowsRow(ops, "Materials", job.materialsCost.value))
      && (Positive(job.labourCost) ==> ShowsRow(ops, "Labour", job.labourCost.value))
      && (Positive(job.otherCosts) ==> ShowsRow(ops, "Other Costs", job.otherCosts.value))
  {
    var p := QuoteProfile(job, settings, logoLoaded);
    var b := LayQuote(job, customer, settings, logoLoaded, lineCount);
    var ops := QuoteDoc(job, customer, settings, logoLoaded, lineCount).ops;
    QuoteWithin(job, customer, settings, logoLoaded, lineCount);
    QuoteContainsBlocks(job, customer, settings, logoLoaded, lineCount);
    QuoteCostRowsShow(b.table.y, job, lineCount);
    CaptionsApart(job, "TOTAL:");
    RowShown(ops, b.rows.ops, p, OtherCaptions(job, "TOTAL:", "Materials"), "Materials", job.materialsCost);
    RowShown(ops, b.rows.ops, p, OtherCaptions(job, "TOTAL:", "Labour"), "Labour", job.labourCost);
    RowShown(ops, b.rows.ops, p, OtherCaptions(job, "TOTAL:", "Other Costs"), "Other Costs", job.otherCosts);
  }

  /** A drawn row shows its caption in the caption column. */
  lemma RowShowsCaption(ops: seq<Op>, caption: string, amount: real)
    requires ShowsRow(ops, caption, amount)
    ensures ShowsAt(ops, [Str(caption)], 25)
  {
    var y :| InRow(ops, y, caption, amount);
    assert TextOp(caption, 25, y) in ops;
  }

  /** Both directions of the row property for one caption, in a document within `p`
      whose rows block draws the row when its amount is positive. */
  lemma RowShown(ops: seq<Op>, rows: seq<Op>, p: Profile, others: set<seq<Piece>>, caption: string, amount: Option<real>)
    requires Within(ops, p) && Contains(ops, rows)
    requires p.captions == others + CaptionSet(caption, amount) && [Str(caption)] !in others
    requires Positive(amount) ==> ShowsRow(rows, caption, amount.value)
    ensures ShowsAt(ops, [Str(caption)], 25) <==> Positive(amount)
    ensures Positive(amount) ==> ShowsRow(ops, caption, amount.value)
  {
    if Positive(amount) {
      ShowsRowContained(ops, rows, caption, amount.value);
      RowShowsCaption(ops, caption, amount.value);
    }
    if ShowsAt(ops, [Str(caption)], 25) {
      ShownAllowed(ops, p, [Str(caption)], 25);
    }
  }

  /** The captions a document may show besides the three cost rows. */
  function FixedCaptions(job: Job, totalCaption: string): set<seq<Piece>>
  {
    BaseCaptions(totalCaption) + CaptionSet("VAT (20%):", job.vatAmount)
  }

  /** The captions every document shows: the table heading, the subtotal and the total. */
  function BaseCaptions(totalCaption: string): set<seq<Piece>>
  {
    {[Str("Item")], [Str("Subtotal:")], [Str(totalCaption)]}
  }

  /** The captions a document may show besides the row for `caption`. */
  function OtherCaptions(job: Job, totalCaption: string, caption: string): set<seq<Piece>>
  {
    FixedCaptions(job, totalCaption)
    + (if caption == "Materials" then {} else CaptionSet("Materials", job.materialsCost))
    + (if caption == "Labour" then {} else CaptionSet("Labour", job.labourCost))
    + (if caption == "Other Costs" then {} else CaptionSet("Other Costs", job.otherCosts))
  }

  /** No row caption is one of the other captions, so each is shown only for its own row. */
  lemma CaptionsApart(job: Job, totalCaption: string)
    requires totalCaption == "TOTAL:" || totalCaption == "TOTAL DUE:"
    ensures var all := FixedCaptions(job, totalCaption) + RowCaptions(job);
      && all == OtherCaptions(job, totalCaption, "Materials") + CaptionSet("Materials", job.materialsCost)
      && all == OtherCaptions(job, totalCaption, "Labour") + CaptionSet("Labour", job.labourCost)
      && all == OtherCaptions(job, totalCaption, "Other Costs") + CaptionSet("Other Costs", job.otherCosts)
      && [Str("Materials")] !in OtherCaptions(job, totalCaption, "Materials")
      && [Str("Labour")] !in OtherCaptions(job, totalCaption, "Labour")
      && [Str("Other Costs")] !in OtherCaptions(job, totalCaption, "Other Costs")
  {
  }

  lemma VatCaptionApart(job: Job, totalCaption: string)
    requires totalCaption == "TOTAL:" || totalCaption == "TOTAL DUE:"
    ensures FixedCaptions(job, totalCaption) + RowCaptions(job)
      == (BaseCaptions(totalCaption) + RowCaptions(job)) + CaptionSet("VAT (20%):", job.vatAmount)
    ensures [Str("VAT (20%):")] !in BaseCaptions(totalCaption) + RowCaptions(job)
  {
  }

  /** The subtotal and the total are always shown, with the stored amounts (zero when
      missing); the VAT line is shown exactly when the stored VAT is positive. */
  lemma TotalsShown(ops: seq<Op>, p: Profile, job: Job, totalCaption: string, totalSize: int, y1: int, y2: int, y3: int)
    requires totalCaption == "TOTAL:" || totalCaption == "TOTAL DUE:"
    requires Within(ops, p) && p.captions == FixedCaptions(job, totalCaption) + RowCaptions(job)
    requires Contains(ops, SubtotalBlock(y1, job).ops) && Contains(ops, VatBlock(y2, job).ops)
    requires Contains(ops, TotalBlock(y3, job, totalCaption, totalSize).ops)
    ensures ShowsRow(ops, "Subtotal:", OrZero(job.subtotal))
    ensures ShowsRow(ops, totalCaption, OrZero(job.total))
    ensures ShowsAt(ops, [Str("VAT (20%):")], 25) <==> Positive(job.vatAmount)
    ensures Positive(job.vatAmount) ==> ShowsRow(ops, "VAT (20%):", job.vatAmount.value)
  {
    var sub, vat, tot := SubtotalBlock(y1, job), VatBlock(y2, job), TotalBlock(y3, job, totalCaption, totalSize);
    assert InRow(sub.ops, sub.y, "Subtotal:", OrZero(job.subtotal));
    ShowsRowContained(ops, sub.ops, "Subtotal:", OrZero(job.subtotal));
    assert InRow(tot.ops, tot.y, totalCaption, OrZero(job.total));
    ShowsRowContained(ops, tot.ops, totalCaption, OrZero(job.total));
    if Positive(job.vatAmount) {
      assert InRow(vat.ops, vat.y, "VAT (20%):", job.vatAmount.value);
    }
    VatCaptionApart(job, totalCaption);
    RowShown(ops, vat.ops, p, BaseCaptions(totalCaption) + RowCaptions(job), "VAT (20%):", job.vatAmount);
  }

  /** A quote's subtotal, VAT and total lines. */
  lemma QuoteTotals(job: Job, customer: Customer, settings: Settings, logoLoaded: bool, lineCount: LineCount)
    ensures var ops := QuoteDoc(job, customer, settings, logoLoaded, lineCount).ops;
      && ShowsRow(ops, "Subtotal:", OrZero(job.subtotal))
      && ShowsRow(ops, "TOTAL:", OrZero(job.total))
      && (ShowsAt(ops, [Str("VAT (20%):")], 25) <==> Positive(job.vatAmount))
      && (Positive(job.vatAmount) ==> ShowsRow(ops, "VAT (20%):", job.vatAmount.value))
  {
    var b := LayQuote(job, customer, settings, logoLoaded, lineCount);
    QuoteWithin(job, customer, settings, logoLoaded, lineCount);
    QuoteContainsBlocks(job, customer, settings, logoLoaded, lineCount);
    TotalsShown(QuoteDoc(job, customer, settings, logoLoaded, lineCount).ops, QuoteProfile(job, settings, logoLoaded),
                job, "TOTAL:", 12, b.rows.y, b.subtotal.y, b.vat.y);
  }

  /** Some image is placed only where the profile allows one. */
  lemma ImageAllowed(ops: seq<Op>, p: Profile)
    requires Within(ops, p) && PlacesImage(ops)
    ensures p.image
  {
    var op :| op in ops && op.PlaceImage?;
    assert Allowed(op, p);
  }

  /** The logo is placed exactly when it could be loaded, and the business name stands
      in for it otherwise. */
  lemma LogoShown(ops: seq<Op>, p: Profile, logoLoaded: bool, businessName: Option<string>)
    requires Within(ops, p) && p.image == logoLoaded
    requires Contains(ops, Logo(TopMargin, logoLoaded, businessName).ops)
    ensures PlacesImage(ops) <==> logoLoaded
    ensures !logoLoaded ==> TextOp(FallbackName(businessName), 20, TopMargin) in ops
  {
    if logoLoaded {
      assert PlaceImage(20, TopMargin, 60) in ops;
    }
    if PlacesImage(ops) {
      ImageAllowed(ops, p);
    }
  }

  /** The customer heading and name are drawn in the text column. */
  lemma CustomerShown(ops: seq<Op>, y: int, heading: string, customer: Customer)
    requires Contains(ops, CustomerBlock(y, heading, customer).ops)
    ensures ShowsAt(ops, [Str(heading)], 20) && ShowsAt(ops, [Str(customer.name)], 20)
  {
    assert TextOp(heading, 20, y + 15) in ops;
    assert TextOp(customer.name, 20, y + 22) in ops;
  }

  lemma QuoteTitleShown(ops: seq<Op>, p: Profile, y: int)
    requires Within(ops, p) && p.centred == {[Str("QUOTATION")]}
    requires Contains(ops, QuoteTitle(y).ops)
    ensures forall pieces :: ShowsAt(ops, pieces, 105) <==> pieces == [Str("QUOTATION")]
  {
    assert Text([Str("QUOTATION")], PageWidth / 2, y + 15, Center) in ops;
    forall pieces | ShowsAt(ops, pieces, 105)
      ensures pieces == [Str("QUOTATION")]
    {
      ShownAllowed(ops, p, pieces, 105);
    }
  }

  /** A quote shows the logo or the business name, the title as its only centred
      text, the customer and the job title. */
  lemma QuoteHeading(job: Job, customer: Customer, settings: Settings, logoLoaded: bool, lineCount: LineCount)
    ensures var ops := QuoteDoc(job, customer, settings, logoLoaded, lineCount).ops;
      && (PlacesImage(ops) <==> logoLoaded)
      && (!logoLoaded ==> TextOp(FallbackName(settings.businessName), 20, TopMargin) in ops)
      && (forall pieces :: ShowsAt(ops, pieces, 105) <==> pieces == [Str("QUOTATION")])
      && ShowsAt(ops, [Str("Customer:")], 20) && ShowsAt(ops, [Str(customer.name)], 20)
      && ShowsAt(ops, [Str(job.title)], 20)
  {
    var b := LayQuote(job, customer, settings, logoLoaded, lineCount);
    var ops := QuoteDoc(job, customer, settings, logoLoaded, lineCount).ops;
    var p := QuoteProfile(job, settings, logoLoaded);
    QuoteWithin(job, customer, settings, logoLoaded, lineCount);
    QuoteContainsBlocks(job, customer, settings, logoLoaded, lineCount);
    LogoShown(ops, p, logoLoaded, settings.businessName);
    QuoteTitleShown(ops, p, b.logo.y);
    CustomerShown(ops, b.title.y, "Customer:", customer);
    JobTitleShown(ops, b.customer.y, job, lineCount);
  }

  lemma JobTitleShown(ops: seq<Op>, y: int, job: Job, lineCount: LineCount)
    requires Contains(ops, QuoteJobBlock(y, job, lineCount).ops)
    ensures ShowsAt(ops, [Str(job.title)], 20)
    ensures Present(job.description) ==> WrapsAt(ops, job.description.value, 20)
  {
    assert TextOp(job.title, 20, y + 17) in ops;
    if Present(job.description) {
      assert WrappedText(job.description.value, 170, 20, y + 24) in ops;
    }
  }

  /** The note column holds only the days-at-rate caption. */
  lemma QuoteNoteColumn(ops: seq<Op>, p: Profile, job: Job)
    requires Within(ops, p) && p.notes == DaysAtRateSet(job)
    requires HasDaysAtRate(job) ==> ShowsAt(ops, DaysAtRate(job.labourDays.value, job.labourDayRate.value), 30)
    ensures forall pieces :: ShowsAt(ops, pieces, 30) <==>
      HasDaysAtRate(job) && pieces == DaysAtRate(job.labourDays.value, job.labourDayRate.value)
  {
    forall pieces | ShowsAt(ops, pieces, 30)
      ensures HasDaysAtRate(job) && pieces == DaysAtRate(job.labourDays.value, job.labourDayRate.value)
    {
      ShownAllowed(ops, p, pieces, 30);
    }
  }

  /** The wrapped texts are the description, in the text column, and the notes of the
      positive rows, in the note column. */
  lemma QuoteWrapped(ops: seq<Op>, p: Profile, job: Job)
    requires Within(ops, p) && p.wrapped == DescriptionSet(job.description) + QuoteNotes(job)
    requires Present(job.description) ==> WrapsAt(ops, job.description.value, 20)
    requires Positive(job.materialsCost) && Present(job.materialsNotes) ==> WrapsAt(ops, job.materialsNotes.value, 30)
    requires Positive(job.otherCosts) && Present(job.otherCostsNotes) ==> WrapsAt(ops, job.otherCostsNotes.value, 30)
    ensures forall t :: WrapsAt(ops, t, 30) <==>
      (Positive(job.materialsCost) && Present(job.materialsNotes) && t == job.materialsNotes.value)
      || (Positive(job.otherCosts) && Present(job.otherCostsNotes) && t == job.otherCostsNotes.value)
    ensures forall t :: WrapsAt(ops, t, 20) <==> Present(job.description) && t == job.description.value
    ensures forall t, x :: WrapsAt(ops, t, x) ==> x == 20 || x == 30
  {
    forall t, x | WrapsAt(ops, t, x)
      ensures (t, x) in DescriptionSet(job.description) + QuoteNotes(job)
    {
      WrappedAllowed(ops, p, t, x);
    }
  }

  /** What a quote draws in the note column and what it wraps. */
  lemma QuoteNotesShown(job: Job, customer: Customer, settings: Settings, logoLoaded: bool, lineCount: LineCount)
    ensures var ops := QuoteDoc(job, customer, settings, logoLoaded, lineCount).ops;
      && (forall pieces :: ShowsAt(ops, pieces, 30) <==>
            HasDaysAtRate(job) && pieces == DaysAtRate(job.labourDays.value, job.labourDayRate.value))
      && (forall t :: WrapsAt(ops, t, 30) <==>
            (Positive(job.materialsCost) && Present(job.materialsNotes) && t == job.materialsNotes.value)
            || (Positive(job.otherCosts) && Present(job.otherCostsNotes) && t == job.otherCostsNotes.value))
      && (forall t :: WrapsAt(ops, t, 20) <==> Present(job.description) && t == job.description.value)
      && (forall t, x :: WrapsAt(ops, t, x) ==> x == 20 || x == 30)
  {
    var b := LayQuote(job, customer, settings, logoLoaded, lineCount);
    var ops := QuoteDoc(job, customer, settings, logoLoaded, lineCount).ops;
    QuoteWithin(job, customer, settings, logoLoaded, lineCount);
    QuoteContainsBlocks(job, customer, settings, logoLoaded, lineCount);
    QuoteNotesIn(ops, QuoteProfile(job, settings, logoLoaded), b.customer.y, b.table.y, job, lineCount);
  }

  /** The notes column and the wrapped texts of any page that holds the quote's
      job section and cost rows and stays within the quote's profile. */
  lemma QuoteNotesIn(ops: seq<Op>, p: Profile, jobY: int, rowsY: int, job: Job, lineCount: LineCount)
    requires Within(ops, p)
    requires p.notes == DaysAtRateSet(job) && p.wrapped == DescriptionSet(job.description) + QuoteNotes(job)
    requires Contains(ops, QuoteJobBlock(jobY, job, lineCount).ops)
    requires Contains(ops, QuoteCostRows(rowsY, job, lineCount).ops)
    ensures forall pieces :: ShowsAt(ops, pieces, 30) <==>
      HasDaysAtRate(job) && pieces == DaysAtRate(job.labourDays.value, job.labourDayRate.value)
    ensures forall t :: WrapsAt(ops, t, 30) <==>
      (Positive(job.materialsCost) && Present(job.materialsNotes) && t == job.materialsNotes.value)
      || (Positive(job.otherCosts) && Present(job.otherCostsNotes) && t == job.otherCostsNotes.value)
    ensures forall t :: WrapsAt(ops, t, 20) <==> Present(job.description) && t == job.description.value
    ensures forall t, x :: WrapsAt(ops, t, x) ==> x == 20 || x == 30
  {
    QuoteCostRowsShow(rowsY, job, lineCount);
    if HasDaysAtRate(job) {
      ShowsAtContained(ops, QuoteCostRows(rowsY, job, lineCount).ops, DaysAtRate(job.labourDays.value, job.labourDayRate.value), 30);
    }
    QuoteNoteColumn(ops, p, job);
    JobTitleShown(ops, jobY, job, lineCount);
    if Positive(job.materialsCost) && Present(job.materialsNotes) {
      WrapsAtContained(ops, QuoteCostRows(rowsY, job, lineCount).ops, job.materialsNotes.value, 30);
    }
    if Positive(job.otherCosts) && Present(job.otherCostsNotes) {
      WrapsAtContained(ops, QuoteCostRows(rowsY, job, lineCount).ops, job.otherCostsNotes.value, 30);
    }
    QuoteWrapped(ops, p, job);
  }

  /** The dated lines and the VAT number line of a quote are exactly those its fields call for. */
  lemma QuoteCompound(ops: seq<Op>, p: Profile, job: Job, settings: Settings)
    requires Within(ops, p)
    requires p.compound == QuoteDateSet(job.quoteDate) + DaysAtRateSet(job) + VatNumberSet(settings) + ValiditySet(job.quoteDate)
    requires job.quoteDate.Some? ==>
      ShowsAt(ops, QuoteDatePieces(job.quoteDate.value), 20) && ShowsAt(ops, ValidityPieces(job.quoteDate.value), 20)
    requires ShowsVatNumber(settings) ==> ShowsAt(ops, VatNumberPieces(settings.vatNumber.value), 20)
    ensures forall d :: ShowsAt(ops, QuoteDatePieces(d), 20) <==> job.quoteDate == Some(d)
    ensures forall d :: ShowsAt(ops, ValidityPieces(d), 20) <==> job.quoteDate == Some(d)
    ensures forall v :: ShowsAt(ops, VatNumberPieces(v), 20) <==> ShowsVatNumber(settings) && v == settings.vatNumber.value
  {
    forall d | ShowsAt(ops, QuoteDatePieces(d), 20)
      ensures job.quoteDate == Some(d)
    {
      ShownAllowed(ops, p, QuoteDatePieces(d), 20);
      QuoteCompoundMember(QuoteDatePieces(d), job, settings);
    }
    forall d | ShowsAt(ops, ValidityPieces(d), 20)
      ensures job.quoteDate == Some(d)
    {
      ShownAllowed(ops, p, ValidityPieces(d), 20);
      QuoteCompoundMember(ValidityPieces(d), job, settings);
    }
    forall v | ShowsAt(ops, VatNumberPieces(v), 20)
      ensures ShowsVatNumber(settings) && v == settings.vatNumber.value
    {
      ShownAllowed(ops, p, VatNumberPieces(v), 20);
      QuoteCompoundMember(VatNumberPieces(v), job, settings);
    }
  }

  /** The compound lines a quote may show are told apart by their leading label:
      a quote date, a validity line and a VAT number line each come from their
      own field. */
  lemma QuoteCompoundMember(pieces: seq<Piece>, job: Job, settings: Settings)
    requires pieces in QuoteDateSet(job.quoteDate) + DaysAtRateSet(job) + VatNumberSet(settings) + ValiditySet(job.quoteDate)
    ensures forall d :: pieces == QuoteDatePieces(d) ==> job.quoteDate == Some(d)
    ensures forall d :: pieces == ValidityPieces(d) ==> job.quoteDate == Some(d)
    ensures forall v :: pieces == VatNumberPieces(v) ==> ShowsVatNumber(settings) && v == settings.vatNumber.value
  {
    if |pieces| == 2 && pieces[0].Str? {
      var caption := pieces[0].s;
      if caption == "Quote Date: " {
        assert caption[0] == 'Q';
        assert pieces in QuoteDateSet(job.quoteDate);
      } else if caption == "Valid for 30 days from " {
        assert caption[0] == 'V' && caption[1] == 'a';
        assert pieces in ValiditySet(job.quoteDate);
      } else if caption == "VAT Registration Number: " {
        assert caption[0] == 'V' && caption[1] == 'A';
        assert pieces in VatNumberSet(settings);
      }
    }
  }

  /** A text that is in a block is shown in a document containing the block. */
  lemma TextShown(ops: seq<Op>, a: seq<Op>, pieces: seq<Piece>, x: int, y: int, align: Align)
    requires Contains(ops, a) && Text(pieces, x, y, align) in a
    ensures ShowsAt(ops, pieces, x)
  {
    assert Text(pieces, x, y, align) in ops;
  }

  /** A quote shows its date and its validity exactly when it has a date, the VAT
      registration number exactly when the business is registered and has one. */
  lemma QuoteDatesShown(job: Job, customer: Customer, settings: Settings, logoLoaded: bool, lineCount: LineCount)
    ensures var d := QuoteDoc(job, customer, settings, logoLoaded, lineCount);
      && (forall day :: ShowsAt(d.ops, QuoteDatePieces(day), 20) <==> job.quoteDate == Some(day))
      && (forall day :: ShowsAt(d.ops, ValidityPieces(day), 20) <==> job.quoteDate == Some(day))
      && (forall v :: ShowsAt(d.ops, VatNumberPieces(v), 20) <==> ShowsVatNumber(settings) && v == settings.vatNumber.value)
  {
    var b := LayQuote(job, customer, settings, logoLoaded, lineCount);
    var ops := QuoteDoc(job, customer, settings, logoLoaded, lineCount).ops;
    QuoteWithin(job, customer, settings, logoLoaded, lineCount);
    QuoteContainsBlocks(job, customer, settings, logoLoaded, lineCount);
    QuoteDateShown(ops, b.job.y, job.quoteDate);
    QuoteFooterShown(ops, b.total.y, job, settings);
    QuoteCompound(ops, QuoteProfile(job, settings, logoLoaded), job, settings);
  }

  // ---------------------------------------------------------------- invoice properties

  /** The rows of an invoice's cost table that have a positive amount. */
  lemma InvoiceCostRowsShow(y: int, job: Job)
    ensures var ops := InvoiceCostRows(y, job).ops;
      && (Positive(job.materialsCost) ==> ShowsRow(ops, "Materials", job.materialsCost.value))
      && (Positive(job.labourCost) ==> ShowsRow(ops, "Labour", job.labourCost.value))
      && (Positive(job.otherCosts) ==> ShowsRow(ops, "Other Costs", job.otherCosts.value))
  {
    var materials := InvoiceRow(y, "Materials", job.materialsCost);
    var labour := InvoiceRow(materials.y, "Labour", job.labourCost);
    var other := InvoiceRow(labour.y, "Other Costs", job.otherCosts);
    var ops := materials.ops + labour.ops + other.ops;
    assert ops == InvoiceCostRows(y, job).ops;
    if Positive(job.materialsCost) {
      assert InRow(ops, y, "Materials", job.materialsCost.value);
    }
    if Positive(job.labourCost) {
      assert InRow(ops, materials.y, "Labour", job.labourCost.value);
    }
    if Positive(job.otherCosts) {
      assert InRow(ops, labour.y, "Other Costs", job.otherCosts.value);
    }
  }

  /** Each block of an invoice is drawn in the invoice. */
  lemma InvoiceContainsBlocks(job: Job, customer: Customer, settings: Settings, logoLoaded: bool, lineCount: LineCount)
    ensures var ops := InvoiceDoc(job, customer, settings, logoLoaded, lineCount).ops;
      var b := LayInvoice(job, customer, settings, logoLoaded, lineCount);
      && Contains(ops, b.logo.ops) && Contains(ops, b.title.ops) && Contains(ops, b.customer.ops)
      && Contains(ops, b.details.ops) && Contains(ops, b.rows.ops) && Contains(ops, b.subtotal.ops)
      && Contains(ops, b.vat.ops) && Contains(ops, b.total.ops) && Contains(ops, b.payment.ops)
      && Contains(ops, b.footer.ops)
  {
  }

  /** An invoice's cost table has a row for each positive amount and no other row caption. */
  lemma InvoiceRows(job: Job, customer: Customer, settings: Settings, logoLoaded: bool, lineCount: LineCount)
    ensures var ops := InvoiceDoc(job, customer, settings, logoLoaded, lineCount).ops;
      && (ShowsAt(ops, [Str("Materials")], 25) <==> Positive(job.materialsCost))
      && (ShowsAt(ops, [Str("Labour")], 25) <==> Positive(job.labourCost))
      && (ShowsAt(ops, [Str("Other Costs")], 25) <==> Positive(job.otherCosts))
      && (Positive(job.materialsCost) ==> ShowsRow(ops, "Materials", job.materialsCost.value))
      && (Positive(job.labourCost) ==> ShowsRow(ops, "Labour", job.labourCost.value))
      && (Positive(job.otherCosts) ==> ShowsRow(ops, "Other Costs", job.otherCosts.value))
  {
    var p := InvoiceProfile(job, settings, logoLoaded);
    var b := LayInvoice(job, customer, settings, logoLoaded, lineCount);
    var ops := InvoiceDoc(job, customer, settings, logoLoaded, lineCount).ops;
    InvoiceWithin(job, customer, settings, logoLoaded, lineCount);
    InvoiceContainsBlocks(job, customer, settings, logoLoaded, lineCount);
    InvoiceCostRowsShow(b.table.y, job);
    CaptionsApart(job, "TOTAL DUE:");
    RowShown(ops, b.rows.ops, p, OtherCaptions(job, "TOTAL DUE:", "Materials"), "Materials", job.materialsCost);
    RowShown(ops, b.rows.ops, p, OtherCaptions(job, "TOTAL DUE:", "Labour"), "Labour", job.labourCost);
    RowShown(ops, b.rows.ops, p, OtherCaptions(job, "TOTAL DUE:", "Other Costs"), "Other Costs", job.otherCosts);
  }

  /** An invoice's subtotal, VAT and total-due lines. */
  lemma InvoiceTotals(job: Job, customer: Customer, settings: Settings, logoLoaded: bool, lineCount: LineCount)
    ensures var ops := InvoiceDoc(job, customer, settings, logoLoaded, lineCount).ops;
      && ShowsRow(ops, "Subtotal:", OrZero(job.subtotal))
      && ShowsRow(ops, "TOTAL DUE:", OrZero(job.total))
      && (ShowsAt(ops, [Str("VAT (20%):")], 25) <==> Positive(job.vatAmount))
      && (Positive(job.vatAmount) ==> ShowsRow(ops, "VAT (20%):", job.vatAmount.value))
  {
    var b := LayInvoice(job, customer, settings, logoLoaded, lineCount);
    InvoiceWithin(job, customer, settings, logoLoaded, lineCount);
    InvoiceContainsBlocks(job, customer, settings, logoLoaded, lineCount);
    TotalsShown(InvoiceDoc(job, customer, settings, logoLoaded, lineCount).ops, InvoiceProfile(job, settings, logoLoaded),
                job, "TOTAL DUE:", 14, b.rows.y, b.subtotal.y, b.vat.y);
  }

  lemma InvoiceTitleShown(ops: seq<Op>, p: Profile, y: int, invoiceNumber: Option<int>)
    requires Within(ops, p) && p.centred == {[Str("INVOICE")]} + InvoiceNumberSet(invoiceNumber)
    requires Contains(ops, InvoiceTitle(y, invoiceNumber).ops)
    ensures forall pieces :: ShowsAt(ops, pieces, 105) <==>
      pieces == [Str("INVOICE")] || (IntPresent(invoiceNumber) && pieces == [Str(InvoiceNumberText(invoiceNumber.value))])
    ensures forall n :: ShowsAt(ops, [Str(InvoiceNumberText(n))], 105) <==> IntPresent(invoiceNumber) && n == invoiceNumber.value
  {
    assert Text([Str("INVOICE")], PageWidth / 2, y + 15, Center) in ops;
    if IntPresent(invoiceNumber) {
      assert Text([Str(InvoiceNumberText(invoiceNumber.value))], PageWidth / 2, y + 25, Center) in ops;
    }
    forall pieces | ShowsAt(ops, pieces, 105)
      ensures pieces == [Str("INVOICE")] || (IntPresent(invoiceNumber) && pieces == [Str(InvoiceNumberText(invoiceNumber.value))])
    {
      ShownAllowed(ops, p, pieces, 105);
    }
    forall n | ShowsAt(ops, [Str(InvoiceNumberText(n))], 105)
      ensures IntPresent(invoiceNumber) && n == invoiceNumber.value
    {
      InvoiceNumberTextInjective(n, n);
      if IntPresent(invoiceNumber) {
        InvoiceNumberTextInjective(n, invoiceNumber.value);
      }
    }
  }

  lemma InvoiceForShown(ops: seq<Op>, y: int, job: Job, lineCount: LineCount)
    requires Contains(ops, InvoiceDetails(y, job, lineCount).ops)
    ensures ShowsAt(ops, [Str(job.title)], 20)
    ensures Present(job.description) ==> WrapsAt(ops, job.description.value, 20)
    ensures job.invoiceDate.Some? ==> ShowsAt(ops, InvoiceDatePieces(job.invoiceDate.value), 20)
  {
    var r := InvoiceDetails(y, job, lineCount);
    TextShown(ops, r.ops, [Str(job.title)], 20, if job.invoiceDate.Some? then y + 22 else y + 16, Left);
    if Present(job.description) {
      WrapsAtContained(ops, r.ops, job.description.value, 20);
    }
    if job.invoiceDate.Some? {
      TextShown(ops, r.ops, InvoiceDatePieces(job.invoiceDate.value), 20, y + 10, Left);
    }
  }

  /** An invoice shows the logo or the business name, the title and its number when it
      has one as its only centred texts, the customer it bills and the job title. */
  lemma InvoiceHeading(job: Job, customer: Customer, settings: Settings, logoLoaded: bool, lineCount: LineCount)
    ensures var ops := InvoiceDoc(job, customer, settings, logoLoaded, lineCount).ops;
      && (PlacesImage(ops) <==> logoLoaded)
      && (!logoLoaded ==> TextOp(FallbackName(settings.businessName), 20, TopMargin) in ops)
      && (forall pieces :: ShowsAt(ops, pieces, 105) <==>
            pieces == [Str("INVOICE")] || (IntPresent(job.invoiceNumber) && pieces == [Str(InvoiceNumberText(job.invoiceNumber.value))]))
      && (forall n :: ShowsAt(ops, [Str(InvoiceNumberText(n))], 105) <==> IntPresent(job.invoiceNumber) && n == job.invoiceNumber.value)
      && ShowsAt(ops, [Str("Bill To:")], 20) && ShowsAt(ops, [Str(customer.name)], 20)
      && ShowsAt(ops, [Str(job.title)], 20)
  {
    var b := LayInvoice(job, customer, settings, logoLoaded, lineCount);
    var ops := InvoiceDoc(job, customer, settings, logoLoaded, lineCount).ops;
    var p := InvoiceProfile(job, settings, logoLoaded);
    InvoiceWithin(job, customer, settings, logoLoaded, lineCount);
    InvoiceContainsBlocks(job, customer, settings, logoLoaded, lineCount);
    LogoShown(ops, p, logoLoaded, settings.businessName);
    InvoiceTitleShown(ops, p, b.logo.y, job.invoiceNumber);
    CustomerShown(ops, b.title.y, "Bill To:", customer);
    InvoiceForShown(ops, b.customer.y, job, lineCount);
  }

  /** An invoice uses no note column, and wraps only the description, in the text column. */
  lemma InvoiceNotesShown(job: Job, customer: Customer, settings: Settings, logoLoaded: bool, lineCount: LineCount)
    ensures var ops := InvoiceDoc(job, customer, settings, logoLoaded, lineCount).ops;
      && (forall pieces :: !ShowsAt(ops, pieces, 30))
      && (forall t, x :: WrapsAt(ops, t, x) <==> x == 20 && Present(job.description) && t == job.description.value)
  {
    var b := LayInvoice(job, customer, settings, logoLoaded, lineCount);
    var ops := InvoiceDoc(job, customer, settings, logoLoaded, lineCount).ops;
    var p := InvoiceProfile(job, settings, logoLoaded);
    InvoiceWithin(job, customer, settings, logoLoaded, lineCount);
    InvoiceContainsBlocks(job, customer, settings, logoLoaded, lineCount);
    InvoiceForShown(ops, b.customer.y, job, lineCount);
    InvoiceWrapped(ops, p, job);
  }

  lemma InvoiceWrapped(ops: seq<Op>, p: Profile, job: Job)
    requires Within(ops, p) && p.notes == {} && p.wrapped == DescriptionSet(job.description)
    requires Present(job.description) ==> WrapsAt(ops, job.description.value, 20)
    ensures forall pieces :: !ShowsAt(ops, pieces, 30)
    ensures forall t, x :: WrapsAt(ops, t, x) <==> x == 20 && Present(job.description) && t == job.description.value
  {
    forall pieces | ShowsAt(ops, pieces, 30)
      ensures false
    {
      ShownAllowed(ops, p, pieces, 30);
    }
    forall t, x | WrapsAt(ops, t, x)
      ensures (t, x) in DescriptionSet(job.description)
    {
      WrappedAllowed(ops, p, t, x);
    }
  }

  lemma InvoiceCompound(ops: seq<Op>, p: Profile, job: Job, settings: Settings)
    requires Within(ops, p)
    requires p.compound == InvoiceDateSet(job.invoiceDate) + VatNumberSet(settings)
    requires job.invoiceDate.Some? ==> ShowsAt(ops, InvoiceDatePieces(job.invoiceDate.value), 20)
    requires ShowsVatNumber(settings) ==> ShowsAt(ops, VatNumberPieces(settings.vatNumber.value), 20)
    ensures forall d :: ShowsAt(ops, InvoiceDatePieces(d), 20) <==> job.invoiceDate == Some(d)
    ensures forall v :: ShowsAt(ops, VatNumberPieces(v), 20) <==> ShowsVatNumber(settings) && v == settings.vatNumber.value
    ensures forall d :: !ShowsAt(ops, ValidityPieces(d), 20)
  {
    forall d | ShowsAt(ops, InvoiceDatePieces(d), 20)
      ensures job.invoiceDate == Some(d)
    {
      ShownAllowed(ops, p, InvoiceDatePieces(d), 20);
    }
    forall v | ShowsAt(ops, VatNumberPieces(v), 20)
      ensures ShowsVatNumber(settings) && v == settings.vatNumber.value
    {
      ShownAllowed(ops, p, VatNumberPieces(v), 20);
    }
    forall d | ShowsAt(ops, ValidityPieces(d), 20)
      ensures false
    {
      ShownAllowed(ops, p, ValidityPieces(d), 20);
    }
  }

  /** An invoice shows its date exactly when it has one, the VAT registration number
      exactly when the business is registered and has one, never a validity period,
      and the payment details heading. */
  lemma InvoiceDatesShown(job: Job, customer: Customer, settings: Settings, logoLoaded: bool, lineCount: LineCount)
    ensures var d := InvoiceDoc(job, customer, settings, logoLoaded, lineCount);
      && (forall day :: ShowsAt(d.ops, InvoiceDatePieces(day), 20) <==> job.invoiceDate == Some(day))
      && (forall v :: ShowsAt(d.ops, VatNumberPieces(v), 20) <==> ShowsVatNumber(settings) && v == settings.vatNumber.value)
      && (forall day :: !ShowsAt(d.ops, ValidityPieces(day), 20))
      && ShowsAt(d.ops, [Str("Payment Details")], 20)
  {
    var b := LayInvoice(job, customer, settings, logoLoaded, lineCount);
    var ops := InvoiceDoc(job, customer, settings, logoLoaded, lineCount).ops;
    InvoiceWithin(job, customer, settings, logoLoaded, lineCount);
    InvoiceContainsBlocks(job, customer, settings, logoLoaded, lineCount);
    InvoiceForShown(ops, b.customer.y, job, lineCount);
    InvoiceFooterShown(ops, b.payment.y, settings);
    PaymentShown(ops, b.total.y, settings);
    InvoiceCompound(ops, InvoiceProfile(job, settings, logoLoaded), job, settings);
  }

  lemma LastOfConcat(a: seq<Op>, b: seq<Op>)
    requires |b| > 0
    ensures (a + b)[|a + b| - 1] == b[|b| - 1]
  {
  }

  /** A quote ends with the payment terms, drawn at the cursor the document ends on. */
  lemma QuoteEnds(job: Job, customer: Customer, settings: Settings, logoLoaded: bool, lineCount: LineCount)
    ensures var d := QuoteDoc(job, customer, settings, logoLoaded, lineCount);
      |d.ops| > 0 && d.ops[|d.ops| - 1] == TextOp(PaymentTerms, 20, d.y)
  {
    var b := LayQuote(job, customer, settings, logoLoaded, lineCount);
    var front := HeaderOps() + b.logo.ops + b.title.ops + b.customer.ops + b.job.ops + b.date.ops + b.table.ops
                 + b.rows.ops + b.subtotal.ops + b.vat.ops + b.total.ops;
    LastOfConcat(front, b.footer.ops);
  }

  /** An invoice ends with the thanks, drawn at the cursor the document ends on. */
  lemma InvoiceEnds(job: Job, customer: Customer, settings: Settings, logoLoaded: bool, lineCount: LineCount)
    ensures var d := InvoiceDoc(job, customer, settings, logoLoaded, lineCount);
      |d.ops| > 0 && d.ops[|d.ops| - 1] == TextOp(Thanks, 20, d.y)
  {
    var b := LayInvoice(job, customer, settings, logoLoaded, lineCount);
    var front := HeaderOps() + b.logo.ops + b.title.ops + b.customer.ops + b.details.ops + b.table.ops
                 + b.rows.ops + b.subtotal.ops + b.vat.ops + b.total.ops + b.payment.ops;
    LastOfConcat(front, b.footer.ops);
  }

  lemma QuoteDateShown(ops: seq<Op>, y: int, quoteDate: Option<Day>)
    requires Contains(ops, QuoteDateLine(y, quoteDate).ops)
    ensures quoteDate.Some? ==> ShowsAt(ops, QuoteDatePieces(quoteDate.value), 20)
  {
    if quoteDate.Some? {
      TextShown(ops, QuoteDateLine(y, quoteDate).ops, QuoteDatePieces(quoteDate.value), 20, y + 10, Left);
    }
  }

  lemma QuoteFooterShown(ops: seq<Op>, y: int, job: Job, settings: Settings)
    requires Contains(ops, QuoteFooter(y, job, settings).ops)
    ensures job.quoteDate.Some? ==> ShowsAt(ops, ValidityPieces(job.quoteDate.value), 20)
    ensures ShowsVatNumber(settings) ==> ShowsAt(ops, VatNumberPieces(settings.vatNumber.value), 20)
  {
    var r := QuoteFooter(y, job, settings);
    if job.quoteDate.Some? {
      TextShown(ops, r.ops, ValidityPieces(job.quoteDate.value), 20, if ShowsVatNumber(settings) then y + 25 else y + 10, Left);
    }
    if ShowsVatNumber(settings) {
      TextShown(ops, r.ops, VatNumberPieces(settings.vatNumber.value), 20, y + 15, Left);
    }
  }

  lemma InvoiceFooterShown(ops: seq<Op>, y: int, settings: Settings)
    requires Contains(ops, InvoiceFooter(y, settings).ops)
    ensures ShowsVatNumber(settings) ==> ShowsAt(ops, VatNumberPieces(settings.vatNumber.value), 20)
  {
    if ShowsVatNumber(settings) {
      TextShown(ops, InvoiceFooter(y, settings).ops, VatNumberPieces(settings.vatNumber.value), 20, y + 10, Left);
    }
  }

  lemma PaymentShown(ops: seq<Op>, y: int, settings: Settings)
    requires Contains(ops, PaymentDetails(y, settings).ops)
    ensures ShowsAt(ops, [Str("Payment Details")], 20)
  {
    TextShown(ops, PaymentDetails(y, settings).ops, [Str("Payment Details")], 20, y + 20, Left);
  }
}
