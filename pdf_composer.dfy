/** The generator as the source writes it: a page that drawing calls append to and a
    `yPos` cursor that the code moves step by step. Each section method issues the
    calls of one block of the generator, in the source's order, and is proved to issue
    exactly the operations of the matching layout function and to leave the cursor
    where that function says. */
module PdfComposer {
  import opened Types
  import opened PdfGenerator

  class Composer {
    /** The drawing calls issued so far, in order. */
    var ops: seq<Op>
    /** The vertical cursor. */
    var yPos: int

    /** `new jsPDF()` and `let yPos = 15`. */
    constructor()
      ensures ops == [] && yPos == TopMargin
    {
      ops := [];
      yPos := TopMargin;
    }

    method Draw(op: Op)
      modifies this
      ensures ops == old(ops) + [op] && yPos == old(yPos)
    {
      ops := ops + [op];
    }

    /** The black band and the fade beneath it. */
    method Header()
      modifies this
      ensures ops == old(ops) + HeaderOps() && yPos == old(yPos)
    {
      Draw(SetFillGray(0));
      Draw(FillRect(0, 0, PageWidth, 50));
      ghost var start := ops;
      for i := 0 to 15
        invariant ops == start + GradientBands(i) && yPos == old(yPos)
      {
        var gray := ((i as real / 15.0) * 255.0).Floor;
        GradientBandsSnoc(i);
        Draw(SetFillGray(gray));
        Draw(FillRect(0, 50 + i, PageWidth, 1));
      }
    }

    /** The logo when it could be loaded, the business name otherwise. */
    method DrawLogo(loaded: bool, businessName: Option<string>)
      modifies this
      ensures ops == old(ops) + Logo(old(yPos), loaded, businessName).ops
      ensures yPos == Logo(old(yPos), loaded, businessName).y
    {
      if loaded {
        Draw(PlaceImage(20, yPos, 60));
        yPos := yPos + 50;
      } else {
        Draw(SetFontSize(20));
        Draw(SetFont(Bold));
        Draw(SetTextGray(255));
        Draw(TextOp(if Present(businessName) then businessName.value else "Business Name", 20, yPos));
        Draw(SetTextGray(0));
        yPos := yPos + 10;
      }
    }

    method DrawQuoteTitle()
      modifies this
      ensures ops == old(ops) + QuoteTitle(old(yPos)).ops && yPos == QuoteTitle(old(yPos)).y
    {
      yPos := yPos + 15;
      Draw(SetFontSize(24));
      Draw(SetFont(Bold));
      Draw(Text([Str("QUOTATION")], PageWidth / 2, yPos, Center));
    }

    method DrawInvoiceTitle(invoiceNumber: Option<int>)
      modifies this
      ensures ops == old(ops) + InvoiceTitle(old(yPos), invoiceNumber).ops
      ensures yPos == InvoiceTitle(old(yPos), invoiceNumber).y
    {
      ghost var start := ops;
      yPos := yPos + 15;
      Draw(SetFontSize(24));
      Draw(SetFont(Bold));
      Draw(Text([Str("INVOICE")], PageWidth / 2, yPos, Center));
      yPos := yPos + 10;
      Draw(SetFontSize(12));
      ghost var title := [SetFontSize(24), SetFont(Bold), Text([Str("INVOICE")], PageWidth / 2, old(yPos) + 15, Center), SetFontSize(12)];
      Pushed4(start, title[0], title[1], title[2], title[3]);
      if IntPresent(invoiceNumber) {
        var line := Text([Str(InvoiceNumberText(invoiceNumber.value))], PageWidth / 2, yPos, Center);
        ghost var titled := ops;
        Draw(line);
        Appended(start, title, [line], InvoiceTitle(old(yPos), invoiceNumber).ops, titled + [line]);
      } else {
        assert InvoiceTitle(old(yPos), invoiceNumber).ops == title + [];
      }
    }

    /** One text per line at the left margin, the cursor moved by 5 before each. */
    method DrawLinesBelow(lines: seq<string>)
      modifies this
      ensures ops == old(ops) + LineOps(lines, old(yPos) + 5) && yPos == old(yPos) + 5 * |lines|
    {
      ghost var start, top := ops, yPos;
      for k := 0 to |lines|
        invariant ops == start + LineOps(lines[..k], top + 5) && yPos == top + 5 * k
      {
        yPos := yPos + 5;
        Draw(TextOp(lines[k], 20, yPos));
        LineOpsSnoc(lines, top + 5, k);
      }
      assert lines[..|lines|] == lines;
    }

    /** One text per line at the left margin, the cursor moved by 5 after each. */
    method DrawLinesFrom(lines: seq<string>)
      modifies this
      ensures ops == old(ops) + LineOps(lines, old(yPos)) && yPos == old(yPos) + 5 * |lines|
    {
      ghost var start, top := ops, yPos;
      for k := 0 to |lines|
        invariant ops == start + LineOps(lines[..k], top) && yPos == top + 5 * k
      {
        Draw(TextOp(lines[k], 20, yPos));
        yPos := yPos + 5;
        LineOpsSnoc(lines, top, k);
      }
      assert lines[..|lines|] == lines;
    }

    /** The heading and the name of the customer block. */
    method DrawCustomerHead(heading: string, name: string)
      modifies this
      ensures ops == old(ops) + [SetFontSize(12), SetFont(Bold), TextOp(heading, 20, old(yPos) + 15),
                                 SetFont(Normal), TextOp(name, 20, old(yPos) + 22)]
      ensures yPos == old(yPos) + 22
    {
      yPos := yPos + 15;
      Draw(SetFontSize(12));
      Draw(SetFont(Bold));
      Draw(TextOp(heading, 20, yPos));
      Draw(SetFont(Normal));
      yPos := yPos + 7;
      Draw(TextOp(name, 20, yPos));
    }

    method DrawCustomer(heading: string, customer: Customer)
      modifies this
      ensures ops == old(ops) + CustomerBlock(old(yPos), heading, customer).ops
      ensures yPos == CustomerBlock(old(yPos), heading, customer).y
    {
      ghost var start, y := ops, yPos;
      var lines := FieldLines(customer.address);
      ghost var head := [SetFontSize(12), SetFont(Bold), TextOp(heading, 20, y + 15),
                         SetFont(Normal), TextOp(customer.name, 20, y + 22)];
      assert CustomerBlock(y, heading, customer).ops == head + LineOps(lines, y + 27);
      DrawCustomerHead(heading, customer.name);
      DrawLinesBelow(lines);
      Appended(start, head, LineOps(lines, y + 27), CustomerBlock(y, heading, customer).ops, ops);
    }

    /** The description wrapped to the text width, `gap` below the cursor. */
    method DrawDescription(gap: int, description: Option<string>, lineCount: LineCount)
      requires gap >= 0
      modifies this
      ensures ops == old(ops) + DescriptionBlock(old(yPos), gap, description, lineCount).ops
      ensures yPos == DescriptionBlock(old(yPos), gap, description, lineCount).y
    {
      if Present(description) {
        yPos := yPos + gap;
        var descLines := lineCount(description.value, 170);
        Draw(WrappedText(description.value, 170, 20, yPos));
        yPos := yPos + descLines * 5;
      }
    }

    /** The job heading and title. */
    method DrawJobHead(title: string)
      modifies this
      ensures ops == old(ops) + [SetFont(Bold), TextOp("Job:", 20, old(yPos) + 10), SetFont(Normal), TextOp(title, 20, old(yPos) + 17)]
      ensures yPos == old(yPos) + 17
    {
      yPos := yPos + 10;
      Draw(SetFont(Bold));
      Draw(TextOp("Job:", 20, yPos));
      Draw(SetFont(Normal));
      yPos := yPos + 7;
      Draw(TextOp(title, 20, yPos));
    }

    /** The location heading and the lines of the job address, when it is truthy. */
    method DrawLocation(address: Option<string>)
      modifies this
      ensures ops == old(ops) + LocationBlock(old(yPos), address).ops
      ensures yPos == LocationBlock(old(yPos), address).y
    {
      if Present(address) {
        ghost var start, y := ops, yPos;
        yPos := yPos + 7;
        Draw(SetFont(Bold));
        Draw(TextOp("Location:", 20, yPos));
        Draw(SetFont(Normal));
        Pushed3(start, SetFont(Bold), TextOp("Location:", 20, y + 7), SetFont(Normal));
        yPos := yPos + 5;
        var addressLines := Strings.Split(address.value, '\n');
        DrawLinesBelow(addressLines);
        Appended(start, [SetFont(Bold), TextOp("Location:", 20, y + 7), SetFont(Normal)], LineOps(addressLines, y + 17),
                 LocationBlock(y, address).ops, ops);
      }
    }

    method DrawQuoteJob(job: Job, lineCount: LineCount)
      modifies this
      ensures ops == old(ops) + QuoteJobBlock(old(yPos), job, lineCount).ops
      ensures yPos == QuoteJobBlock(old(yPos), job, lineCount).y
    {
      ghost var start, y := ops, yPos;
      ghost var head := [SetFont(Bold), TextOp("Job:", 20, y + 10), SetFont(Normal), TextOp(job.title, 20, y + 17)];
      ghost var desc := DescriptionBlock(y + 17, 7, job.description, lineCount);
      DrawJobHead(job.title);
      DrawDescription(7, job.description, lineCount);
      DrawLocation(job.jobAddress);
      Appended3(start, head, desc.ops, LocationBlock(desc.y, job.jobAddress).ops, QuoteJobBlock(y, job, lineCount).ops, ops);
    }

    method DrawQuoteDate(quoteDate: Option<Day>)
      modifies this
      ensures ops == old(ops) + QuoteDateLine(old(yPos), quoteDate).ops
      ensures yPos == QuoteDateLine(old(yPos), quoteDate).y
    {
      yPos := yPos + 10;
      if quoteDate.Some? {
        Draw(Text(QuoteDatePieces(quoteDate.value), 20, yPos, Left));
        yPos := yPos + 5;
      }
    }

    method DrawTableHeader(gap: int, heading: string)
      modifies this
      ensures ops == old(ops) + TableHeader(old(yPos), gap, heading).ops
      ensures yPos == TableHeader(old(yPos), gap, heading).y
    {
      ghost var start := ops;
      yPos := yPos + gap;
      Draw(SetFont(Bold));
      Draw(SetFontSize(14));
      Draw(TextOp(heading, 20, yPos));
      Pushed3(start, SetFont(Bold), SetFontSize(14), TextOp(heading, 20, yPos));
      ghost var titled := ops;
      yPos := yPos + 10;
      Draw(SetFontSize(10));
      Draw(SetFont(Normal));
      Draw(SetFillGray(240));
      Draw(FillRect(20, yPos - 5, 170, 8));
      Pushed4(titled, SetFontSize(10), SetFont(Normal), SetFillGray(240), FillRect(20, yPos - 5, 170, 8));
      ghost var shaded := ops;
      Draw(SetFont(Bold));
      Draw(TextOp("Item", 25, yPos));
      Draw(Text([Str("Amount")], 160, yPos, Right));
      yPos := yPos + 10;
      Draw(SetFont(Normal));
      Pushed4(shaded, SetFont(Bold), TextOp("Item", 25, yPos - 10), Text([Str("Amount")], 160, yPos - 10, Right), SetFont(Normal));
      Appended3(start, titled[|start|..], shaded[|titled|..], ops[|shaded|..], TableHeader(old(yPos), gap, heading).ops, ops);
    }

    /** A caption and a right-aligned amount at the cursor. */
    method DrawRow(caption: string, amount: real)
      modifies this
      ensures ops == old(ops) + RowOps(old(yPos), caption, amount) && yPos == old(yPos)
    {
      Draw(TextOp(caption, 25, yPos));
      Draw(Text([Money(amount)], 185, yPos, Right));
    }

    /** A quote row and its small gray notes, when the amount is positive. */
    method DrawNotedRow(gap: int, caption: string, amount: Option<real>, notes: Option<string>, lineCount: LineCount)
      requires gap >= 0
      modifies this
      ensures ops == old(ops) + QuoteNotedRow(old(yPos), gap, caption, amount, notes, lineCount).ops
      ensures yPos == QuoteNotedRow(old(yPos), gap, caption, amount, notes, lineCount).y
    {
      if Positive(amount) {
        ghost var start := ops;
        yPos := yPos + gap;
        DrawRow(caption, amount.value);
        yPos := yPos + 6;
        DrawNotes(notes, lineCount);
        Appended(start, RowOps(old(yPos) + gap, caption, amount.value), NotesBlock(old(yPos) + gap + 6, notes, lineCount).ops,
                 QuoteNotedRow(old(yPos), gap, caption, amount, notes, lineCount).ops, ops);
      }
    }

    /** The small gray notes under a quote row, wrapped to 140 mm. */
    method DrawNotes(notes: Option<string>, lineCount: LineCount)
      modifies this
      ensures ops == old(ops) + NotesBlock(old(yPos), notes, lineCount).ops
      ensures yPos == NotesBlock(old(yPos), notes, lineCount).y
    {
      if Present(notes) {
        Draw(SetFontSize(8));
        Draw(SetTextGray(100));
        var noteLines := lineCount(notes.value, 140);
        Draw(WrappedText(notes.value, 140, 30, yPos));
        yPos := yPos + noteLines * 4;
        Draw(SetFontSize(10));
        Draw(SetTextGray(0));
        Pushed5(old(ops), SetFontSize(8), SetTextGray(100), WrappedText(notes.value, 140, 30, old(yPos)),
                SetFontSize(10), SetTextGray(0));
      }
    }

    method DrawQuoteLabour(job: Job)
      modifies this
      ensures ops == old(ops) + QuoteLabourRow(old(yPos), job).ops && yPos == QuoteLabourRow(old(yPos), job).y
    {
      if Positive(job.labourCost) {
        ghost var start := ops;
        yPos := yPos + 3;
        DrawRow("Labour", job.labourCost.value);
        yPos := yPos + 6;
        if NonZero(job.labourDays) && NonZero(job.labourDayRate) {
          ghost var row := ops;
          Draw(SetFontSize(8));
          Draw(SetTextGray(100));
          Draw(Text(DaysAtRate(job.labourDays.value, job.labourDayRate.value), 30, yPos, Left));
          yPos := yPos + 4;
          Draw(SetFontSize(10));
          Draw(SetTextGray(0));
          ghost var days := [SetFontSize(8), SetTextGray(100),
                             Text(DaysAtRate(job.labourDays.value, job.labourDayRate.value), 30, old(yPos) + 9, Left),
                             SetFontSize(10), SetTextGray(0)];
          Pushed5(row, days[0], days[1], days[2], days[3], days[4]);
          Appended(start, RowOps(old(yPos) + 3, "Labour", job.labourCost.value), days, QuoteLabourRow(old(yPos), job).ops, ops);
        }
      }
    }

    method DrawQuoteRows(job: Job, lineCount: LineCount)
      modifies this
      ensures ops == old(ops) + QuoteCostRows(old(yPos), job, lineCount).ops
      ensures yPos == QuoteCostRows(old(yPos), job, lineCount).y
    {
      ghost var start, y := ops, yPos;
      ghost var materials := QuoteNotedRow(y, 0, "Materials", job.materialsCost, job.materialsNotes, lineCount);
      ghost var labour := QuoteLabourRow(materials.y, job);
      DrawNotedRow(0, "Materials", job.materialsCost, job.materialsNotes, lineCount);
      DrawQuoteLabour(job);
      DrawNotedRow(3, "Other Costs", job.otherCosts, job.otherCostsNotes, lineCount);
      Appended3(start, materials.ops, labour.ops,
                QuoteNotedRow(labour.y, 3, "Other Costs", job.otherCosts, job.otherCostsNotes, lineCount).ops,
                QuoteCostRows(y, job, lineCount).ops, ops);
    }

    method DrawInvoiceRow(caption: string, amount: Option<real>)
      modifies this
      ensures ops == old(ops) + InvoiceRow(old(yPos), caption, amount).ops
      ensures yPos == InvoiceRow(old(yPos), caption, amount).y
    {
      if Positive(amount) {
        DrawRow(caption, amount.value);
        yPos := yPos + 7;
      }
    }

    method DrawInvoiceRows(job: Job)
      modifies this
      ensures ops == old(ops) + InvoiceCostRows(old(yPos), job).ops && yPos == InvoiceCostRows(old(yPos), job).y
    {
      DrawInvoiceRow("Materials", job.materialsCost);
      DrawInvoiceRow("Labour", job.labourCost);
      DrawInvoiceRow("Other Costs", job.otherCosts);
    }

    method DrawSubtotal(job: Job)
      modifies this
      ensures ops == old(ops) + SubtotalBlock(old(yPos), job).ops && yPos == SubtotalBlock(old(yPos), job).y
    {
      yPos := yPos + 5;
      Draw(DrawLine(20, yPos, 190, yPos));
      yPos := yPos + 8;
      Draw(SetFont(Bold));
      DrawRow("Subtotal:", if job.subtotal.Some? then job.subtotal.value else 0.0);
    }

    method DrawVat(job: Job)
      modifies this
      ensures ops == old(ops) + VatBlock(old(yPos), job).ops && yPos == VatBlock(old(yPos), job).y
    {
      if Positive(job.vatAmount) {
        yPos := yPos + 7;
        Draw(SetFont(Normal));
        DrawRow("VAT (20%):", job.vatAmount.value);
      }
    }

    method DrawTotal(job: Job, totalCaption: string, totalSize: int)
      modifies this
      ensures ops == old(ops) + TotalBlock(old(yPos), job, totalCaption, totalSize).ops
      ensures yPos == TotalBlock(old(yPos), job, totalCaption, totalSize).y
    {
      yPos := yPos + 10;
      Draw(SetFillGray(240));
      Draw(FillRect(20, yPos - 5, 170, 10));
      Draw(SetFont(Bold));
      Draw(SetFontSize(totalSize));
      DrawRow(totalCaption, if job.total.Some? then job.total.value else 0.0);
    }

    method DrawQuoteFooter(job: Job, settings: Settings)
      modifies this
      ensures ops == old(ops) + QuoteFooter(old(yPos), job, settings).ops
      ensures yPos == QuoteFooter(old(yPos), job, settings).y
    {
      ghost var start, y := ops, yPos;
      DrawVatLine(settings);
      ghost var vat := VatLine(y, settings);
      yPos := yPos + 10;
      Draw(SetFontSize(9));
      Draw(SetFont(Italic));
      Pushed2(start + vat.ops, SetFontSize(9), SetFont(Italic));
      DrawValidity(job.quoteDate);
      ghost var valid := ValidityLine(vat.y + 10, job.quoteDate);
      Draw(TextOp(PaymentTerms, 20, yPos));
      Appended4(start, vat.ops, [SetFontSize(9), SetFont(Italic)], valid.ops, [TextOp(PaymentTerms, 20, valid.y)],
                QuoteFooter(y, job, settings).ops, ops);
    }

    method DrawVatLine(settings: Settings)
      modifies this
      ensures ops == old(ops) + VatLine(old(yPos), settings).ops
      ensures yPos == VatLine(old(yPos), settings).y
    {
      if settings.vatRegistered && Present(settings.vatNumber) {
        ghost var start := ops;
        yPos := yPos + 15;
        Draw(SetFontSize(8));
        Draw(SetFont(Normal));
        Draw(Text(VatNumberPieces(settings.vatNumber.value), 20, yPos, Left));
        Pushed3(start, SetFontSize(8), SetFont(Normal), Text(VatNumberPieces(settings.vatNumber.value), 20, yPos, Left));
      }
    }

    method DrawValidity(quoteDate: Option<Day>)
      modifies this
      ensures ops == old(ops) + ValidityLine(old(yPos), quoteDate).ops
      ensures yPos == ValidityLine(old(yPos), quoteDate).y
    {
      if quoteDate.Some? {
        Draw(Text(ValidityPieces(quoteDate.value), 20, yPos, Left));
        yPos := yPos + 5;
      }
    }

    method DrawInvoiceDetails(job: Job, lineCount: LineCount)
      modifies this
      ensures ops == old(ops) + InvoiceDetails(old(yPos), job, lineCount).ops
      ensures yPos == InvoiceDetails(old(yPos), job, lineCount).y
    {
      ghost var start, y := ops, yPos;
      ghost var date := if job.invoiceDate.Some?
        then [Text(InvoiceDatePieces(job.invoiceDate.value), 20, y + 10, Left)] else [];
      ghost var dy := if job.invoiceDate.Some? then y + 16 else y + 10;
      ghost var head := [SetFont(Bold), TextOp("For:", 20, dy), SetFont(Normal), TextOp(job.title, 20, dy + 6)];
      ghost var desc := DescriptionBlock(dy + 6, 6, job.description, lineCount);
      assert InvoiceDetails(y, job, lineCount) == Laid(date + head + desc.ops, desc.y);
      yPos := yPos + 10;
      if job.invoiceDate.Some? {
        Draw(Text(InvoiceDatePieces(job.invoiceDate.value), 20, yPos, Left));
        yPos := yPos + 6;
      }
      assert ops == start + date && yPos == dy;
      Draw(SetFont(Bold));
      Draw(TextOp("For:", 20, yPos));
      Draw(SetFont(Normal));
      yPos := yPos + 6;
      Draw(TextOp(job.title, 20, yPos));
      Pushed4(start + date, SetFont(Bold), TextOp("For:", 20, dy), SetFont(Normal), TextOp(job.title, 20, dy + 6));
      ghost var mid := ops;
      DrawDescription(6, job.description, lineCount);
      assert ops == mid + desc.ops;
      Appended3(start, date, head, desc.ops, InvoiceDetails(y, job, lineCount).ops, ops);
    }

    method DrawPaymentDetails(settings: Settings)
      modifies this
      ensures ops == old(ops) + PaymentDetails(old(yPos), settings).ops
      ensures yPos == PaymentDetails(old(yPos), settings).y
    {
      yPos := yPos + 20;
      Draw(SetFontSize(12));
      Draw(TextOp("Payment Details", 20, yPos));
      yPos := yPos + 8;
      Draw(SetFontSize(10));
      Draw(SetFont(Normal));
      DrawLinesFrom(FieldLines(settings.bankDetails));
    }

    method DrawInvoiceFooter(settings: Settings)
      modifies this
      ensures ops == old(ops) + InvoiceFooter(old(yPos), settings).ops
      ensures yPos == InvoiceFooter(old(yPos), settings).y
    {
      if settings.vatRegistered && Present(settings.vatNumber) {
        yPos := yPos + 10;
        Draw(SetFontSize(8));
        Draw(Text(VatNumberPieces(settings.vatNumber.value), 20, yPos, Left));
      }
      yPos := yPos + 10;
      Draw(SetFontSize(9));
      Draw(SetFont(Italic));
      Draw(TextOp(Thanks, 20, yPos));
    }
  }

  /** `generateQuotePDF`: a fresh page holding exactly the quote's operations. */
  method GenerateQuote(job: Job, customer: Customer, settings: Settings, logoLoaded: bool, lineCount: LineCount)
    returns (pdf: Composer)
    ensures fresh(pdf)
    ensures pdf.ops == QuoteDoc(job, customer, settings, logoLoaded, lineCount).ops
    ensures pdf.yPos == QuoteDoc(job, customer, settings, logoLoaded, lineCount).y
  {
    ghost var b := LayQuote(job, customer, settings, logoLoaded, lineCount);
    pdf := new Composer();
    pdf.Header();
    assert pdf.ops == HeaderOps();
    pdf.DrawLogo(logoLoaded, settings.businessName);
    ghost var drawn := HeaderOps() + b.logo.ops;
    assert pdf.ops == drawn && pdf.yPos == b.logo.y;
    pdf.DrawQuoteTitle();
    drawn := drawn + b.title.ops;
    assert pdf.ops == drawn && pdf.yPos == b.title.y;
    pdf.DrawCustomer("Customer:", customer);
    drawn := drawn + b.customer.ops;
    assert pdf.ops == drawn && pdf.yPos == b.customer.y;
    pdf.DrawQuoteJob(job, lineCount);
    drawn := drawn + b.job.ops;
    assert pdf.ops == drawn && pdf.yPos == b.job.y;
    pdf.DrawQuoteDate(job.quoteDate);
    drawn := drawn + b.date.ops;
    assert pdf.ops == drawn && pdf.yPos == b.date.y;
    pdf.DrawTableHeader(10, "Cost Breakdown");
    drawn := drawn + b.table.ops;
    assert pdf.ops == drawn && pdf.yPos == b.table.y;
    pdf.DrawQuoteRows(job, lineCount);
    drawn := drawn + b.rows.ops;
    assert pdf.ops == drawn && pdf.yPos == b.rows.y;
    pdf.DrawSubtotal(job);
    drawn := drawn + b.subtotal.ops;
    assert pdf.ops == drawn && pdf.yPos == b.subtotal.y;
    pdf.DrawVat(job);
    drawn := drawn + b.vat.ops;
    assert pdf.ops == drawn && pdf.yPos == b.vat.y;
    pdf.DrawTotal(job, "TOTAL:", 12);
    drawn := drawn + b.total.ops;
    assert pdf.ops == drawn && pdf.yPos == b.total.y;
    pdf.DrawQuoteFooter(job, settings);
    drawn := drawn + b.footer.ops;
    assert pdf.ops == drawn && pdf.yPos == b.footer.y;
  }

  /** `generateInvoicePDF`: a fresh page holding exactly the invoice's operations. */
  method GenerateInvoice(job: Job, customer: Customer, settings: Settings, logoLoaded: bool, lineCount: LineCount)
    returns (pdf: Composer)
    ensures fresh(pdf)
    ensures pdf.ops == InvoiceDoc(job, customer, settings, logoLoaded, lineCount).ops
    ensures pdf.yPos == InvoiceDoc(job, customer, settings, logoLoaded, lineCount).y
  {
    ghost var b := LayInvoice(job, customer, settings, logoLoaded, lineCount);
    pdf := new Composer();
    pdf.Header();
    assert pdf.ops == HeaderOps();
    pdf.DrawLogo(logoLoaded, settings.businessName);
    ghost var drawn := HeaderOps() + b.logo.ops;
    assert pdf.ops == drawn && pdf.yPos == b.logo.y;
    pdf.DrawInvoiceTitle(job.invoiceNumber);
    drawn := drawn + b.title.ops;
    assert pdf.ops == drawn && pdf.yPos == b.title.y;
    pdf.DrawCustomer("Bill To:", customer);
    drawn := drawn + b.customer.ops;
    assert pdf.ops == drawn && pdf.yPos == b.customer.y;
    pdf.DrawInvoiceDetails(job, lineCount);
    drawn := drawn + b.details.ops;
    assert pdf.ops == drawn && pdf.yPos == b.details.y;
    pdf.DrawTableHeader(15, "Invoice Details");
    drawn := drawn + b.table.ops;
    assert pdf.ops == drawn && pdf.yPos == b.table.y;
    pdf.DrawInvoiceRows(job);
    drawn := drawn + b.rows.ops;
    assert pdf.ops == drawn && pdf.yPos == b.rows.y;
    pdf.DrawSubtotal(job);
    drawn := drawn + b.subtotal.ops;
    assert pdf.ops == drawn && pdf.yPos == b.subtotal.y;
    pdf.DrawVat(job);
    drawn := drawn + b.vat.ops;
    assert pdf.ops == drawn && pdf.yPos == b.vat.y;
    pdf.DrawTotal(job, "TOTAL DUE:", 14);
    drawn := drawn + b.total.ops;
    assert pdf.ops == drawn && pdf.yPos == b.total.y;
    pdf.DrawPaymentDetails(settings);
    drawn := drawn + b.payment.ops;
    assert pdf.ops == drawn && pdf.yPos == b.payment.y;
    pdf.DrawInvoiceFooter(settings);
    drawn := drawn + b.footer.ops;
    assert pdf.ops == drawn && pdf.yPos == b.footer.y;
  }

  /** Appending a block in two parts appends the block. */
  lemma Appended(start: seq<Op>, head: seq<Op>, tail: seq<Op>, block: seq<Op>, ops: seq<Op>)
    requires block == head + tail && ops == start + head + tail
    ensures ops == start + block
  {
  }

  lemma Appended3(start: seq<Op>, a: seq<Op>, b: seq<Op>, c: seq<Op>, block: seq<Op>, ops: seq<Op>)
    requires block == a + b + c && ops == start + a + b + c
    ensures ops == start + block
  {
  }

  lemma Appended4(start: seq<Op>, a: seq<Op>, b: seq<Op>, c: seq<Op>, d: seq<Op>, block: seq<Op>, ops: seq<Op>)
    requires block == a + b + c + d && ops == start + a + b + c + d
    ensures ops == start + block
  {
  }

  lemma Pushed2(s: seq<Op>, a: Op, b: Op)
    ensures s + [a] + [b] == s + [a, b]
  {
  }

  lemma Pushed3(s: seq<Op>, a: Op, b: Op, c: Op)
    ensures s + [a] + [b] + [c] == s + [a, b, c]
  {
  }

  lemma Pushed4(s: seq<Op>, a: Op, b: Op, c: Op, d: Op)
    ensures s + [a] + [b] + [c] + [d] == s + [a, b, c, d]
  {
  }

  lemma Pushed5(s: seq<Op>, a: Op, b: Op, c: Op, d: Op, e: Op)
    ensures s + [a] + [b] + [c] + [d] + [e] == s + [a, b, c, d, e]
  {
  }
}
