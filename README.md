# Job costing, quotes and invoices — a Dafny model

This project models the core of a tradesperson's job tracker, a React and
TypeScript single-page app backed by a hosted database. The modelled core
covers:

- **The job form** (`src/pages/JobForm.tsx`). The form turns its cost fields
  into a breakdown: materials, labour by days × rate or as a fixed sum, other
  costs, a subtotal, 20 % VAT when the business is VAT-registered, and a total.
  It builds the row it saves, maps a stored job back into the form, fills in
  defaults (the day rate and the quote validity date), and adds a new customer
  to a name-sorted list.
- **The PDF composer** (`src/lib/pdfGenerator.ts`). It draws a quote or an
  invoice as a sequence of drawing operations, placed by a running `yPos`
  cursor:
  - a black header with a gradient fade;
  - the logo, or the business name when the logo cannot be loaded;
  - the title and the customer block;
  - the job section, and the cost table with rows drawn only for positive
    amounts;
  - the subtotal, VAT and total;
  - the trailers.
- **The job page** (`src/pages/JobDetail.tsx`):
  - before a quote is drawn, the job gets a quote date, a valid-until date
    and possibly the `quoted` status;
  - the status buttons;
  - the badge colours and the date cells;
  - the names of the downloaded files.
- **The two list pages** (`src/pages/JobsList.tsx` and
  `src/pages/CustomersList.tsx`):
  - the status filter and the per-status counts that decide which filter
    buttons appear;
  - the case-insensitive customer search and the one-line address preview.

Modules, one file each:

| file | module | models |
|---|---|---|
| `types.dfy` | `Types` | the records of `src/types/database.ts` and JavaScript truthiness on optional fields |
| `strings.dfy` | `Strings` | `split`, `toLowerCase`, `includes` and integer `toString` |
| `seqs.dfy` | `Seqs` | `Array.prototype.filter` and counting |
| `job_form.dfy` | `JobForm` | the cost calculator as functions; the form as the class `JobEditor` |
| `pdf_generator.dfy` | `PdfGenerator` | each section of a document as a function from the cursor to the operations it draws and the new cursor, plus the document-level properties |
| `pdf_composer.dfy` | `PdfComposer` | the class `Composer` with an operation buffer `ops` and the cursor `yPos`; one method per section, with the statements in the source's order |
| `job_detail.dfy` | `JobDetail` | the quote-date rule, the file names, the colours, and the page as the class `JobDetailPage` |
| `jobs_list.dfy` | `JobsList` | the status filter, and the `statusCounts` reduce as a loop |
| `customers_list.dfy` | `CustomersList` | the search predicate and the address preview |

How the model represents things:

- **Money** is `real`.
- **Dates** are day numbers (`Option<Day>`; `None` stands for an empty or
  missing date). "Now" is a parameter.
- **Form text fields holding numbers** are modelled by what `parseFloat`
  makes of them: blank, unparseable, or a number.
- **Text widths** are abstract: `splitTextToSize` becomes a line-count
  function parameter.
- **The logo fetch** becomes a boolean parameter saying whether the image
  loaded.
- **Amounts and dates in drawn text** are kept as structured pieces
  (`Str`, `Num`, `Money`, `Date`), so the drawing operations stay exact
  without modelling `toFixed` or `toLocaleDateString`.

Two behaviours of the code worth knowing:

- **Valid-until date.** Before a quote is drawn, the valid-until date is
  set to *today* + 30 days (`src/pages/JobDetail.tsx:68-69`). It is not the
  quote date + 30 days, nor the configured validity window. An existing
  quote date is kept, so the stored window and the printed "Valid for 30
  days from <quote date>" can disagree.
- **VAT on the document.** The quote and the invoice print the stored
  `vat_amount` whenever it is positive. They do not check the VAT
  registration again.

## Model

| member | source | states |
|---|---|---|
| Types.ParseStatus | src/types/database.ts:3-11 | a status name read back names that status |
| Types.StatusNameRoundTrip | src/types/database.ts:3-11 | every status's name parses to itself, and the status list names each of them |
| Types.OrZero | src/lib/pdfGenerator.ts:190 | `n \|\| 0`: a missing amount reads as zero, a present one as itself |
| Types.PositiveIsTruthy | src/lib/pdfGenerator.ts:133 | `n && n > 0` holds exactly for truthy amounts above zero |
| Strings.Split | src/lib/pdfGenerator.ts:70 | `split` always yields at least one piece |
| Strings.JoinSplit | src/lib/pdfGenerator.ts:70 | the pieces of a split joined back with the separator give the original text, so no line is lost or merged |
| Strings.SplitPiecesHaveNoSeparator | src/lib/pdfGenerator.ts:98 | no piece of a newline split contains a newline |
| Strings.SplitLength | src/lib/pdfGenerator.ts:392 | a text with k newlines splits into k + 1 lines, empty lines included |
| Strings.SplitHead | src/pages/CustomersList.tsx:109 | the first piece is the longest newline-free prefix, ended by a newline or by the end of the text |
| Strings.Lower | src/pages/CustomersList.tsx:37 | `toLowerCase` keeps the length and maps each character |
| Strings.LowerIdempotent | src/pages/CustomersList.tsx:37 | lower-casing twice is lower-casing once |
| Strings.IncludesIffOccurs | src/pages/CustomersList.tsx:37 | `includes` holds exactly when the term occurs at some position |
| Strings.IncludesEmpty | src/pages/CustomersList.tsx:37 | every text includes the empty term |
| Strings.NatToString | src/lib/pdfGenerator.ts:276 | a number's decimal text is non-empty and all digits |
| Strings.NatToStringRoundTrip | src/lib/pdfGenerator.ts:276 | the digits of a natural number read back as the number |
| Strings.IntToString | src/lib/pdfGenerator.ts:276 | an integer's text is non-empty, starts with a minus sign exactly for negative numbers, and is digits after the sign |
| Strings.IntToStringRoundTrip | src/pages/JobDetail.tsx:99 | an integer's text reads back as the integer |
| Strings.IntToStringInjective | src/pages/JobDetail.tsx:99 | different invoice numbers print differently |
| Seqs.Filter | src/pages/JobsList.tsx:41-43 | `filter` keeps exactly the accepted elements and never grows the list |
| Seqs.FilterIsSubsequence | src/pages/JobsList.tsx:41-43 | `filter` keeps the original order |
| Seqs.FilterKeepsAll | src/pages/JobsList.tsx:41-43 | a filter accepting everything returns the whole list |
| Seqs.FilterLength | src/pages/JobsList.tsx:41-43 | the filtered list is as long as the number of accepted elements |
| Seqs.CountIfAppend | src/pages/JobsList.tsx:59-62 | counting distributes over concatenation |
| JobForm.ParseOrZero | src/pages/JobForm.tsx:140-152 | `parseFloat(x) \|\| 0`: a non-zero result is the number the text parses to, and zero comes exactly from an unparseable text or a parsed zero |
| JobForm.ParseOrNull | src/pages/JobForm.tsx:170-175 | `parseFloat(x) \|\| null`: a kept value is the parsed number and is non-zero; null comes exactly from an unparseable text or a parsed zero |
| JobForm.NumberText | src/pages/JobForm.tsx:115-120 | `n?.toString() \|\| ''` parses back to the stored number, and a missing number gives a blank box |
| JobForm.LabourTotal | src/pages/JobForm.tsx:143-150 | days mode gives days × rate, fixed mode the fixed box; a blank box in use gives no labour; non-negative boxes never give negative labour |
| JobForm.BlankIsZero | src/pages/JobForm.tsx:140-152 | a blank or unparseable field counts as 0 in totals and as null in the saved row |
| JobForm.ParseOrNullAgrees | src/pages/JobForm.tsx:170-175 | `parseFloat(x) \|\| null` is null exactly when `parseFloat(x) \|\| 0` is 0, and otherwise the same value |
| JobForm.NumberTextRoundTrip | src/pages/JobForm.tsx:115-120 | a stored amount written into a form field parses back to itself |
| JobForm.InitialForm | src/pages/JobForm.tsx:29-58 | a new form is a draft in days mode, preselecting the customer from the query string |
| JobForm.ComputeBreakdown | src/pages/JobForm.tsx:140-156 | materials and other costs parse-or-zero; labour is days × rate or the fixed sum by mode; subtotal is their sum; VAT is 20 % of it when registered, else 0; total is subtotal + VAT |
| JobForm.UnusedLabourFieldsIgnored | src/pages/JobForm.tsx:143-150 | the fields of the unselected labour mode do not affect the breakdown |
| JobForm.NonNegativeAmounts | src/pages/JobForm.tsx:154-156 | for non-negative inputs, 0 ≤ subtotal ≤ total, VAT ≥ 0, and total is 1.2 × subtotal exactly when registered |
| JobForm.WorkedExample | src/pages/JobForm.tsx:140-156 | materials 100, 2 days at 150 and other 50, VAT-registered, gives 450 + 90 = 540 |
| JobForm.SavePayload | src/pages/JobForm.tsx:167-187 | the saved row nulls zero amounts, drops the day fields in fixed mode, keeps the dates, and stores the breakdown's subtotal, VAT and total |
| JobForm.StoreUpdate | src/pages/JobForm.tsx:190-194 | an update keeps the row's id, creation time, invoice number and payment reference |
| JobForm.FormFromJob | src/pages/JobForm.tsx:97-122 | a loaded job is in days mode exactly when both day fields are truthy; the fixed field shows the labour cost only in fixed mode |
| JobForm.SaveLoadDaysMode | src/pages/JobForm.tsx:97-122 | saving a days-mode form with non-zero days and rate and loading it again gives days mode with the same days and rate |
| JobForm.SaveLoadFixedMode | src/pages/JobForm.tsx:97-122 | saving a fixed-mode form and loading it again gives fixed mode with the same sum and empty day fields |
| JobForm.SaveLoadKeepsLabour | src/pages/JobForm.tsx:143-150 | the reloaded form has the labour amount that was saved, in either mode |
| JobForm.SaveLoadKeepsBreakdown | src/pages/JobForm.tsx:167-187 | the reloaded form shows the same breakdown, and the stored totals are that breakdown |
| JobForm.SaveLoadKeepsFields | src/pages/JobForm.tsx:99-121 | text fields, status and dates come back as they were saved |
| JobForm.LoadedForm | src/pages/JobForm.tsx:88-130 | editing loads the job into the form; a new form only gets the default day rate, and only when it is truthy |
| JobForm.EditedJobNotPrefilled | src/pages/JobForm.tsx:88-130 | when editing, the settings' day rate has no influence on the form |
| JobForm.AfterRender | src/pages/JobForm.tsx:269-275 | the effect can change only valid-until, only when the quote date changed, and never overwrites one already set; a new quote date with no valid-until and a configured window gets quote date + window |
| JobForm.QuoteValidityDefault | src/pages/JobForm.tsx:269-275 | only the valid-until field changes; it is filled, as quote date + validity days, only when empty and both are set |
| JobForm.QuoteValidityDefaultIdempotent | src/pages/JobForm.tsx:269-275 | running the effect again changes nothing |
| JobForm.NameLeTotal | src/pages/JobForm.tsx:252 | the name order compares any two customers |
| JobForm.NameLeTransitive | src/pages/JobForm.tsx:252 | the name order is transitive |
| JobForm.InsertByName | src/pages/JobForm.tsx:252 | inserting adds exactly the new customer |
| JobForm.SortByName | src/pages/JobForm.tsx:252 | sorting is a permutation |
| JobForm.InsertByNameSorted | src/pages/JobForm.tsx:252 | inserting into a name-sorted list keeps it sorted |
| JobForm.InsertByNameBounded | src/pages/JobForm.tsx:252 | a lower bound on every name of the list and on the new customer's stays a lower bound after the insertion |
| JobForm.SortByNameSorted | src/pages/JobForm.tsx:252 | the sorted list is ordered by name |
| JobForm.WithNewCustomerSpec | src/pages/JobForm.tsx:252 | the new list holds the old customers plus the new one, sorted by name |
| JobForm.JobEditor.SubmitPayload | src/pages/JobForm.tsx:167-193 | the submitted row belongs to the signed-in user, stores the breakdown the form shows, nulls labour exactly when it is zero, drops days and rate in fixed mode, and keeps the quote dates |
| JobForm.JobEditor.constructor | src/pages/JobForm.tsx:10-58 | the page starts with the initial form, no customers, no settings and the modal closed |
| JobForm.JobEditor.LoadData | src/pages/JobForm.tsx:64-138 | the customers and settings are stored and the form becomes the loaded form, after the validity effect |
| JobForm.JobEditor.RunQuoteDateEffect | src/pages/JobForm.tsx:269-275 | the effect fires only when the quote date changed since the last render |
| JobForm.JobEditor.SetQuoteDate | src/pages/JobForm.tsx:269-275 | a new quote date is stored and the validity effect runs on it |
| JobForm.JobEditor.SetLabourType | src/pages/JobForm.tsx:498-511 | only the labour mode changes |
| JobForm.JobEditor.SelectCustomer | src/pages/JobForm.tsx:220-226 | "CREATE_NEW" opens the modal and leaves the form; any other value selects that customer |
| JobForm.JobEditor.SetDraft | src/pages/JobForm.tsx:670-711 | the quick-add fields take the typed values |
| JobForm.JobEditor.CreateCustomer | src/pages/JobForm.tsx:228-266 | a nameless draft is refused; an inserted customer joins the sorted list and is selected, and the modal closes and clears; otherwise nothing changes |
| PdfGenerator.GrayValues | src/lib/pdfGenerator.ts:31-35 | band i is gray 17·i: it starts black and rises, staying below white |
| PdfGenerator.Gray | src/lib/pdfGenerator.ts:32 | `Math.floor((i / 15) * 255)` is exactly 17·i |
| PdfGenerator.GradientBands | src/lib/pdfGenerator.ts:31-35 | n bands give 2n operations, each band a fill colour then a 1 mm strip at 50 + i |
| PdfGenerator.GradientBandsSnoc | src/lib/pdfGenerator.ts:31-35 | one more turn of the gradient loop adds one band, its fill colour and then its strip, after the bands already drawn |
| PdfGenerator.HeaderOpsWithin | src/lib/pdfGenerator.ts:26-35 | the header draws no text and no image |
| PdfGenerator.HeaderLayout | src/lib/pdfGenerator.ts:26-35 | the header is a black 50 mm band followed by 15 gradient strips, 32 operations in all |
| PdfGenerator.FallbackName | src/lib/pdfGenerator.ts:48 | the name drawn without a logo is never empty, and is the business name whenever that is truthy |
| PdfGenerator.Logo | src/lib/pdfGenerator.ts:37-51 | a loaded logo is placed at (20, y) and advances 50; otherwise the business name, or "Business Name", is written and advances 10 |
| PdfGenerator.LogoWithin | src/lib/pdfGenerator.ts:37-51 | the logo section draws an image only when it loaded, and nothing else of note |
| PdfGenerator.QuoteTitle | src/lib/pdfGenerator.ts:53-57 | "QUOTATION" is centred 15 below the cursor |
| PdfGenerator.QuoteTitleWithin | src/lib/pdfGenerator.ts:53-57 | the title is the only centred text it draws |
| PdfGenerator.InvoiceNumberText | src/lib/pdfGenerator.ts:276 | the number line starts with "Invoice #" |
| PdfGenerator.InvoiceNumberTextReadsBack | src/lib/pdfGenerator.ts:276 | what follows "Invoice #" reads back as the invoice number |
| PdfGenerator.InvoiceNumberTextInjective | src/lib/pdfGenerator.ts:276 | different invoice numbers give different "Invoice #n" lines, never the same as "INVOICE" |
| PdfGenerator.InvoiceTitle | src/lib/pdfGenerator.ts:266-277 | "INVOICE" is centred, and under it "Invoice #n" when the number is truthy; the cursor advances 25 either way |
| PdfGenerator.InvoiceTitleWithin | src/lib/pdfGenerator.ts:266-277 | the only centred texts are "INVOICE" and the job's own number line |
| PdfGenerator.LineOps | src/lib/pdfGenerator.ts:71-74 | one text operation per line |
| PdfGenerator.LineOpsAt | src/lib/pdfGenerator.ts:71-74 | line k is written at x = 20, 5·k below the first |
| PdfGenerator.LineOpsWithin | src/lib/pdfGenerator.ts:71-74 | address lines are plain left-aligned text |
| PdfGenerator.LineOpsSnoc | src/lib/pdfGenerator.ts:71-74 | each loop iteration appends the next line |
| PdfGenerator.CustomerBlock | src/lib/pdfGenerator.ts:59-75 | the heading then the name are written, and the cursor ends 5 below per address line |
| PdfGenerator.CustomerBlockWithin | src/lib/pdfGenerator.ts:59-75 | the customer block draws only plain text |
| PdfGenerator.CustomerAddressLines | src/lib/pdfGenerator.ts:69-75 | a truthy address is drawn line by line as split on newlines, blank lines kept, nothing lost |
| PdfGenerator.DescriptionBlock | src/lib/pdfGenerator.ts:85-90 | a truthy description is wrapped to 170 mm and advances 5 per line; otherwise nothing is drawn |
| PdfGenerator.DescriptionBlockWithin | src/lib/pdfGenerator.ts:85-90 | the only wrapped text is the job's description |
| PdfGenerator.QuoteJobBlock | src/lib/pdfGenerator.ts:77-103 | the job title is written 17 below, then the description when truthy |
| PdfGenerator.QuoteJobBlockWithin | src/lib/pdfGenerator.ts:77-103 | the job section wraps only the description |
| PdfGenerator.LocationBlock | src/lib/pdfGenerator.ts:92-103 | a falsy address draws nothing and leaves the cursor; otherwise the cursor ends 12 mm plus 5 per address line further down |
| PdfGenerator.LocationBlockWithin | src/lib/pdfGenerator.ts:92-103 | the location section draws only plain lines: no caption, note, centred, compound or wrapped text and no image |
| PdfGenerator.QuoteDateLine | src/lib/pdfGenerator.ts:105-110 | "Quote Date: d" is written only when the job has one; the cursor advances 15 or 10 |
| PdfGenerator.QuoteDateLineWithin | src/lib/pdfGenerator.ts:105-110 | the only compound text is that date line |
| PdfGenerator.TableHeader | src/lib/pdfGenerator.ts:112-130 | the heading and the shaded Item/Amount row advance the cursor by the gap + 20 |
| PdfGenerator.TableHeaderWithin | src/lib/pdfGenerator.ts:112-130 | the only caption in the header row is "Item" |
| PdfGenerator.RowOps | src/lib/pdfGenerator.ts:134-135 | a cost row is exactly two operations: the caption at x = 25 and the amount right-aligned at x = 185, on one line |
| PdfGenerator.NotesBlock | src/lib/pdfGenerator.ts:138-145 | truthy notes are wrapped to 140 mm at x = 30; otherwise nothing is drawn |
| PdfGenerator.QuoteNotedRow | src/lib/pdfGenerator.ts:132-147 | a positive amount draws its row, then its notes 6 below when truthy |
| PdfGenerator.QuoteNotedRowWithin | src/lib/pdfGenerator.ts:132-147 | the row's caption appears only for a positive amount, and notes only with it |
| PdfGenerator.DaysAtRate | src/lib/pdfGenerator.ts:159 | the labour note carries the days and the day rate, in four pieces |
| PdfGenerator.QuoteLabourRow | src/lib/pdfGenerator.ts:149-164 | a positive labour cost draws its row 3 below; "d days @ £r/day" follows only when days and rate are both truthy |
| PdfGenerator.QuoteLabourRowWithin | src/lib/pdfGenerator.ts:149-164 | labour draws its caption only when positive, and the days-at-rate line only under that condition |
| PdfGenerator.QuoteCostRows | src/lib/pdfGenerator.ts:132-182 | the rows never move the cursor up |
| PdfGenerator.QuoteCostRowsWithin | src/lib/pdfGenerator.ts:132-182 | the quote's rows draw only the captions of positive amounts, their notes and the days-at-rate line |
| PdfGenerator.QuoteCostRowsShow | src/lib/pdfGenerator.ts:132-182 | each positive amount draws its row, with its notes and the days-at-rate line where they apply |
| PdfGenerator.InvoiceRow | src/lib/pdfGenerator.ts:337-343 | a positive amount draws caption and amount and advances 7; otherwise nothing |
| PdfGenerator.InvoiceRowWithin | src/lib/pdfGenerator.ts:337-343 | an invoice row's caption appears only for a positive amount |
| PdfGenerator.InvoiceCostRows | src/lib/pdfGenerator.ts:337-356 | the rows never move the cursor up |
| PdfGenerator.InvoiceCostRowsWithin | src/lib/pdfGenerator.ts:337-356 | the invoice's rows draw no notes and only the captions of positive amounts |
| PdfGenerator.InvoiceCostRowsShow | src/lib/pdfGenerator.ts:337-356 | each positive amount draws its row |
| PdfGenerator.SubtotalBlock | src/lib/pdfGenerator.ts:184-190 | a rule, then "Subtotal:" with `subtotal \|\| 0`, 13 below |
| PdfGenerator.SubtotalBlockWithin | src/lib/pdfGenerator.ts:184-190 | the only caption is "Subtotal:" |
| PdfGenerator.VatBlock | src/lib/pdfGenerator.ts:192-198 | "VAT (20%):" with the amount 7 below, only when the stored VAT is positive |
| PdfGenerator.VatBlockWithin | src/lib/pdfGenerator.ts:192-198 | the VAT caption appears only for a positive VAT amount |
| PdfGenerator.TotalBlock | src/lib/pdfGenerator.ts:200-207 | the total caption with `total \|\| 0`, 10 below |
| PdfGenerator.TotalBlockWithin | src/lib/pdfGenerator.ts:200-207 | the only caption is the total's own |
| PdfGenerator.QuoteFooter | src/lib/pdfGenerator.ts:209-226 | the VAT number when registered and set, "Valid for 30 days from d" when the quote has a date, and the payment-terms sentence last |
| PdfGenerator.VatLine | src/lib/pdfGenerator.ts:209-215 | for a registered business with a number, the registration line 15 below and the cursor on it; otherwise nothing, the cursor unmoved |
| PdfGenerator.ValidityLine | src/lib/pdfGenerator.ts:220-223 | a dated quote gets exactly the "Valid for 30 days from d" line at the cursor, which then moves 5 on; an undated one gets nothing |
| PdfGenerator.QuoteFooterWithin | src/lib/pdfGenerator.ts:209-226 | the footer's compound texts are only those two lines |
| PdfGenerator.InvoiceDetails | src/lib/pdfGenerator.ts:297-315 | "Invoice Date: d" when set, then "For:" and the title, then the wrapped description when truthy |
| PdfGenerator.InvoiceDetailsWithin | src/lib/pdfGenerator.ts:297-315 | only the invoice date line and the description may appear here |
| PdfGenerator.PaymentDetails | src/lib/pdfGenerator.ts:383-397 | "Payment Details" then one line per bank-details line, 5 apart |
| PdfGenerator.PaymentDetailsWithin | src/lib/pdfGenerator.ts:383-397 | the payment section is plain text |
| PdfGenerator.BankDetailLines | src/lib/pdfGenerator.ts:390-396 | truthy bank details are drawn verbatim, one newline-split line after another |
| PdfGenerator.InvoiceFooter | src/lib/pdfGenerator.ts:399-410 | the VAT number when registered and set, then the thank-you line last |
| PdfGenerator.InvoiceFooterWithin | src/lib/pdfGenerator.ts:399-410 | the invoice footer's only compound text is the VAT number |
| PdfGenerator.QuoteDoc | src/lib/pdfGenerator.ts:18-229 | the quote's cursor never ends above the top margin |
| PdfGenerator.InvoiceDoc | src/lib/pdfGenerator.ts:231-413 | the invoice's cursor never ends above the top margin |
| PdfGenerator.QuoteWithin | src/lib/pdfGenerator.ts:18-229 | every text on the quote is one its job and settings allow: captions, notes, centred and compound texts, wrapped texts, and the image only when loaded |
| PdfGenerator.InvoiceWithin | src/lib/pdfGenerator.ts:231-413 | the same for the invoice, with no notes column and no validity line |
| PdfGenerator.QuoteHeadWithin | src/lib/pdfGenerator.ts:18-110 | the gradient, logo, title, customer, job and date sections of a quote each keep to the quote's profile |
| PdfGenerator.QuoteTableWithin | src/lib/pdfGenerator.ts:112-226 | the cost table, totals and footer of a quote each keep to the quote's profile |
| PdfGenerator.InvoiceHeadWithin | src/lib/pdfGenerator.ts:231-315 | the gradient, logo, title, customer and details sections of an invoice each keep to the invoice's profile |
| PdfGenerator.InvoiceTableWithin | src/lib/pdfGenerator.ts:317-410 | the cost table, totals, payment details and footer of an invoice each keep to the invoice's profile |
| PdfGenerator.QuoteContainsBlocks | src/lib/pdfGenerator.ts:18-229 | the quote contains every one of its sections |
| PdfGenerator.QuoteRows | src/lib/pdfGenerator.ts:132-182 | a quote shows the Materials, Labour and Other Costs captions exactly when the amount is positive, each with its amount |
| PdfGenerator.RowShown | src/lib/pdfGenerator.ts:133-136 | within a document, a row's caption appears exactly when its amount is positive |
| PdfGenerator.CaptionsApart | src/lib/pdfGenerator.ts:132-207 | the row captions are distinct from each other and from the totals |
| PdfGenerator.VatCaptionApart | src/lib/pdfGenerator.ts:192-198 | the VAT caption is distinct from every other caption |
| PdfGenerator.TotalsShown | src/lib/pdfGenerator.ts:184-207 | within a document, the subtotal and total are always shown, and VAT exactly when positive |
| PdfGenerator.QuoteTotals | src/lib/pdfGenerator.ts:184-207 | a quote shows "Subtotal:" and "TOTAL:" with their amounts or 0, and the VAT line exactly when VAT is positive |
| PdfGenerator.LogoShown | src/lib/pdfGenerator.ts:37-51 | a document places an image exactly when the logo loaded, else writes the fallback name at the top |
| PdfGenerator.CustomerShown | src/lib/pdfGenerator.ts:59-67 | the heading and the customer's name are written |
| PdfGenerator.QuoteTitleShown | src/lib/pdfGenerator.ts:53-57 | "QUOTATION" is the only centred text on a quote |
| PdfGenerator.QuoteHeading | src/lib/pdfGenerator.ts:37-83 | a quote has the image iff the logo loaded (else the fallback name), only "QUOTATION" centred, and shows "Customer:", the customer's name and the job title |
| PdfGenerator.JobTitleShown | src/lib/pdfGenerator.ts:77-90 | the job title and a truthy description are shown |
| PdfGenerator.QuoteNoteColumn | src/lib/pdfGenerator.ts:156-161 | in a document within the quote's profile that draws the days-at-rate line when both fields are truthy, that line is the only text in the notes column, and it is there exactly then |
| PdfGenerator.QuoteWrapped | src/lib/pdfGenerator.ts:85-178 | the wrapped texts are exactly the description and the notes of positive rows |
| PdfGenerator.QuoteNotesShown | src/lib/pdfGenerator.ts:85-178 | on a quote: the days-at-rate line exactly when both fields are truthy; row notes exactly for positive rows with truthy notes; the description at x = 20 exactly when truthy; nothing else wrapped |
| PdfGenerator.QuoteNotesIn | src/lib/pdfGenerator.ts:85-178 | the same four facts for any document within the quote's profile that contains the job section and the cost rows |
| PdfGenerator.QuoteCompound | src/lib/pdfGenerator.ts:105-226 | within a quote, the date, validity and VAT-number lines appear for exactly the job's date and the settings' number |
| PdfGenerator.QuoteCompoundMember | src/lib/pdfGenerator.ts:105-226 | a compound line a quote may show is told apart by its label: a quote-date or validity line comes only from the job's own date, a registration line only from the settings' number when it is shown |
| PdfGenerator.QuoteDatesShown | src/lib/pdfGenerator.ts:105-226 | a quote shows "Quote Date" and "Valid for 30 days from" exactly for the job's quote date, and the VAT number exactly when registered and set |
| PdfGenerator.InvoiceContainsBlocks | src/lib/pdfGenerator.ts:231-413 | the invoice contains every one of its sections |
| PdfGenerator.InvoiceRows | src/lib/pdfGenerator.ts:337-356 | an invoice shows each row's caption exactly when its amount is positive, with the amount |
| PdfGenerator.InvoiceTotals | src/lib/pdfGenerator.ts:358-381 | an invoice shows "Subtotal:" and "TOTAL DUE:", and VAT exactly when positive |
| PdfGenerator.InvoiceTitleShown | src/lib/pdfGenerator.ts:266-277 | the centred texts are "INVOICE" and the job's own number line, when truthy |
| PdfGenerator.InvoiceForShown | src/lib/pdfGenerator.ts:297-315 | the title, a truthy description and the invoice date are shown |
| PdfGenerator.InvoiceHeading | src/lib/pdfGenerator.ts:250-315 | an invoice has the image iff loaded, centres only "INVOICE" and its own number, and shows "Bill To:", the customer and the job title |
| PdfGenerator.InvoiceNotesShown | src/lib/pdfGenerator.ts:337-356 | an invoice draws nothing in the notes column and wraps only a truthy description |
| PdfGenerator.InvoiceWrapped | src/lib/pdfGenerator.ts:310-356 | within an invoice the only wrapped text is the description |
| PdfGenerator.InvoiceCompound | src/lib/pdfGenerator.ts:297-404 | within an invoice, the date and VAT-number lines match the job and settings exactly, and no validity line appears |
| PdfGenerator.InvoiceDatesShown | src/lib/pdfGenerator.ts:297-404 | an invoice shows its invoice date and VAT number exactly when set, never a validity line, and always "Payment Details" |
| PdfGenerator.QuoteEnds | src/lib/pdfGenerator.ts:226 | the last thing drawn on a quote is the payment-terms sentence, at the final cursor |
| PdfGenerator.InvoiceEnds | src/lib/pdfGenerator.ts:406-410 | the last thing drawn on an invoice is the thank-you line, at the final cursor |
| PdfGenerator.QuoteDateShown | src/lib/pdfGenerator.ts:105-110 | a quote date, when set, is shown |
| PdfGenerator.QuoteFooterShown | src/lib/pdfGenerator.ts:209-224 | the validity line and the VAT number are shown when they apply |
| PdfGenerator.InvoiceFooterShown | src/lib/pdfGenerator.ts:399-404 | the VAT number is shown when registered and set |
| PdfGenerator.PaymentShown | src/lib/pdfGenerator.ts:383-386 | "Payment Details" is shown |
| PdfComposer.Composer.constructor | src/lib/pdfGenerator.ts:22-24 | a new document is empty with the cursor at 15 |
| PdfComposer.Composer.Draw | src/lib/pdfGenerator.ts:27 | one drawing call appends one operation and leaves the cursor |
| PdfComposer.Composer.Header | src/lib/pdfGenerator.ts:26-35 | the loop appends exactly the header's operations and leaves the cursor |
| PdfComposer.Composer.DrawLogo | src/lib/pdfGenerator.ts:37-51 | appends the logo section and moves the cursor as `Logo` says |
| PdfComposer.Composer.DrawQuoteTitle | src/lib/pdfGenerator.ts:53-57 | appends the quote title and moves the cursor as `QuoteTitle` says |
| PdfComposer.Composer.DrawInvoiceTitle | src/lib/pdfGenerator.ts:266-277 | appends the invoice title and number as `InvoiceTitle` says |
| PdfComposer.Composer.DrawLinesBelow | src/lib/pdfGenerator.ts:71-74 | the `forEach` steps down 5, then writes each line |
| PdfComposer.Composer.DrawLinesFrom | src/lib/pdfGenerator.ts:393-396 | the `forEach` writes each line, then steps down 5 |
| PdfComposer.Composer.DrawCustomerHead | src/lib/pdfGenerator.ts:59-67 | appends the heading and the name |
| PdfComposer.Composer.DrawCustomer | src/lib/pdfGenerator.ts:59-75 | appends the customer block as `CustomerBlock` says |
| PdfComposer.Composer.DrawDescription | src/lib/pdfGenerator.ts:85-90 | appends the wrapped description as `DescriptionBlock` says |
| PdfComposer.Composer.DrawJobHead | src/lib/pdfGenerator.ts:77-83 | appends "Job:" and the title |
| PdfComposer.Composer.DrawLocation | src/lib/pdfGenerator.ts:92-103 | appends the location section as `LocationBlock` says and leaves the cursor where it says |
| PdfComposer.Composer.DrawQuoteJob | src/lib/pdfGenerator.ts:77-103 | appends the job section as `QuoteJobBlock` says |
| PdfComposer.Composer.DrawQuoteDate | src/lib/pdfGenerator.ts:105-110 | appends the quote-date line as `QuoteDateLine` says |
| PdfComposer.Composer.DrawTableHeader | src/lib/pdfGenerator.ts:112-130 | appends the heading and the table header |
| PdfComposer.Composer.DrawRow | src/lib/pdfGenerator.ts:134-135 | appends a caption and its right-aligned amount |
| PdfComposer.Composer.DrawNotedRow | src/lib/pdfGenerator.ts:132-147 | appends a quote row with its notes as `QuoteNotedRow` says |
| PdfComposer.Composer.DrawNotes | src/lib/pdfGenerator.ts:137-145 | appends the small gray notes under a row as `NotesBlock` says, moving the cursor 4 mm per wrapped line |
| PdfComposer.Composer.DrawQuoteLabour | src/lib/pdfGenerator.ts:149-164 | appends the labour row as `QuoteLabourRow` says |
| PdfComposer.Composer.DrawQuoteRows | src/lib/pdfGenerator.ts:132-182 | appends the quote's three rows as `QuoteCostRows` says |
| PdfComposer.Composer.DrawInvoiceRow | src/lib/pdfGenerator.ts:337-343 | appends an invoice row as `InvoiceRow` says |
| PdfComposer.Composer.DrawInvoiceRows | src/lib/pdfGenerator.ts:337-356 | appends the invoice's three rows |
| PdfComposer.Composer.DrawSubtotal | src/lib/pdfGenerator.ts:184-190 | appends the rule and the subtotal |
| PdfComposer.Composer.DrawVat | src/lib/pdfGenerator.ts:192-198 | appends the VAT line when positive |
| PdfComposer.Composer.DrawTotal | src/lib/pdfGenerator.ts:200-207 | appends the shaded total |
| PdfComposer.Composer.DrawQuoteFooter | src/lib/pdfGenerator.ts:209-226 | appends the quote trailer as `QuoteFooter` says |
| PdfComposer.Composer.DrawVatLine | src/lib/pdfGenerator.ts:209-215 | appends the registration line as `VatLine` says |
| PdfComposer.Composer.DrawValidity | src/lib/pdfGenerator.ts:220-223 | appends the validity line as `ValidityLine` says |
| PdfComposer.Composer.DrawInvoiceDetails | src/lib/pdfGenerator.ts:297-315 | appends the invoice details as `InvoiceDetails` says |
| PdfComposer.Composer.DrawPaymentDetails | src/lib/pdfGenerator.ts:383-397 | appends the payment section as `PaymentDetails` says |
| PdfComposer.Composer.DrawInvoiceFooter | src/lib/pdfGenerator.ts:399-410 | appends the invoice trailer as `InvoiceFooter` says |
| PdfComposer.GenerateQuote | src/lib/pdfGenerator.ts:18-229 | `generateQuotePDF` draws exactly the operations of `QuoteDoc`, so every quote lemma above holds of what it draws |
| PdfComposer.GenerateInvoice | src/lib/pdfGenerator.ts:231-413 | `generateInvoicePDF` draws exactly the operations of `InvoiceDoc` |
| JobDetail.NeedsQuoteDates | src/pages/JobDetail.tsx:66 | an undated job, or a draft or quoting one, is due for quote dates; a dated job past quoting is not |
| JobDetail.QuoteUpdates | src/pages/JobDetail.tsx:66-79 | an update is made exactly when one is due; it keeps an existing quote date and uses today otherwise; valid-until is today + 30; the status is set exactly for draft and quoting jobs, and then to quoted |
| JobDetail.ApplyPatch | src/pages/JobDetail.tsx:71-84 | the store's update sets the two quote dates and, when given, the status, and leaves every other column |
| JobDetail.QuotedJob | src/pages/JobDetail.tsx:65-80 | the row changes iff it has no quote date or is draft/quoting; an existing quote date is kept, a missing one becomes today; valid-until becomes today + 30 whatever it was; draft and quoting become quoted, other statuses stay; nothing else changes; the result needs no further update |
| JobDetail.QuoteDatesSettle | src/pages/JobDetail.tsx:66 | drawing the quote again on any later day leaves the row as the first quote left it |
| JobDetail.DocumentKey | src/pages/JobDetail.tsx:99 | `invoice_number \|\| id` is the id when the invoice number is not truthy |
| JobDetail.DocumentKeyReadsBack | src/pages/JobDetail.tsx:99 | a truthy invoice number reads back from the key |
| JobDetail.QuoteFilename | src/pages/JobDetail.tsx:99 | the quote file is `Quote-`, the number or id, a dash, the customer name and ".pdf", each at its place |
| JobDetail.InvoiceFilename | src/pages/JobDetail.tsx:114 | the invoice file is `Invoice-`, the number or id, a dash, the customer name and ".pdf", each at its place |
| JobDetail.DownloadName | src/pages/JobDetail.tsx:99 | the name is the kind, a dash, the invoice number or id, a dash, the customer name and ".pdf", each found at its place |
| JobDetail.DownloadNameKey | src/pages/JobDetail.tsx:99 | for one customer, equal file names mean the same invoice number or id |
| JobDetail.QuoteFilenameNamesInvoice | src/pages/JobDetail.tsx:99 | two invoiced jobs of one customer share a quote file name iff they share the invoice number |
| JobDetail.InvoiceFilenameKey | src/pages/JobDetail.tsx:114 | invoice file names agree iff the number-or-id parts agree; without a truthy number the id is used |
| JobDetail.QuoteAndInvoiceNamesDiffer | src/pages/JobDetail.tsx:99 | a quote file never has an invoice file's name |
| JobDetail.ColorOf | src/pages/JobDetail.tsx:158-167 | green is the badge of exactly accepted and paid; the gray badge is drafts' alone |
| JobDetail.StatusColor | src/pages/JobDetail.tsx:157-169 | a known status name gets its colour; anything else gets the gray fallback |
| JobDetail.StatusColors | src/pages/JobDetail.tsx:157-169 | each status gets its own badge except accepted and paid, which share green; only draft looks like an unknown status |
| JobDetail.FormatDate | src/pages/JobDetail.tsx:171-174 | a missing date shows as "-", a present one in the locale's form |
| JobDetail.DateCells | src/pages/JobDetail.tsx:270-300 | the Dates card's six cells are the quote, valid-until, start, end, invoice and paid dates in that order, each "-" when missing and its locale text when present |
| JobDetail.JobDetailPage.constructor | src/pages/JobDetail.tsx:9-18 | the page starts with no job and no settings |
| JobDetail.JobDetailPage.Load | src/pages/JobDetail.tsx:25-56 | the page holds the job and settings the store returned |
| JobDetail.JobDetailPage.GenerateQuote | src/pages/JobDetail.tsx:59-106 | without job or settings nothing happens; with no update due, or no row back, the stored job is drawn unchanged; a failed update draws nothing; otherwise the page takes the quoted row and draws it; the file is `Quote-<number or id>-<name>.pdf` |
| JobDetail.JobDetailPage.UpdateQuoteDates | src/pages/JobDetail.tsx:64-96 | fails exactly when an update was due and the store reports an error; with an update due and a row back, the page's job becomes the quoted job and that job is used; otherwise the page is unchanged and the stored job is used |
| JobDetail.JobDetailPage.GenerateInvoice | src/pages/JobDetail.tsx:108-121 | draws the stored job's invoice as `Invoice-<number or id>-<name>.pdf`, and changes nothing |
| JobDetail.JobDetailPage.ChangeStatus | src/pages/JobDetail.tsx:140-155 | with a route id and an accepted update, the job takes the new status and keeps everything else; otherwise the page is unchanged |
| JobDetail.WithStatus | src/pages/JobDetail.tsx:150 | `{ ...prev, status }` changes the status alone |
| JobDetail.RequoteAfterReset | src/pages/JobDetail.tsx:66-80 | a job set back to draft is quoted again on its next quote, keeping its first quote date but restarting its validity |
| JobsList.Shows | src/pages/JobsList.tsx:42 | "all" shows every job; a status shows exactly the jobs with that status |
| JobsList.FilterJobs | src/pages/JobsList.tsx:41-43 | "all" returns every job in order; a status returns exactly its jobs, in order |
| JobsList.StatusCounts | src/pages/JobsList.tsx:59-62 | the reduce has an entry exactly for the statuses that have jobs, holding their number |
| JobsList.CountShown | src/pages/JobsList.tsx:98 | `statusCounts[status]` is a positive count only for a status the reduce recorded, and is its recorded count; a status never recorded counts zero |
| JobsList.VisibleStatuses | src/pages/JobsList.tsx:95-98 | a status button is shown iff its count is above zero, in the fixed status order |
| JobsList.CountIsFilterLength | src/pages/JobsList.tsx:41-62 | a status's count is the length of the list its filter shows |
| JobsList.CountsSumToTotal | src/pages/JobsList.tsx:59-95 | the counts over all statuses add up to `jobs.length`, the number on the "All" button |
| JobsList.ListedOnce | src/pages/JobsList.tsx:95 | the button list names each status once |
| JobsList.ListedDistinct | src/pages/JobsList.tsx:95 | in a list without repeats, a status that is listed is listed exactly once |
| JobsList.ButtonsMatchJobs | src/pages/JobsList.tsx:95-98 | for the computed counts, a button is shown iff its filter would list a job, and its number is that list's length |
| CustomersList.Matches | src/pages/CustomersList.tsx:37-39 | a term found in the lower-cased name always matches, so the empty term matches everyone; without email and phone only the name can match |
| CustomersList.FilterCustomers | src/pages/CustomersList.tsx:36-40 | the result holds exactly the matching customers, in their original order |
| CustomersList.EmptySearchKeepsAll | src/pages/CustomersList.tsx:36-40 | an empty search lists every customer |
| CustomersList.MatchesIffOccurs | src/pages/CustomersList.tsx:36-40 | a customer matches iff the lower-cased term occurs in the lower-cased name, or in the email or phone where present |
| CustomersList.MatchesIgnoresCase | src/pages/CustomersList.tsx:37 | the case of the term or of the name does not matter |
| CustomersList.NoContactMatchesByName | src/pages/CustomersList.tsx:38-39 | without email and phone only the name can match |
| CustomersList.IncludesTransitive | src/pages/CustomersList.tsx:37 | a part of a found part is found |
| CustomersList.LongerTermNarrows | src/pages/CustomersList.tsx:36-40 | typing a longer term only narrows the list |
| CustomersList.AddressPreview | src/pages/CustomersList.tsx:109 | the preview is the address up to its first newline, newline-free and a prefix |
| CustomersList.AddressRow | src/pages/CustomersList.tsx:107-110 | the address row appears iff the address is truthy, showing its first line |
| CustomersList.SingleLineAddressShownWhole | src/pages/CustomersList.tsx:109 | a one-line address is shown whole |

## Left out

- The hosted database and its authentication are not modelled. This covers
  every query, insert, update and delete, and the user lookup. Stored rows
  are inputs. The store's answer to an update is a parameter (failed, no
  row, or the patched row).
- React wiring is not modelled: rendering, routing, `useEffect`
  scheduling, and the loading, saving and deleting flags. The generic
  `updateField` of the form is modelled only for the fields whose changes
  trigger logic (quote date, labour mode, customer choice).
- `handleDelete` in `src/pages/JobDetail.tsx` is not modelled. It is a
  store call followed by navigation, with no logic of its own.
- `parseFloat` is abstract. Prefix parsing, `NaN` and IEEE-754 rounding are
  replaced by a three-way reading of the text. `toFixed(2)` and other
  number formatting are kept as structured pieces, not strings.
- Dates are day numbers, and "now" is a parameter. This leaves out `Date`
  parsing, time zones, month roll-over in `setDate`, ISO strings and
  `toLocaleDateString`, which `FormatDate` takes as a function parameter.
- `localeCompare` is modelled as code-unit order on names.
- JobForm.SortByName: states that the result is ordered by name and a permutation, not that customers with equal names keep their order as the stable `Array.prototype.sort` does.
- `toLowerCase` is modelled on ASCII letters only.
- Text wrapping (`splitTextToSize`), font metrics, the image's height and the
  drawing of colours as RGB triples are not modelled. The line count is a
  parameter. Every colour the source sets is a gray level, recorded as
  `SetFillGray` or `SetTextGray`.
- The logo fetch and base64 encoding (`loadImageAsBase64`) are replaced by
  a boolean saying whether the image loaded.
- `downloadPDF` and `getPDFBlob` (`pdf.save`, `output('blob')`) are not
  modelled. The downloaded document is the operation list plus its file
  name.
- `supplier_quotes_attachments` and the photo records are not modelled:
  no core operation reads them.
- StatusColor: a status string that names an `Object.prototype` member
  (such as "constructor") is not modelled. Any unknown name gets the gray
  fallback.
- JobDetail.JobDetailPage.GenerateQuote: takes the row the store returns
  after the update to be the page's job with the update applied. A concurrent
  edit of the same row is not modelled.
