# Product report engine — a Dafny model

This project models the report computation at the heart of a small product
management application, in two variants.

**The date-range report builder** (`CODE/ProductReportSystem.java`). Four
in-memory lists of dated records (sales, inventory, customer purchases and
supplier deliveries) are seeded with three records each. A report request
names a category, an inclusive start and end date and a free-text
description.

- A start date after the end date is rejected; nothing is built or saved.
- Otherwise the report opens with a metadata block (type, start date, end
  date, description, then a blank line).
- The category's section follows. It has a title, column headings and a rule
  line, then one row per record dated inside the range, in list order.
- Sales, customer and supplier sections end with a total over exactly those
  records: sales grand total, revenue, or quantity received.
- A category that matches none of the four adds nothing after the metadata.
- The finished text, followed by a separator, is appended to a log file.

**The inventory query layer** (`Lab_Assignment_1/generateReport.java`). A
report generator checks that the type and both dates are present and
non-empty. It then asks a freshly seeded database for the report's lines:

- the low-stock products (fewer than 50 units) for "Low Stock Report";
- one line per sale of a known product for "Sales Report";
- the whole stock listing for any other type.

Both type names match in any letter case. The dates are only echoed. The
report displays a two-line header and then its lines.

Modules:

- `Formats` (`formats.dfy`): the Java values the reports print. It covers
  32-bit `int` wrap-around, `Integer.toString`, `%.2f` and `Double.toString`
  of amounts held in cents, `%-Ns` padding and ASCII `equalsIgnoreCase`. It
  also counts the line breaks in a text and renders one line per element.
- `Dates` (`dates.dfy`): `LocalDate` as a valid year/month/day triple with
  `isBefore`/`isAfter` and `toString`.
- `DateWindow` (`date_window.dfy`): the inclusive date filter that all four
  categories share, and sums over the records it keeps.
- `ProductReportSystem` (`product_report_system.dfy`):
  - the record types and the section, metadata and report texts as
    functions;
  - the class `ProductReportSystem`, whose four list fields and log are
    updated in place, and whose report routines append to a `TextBuilder`
    (the `StringBuilder`) in loops proved against those functions;
  - the lemmas about the report text.
- `InventoryManagement` (`inventory_management.dfy`):
  - lookup, filters and listings as functions with their lemmas;
  - the classes `Database`, `Report` and `ReportGenerator`, whose loop
    methods are proved against those functions.

Money is held as whole cents, so every total is exact. The supplier total is
a Java `int` and wraps at 32 bits.

## Model

| member | source | states |
|---|---|---|
| Dates.InRange | CODE/ProductReportSystem.java:242 | a date is in range when it is neither before the start nor after the end (the partner lemmas below state what that means) |
| Dates.InRangeIsInclusive | CODE/ProductReportSystem.java:242 | `!d.isBefore(start) && !d.isAfter(end)` holds exactly for the dates from start to end, both bounds included |
| Dates.RangeBounds | CODE/ProductReportSystem.java:193-197 | both bounds of a well-formed range are in it; a range whose start is after its end holds no date |
| Dates.IsoDate | CODE/ProductReportSystem.java:245-246 | a date prints as a single line ending in `-MM-dd`, whose two-digit fields read back as the month and the day |
| DateWindow.Within | CODE/ProductReportSystem.java:241-242 | the records kept are no more than the list holds, and each is from the list and dated in range |
| DateWindow.WithinMembership | CODE/ProductReportSystem.java:241-242 | a record is kept iff the list holds it and its date is in range (both directions) |
| DateWindow.WithinMultiplicity | CODE/ProductReportSystem.java:241-247 | each record in range is kept as many times as the list holds it, each other record is dropped: no deduplication, no loss |
| DateWindow.WithinAppend | CODE/ProductReportSystem.java:241-247 | filtering distributes over concatenation, so the kept records come out in list order |
| DateWindow.WithinPrefix | CODE/ProductReportSystem.java:241-242 | scanning one more record keeps it exactly when its date is in range |
| DateWindow.WithinExtremes | CODE/ProductReportSystem.java:241-242 | with every record in range all are kept; with none in range nothing is |
| DateWindow.SumWithinIsMaskedSum | CODE/ProductReportSystem.java:240-244 | the sum over the kept records equals the sum over every record counting only those in range; it is 0 when none is in range |
| DateWindow.SumAppend | CODE/ProductReportSystem.java:244 | a running sum over two parts is the sum of the parts |
| DateWindow.SumNonNegative | CODE/ProductReportSystem.java:244 | non-negative values have a non-negative sum |
| Formats.Wrap32 | CODE/ProductReportSystem.java:289-292 | the `int` result differs from the exact value by a multiple of 2^32 and equals it when in range |
| Formats.Wrap32Add | CODE/ProductReportSystem.java:292 | adding to a wrapped total wraps like adding to the exact total |
| Formats.NatToStringRoundTrip | CODE/ProductReportSystem.java:297 | the decimal digits printed for a number read back as that number |
| Formats.Money | CODE/ProductReportSystem.java:249 | an amount prints as a single line with a point before two digits that read back as its cents below a whole unit |
| Formats.MoneyReadsBack | CODE/ProductReportSystem.java:249 | the printed amount starts with a minus sign exactly when it is negative, and the digits before the point read back as its whole units |
| Formats.JavaDouble | Lab_Assignment_1/generateReport.java:120 | a price prints as a single line |
| Formats.JavaDoubleReadsBack | Lab_Assignment_1/generateReport.java:120 | a price printed as `Double.toString` does is signed exactly when negative, and its whole units and its shortest fraction (one digit for a multiple of ten cents, two otherwise) read back as its cents |
| Formats.EqualsIgnoreCase | Lab_Assignment_1/generateReport.java:94-100 | two texts are equal ignoring case when they have the same length and agree letter by letter after lower-casing ASCII letters |
| Formats.PadRight | CODE/ProductReportSystem.java:236-237 | a padded column keeps its text, is at least the column width, is padded with spaces only, and holds a line break iff the text does |
| ProductReportSystem.AggregatesCountExactlyTheRange | CODE/ProductReportSystem.java:240-249 | grand total, revenue and quantity equal reference sums over every record counting only those in range; each is 0 when nothing is in range |
| ProductReportSystem.RunningQuantityWrapsOnce | CODE/ProductReportSystem.java:289-292 | wrapping the `int` total after every addition equals wrapping the exact sum once |
| ProductReportSystem.SupplierTotalIsRunningSum | CODE/ProductReportSystem.java:289-297 | the printed quantity total equals the Java loop's step-by-step `int` total, and equals the exact sum whenever that fits in an `int` |
| ProductReportSystem.SaleRowLine | CODE/ProductReportSystem.java:245-246 | a sales row is exactly one line when the product name holds no line break |
| ProductReportSystem.InventoryRowLine | CODE/ProductReportSystem.java:260-261 | an inventory row is exactly one line when product and location hold no line break |
| ProductReportSystem.CustomerRowLine | CODE/ProductReportSystem.java:276-277 | a customer row is exactly one line when name and product hold no line break |
| ProductReportSystem.SupplierRowLine | CODE/ProductReportSystem.java:293-294 | a supplier row is exactly one line when name and product hold no line break |
| ProductReportSystem.SalesSectionLines | CODE/ProductReportSystem.java:234-250 | the sales section has 3 heading lines, one line per sale in range and 2 total lines |
| ProductReportSystem.InventorySectionLines | CODE/ProductReportSystem.java:252-264 | the inventory section has 3 heading lines and one line per stock entry in range, and no total |
| ProductReportSystem.CustomerSectionLines | CODE/ProductReportSystem.java:266-281 | the customer section has 3 heading lines, one line per purchase in range and 2 total lines |
| ProductReportSystem.SupplierSectionLines | CODE/ProductReportSystem.java:283-298 | the supplier section has 3 heading lines, one line per delivery in range and 2 total lines |
| ProductReportSystem.EmptySalesSection | CODE/ProductReportSystem.java:240-249 | with no sale in range the section is its heading and the total line for 0, which is still printed |
| ProductReportSystem.EmptyInventorySection | CODE/ProductReportSystem.java:252-264 | with no stock entry in range the section is its heading alone |
| ProductReportSystem.EmptyCustomerSection | CODE/ProductReportSystem.java:272-280 | with no purchase in range the section is its heading and the revenue line for 0 |
| ProductReportSystem.EmptySupplierSection | CODE/ProductReportSystem.java:289-297 | with no delivery in range the section is its heading and the quantity line for 0 |
| ProductReportSystem.AggregatesNonNegative | CODE/ProductReportSystem.java:240-249 | with no negative quantity, price or amount in the lists, the grand total and the revenue are never negative |
| ProductReportSystem.ZeroAmounts | CODE/ProductReportSystem.java:249 | a zero total prints as `0.00`, a zero quantity as `0` |
| ProductReportSystem.Metadata | CODE/ProductReportSystem.java:201-204 | the metadata block: type, start date, end date and description after their captions, one per line, then a blank line (its shape is stated by the two lemmas below) |
| ProductReportSystem.ReportLayout | CODE/ProductReportSystem.java:200-219 | the report text starts with the metadata block; a type matching none of the four cases adds nothing after it |
| ProductReportSystem.MetadataLines | CODE/ProductReportSystem.java:201-204 | the metadata block is four lines and a blank line when the type and description are single-line |
| ProductReportSystem.SeedSalesExample | CODE/ProductReportSystem.java:93-95 | on the seed sales from 2025-05-01 to 2025-05-10, Laptop and Phone are kept (Tablet is not), and the grand total is 5 x 999.99 + 10 x 699.99 |
| ProductReportSystem.TextBuilder.Append | CODE/ProductReportSystem.java:200-201 | appending extends the buffer by exactly the text |
| ProductReportSystem.AppendRowsInRange | CODE/ProductReportSystem.java:258-263 | the loop appends the rendering of exactly the records in range, in order |
| ProductReportSystem.AppendRowsInRangeWithTotal | CODE/ProductReportSystem.java:240-248 | the loop appends the rows of exactly the records in range, in order, and its total is their sum |
| ProductReportSystem.ProductReportSystem.constructor | CODE/ProductReportSystem.java:85-88 | a new system holds the seed lists and the log's prior contents |
| ProductReportSystem.ProductReportSystem.InitializeSampleData | CODE/ProductReportSystem.java:90-114 | the four lists hold the seed records in order |
| ProductReportSystem.ProductReportSystem.GenerateReport | CODE/ProductReportSystem.java:193-222 | start after end: rejected, log unchanged; otherwise metadata then section is saved, the log grows by that text and the separator, and no record list changes |
| ProductReportSystem.ProductReportSystem.AppendSection | CODE/ProductReportSystem.java:206-219 | the switch appends the named category's section, and nothing for any other type |
| ProductReportSystem.ProductReportSystem.GenerateSalesReport | CODE/ProductReportSystem.java:234-250 | appends exactly the sales section for the range |
| ProductReportSystem.ProductReportSystem.GenerateInventoryReport | CODE/ProductReportSystem.java:252-264 | appends exactly the inventory section for the range |
| ProductReportSystem.ProductReportSystem.GenerateCustomerReport | CODE/ProductReportSystem.java:266-281 | appends exactly the customer section for the range |
| ProductReportSystem.ProductReportSystem.GenerateSupplierReport | CODE/ProductReportSystem.java:283-298 | appends exactly the supplier section for the range |
| ProductReportSystem.ProductReportSystem.SaveReportToFile | CODE/ProductReportSystem.java:300-303 | the log grows by the report and then the separator line |
| InventoryManagement.FindProduct | Lab_Assignment_1/generateReport.java:123-130 | a found product is in the list and carries the id |
| InventoryManagement.FindProductIsFirstMatch | Lab_Assignment_1/generateReport.java:123-130 | the lookup fails iff no product has the id, and otherwise yields the product at the first position with that id |
| InventoryManagement.Database.FindProductById | Lab_Assignment_1/generateReport.java:123-130 | the loop with early return yields the first match, or none |
| InventoryManagement.LowStock | Lab_Assignment_1/generateReport.java:95-99 | every listed product has fewer than 50 units, and no more products are listed than the list holds |
| InventoryManagement.LowStockMembership | Lab_Assignment_1/generateReport.java:95-99 | a product is listed iff it is in the list and has fewer than 50 units |
| InventoryManagement.LowStockMultiplicity | Lab_Assignment_1/generateReport.java:95-99 | each low-stock product is kept as often as it occurs, and every other product is dropped |
| InventoryManagement.LowStockAppend | Lab_Assignment_1/generateReport.java:95-99 | the filter keeps list order |
| InventoryManagement.LowStockStep | Lab_Assignment_1/generateReport.java:95-99 | one more product scanned adds its formatted line exactly when it is low on stock |
| InventoryManagement.FormatProduct | Lab_Assignment_1/generateReport.java:116-121 | a product's line is a single line when its id and name are |
| InventoryManagement.FormatProductFields | Lab_Assignment_1/generateReport.java:116-121 | a product's line opens with `- ID: ` and the id, and ends with `$` and the price as `Double.toString` prints it |
| InventoryManagement.FormatAll | Lab_Assignment_1/generateReport.java:109-111 | one formatted line per product, the i-th line formatting the i-th product |
| InventoryManagement.FormatAllAppend | Lab_Assignment_1/generateReport.java:109-111 | formatting goes product by product, in order |
| InventoryManagement.RecordLines | Lab_Assignment_1/generateReport.java:102-105 | a sales record gives one line when its product id is known and none otherwise |
| InventoryManagement.SalesLinesAppend | Lab_Assignment_1/generateReport.java:101-106 | the sales listing goes record by record, in order |
| InventoryManagement.SalesLinesCount | Lab_Assignment_1/generateReport.java:101-106 | the listing has one line per record iff every id is known; with no id known it is empty |
| InventoryManagement.SalesStep | Lab_Assignment_1/generateReport.java:101-106 | one more record scanned adds its line exactly when its id is known |
| InventoryManagement.QueryResultIgnoresCase | Lab_Assignment_1/generateReport.java:94-100 | two types equal up to ASCII case get the same answer |
| InventoryManagement.StockListing | Lab_Assignment_1/generateReport.java:107-112 | any other type lists every product once, in order |
| InventoryManagement.DisplayLineCount | Lab_Assignment_1/generateReport.java:61-68 | the display has 2 + (number of data lines) lines when type and data are single-line |
| InventoryManagement.StockDisplayLines | Lab_Assignment_1/generateReport.java:61-68 | a displayed stock listing has 2 lines plus one per product when the type and every id and name are single-line |
| InventoryManagement.SeedLowStock | Lab_Assignment_1/generateReport.java:80-83 | on the seed products the low-stock listing is Bananas then Lemons |
| InventoryManagement.SeedSalesListing | Lab_Assignment_1/generateReport.java:86-87 | on the seed data the sales listing is Apples sold 30, then Oranges sold 50 |
| InventoryManagement.Database.constructor | Lab_Assignment_1/generateReport.java:75-88 | a new database holds the seed products and sales records in order |
| InventoryManagement.Database.QueryData | Lab_Assignment_1/generateReport.java:90-114 | the answer is the listing chosen by the type; it depends on the type and the lists, never on the dates |
| InventoryManagement.Database.ListLowStock | Lab_Assignment_1/generateReport.java:94-99 | the loop yields the formatted low-stock products |
| InventoryManagement.Database.ListSales | Lab_Assignment_1/generateReport.java:100-106 | the loop yields the sales listing, looking each product up by id |
| InventoryManagement.StockStep | Lab_Assignment_1/generateReport.java:109-111 | one more product scanned adds its formatted line |
| InventoryManagement.Database.ListStock | Lab_Assignment_1/generateReport.java:107-112 | the loop yields every formatted product |
| InventoryManagement.Report.constructor | Lab_Assignment_1/generateReport.java:56-59 | a report carries its type and lines |
| InventoryManagement.Report.Display | Lab_Assignment_1/generateReport.java:61-68 | the displayed text is the header, then each data line followed by a line break |
| InventoryManagement.ReportGenerator.constructor | Lab_Assignment_1/generateReport.java:28-32 | a generator carries the three inputs |
| InventoryManagement.ReportGenerator.ValidateInput | Lab_Assignment_1/generateReport.java:45-49 | the inputs are valid when the type and both dates are present and non-empty |
| InventoryManagement.ReportGenerator.GenerateReport | Lab_Assignment_1/generateReport.java:34-49 | no report iff some input is missing or empty; otherwise a new report of the requested type holding the query's answer over the seed data |

## Left out

- The Swing form, dialogs, `clearForm` and `main` are user-interface plumbing. The console input and output of the query layer are left out for the same reason, including the "Fetching data" and "Invalid input parameters." messages.
- Date parsing, the empty-date check and `trim` happen before the range check. The model takes dates already parsed. A malformed date, and the `catch` that reports it, are not modelled.
- The model follows the code's `switch` with no default: an unrecognised category gives the metadata alone and is saved. An error for unknown categories is a design intention that the code does not implement.
- The `reportType` of the report form is taken to be a string. A null selection is not modelled; in Java it would throw in the `switch` and be reported as an invalid date by the `catch`.
- `reports.txt` is the string field `reportsFile`, with its prior contents passed to the constructor. An `IOException` while writing is not modelled. The Java code reports it, and part of the text may already be in the file, since the buffered writer can flush before a later write or the close fails.
- Prices and amounts are `double` in Java and whole cents here. Rounding of binary fractions, and the half-up rounding of `%.2f`, are not modelled.
- Formats.Money: assumes a default locale with a point as decimal separator and ASCII digits. `String.format` uses the JVM's default locale: under German the amounts are printed with a comma, and under a locale with its own numbering system (Thai digits, say) with that system's digits.
- Formats.IntToString: the `%d` and `%-8d` columns of the sales, inventory and supplier rows go through the same locale, so they too assume ASCII digits; the `Integer.toString` of the quantity total and of the query layer's lines is locale-independent.
- Formats.PadRight: measures the width in characters, not in UTF-16 code units as Java's `%-Ns` does. A text holding characters outside the Basic Multilingual Plane (an emoji, say) gets one space fewer per such character in Java, so its Java field can be narrower than the width counted in characters.
- Formats.JavaDouble: only covers plain decimal notation. Java switches to scientific notation from 10^7, which is not modelled.
- Formats.EqualsIgnoreCase: folds ASCII letters only, not the full Unicode case folding of `equalsIgnoreCase`.
- Dates.IsoDate: years beyond four digits are written with a sign, as `LocalDate.toString` does. The range of years `LocalDate` accepts is not bounded here.
- ProductReportSystem.ProductReportSystem.GenerateSupplierReport: the shared loop adds up the exact sum, and the routine wraps it to 32 bits once at the end. Java wraps after each addition; `SupplierTotalIsRunningSum` proves the two give the same value.
- ProductReportSystem.AppendRowsInRange: the four report routines' loops are modelled by two generic loops (with and without a running total). Each routine passes in its own row format and value.
- InventoryManagement.Database.QueryData: each branch's loop is a separate method. The Java method holds all three loops itself.
- Product and SalesRecord getters are plain datatype fields. `Admin` and its id and name fields are not part of this model.
