/** The product report generator: four lists of dated records (sales,
    inventory, customer purchases, supplier deliveries), a report builder
    that keeps the records dated inside an inclusive range, prints one row
    per kept record and a running aggregate, and a log that every
    generated report is appended to. */
module ProductReportSystem {
  import opened Formats
  import opened Dates
  import opened DateWindow

  // ---------------------------------------------------------------------
  // Records (money in whole cents)

  datatype SaleRecord = SaleRecord(date: Date, product: string, quantity: int32, price: int)
  datatype InventoryRecord = InventoryRecord(date: Date, product: string, stock: int32, location: string)
  datatype CustomerRecord = CustomerRecord(date: Date, customerName: string, purchasedProduct: string, amount: int)
  datatype SupplierRecord = SupplierRecord(date: Date, supplierName: string, suppliedProduct: string, quantity: int32)

  function SaleDate(r: SaleRecord): Date { r.date }
  function InventoryDate(r: InventoryRecord): Date { r.date }
  function CustomerDate(r: CustomerRecord): Date { r.date }
  function SupplierDate(r: SupplierRecord): Date { r.date }

  /** A sale's line total, quantity times unit price. */
  function SaleTotal(r: SaleRecord): int { r.quantity * r.price }
  function CustomerAmount(r: CustomerRecord): int { r.amount }
  function SupplierQuantity(r: SupplierRecord): int { r.quantity }

  // ---------------------------------------------------------------------
  // Aggregates over the records in range

  /** "Grand Total": the sum of quantity times price over the sales in range. */
  function GrandTotal(sales: seq<SaleRecord>, start: Date, end: Date): int {
    Sum(Within(sales, SaleDate, start, end), SaleTotal)
  }

  /** "Total Revenue": the sum of the amounts of the purchases in range. */
  function TotalRevenue(customers: seq<CustomerRecord>, start: Date, end: Date): int {
    Sum(Within(customers, CustomerDate, start, end), CustomerAmount)
  }

  /** "Total Quantity Received": the sum of the delivered quantities in
      range, accumulated in a Java `int`. */
  function TotalQuantity(suppliers: seq<SupplierRecord>, start: Date, end: Date): int32 {
    Wrap32(Sum(Within(suppliers, SupplierDate, start, end), SupplierQuantity))
  }

  // ---------------------------------------------------------------------
  // Report text

  function SaleCells(r: SaleRecord): string {
    PadRight(IsoDate(r.date), 12) + " " + PadRight(r.product, 15) + " " + PadRight(IntToString(r.quantity), 8)
    + " $" + PadRight(Money(r.price), 9) + " $" + PadRight(Money(SaleTotal(r)), 10)
  }

  /** A sales row: date, product, quantity, price and line total, each
      left-justified in its column. */
  function SaleRow(r: SaleRecord): string {
    Line(SaleCells(r))
  }

  function InventoryCells(r: InventoryRecord): string {
    PadRight(IsoDate(r.date), 12) + " " + PadRight(r.product, 15) + " " + PadRight(IntToString(r.stock), 8)
    + " " + PadRight(r.location, 15)
  }

  function InventoryRow(r: InventoryRecord): string {
    Line(InventoryCells(r))
  }

  function CustomerCells(r: CustomerRecord): string {
    PadRight(IsoDate(r.date), 12) + " " + PadRight(r.customerName, 20) + " " + PadRight(r.purchasedProduct, 15)
    + " $" + PadRight(Money(r.amount), 9)
  }

  function CustomerRow(r: CustomerRecord): string {
    Line(CustomerCells(r))
  }

  function SupplierCells(r: SupplierRecord): string {
    PadRight(IsoDate(r.date), 12) + " " + PadRight(r.supplierName, 20) + " " + PadRight(r.suppliedProduct, 15)
    + " " + PadRight(IntToString(r.quantity), 8)
  }

  function SupplierRow(r: SupplierRecord): string {
    Line(SupplierCells(r))
  }

  const SalesTitle := Line("=== SALES DETAILS ===")
  const SalesColumnNames := PadRight("Date", 12) + " " + PadRight("Product", 15) + " " + PadRight("Qty", 8) + " " + PadRight("Price", 10) + " " + PadRight("Total", 12)
  const SalesColumns := Line(SalesColumnNames)
  const SalesRule := Line(Repeat('-', 48))

  const InventoryTitle := Line("=== INVENTORY DETAILS ===")
  const InventoryColumnNames := PadRight("Date", 12) + " " + PadRight("Product", 15) + " " + PadRight("Stock", 8) + " " + PadRight("Location", 15)
  const InventoryColumns := Line(InventoryColumnNames)
  const InventoryRule := Line(Repeat('-', 40))

  const CustomerTitle := Line("=== CUSTOMER DETAILS ===")
  const CustomerColumnNames := PadRight("Date", 12) + " " + PadRight("Customer Name", 20) + " " + PadRight("Product", 15) + " " + PadRight("Amount", 10)
  const CustomerColumns := Line(CustomerColumnNames)
  const CustomerRule := Line(Repeat('-', 48))

  const SupplierTitle := Line("=== SUPPLIER DETAILS ===")
  const SupplierColumnNames := PadRight("Date", 12) + " " + PadRight("Supplier Name", 20) + " " + PadRight("Product", 15) + " " + PadRight("Qty", 8)
  const SupplierColumns := Line(SupplierColumnNames)
  const SupplierRule := Line(Repeat('-', 40))

  /** The sales section: title, column headings and rule, one row per
      sale in range, then a blank line and the grand total. */
  function SalesSection(sales: seq<SaleRecord>, start: Date, end: Date): string {
    SalesTitle + SalesColumns + SalesRule + Render(Within(sales, SaleDate, start, end), SaleRow)
    + "\nGrand Total: $" + Money(GrandTotal(sales, start, end)) + "\n"
  }

  /** The inventory section: heading and one row per stock entry in
      range; it has no total. */
  function InventorySection(inventory: seq<InventoryRecord>, start: Date, end: Date): string {
    InventoryTitle + InventoryColumns + InventoryRule + Render(Within(inventory, InventoryDate, start, end), InventoryRow)
  }

  /** The customer section: heading, one row per purchase in range, then
      a blank line and the total revenue. */
  function CustomerSection(customers: seq<CustomerRecord>, start: Date, end: Date): string {
    CustomerTitle + CustomerColumns + CustomerRule + Render(Within(customers, CustomerDate, start, end), CustomerRow)
    + "\nTotal Revenue: $" + Money(TotalRevenue(customers, start, end)) + "\n"
  }

  /** The supplier section: heading, one row per delivery in range, then
      a blank line and the total quantity received. */
  function SupplierSection(suppliers: seq<SupplierRecord>, start: Date, end: Date): string {
    SupplierTitle + SupplierColumns + SupplierRule + Render(Within(suppliers, SupplierDate, start, end), SupplierRow)
    + "\nTotal Quantity Received: " + IntToString(TotalQuantity(suppliers, start, end)) + "\n"
  }

  /** The metadata block every report starts with: the type, the start
      date, the end date and the description, each on a line of its own
      after its caption, then a blank line (see `MetadataLines`). */
  function Metadata(reportType: string, start: Date, end: Date, description: string): string {
    "Report Type: " + reportType + "\nStart Date: " + IsoDate(start) + "\nEnd Date: " + IsoDate(end)
    + "\nDescription: " + description + "\n\n"
  }

  /** The section for a report type; a type that is none of the four adds
      nothing. */
  function Section(reportType: string, start: Date, end: Date, sales: seq<SaleRecord>, inventory: seq<InventoryRecord>,
                   customers: seq<CustomerRecord>, suppliers: seq<SupplierRecord>): string
  {
    if reportType == "Sales" then SalesSection(sales, start, end)
    else if reportType == "Inventory" then InventorySection(inventory, start, end)
    else if reportType == "Customer" then CustomerSection(customers, start, end)
    else if reportType == "Supplier" then SupplierSection(suppliers, start, end)
    else ""
  }

  /** The whole text of a report. */
  function ReportText(reportType: string, start: Date, end: Date, description: string, sales: seq<SaleRecord>,
                      inventory: seq<InventoryRecord>, customers: seq<CustomerRecord>, suppliers: seq<SupplierRecord>): string
  {
    Metadata(reportType, start, end, description) + Section(reportType, start, end, sales, inventory, customers, suppliers)
  }

  /** What follows each report in the log file. */
  const ReportSeparator := "\n========================================\n\n"

  /** The outcome of a request: rejected, or the text that was saved. */
  datatype Outcome = StartAfterEnd | Saved(text: string)

  // ---------------------------------------------------------------------
  // Seed data

  function SeedSales(): seq<SaleRecord> {
    [ SaleRecord(YearMonthDay(2025, 5, 1), "Laptop", 5, 99999),
      SaleRecord(YearMonthDay(2025, 5, 10), "Phone", 10, 69999),
      SaleRecord(YearMonthDay(2025, 5, 15), "Tablet", 8, 39999) ]
  }

  function SeedInventory(): seq<InventoryRecord> {
    [ InventoryRecord(YearMonthDay(2025, 5, 1), "Laptop", 25, "Warehouse A"),
      InventoryRecord(YearMonthDay(2025, 5, 7), "Phone", 50, "Warehouse B"),
      InventoryRecord(YearMonthDay(2025, 5, 15), "Tablet", 30, "Warehouse A") ]
  }

  function SeedCustomers(): seq<CustomerRecord> {
    [ CustomerRecord(YearMonthDay(2025, 5, 2), "naseem", "Laptop", 99999),
      CustomerRecord(YearMonthDay(2025, 5, 8), "shahid", "Phone", 69999),
      CustomerRecord(YearMonthDay(2025, 5, 12), "wazir", "Tablet", 39999) ]
  }

  function SeedSuppliers(): seq<SupplierRecord> {
    [ SupplierRecord(YearMonthDay(2025, 5, 3), "naseem", "Laptop", 20),
      SupplierRecord(YearMonthDay(2025, 5, 9), "shahid", "Phone", 30),
      SupplierRecord(YearMonthDay(2025, 5, 14), "wazir", "Tablet", 25) ]
  }

  // ---------------------------------------------------------------------
  // Properties of the report text

  /** Heading and rows of a section, line by line: with no line break
      inside a record's text fields, every kept record yields exactly one
      row, so a section has its three heading lines, one line per record
      in range and, for the three aggregating categories, two more for the
      blank line and the total. */
  lemma {:induction false} SalesSectionLines(sales: seq<SaleRecord>, start: Date, end: Date)
    requires forall r :: r in sales ==> '\n' !in r.product
    ensures Newlines(SalesSection(sales, start, end)) == 3 + |Within(sales, SaleDate, start, end)| + 2
  {
    var kept := Within(sales, SaleDate, start, end);
    forall r | r in kept
      ensures Newlines(SaleRow(r)) == 1
    {
      WithinMembership(sales, SaleDate, start, end, r);
      SaleRowLine(r);
    }
    RenderNewlines(kept, SaleRow);
    SalesHeadingLines();
    GrandTotalCaptionLine();
    TotalLines(SalesTitle + SalesColumns + SalesRule, Render(kept, SaleRow), "\nGrand Total: $", Money(GrandTotal(sales, start, end)));
  }

  lemma {:induction false} InventorySectionLines(inventory: seq<InventoryRecord>, start: Date, end: Date)
    requires forall r :: r in inventory ==> '\n' !in r.product && '\n' !in r.location
    ensures Newlines(InventorySection(inventory, start, end)) == 3 + |Within(inventory, InventoryDate, start, end)|
  {
    var kept := Within(inventory, InventoryDate, start, end);
    forall r | r in kept
      ensures Newlines(InventoryRow(r)) == 1
    {
      WithinMembership(inventory, InventoryDate, start, end, r);
      InventoryRowLine(r);
    }
    RenderNewlines(kept, InventoryRow);
    InventoryHeadingLines();
    NewlinesAppend(InventoryTitle + InventoryColumns + InventoryRule, Render(kept, InventoryRow));
  }

  lemma {:induction false} CustomerSectionLines(customers: seq<CustomerRecord>, start: Date, end: Date)
    requires forall r :: r in customers ==> '\n' !in r.customerName && '\n' !in r.purchasedProduct
    ensures Newlines(CustomerSection(customers, start, end)) == 3 + |Within(customers, CustomerDate, start, end)| + 2
  {
    var kept := Within(customers, CustomerDate, start, end);
    forall r | r in kept
      ensures Newlines(CustomerRow(r)) == 1
    {
      WithinMembership(customers, CustomerDate, start, end, r);
      CustomerRowLine(r);
    }
    RenderNewlines(kept, CustomerRow);
    CustomerHeadingLines();
    RevenueCaptionLine();
    TotalLines(CustomerTitle + CustomerColumns + CustomerRule, Render(kept, CustomerRow), "\nTotal Revenue: $", Money(TotalRevenue(customers, start, end)));
  }

  lemma {:induction false} SupplierSectionLines(suppliers: seq<SupplierRecord>, start: Date, end: Date)
    requires forall r :: r in suppliers ==> '\n' !in r.supplierName && '\n' !in r.suppliedProduct
    ensures Newlines(SupplierSection(suppliers, start, end)) == 3 + |Within(suppliers, SupplierDate, start, end)| + 2
  {
    var kept := Within(suppliers, SupplierDate, start, end);
    forall r | r in kept
      ensures Newlines(SupplierRow(r)) == 1
    {
      WithinMembership(suppliers, SupplierDate, start, end, r);
      SupplierRowLine(r);
    }
    RenderNewlines(kept, SupplierRow);
    SupplierHeadingLines();
    QuantityCaptionLine();
    TotalLines(SupplierTitle + SupplierColumns + SupplierRule, Render(kept, SupplierRow), "\nTotal Quantity Received: ", IntToString(TotalQuantity(suppliers, start, end)));
  }

  lemma SaleRowLine(r: SaleRecord)
    requires '\n' !in r.product
    ensures Newlines(SaleRow(r)) == 1
  {
    var date, product, quantity, price, total := PadRight(IsoDate(r.date), 12), PadRight(r.product, 15), PadRight(IntToString(r.quantity), 8), PadRight(Money(r.price), 9), PadRight(Money(SaleTotal(r)), 10);
    assert SaleCells(r) == date + " " + product + " " + quantity + " $" + price + " $" + total;
    assert '\n' !in date + " " + product;
    assert '\n' !in date + " " + product + " " + quantity;
    assert '\n' !in date + " " + product + " " + quantity + " $" + price;
    assert '\n' !in date + " " + product + " " + quantity + " $" + price + " $" + total;
    LineNewlines(SaleCells(r));
  }

  lemma SalesHeadingLines()
    ensures Newlines(SalesTitle + SalesColumns + SalesRule) == 3
  {
    assert '\n' !in PadRight("Date", 12) + " " + PadRight("Product", 15);
    assert '\n' !in PadRight("Date", 12) + " " + PadRight("Product", 15) + " " + PadRight("Qty", 8);
    assert '\n' !in PadRight("Date", 12) + " " + PadRight("Product", 15) + " " + PadRight("Qty", 8) + " " + PadRight("Price", 10);
    assert '\n' !in PadRight("Date", 12) + " " + PadRight("Product", 15) + " " + PadRight("Qty", 8) + " " + PadRight("Price", 10) + " " + PadRight("Total", 12);
    HeadingLines("=== SALES DETAILS ===", SalesColumnNames, Repeat('-', 48));
  }

  lemma InventoryRowLine(r: InventoryRecord)
    requires '\n' !in r.product && '\n' !in r.location
    ensures Newlines(InventoryRow(r)) == 1
  {
    var date, product, stock, location := PadRight(IsoDate(r.date), 12), PadRight(r.product, 15), PadRight(IntToString(r.stock), 8), PadRight(r.location, 15);
    assert InventoryCells(r) == date + " " + product + " " + stock + " " + location;
    assert '\n' !in date + " " + product;
    assert '\n' !in date + " " + product + " " + stock;
    assert '\n' !in date + " " + product + " " + stock + " " + location;
    LineNewlines(InventoryCells(r));
  }

  lemma InventoryHeadingLines()
    ensures Newlines(InventoryTitle + InventoryColumns + InventoryRule) == 3
  {
    assert '\n' !in PadRight("Date", 12) + " " + PadRight("Product", 15);
    assert '\n' !in PadRight("Date", 12) + " " + PadRight("Product", 15) + " " + PadRight("Stock", 8);
    assert '\n' !in PadRight("Date", 12) + " " + PadRight("Product", 15) + " " + PadRight("Stock", 8) + " " + PadRight("Location", 15);
    HeadingLines("=== INVENTORY DETAILS ===", InventoryColumnNames, Repeat('-', 40));
  }

  lemma CustomerRowLine(r: CustomerRecord)
    requires '\n' !in r.customerName && '\n' !in r.purchasedProduct
    ensures Newlines(CustomerRow(r)) == 1
  {
    var date, name, product, amount := PadRight(IsoDate(r.date), 12), PadRight(r.customerName, 20), PadRight(r.purchasedProduct, 15), PadRight(Money(r.amount), 9);
    assert CustomerCells(r) == date + " " + name + " " + product + " $" + amount;
    assert '\n' !in date + " " + name;
    assert '\n' !in date + " " + name + " " + product;
    assert '\n' !in date + " " + name + " " + product + " $" + amount;
    LineNewlines(CustomerCells(r));
  }

  lemma CustomerHeadingLines()
    ensures Newlines(CustomerTitle + CustomerColumns + CustomerRule) == 3
  {
    assert '\n' !in PadRight("Date", 12) + " " + PadRight("Customer Name", 20);
    assert '\n' !in PadRight("Date", 12) + " " + PadRight("Customer Name", 20) + " " + PadRight("Product", 15);
    assert '\n' !in PadRight("Date", 12) + " " + PadRight("Customer Name", 20) + " " + PadRight("Product", 15) + " " + PadRight("Amount", 10);
    HeadingLines("=== CUSTOMER DETAILS ===", CustomerColumnNames, Repeat('-', 48));
  }

  lemma SupplierRowLine(r: SupplierRecord)
    requires '\n' !in r.supplierName && '\n' !in r.suppliedProduct
    ensures Newlines(SupplierRow(r)) == 1
  {
    var date, name, product, quantity := PadRight(IsoDate(r.date), 12), PadRight(r.supplierName, 20), PadRight(r.suppliedProduct, 15), PadRight(IntToString(r.quantity), 8);
    assert SupplierCells(r) == date + " " + name + " " + product + " " + quantity;
    assert '\n' !in date + " " + name;
    assert '\n' !in date + " " + name + " " + product;
    assert '\n' !in date + " " + name + " " + product + " " + quantity;
    LineNewlines(SupplierCells(r));
  }

  lemma SupplierHeadingLines()
    ensures Newlines(SupplierTitle + SupplierColumns + SupplierRule) == 3
  {
    assert '\n' !in PadRight("Date", 12) + " " + PadRight("Supplier Name", 20);
    assert '\n' !in PadRight("Date", 12) + " " + PadRight("Supplier Name", 20) + " " + PadRight("Product", 15);
    assert '\n' !in PadRight("Date", 12) + " " + PadRight("Supplier Name", 20) + " " + PadRight("Product", 15) + " " + PadRight("Qty", 8);
    HeadingLines("=== SUPPLIER DETAILS ===", SupplierColumnNames, Repeat('-', 40));
  }

  /** Three heading lines. */
  lemma HeadingLines(title: string, columns: string, rule: string)
    requires '\n' !in title && '\n' !in columns && '\n' !in rule
    ensures Newlines(Line(title) + Line(columns) + Line(rule)) == 3
  {
    LineNewlines(title);
    LineNewlines(columns);
    LineNewlines(rule);
    NewlinesAppend(Line(title), Line(columns));
    NewlinesAppend(Line(title) + Line(columns), Line(rule));
  }

  /** Each total caption opens with the blank line before it. */
  lemma GrandTotalCaptionLine()
    ensures Newlines("\nGrand Total: $") == 1
  {
    BreakThenCaption("\nGrand Total: $");
  }

  lemma RevenueCaptionLine()
    ensures Newlines("\nTotal Revenue: $") == 1
  {
    BreakThenCaption("\nTotal Revenue: $");
  }

  lemma QuantityCaptionLine()
    ensures Newlines("\nTotal Quantity Received: ") == 1
  {
    BreakThenCaption("\nTotal Quantity Received: ");
  }

  /** Heading, rows, then a blank line and the total line. */
  lemma TotalLines(heading: string, rows: string, caption: string, amount: string)
    requires Newlines(caption) == 1 && '\n' !in amount
    ensures Newlines(heading + rows + caption + amount + "\n") == Newlines(heading) + Newlines(rows) + 2
  {
    NewlinesAppend(heading, rows);
    NewlinesAppend(heading + rows, caption);
    NewlinesNone(amount);
    NewlinesAppend(heading + rows + caption, amount);
    NewlinesAppend(heading + rows + caption + amount, "\n");
  }

  // ---------------------------------------------------------------------
  // Properties of the aggregates and of the report as a whole

  /** Each aggregate counts exactly the records dated in range: it equals
      the reference sum that visits every record and adds its value only
      when its date is in range. With no record in range, the sales and
      revenue totals are 0 and the quantity total is 0 as well. */
  lemma AggregatesCountExactlyTheRange(sales: seq<SaleRecord>, customers: seq<CustomerRecord>,
                                       suppliers: seq<SupplierRecord>, start: Date, end: Date)
    ensures GrandTotal(sales, start, end) == MaskedSum(sales, SaleDate, SaleTotal, start, end)
    ensures TotalRevenue(customers, start, end) == MaskedSum(customers, CustomerDate, CustomerAmount, start, end)
    ensures TotalQuantity(suppliers, start, end) == Wrap32(MaskedSum(suppliers, SupplierDate, SupplierQuantity, start, end))
    ensures (forall r :: r in sales ==> !InRange(r.date, start, end)) ==> GrandTotal(sales, start, end) == 0
    ensures (forall r :: r in customers ==> !InRange(r.date, start, end)) ==> TotalRevenue(customers, start, end) == 0
    ensures (forall r :: r in suppliers ==> !InRange(r.date, start, end)) ==> TotalQuantity(suppliers, start, end) == 0
  {
    SumWithinIsMaskedSum(sales, SaleDate, SaleTotal, start, end);
    SumWithinIsMaskedSum(customers, CustomerDate, CustomerAmount, start, end);
    SumWithinIsMaskedSum(suppliers, SupplierDate, SupplierQuantity, start, end);
  }

  /** The supplier total as the Java loop accumulates it: an `int` that
      wraps on every addition. */
  function RunningQuantity(rs: seq<SupplierRecord>, acc: int32): int32 {
    if rs == [] then acc else RunningQuantity(rs[1..], Wrap32(acc + rs[0].quantity))
  }

  /** Wrapping after every addition gives the exact sum wrapped once; so
      the total is exact whenever it fits in an `int`. */
  lemma {:induction false} RunningQuantityWrapsOnce(rs: seq<SupplierRecord>, a: int)
    ensures RunningQuantity(rs, Wrap32(a)) == Wrap32(a + Sum(rs, SupplierQuantity))
  {
    if rs != [] {
      Wrap32Add(a, rs[0].quantity);
      RunningQuantityWrapsOnce(rs[1..], a + rs[0].quantity);
    }
  }

  lemma SupplierTotalIsRunningSum(suppliers: seq<SupplierRecord>, start: Date, end: Date)
    ensures TotalQuantity(suppliers, start, end) == RunningQuantity(Within(suppliers, SupplierDate, start, end), 0)
    ensures var exact := Sum(Within(suppliers, SupplierDate, start, end), SupplierQuantity);
            -0x8000_0000 <= exact < 0x8000_0000 ==> TotalQuantity(suppliers, start, end) == exact
  {
    RunningQuantityWrapsOnce(Within(suppliers, SupplierDate, start, end), 0);
  }

  /** With nothing in range a section is its heading and, where there is
      one, the total line with a zero amount, which is still printed. */
  lemma EmptySalesSection(sales: seq<SaleRecord>, start: Date, end: Date)
    requires forall r :: r in sales ==> !InRange(r.date, start, end)
    ensures SalesSection(sales, start, end) == SalesTitle + SalesColumns + SalesRule + "\nGrand Total: $" + Money(0) + "\n"
  {
    WithinExtremes(sales, SaleDate, start, end);
    assert SalesTitle + SalesColumns + SalesRule + "" == SalesTitle + SalesColumns + SalesRule;
  }

  lemma EmptyInventorySection(inventory: seq<InventoryRecord>, start: Date, end: Date)
    requires forall r :: r in inventory ==> !InRange(r.date, start, end)
    ensures InventorySection(inventory, start, end) == InventoryTitle + InventoryColumns + InventoryRule
  {
    WithinExtremes(inventory, InventoryDate, start, end);
    assert InventoryTitle + InventoryColumns + InventoryRule + "" == InventoryTitle + InventoryColumns + InventoryRule;
  }

  lemma EmptyCustomerSection(customers: seq<CustomerRecord>, start: Date, end: Date)
    requires forall r :: r in customers ==> !InRange(r.date, start, end)
    ensures CustomerSection(customers, start, end) == CustomerTitle + CustomerColumns + CustomerRule + "\nTotal Revenue: $" + Money(0) + "\n"
  {
    WithinExtremes(customers, CustomerDate, start, end);
    assert CustomerTitle + CustomerColumns + CustomerRule + "" == CustomerTitle + CustomerColumns + CustomerRule;
  }

  lemma EmptySupplierSection(suppliers: seq<SupplierRecord>, start: Date, end: Date)
    requires forall r :: r in suppliers ==> !InRange(r.date, start, end)
    ensures SupplierSection(suppliers, start, end) == SupplierTitle + SupplierColumns + SupplierRule + "\nTotal Quantity Received: " + IntToString(0) + "\n"
  {
    WithinExtremes(suppliers, SupplierDate, start, end);
    assert SupplierTitle + SupplierColumns + SupplierRule + "" == SupplierTitle + SupplierColumns + SupplierRule;
  }

  /** With no negative quantity, price or amount in the lists, the grand
      total and the revenue are never negative. */
  lemma AggregatesNonNegative(sales: seq<SaleRecord>, customers: seq<CustomerRecord>, start: Date, end: Date)
    requires forall r :: r in sales ==> r.quantity >= 0 && r.price >= 0
    requires forall r :: r in customers ==> r.amount >= 0
    ensures GrandTotal(sales, start, end) >= 0
    ensures TotalRevenue(customers, start, end) >= 0
  {
    var keptSales := Within(sales, SaleDate, start, end);
    forall r | r in keptSales
      ensures SaleTotal(r) >= 0
    {
      WithinMembership(sales, SaleDate, start, end, r);
    }
    SumNonNegative(keptSales, SaleTotal);
    var keptCustomers := Within(customers, CustomerDate, start, end);
    forall r | r in keptCustomers
      ensures CustomerAmount(r) >= 0
    {
      WithinMembership(customers, CustomerDate, start, end, r);
    }
    SumNonNegative(keptCustomers, CustomerAmount);
  }

  /** The zero amounts as the total lines print them. */
  lemma ZeroAmounts()
    ensures Money(0) == "0.00" && IntToString(0) == "0"
  {
    assert NatToString(0) == "0";
  }

  /** Every report opens with its metadata block; a type that names none
      of the four categories adds nothing after it. */
  lemma ReportLayout(reportType: string, start: Date, end: Date, description: string, sales: seq<SaleRecord>,
                     inventory: seq<InventoryRecord>, customers: seq<CustomerRecord>, suppliers: seq<SupplierRecord>)
    ensures var text := ReportText(reportType, start, end, description, sales, inventory, customers, suppliers);
            var header := Metadata(reportType, start, end, description);
            |header| <= |text| && text[..|header|] == header
    ensures reportType !in {"Sales", "Inventory", "Customer", "Supplier"} ==>
              ReportText(reportType, start, end, description, sales, inventory, customers, suppliers)
              == Metadata(reportType, start, end, description)
  {
    var header := Metadata(reportType, start, end, description);
    var text := ReportText(reportType, start, end, description, sales, inventory, customers, suppliers);
    assert text[..|header|] == header;
    assert header + "" == header;
  }

  /** The metadata block: four lines (type, start date, end date,
      description) and a blank line, when the type and the description are
      single-line text. */
  lemma MetadataLines(reportType: string, start: Date, end: Date, description: string)
    requires '\n' !in reportType && '\n' !in description
    ensures Newlines(Metadata(reportType, start, end, description)) == 5
  {
    TypeCaptionLine();
    StartDateCaptionLine();
    EndDateCaptionLine();
    DescriptionCaptionLine();
    BlankLineBreaks();
    var a := "Report Type: " + reportType;
    NewlinesAppend("Report Type: ", reportType);
    NewlinesNone(reportType);
    var b := a + "\nStart Date: " + IsoDate(start);
    NewlinesAppend(a, "\nStart Date: ");
    NewlinesAppend(a + "\nStart Date: ", IsoDate(start));
    NewlinesNone(IsoDate(start));
    var c := b + "\nEnd Date: " + IsoDate(end);
    NewlinesAppend(b, "\nEnd Date: ");
    NewlinesAppend(b + "\nEnd Date: ", IsoDate(end));
    NewlinesNone(IsoDate(end));
    var d := c + "\nDescription: " + description;
    NewlinesAppend(c, "\nDescription: ");
    NewlinesAppend(c + "\nDescription: ", description);
    NewlinesNone(description);
    NewlinesAppend(d, "\n\n");
  }

  lemma TypeCaptionLine()
    ensures Newlines("Report Type: ") == 0
  {
    NewlinesNone("Report Type: ");
  }

  lemma BlankLineBreaks()
    ensures Newlines("\n\n") == 2
  {
    assert "\n\n"[1..] == "\n" && "\n"[1..] == "";
  }

  lemma StartDateCaptionLine()
    ensures Newlines("\nStart Date: ") == 1
  {
    BreakThenCaption("\nStart Date: ");
  }

  lemma EndDateCaptionLine()
    ensures Newlines("\nEnd Date: ") == 1
  {
    BreakThenCaption("\nEnd Date: ");
  }

  lemma DescriptionCaptionLine()
    ensures Newlines("\nDescription: ") == 1
  {
    BreakThenCaption("\nDescription: ");
  }

  /** The worked example on the seed data: from 2025-05-01 to 2025-05-10
      the Laptop and Phone sales are kept and the Tablet sale is not; the
      grand total is 5 x 999.99 + 10 x 699.99. */
  lemma SeedSalesExample()
    ensures var start, end := YearMonthDay(2025, 5, 1), YearMonthDay(2025, 5, 10);
            Within(SeedSales(), SaleDate, start, end) == [SeedSales()[0], SeedSales()[1]]
            && GrandTotal(SeedSales(), start, end) == 5 * 99999 + 10 * 69999
  {
    var sales := SeedSales();
    var start, end := YearMonthDay(2025, 5, 1), YearMonthDay(2025, 5, 10);
    assert sales[1..][1..][1..] == [];
    assert Within(sales[1..][1..], SaleDate, start, end) == [];
    assert Within(sales[1..], SaleDate, start, end) == [sales[1]];
    var kept := [sales[0], sales[1]];
    assert kept[1..] == [sales[1]] && kept[1..][1..] == [];
    assert Sum(kept[1..], SaleTotal) == SaleTotal(sales[1]);
    assert Sum(kept, SaleTotal) == SaleTotal(sales[0]) + SaleTotal(sales[1]);
  }

  // ---------------------------------------------------------------------
  // The text buffer a report is built in

  class TextBuilder {
    var text: string

    constructor()
      ensures text == ""
    {
      text := "";
    }

    method Append(s: string)
      modifies this
      ensures text == old(text) + s
    {
      text := text + s;
    }
  }

  // ---------------------------------------------------------------------
  // The loop the four report routines share: for each record of the list,
  // in order, when its date is in range, append its row (and add its value
  // to the running total).

  /** Appends one row per record dated in range, in list order. */
  method AppendRowsInRange<R>(report: TextBuilder, records: seq<R>, dateOf: R -> Date, row: R -> string,
                              startDate: Date, endDate: Date)
    modifies report
    ensures report.text == old(report.text) + Render(Within(records, dateOf, startDate, endDate), row)
  {
    ghost var start, rendered := report.text, "";
    for i := 0 to |records|
      invariant report.text == start + rendered
      invariant rendered == Render(Within(records[..i], dateOf, startDate, endDate), row)
    {
      var record := records[i];
      WithinPrefix(records, i, dateOf, startDate, endDate);
      ghost var kept := Within(records[..i], dateOf, startDate, endDate);
      if !IsBefore(dateOf(record), startDate) && !IsAfter(dateOf(record), endDate) {
        report.Append(row(record));
        RenderAppend(kept, [record], row);
        AppendAssoc(start, rendered, row(record));
        rendered := rendered + row(record);
      } else {
        assert kept + [] == kept;
      }
    }
    assert records[..|records|] == records;
  }

  /** The same loop, also adding up each appended record's value. */
  method AppendRowsInRangeWithTotal<R>(report: TextBuilder, records: seq<R>, dateOf: R -> Date, row: R -> string,
                                       value: R -> int, startDate: Date, endDate: Date)
    returns (total: int)
    modifies report
    ensures report.text == old(report.text) + Render(Within(records, dateOf, startDate, endDate), row)
    ensures total == Sum(Within(records, dateOf, startDate, endDate), value)
  {
    ghost var start, rendered := report.text, "";
    total := 0;
    for i := 0 to |records|
      invariant report.text == start + rendered
      invariant rendered == Render(Within(records[..i], dateOf, startDate, endDate), row)
      invariant total == Sum(Within(records[..i], dateOf, startDate, endDate), value)
    {
      var record := records[i];
      WithinPrefix(records, i, dateOf, startDate, endDate);
      ghost var kept := Within(records[..i], dateOf, startDate, endDate);
      if !IsBefore(dateOf(record), startDate) && !IsAfter(dateOf(record), endDate) {
        total := total + value(record);
        report.Append(row(record));
        RenderAppend(kept, [record], row);
        SumAppend(kept, [record], value);
        AppendAssoc(start, rendered, row(record));
        rendered := rendered + row(record);
      } else {
        assert kept + [] == kept;
      }
    }
    assert records[..|records|] == records;
  }

  /** Regrouping the three heading appends; with the heading constants
      held abstract this costs the solver far less than an inline
      assertion over their text. */
  lemma AppendHeading(start: string, title: string, columns: string, rule: string)
    ensures start + title + columns + rule == start + (title + columns + rule)
  {
  }

  /** Regrouping heading, rows and the three aggregate appends. */
  lemma AppendAggregate(start: string, heading: string, rows: string, caption: string, amount: string)
    ensures start + heading + rows + caption + amount + "\n" == start + (heading + rows + caption + amount + "\n")
  {
  }

  // ---------------------------------------------------------------------
  // The report system

  class ProductReportSystem {
    var salesData: seq<SaleRecord>
    var inventoryData: seq<InventoryRecord>
    var customerData: seq<CustomerRecord>
    var supplierData: seq<SupplierRecord>
    /** The contents of the report log file. */
    var reportsFile: string

    /** Starts with the seed data; `logContents` is what the log file
        already holds. */
    constructor(logContents: string)
      ensures salesData == SeedSales() && inventoryData == SeedInventory()
      ensures customerData == SeedCustomers() && supplierData == SeedSuppliers()
      ensures reportsFile == logContents
    {
      reportsFile := logContents;
      new;
      InitializeSampleData();
    }

    method InitializeSampleData()
      modifies this`salesData, this`inventoryData, this`customerData, this`supplierData
      ensures salesData == SeedSales() && inventoryData == SeedInventory()
      ensures customerData == SeedCustomers() && supplierData == SeedSuppliers()
    {
      salesData := [];
      salesData := salesData + [SaleRecord(YearMonthDay(2025, 5, 1), "Laptop", 5, 99999)];
      salesData := salesData + [SaleRecord(YearMonthDay(2025, 5, 10), "Phone", 10, 69999)];
      salesData := salesData + [SaleRecord(YearMonthDay(2025, 5, 15), "Tablet", 8, 39999)];

      inventoryData := [];
      inventoryData := inventoryData + [InventoryRecord(YearMonthDay(2025, 5, 1), "Laptop", 25, "Warehouse A")];
      inventoryData := inventoryData + [InventoryRecord(YearMonthDay(2025, 5, 7), "Phone", 50, "Warehouse B")];
      inventoryData := inventoryData + [InventoryRecord(YearMonthDay(2025, 5, 15), "Tablet", 30, "Warehouse A")];

      customerData := [];
      customerData := customerData + [CustomerRecord(YearMonthDay(2025, 5, 2), "naseem", "Laptop", 99999)];
      customerData := customerData + [CustomerRecord(YearMonthDay(2025, 5, 8), "shahid", "Phone", 69999)];
      customerData := customerData + [CustomerRecord(YearMonthDay(2025, 5, 12), "wazir", "Tablet", 39999)];

      supplierData := [];
      supplierData := supplierData + [SupplierRecord(YearMonthDay(2025, 5, 3), "naseem", "Laptop", 20)];
      supplierData := supplierData + [SupplierRecord(YearMonthDay(2025, 5, 9), "shahid", "Phone", 30)];
      supplierData := supplierData + [SupplierRecord(YearMonthDay(2025, 5, 14), "wazir", "Tablet", 25)];
    }

    /** Builds and saves a report; a start after the end is rejected before
        any text is built or saved. Only the log changes. */
    method GenerateReport(reportType: string, startDate: Date, endDate: Date, description: string)
      returns (outcome: Outcome)
      modifies this`reportsFile
      ensures IsAfter(startDate, endDate) ==> outcome == StartAfterEnd && reportsFile == old(reportsFile)
      ensures !IsAfter(startDate, endDate) ==>
        && outcome == Saved(ReportText(reportType, startDate, endDate, description,
                                       salesData, inventoryData, customerData, supplierData))
        && reportsFile == old(reportsFile) + outcome.text + ReportSeparator
      ensures salesData == old(salesData) && inventoryData == old(inventoryData)
      ensures customerData == old(customerData) && supplierData == old(supplierData)
    {
      if IsAfter(startDate, endDate) {
        return StartAfterEnd;
      }
      var report := new TextBuilder();
      var metadata := Metadata(reportType, startDate, endDate, description);
      report.Append(metadata);
      assert report.text == metadata by {
        assert "" + metadata == metadata;
      }
      AppendSection(report, reportType, startDate, endDate);
      SaveReportToFile(report.text);
      outcome := Saved(report.text);
    }

    /** The switch on the report type: one of the four sections, or
        nothing for any other type. */
    method AppendSection(report: TextBuilder, reportType: string, startDate: Date, endDate: Date)
      modifies report
      ensures report.text == old(report.text) + Section(reportType, startDate, endDate,
                                                        salesData, inventoryData, customerData, supplierData)
    {
      if reportType == "Sales" {
        GenerateSalesReport(report, startDate, endDate);
      } else if reportType == "Inventory" {
        GenerateInventoryReport(report, startDate, endDate);
      } else if reportType == "Customer" {
        GenerateCustomerReport(report, startDate, endDate);
      } else if reportType == "Supplier" {
        GenerateSupplierReport(report, startDate, endDate);
      } else {
        assert report.text == report.text + "";
      }
    }

    /** Appends the sales section for the range. */
    method GenerateSalesReport(report: TextBuilder, startDate: Date, endDate: Date)
      modifies report
      ensures report.text == old(report.text) + SalesSection(salesData, startDate, endDate)
    {
      ghost var start := report.text;
      report.Append(SalesTitle);
      report.Append(SalesColumns);
      report.Append(SalesRule);
      AppendHeading(start, SalesTitle, SalesColumns, SalesRule);
      var grandTotal := AppendRowsInRangeWithTotal(report, salesData, SaleDate, SaleRow, SaleTotal, startDate, endDate);
      report.Append("\nGrand Total: $");
      report.Append(Money(grandTotal));
      report.Append("\n");
      AppendAggregate(start, SalesTitle + SalesColumns + SalesRule,
                      Render(Within(salesData, SaleDate, startDate, endDate), SaleRow),
                      "\nGrand Total: $", Money(grandTotal));
    }

    /** Appends the inventory section for the range. */
    method GenerateInventoryReport(report: TextBuilder, startDate: Date, endDate: Date)
      modifies report
      ensures report.text == old(report.text) + InventorySection(inventoryData, startDate, endDate)
    {
      ghost var start := report.text;
      report.Append(InventoryTitle);
      report.Append(InventoryColumns);
      report.Append(InventoryRule);
      AppendHeading(start, InventoryTitle, InventoryColumns, InventoryRule);
      AppendRowsInRange(report, inventoryData, InventoryDate, InventoryRow, startDate, endDate);
      AppendAssoc(start, InventoryTitle + InventoryColumns + InventoryRule,
                  Render(Within(inventoryData, InventoryDate, startDate, endDate), InventoryRow));
    }

    /** Appends the customer section for the range. */
    method GenerateCustomerReport(report: TextBuilder, startDate: Date, endDate: Date)
      modifies report
      ensures report.text == old(report.text) + CustomerSection(customerData, startDate, endDate)
    {
      ghost var start := report.text;
      report.Append(CustomerTitle);
      report.Append(CustomerColumns);
      report.Append(CustomerRule);
      AppendHeading(start, CustomerTitle, CustomerColumns, CustomerRule);
      var totalRevenue := AppendRowsInRangeWithTotal(report, customerData, CustomerDate, CustomerRow, CustomerAmount, startDate, endDate);
      report.Append("\nTotal Revenue: $");
      report.Append(Money(totalRevenue));
      report.Append("\n");
      AppendAggregate(start, CustomerTitle + CustomerColumns + CustomerRule,
                      Render(Within(customerData, CustomerDate, startDate, endDate), CustomerRow),
                      "\nTotal Revenue: $", Money(totalRevenue));
    }

    /** Appends the supplier section for the range; the running total is
        a Java `int`, so the exact sum is wrapped to 32 bits (see
        `SupplierTotalIsRunningSum`). */
    method GenerateSupplierReport(report: TextBuilder, startDate: Date, endDate: Date)
      modifies report
      ensures report.text == old(report.text) + SupplierSection(supplierData, startDate, endDate)
    {
      ghost var start := report.text;
      report.Append(SupplierTitle);
      report.Append(SupplierColumns);
      report.Append(SupplierRule);
      AppendHeading(start, SupplierTitle, SupplierColumns, SupplierRule);
      var total := AppendRowsInRangeWithTotal(report, supplierData, SupplierDate, SupplierRow, SupplierQuantity, startDate, endDate);
      var totalQuantity := Wrap32(total);
      report.Append("\nTotal Quantity Received: ");
      report.Append(IntToString(totalQuantity));
      report.Append("\n");
      AppendAggregate(start, SupplierTitle + SupplierColumns + SupplierRule,
                      Render(Within(supplierData, SupplierDate, startDate, endDate), SupplierRow),
                      "\nTotal Quantity Received: ", IntToString(totalQuantity));
    }

    /** Appends the report and the separator to the log. */
    method SaveReportToFile(report: string)
      modifies this`reportsFile
      ensures reportsFile == old(reportsFile) + report + ReportSeparator
    {
      reportsFile := reportsFile + report;
      reportsFile := reportsFile + ReportSeparator;
    }
  }
}
