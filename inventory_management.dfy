/** The inventory query layer: a database of products and sales records
    seeded with fixed lists, a query that answers a low-stock, a sales or a
    stock report as a list of text lines, a report that displays those
    lines under a header, and a generator that validates its three inputs
    before building a report. */
module InventoryManagement {
  import opened Formats

  datatype Option<T> = None | Some(value: T)

  /** A product; the price is held in whole cents. */
  datatype Product = Product(productId: string, name: string, quantity: int32, price: int)

  datatype SalesRecord = SalesRecord(productId: string, quantitySold: int32)

  /** Products with fewer units than this are low on stock. */
  const LowStockThreshold := 50

  // ---------------------------------------------------------------------
  // Lookup

  /** The first product with the given id, or none. */
  function FindProduct(products: seq<Product>, productId: string): (found: Option<Product>)
    ensures found.Some? ==> found.value in products && found.value.productId == productId
  {
    if products == [] then None
    else if products[0].productId == productId then Some(products[0])
    else FindProduct(products[1..], productId)
  }

  /** The lookup fails exactly when no product carries the id, and
      otherwise yields the product at the first position that carries it. */
  lemma {:induction false} FindProductIsFirstMatch(products: seq<Product>, productId: string)
    ensures FindProduct(products, productId).None? <==> forall p :: p in products ==> p.productId != productId
    ensures FindProduct(products, productId).Some? ==>
              exists i :: 0 <= i < |products| && products[i] == FindProduct(products, productId).value
                          && forall j :: 0 <= j < i ==> products[j].productId != productId
  {
    if products != [] {
      FindProductIsFirstMatch(products[1..], productId);
      assert forall p :: p in products[1..] ==> p in products;
      assert forall p :: p in products ==> p == products[0] || p in products[1..];
      if products[0].productId != productId && FindProduct(products, productId).Some? {
        var i :| 0 <= i < |products[1..]| && products[1..][i] == FindProduct(products, productId).value
                 && forall j :: 0 <= j < i ==> products[1..][j].productId != productId;
        assert products[i + 1] == FindProduct(products, productId).value;
        assert forall j :: 0 <= j < i + 1 ==> products[j].productId != productId by {
          forall j | 0 <= j < i + 1
            ensures products[j].productId != productId
          {
            if j > 0 {
              assert products[j] == products[1..][j - 1];
            }
          }
        }
      }
    }
  }

  // ---------------------------------------------------------------------
  // The three kinds of listing

  /** The products low on stock, in list order. */
  function LowStock(products: seq<Product>): (low: seq<Product>)
    ensures |low| <= |products|
    ensures forall k :: 0 <= k < |low| ==> low[k].quantity < LowStockThreshold
  {
    if products == [] then []
    else (if products[0].quantity < LowStockThreshold then [products[0]] else []) + LowStock(products[1..])
  }

  /** The filter keeps the list order: it works record by record. */
  lemma {:induction false} LowStockAppend(a: seq<Product>, b: seq<Product>)
    ensures LowStock(a + b) == LowStock(a) + LowStock(b)
  {
    if a == [] {
      assert a + b == b;
    } else {
      assert (a + b)[1..] == a[1..] + b;
      LowStockAppend(a[1..], b);
    }
  }

  /** Every product low on stock is kept as many times as the list holds
      it, and every other product is dropped. */
  lemma {:induction false} LowStockMultiplicity(products: seq<Product>, p: Product)
    ensures multiset(LowStock(products))[p] == if p.quantity < LowStockThreshold then multiset(products)[p] else 0
  {
    if products != [] {
      LowStockMultiplicity(products[1..], p);
      assert products == [products[0]] + products[1..];
    }
  }

  /** A product is listed iff it is in the list and low on stock. */
  lemma LowStockMembership(products: seq<Product>, p: Product)
    ensures p in LowStock(products) <==> p in products && p.quantity < LowStockThreshold
  {
    LowStockMultiplicity(products, p);
  }

  /** One product as the stock listings show it; `Double.toString`
      renders the price. It is a single line when the id and the name
      are. */
  function FormatProduct(p: Product): (line: string)
    ensures '\n' !in p.productId && '\n' !in p.name ==> '\n' !in line
  {
    var id := "- ID: " + p.productId;
    var name := id + ", Name: " + p.name;
    var quantity := name + ", Quantity: " + IntToString(p.quantity);
    assert '\n' !in p.productId && '\n' !in p.name ==> '\n' !in quantity by {
      if '\n' !in p.productId && '\n' !in p.name {
        assert '\n' !in id;
        assert '\n' !in name;
      }
    }
    quantity + ", Price: $" + JavaDouble(p.price)
  }

  /** A product's line opens with its id and ends with its price, as
      `Double.toString` prints it, after a dollar sign. */
  lemma FormatProductFields(p: Product)
    ensures var line := FormatProduct(p);
            && |line| > 6 + |p.productId| && line[..6 + |p.productId|] == "- ID: " + p.productId
            && var price := JavaDouble(p.price);
               |line| > |price| && line[|line| - |price| - 1..] == "$" + price
  {
    var id := "- ID: " + p.productId;
    var quantity := id + ", Name: " + p.name + ", Quantity: " + IntToString(p.quantity);
    var price := JavaDouble(p.price);
    var line := quantity + ", Price: $" + price;
    assert FormatProduct(p) == line;
    assert line == (quantity + ", Price: ") + ("$" + price);
    assert line[..|id|] == id;
  }

  /** One formatted line per product, in order. */
  function FormatAll(products: seq<Product>): (lines: seq<string>)
    ensures |lines| == |products|
    ensures forall i :: 0 <= i < |products| ==> lines[i] == FormatProduct(products[i])
  {
    if products == [] then [] else [FormatProduct(products[0])] + FormatAll(products[1..])
  }

  /** The sales listing's line for one record of a known product. */
  function SaleLine(name: string, quantitySold: int32): string {
    "- " + name + " sold: " + IntToString(quantitySold) + " units"
  }

  /** The line of one sales record when its product id is known, and
      nothing when it is not. */
  function RecordLines(s: SalesRecord, products: seq<Product>): (lines: seq<string>)
    ensures |lines| == if FindProduct(products, s.productId).Some? then 1 else 0
  {
    match FindProduct(products, s.productId)
    case Some(p) => [SaleLine(p.name, s.quantitySold)]
    case None => []
  }

  /** One line per sales record whose product id is known, in order;
      records with an unknown id are skipped. */
  function SalesLines(sales: seq<SalesRecord>, products: seq<Product>): (lines: seq<string>)
    ensures |lines| <= |sales|
  {
    if sales == [] then [] else RecordLines(sales[0], products) + SalesLines(sales[1..], products)
  }

  lemma {:induction false} SalesLinesAppend(a: seq<SalesRecord>, b: seq<SalesRecord>, products: seq<Product>)
    ensures SalesLines(a + b, products) == SalesLines(a, products) + SalesLines(b, products)
  {
    if a == [] {
      assert a + b == b;
    } else {
      assert (a + b)[1..] == a[1..] + b;
      SalesLinesAppend(a[1..], b, products);
    }
  }

  /** The sales listing has one line per record exactly when every
      record's product id is known; with no id known it is empty. */
  lemma {:induction false} SalesLinesCount(sales: seq<SalesRecord>, products: seq<Product>)
    ensures |SalesLines(sales, products)| == |sales| <==> forall s :: s in sales ==> FindProduct(products, s.productId).Some?
    ensures (forall s :: s in sales ==> FindProduct(products, s.productId).None?) ==> SalesLines(sales, products) == []
  {
    if sales != [] {
      SalesLinesCount(sales[1..], products);
      assert forall s :: s in sales[1..] ==> s in sales;
      assert forall s :: s in sales ==> s == sales[0] || s in sales[1..];
    }
  }

  /** The lines a query answers: the low-stock listing and the sales
      listing are chosen by their names in any ASCII case, and every other
      type gets the full stock listing. The dates play no part. */
  function QueryResult(reportType: string, products: seq<Product>, sales: seq<SalesRecord>): seq<string> {
    if EqualsIgnoreCase(reportType, "Low Stock Report") then FormatAll(LowStock(products))
    else if EqualsIgnoreCase(reportType, "Sales Report") then SalesLines(sales, products)
    else FormatAll(products)
  }

  /** Two report types that differ only in ASCII case get the same answer. */
  lemma QueryResultIgnoresCase(a: string, b: string, products: seq<Product>, sales: seq<SalesRecord>)
    requires EqualsIgnoreCase(a, b)
    ensures QueryResult(a, products, sales) == QueryResult(b, products, sales)
  {
    EqualsIgnoreCaseSymmetric(a, b);
    forall c | c in {"Low Stock Report", "Sales Report"}
      ensures EqualsIgnoreCase(a, c) <==> EqualsIgnoreCase(b, c)
    {
      if EqualsIgnoreCase(a, c) {
        EqualsIgnoreCaseTransitive(b, a, c);
      }
      if EqualsIgnoreCase(b, c) {
        EqualsIgnoreCaseTransitive(a, b, c);
      }
    }
  }

  /** Any type other than the two named ones lists every product, once, in
      order. */
  lemma StockListing(reportType: string, products: seq<Product>, sales: seq<SalesRecord>)
    requires !EqualsIgnoreCase(reportType, "Low Stock Report") && !EqualsIgnoreCase(reportType, "Sales Report")
    ensures |QueryResult(reportType, products, sales)| == |products|
    ensures forall i :: 0 <= i < |products| ==> QueryResult(reportType, products, sales)[i] == FormatProduct(products[i])
  {
  }

  // ---------------------------------------------------------------------
  // Display

  /** The report header: a title line and the type line. */
  function DisplayHeader(reportType: string): string {
    "=== Report ===\nType: " + reportType + "\n"
  }

  /** The displayed report: the header, then each data line. */
  function DisplayText(reportType: string, data: seq<string>): string {
    DisplayHeader(reportType) + Render(data, Line)
  }

  /** With single-line type and data, the display has two header lines and
      one line per data line. */
  lemma {:induction false} DisplayLineCount(reportType: string, data: seq<string>)
    requires '\n' !in reportType
    requires forall line :: line in data ==> '\n' !in line
    ensures Newlines(DisplayText(reportType, data)) == 2 + |data|
  {
    forall line | line in data
      ensures Newlines(Line(line)) == 1
    {
      LineNewlines(line);
    }
    RenderNewlines(data, Line);
    TitleLine();
    NewlinesAppend("=== Report ===\nType: ", reportType);
    NewlinesNone(reportType);
    NewlinesAppend("=== Report ===\nType: " + reportType, "\n");
    NewlinesAppend(DisplayHeader(reportType), Render(data, Line));
  }

  /** A stock listing on display: two header lines and one line per
      product, when the type and every id and name are single-line. */
  lemma StockDisplayLines(reportType: string, products: seq<Product>)
    requires '\n' !in reportType
    requires forall p :: p in products ==> '\n' !in p.productId && '\n' !in p.name
    ensures Newlines(DisplayText(reportType, FormatAll(products))) == 2 + |products|
  {
    var lines := FormatAll(products);
    forall line | line in lines
      ensures '\n' !in line
    {
      var i :| 0 <= i < |lines| && lines[i] == line;
      assert products[i] in products;
    }
    DisplayLineCount(reportType, lines);
  }

  lemma TitleLine()
    ensures Newlines("=== Report ===\nType: ") == 1
  {
    var s := "=== Report ===\nType: ";
    forall i | 0 <= i < |s| && i != 14
      ensures s[i] != '\n'
    {
    }
    OneBreakAt(s, 14);
  }

  // ---------------------------------------------------------------------
  // Seed data

  function SeedProducts(): seq<Product> {
    [ Product("P001", "Apples", 100, 50),
      Product("P002", "Bananas", 40, 30),
      Product("P003", "Oranges", 120, 60),
      Product("P004", "Lemons", 25, 40) ]
  }

  function SeedSalesRecords(): seq<SalesRecord> {
    [ SalesRecord("P001", 30),
      SalesRecord("P003", 50) ]
  }

  /** On the seed data the low-stock listing is Bananas and Lemons. */
  lemma SeedLowStock()
    ensures LowStock(SeedProducts()) == [SeedProducts()[1], SeedProducts()[3]]
  {
    var ps := SeedProducts();
    assert ps[1..][1..][1..][1..] == [];
    assert LowStock(ps[1..][1..][1..]) == [ps[3]];
    assert LowStock(ps[1..][1..]) == [ps[3]];
  }

  /** On the seed data both sales records name known products: Apples
      sold 30 and Oranges sold 50. */
  lemma SeedSalesListing()
    ensures SalesLines(SeedSalesRecords(), SeedProducts())
         == [SaleLine("Apples", 30), SaleLine("Oranges", 50)]
  {
    var ps, ss := SeedProducts(), SeedSalesRecords();
    assert ps[0].productId == "P001";
    assert ps[0].productId != "P003" && ps[1].productId != "P003" && ps[2].productId == "P003";
    assert FindProduct(ps, "P001") == Some(ps[0]);
    assert FindProduct(ps[1..][1..], "P003") == Some(ps[2]);
    assert FindProduct(ps, "P003") == Some(ps[2]);
    assert ss[1..][1..] == [];
  }

  // ---------------------------------------------------------------------
  // Classes

  class Database {
    var products: seq<Product>
    var sales: seq<SalesRecord>

    /** Fills both lists with the seed records. */
    constructor()
      ensures products == SeedProducts() && sales == SeedSalesRecords()
    {
      products := [];
      sales := [];
      products := products + [Product("P001", "Apples", 100, 50)];
      products := products + [Product("P002", "Bananas", 40, 30)];
      products := products + [Product("P003", "Oranges", 120, 60)];
      products := products + [Product("P004", "Lemons", 25, 40)];
      sales := sales + [SalesRecord("P001", 30)];
      sales := sales + [SalesRecord("P003", 50)];
    }

    /** The query: the result depends on the type and the two lists only;
        the dates are not consulted. */
    method QueryData(reportType: string, startDate: string, endDate: string) returns (result: seq<string>)
      ensures result == QueryResult(reportType, products, sales)
    {
      if EqualsIgnoreCase(reportType, "Low Stock Report") {
        result := ListLowStock();
      } else if EqualsIgnoreCase(reportType, "Sales Report") {
        result := ListSales();
      } else {
        result := ListStock();
      }
    }

    /** The low-stock branch of the query. */
    method ListLowStock() returns (result: seq<string>)
      ensures result == FormatAll(LowStock(products))
    {
      var all := products;
      result := [];
      for i := 0 to |all|
        invariant result == FormatAll(LowStock(all[..i]))
      {
        var p := all[i];
        LowStockStep(all, i);
        if p.quantity < LowStockThreshold {
          result := result + [FormatProduct(p)];
        }
      }
      assert all[..|all|] == all;
    }

    /** The sales branch of the query: each record's product looked up by
        id. */
    method ListSales() returns (result: seq<string>)
      ensures result == SalesLines(sales, products)
    {
      var records := sales;
      result := [];
      for i := 0 to |records|
        invariant result == SalesLines(records[..i], products)
      {
        var s := records[i];
        SalesStep(records, i, products);
        var p := FindProductById(s.productId);
        if p.Some? {
          result := result + [SaleLine(p.value.name, s.quantitySold)];
        }
      }
      assert records[..|records|] == records;
    }

    /** The default branch of the query: every product. */
    method ListStock() returns (result: seq<string>)
      ensures result == FormatAll(products)
    {
      var all := products;
      result := [];
      for i := 0 to |all|
        invariant result == FormatAll(all[..i])
      {
        StockStep(all, i);
        result := result + [FormatProduct(all[i])];
      }
      assert all[..|all|] == all;
    }

    /** The first product with the id, or none. */
    method FindProductById(productId: string) returns (found: Option<Product>)
      ensures found == FindProduct(products, productId)
    {
      for i := 0 to |products|
        invariant FindProduct(products, productId) == FindProduct(products[i..], productId)
      {
        if products[i].productId == productId {
          return Some(products[i]);
        }
        assert products[i..][1..] == products[i + 1..];
      }
      return None;
    }
  }

  /** Scanning one more product adds its line. */
  lemma StockStep(products: seq<Product>, i: nat)
    requires i < |products|
    ensures FormatAll(products[..i + 1]) == FormatAll(products[..i]) + [FormatProduct(products[i])]
  {
    assert products[..i + 1] == products[..i] + [products[i]];
    FormatAllAppend(products[..i], [products[i]]);
  }

  /** Scanning one more product adds its line exactly when it is low on
      stock. */
  lemma LowStockStep(products: seq<Product>, i: nat)
    requires i < |products|
    ensures FormatAll(LowStock(products[..i + 1]))
         == FormatAll(LowStock(products[..i])) + (if products[i].quantity < LowStockThreshold then [FormatProduct(products[i])] else [])
  {
    var p := products[i];
    assert products[..i + 1] == products[..i] + [p];
    LowStockAppend(products[..i], [p]);
    FormatAllAppend(LowStock(products[..i]), LowStock([p]));
    assert [p][1..] == [];
  }

  /** Scanning one more sales record adds its line exactly when its
      product id is known. */
  lemma SalesStep(sales: seq<SalesRecord>, i: nat, products: seq<Product>)
    requires i < |sales|
    ensures SalesLines(sales[..i + 1], products)
         == SalesLines(sales[..i], products)
            + (match FindProduct(products, sales[i].productId)
               case Some(p) => [SaleLine(p.name, sales[i].quantitySold)]
               case None => [])
  {
    assert sales[..i + 1] == sales[..i] + [sales[i]];
    SalesLinesAppend(sales[..i], [sales[i]], products);
    assert [sales[i]][1..] == [];
    assert SalesLines([sales[i]], products) == RecordLines(sales[i], products) + [];
  }

  /** Formatting works product by product. */
  lemma {:induction false} FormatAllAppend(a: seq<Product>, b: seq<Product>)
    ensures FormatAll(a + b) == FormatAll(a) + FormatAll(b)
  {
    if a == [] {
      assert a + b == b;
    } else {
      assert (a + b)[1..] == a[1..] + b;
      FormatAllAppend(a[1..], b);
    }
  }

  class Report {
    const reportType: string
    const data: seq<string>

    constructor(reportType: string, data: seq<string>)
      ensures this.reportType == reportType && this.data == data
    {
      this.reportType := reportType;
      this.data := data;
    }

    /** The header, then every data line in order, each on its own line. */
    method Display() returns (text: string)
      ensures text == DisplayText(reportType, data)
    {
      text := DisplayHeader(reportType);
      for i := 0 to |data|
        invariant text == DisplayHeader(reportType) + Render(data[..i], Line)
      {
        assert data[..i + 1] == data[..i] + [data[i]];
        RenderAppend(data[..i], [data[i]], Line);
        AppendAssoc(DisplayHeader(reportType), Render(data[..i], Line), Line(data[i]));
        text := text + data[i] + "\n";
      }
      assert data[..|data|] == data;
    }
  }

  class ReportGenerator {
    /** The three inputs; `None` stands for a null reference. */
    const reportType: Option<string>
    const startDate: Option<string>
    const endDate: Option<string>

    constructor(reportType: Option<string>, startDate: Option<string>, endDate: Option<string>)
      ensures this.reportType == reportType && this.startDate == startDate && this.endDate == endDate
    {
      this.reportType := reportType;
      this.startDate := startDate;
      this.endDate := endDate;
    }

    /** All three inputs present and non-empty. */
    predicate ValidateInput() {
      reportType.Some? && reportType.value != ""
      && startDate.Some? && startDate.value != ""
      && endDate.Some? && endDate.value != ""
    }

    /** No report for invalid input; otherwise a new report of the
        requested type holding the query's answer over a freshly seeded
        database. */
    method GenerateReport() returns (report: Report?)
      ensures report == null <==> !ValidateInput()
      ensures report != null ==>
        && fresh(report)
        && report.reportType == reportType.value
        && report.data == QueryResult(reportType.value, SeedProducts(), SeedSalesRecords())
    {
      if ValidateInput() {
        var db := new Database();
        var data := db.QueryData(reportType.value, startDate.value, endDate.value);
        report := new Report(reportType.value, data);
      } else {
        report := null;
      }
    }
  }
}
