/** The reports screen: the inventory worth and stock totals, the units sold
    from the server's sales report, and the decision to show the error view
    after fetching both. */
module Reports {
  import opened Common
  import InventoryEngine
  import BackendStore

  // ---------------------------------------------------------------------
  // Inventory summary
  // ---------------------------------------------------------------------

  /** `calculateItemValue`: 0 for a missing item or one without a price or a
      stock, otherwise price times stock. */
  function CalculateItemValue(item: Option<Supply>): (v: int)
    ensures item.None? ==> v == 0
    ensures item.Some? ==> v == InventoryEngine.SupplyValue(item.value)
    ensures item.Some? && item.value.price.Some? && item.value.stock.Some? ==>
              v == item.value.price.value * item.value.stock.value
  {
    if item.None? || item.value.price.None? || item.value.stock.None? then 0
    else item.value.price.value * item.value.stock.value
  }

  function ItemValue(s: Supply): int { CalculateItemValue(Some(s)) }

  /** `getTotalInventoryValue`: the same worth the inventory screen and the
      dashboard show, although they read an absent field as 0 instead. */
  function TotalInventoryValue(inv: seq<Supply>): (v: int)
    ensures v == InventoryEngine.GetInventoryStats(inv).totalValue
  {
    SumCongruent(inv, ItemValue, InventoryEngine.SupplyValue);
    SumOf(inv, ItemValue)
  }

  /** Total Stock: `inventory.reduce((sum, item) => sum + (item.stock || 0), 0)`,
      the inventory screen's item total. */
  function TotalStock(inv: seq<Supply>): (n: int)
    ensures n == InventoryEngine.GetInventoryStats(inv).totalItems
    ensures (forall i :: 0 <= i < |inv| ==> StockOr0(inv[i]) >= 0) ==> n >= 0
  {
    StockNonNegative(inv);
    SumOf(inv, StockOr0)
  }

  lemma {:induction false} StockNonNegative(inv: seq<Supply>)
    ensures (forall i :: 0 <= i < |inv| ==> StockOr0(inv[i]) >= 0) ==> SumOf(inv, StockOr0) >= 0
  {
    if inv != [] {
      StockNonNegative(inv[1..]);
      assert forall i :: 0 <= i < |inv[1..]| ==> inv[1..][i] == inv[i + 1];
    }
  }

  /** An item of the server's `/api/inventory` reply as the screen holds it. */
  function FromServer(it: BackendStore.Item): Supply {
    Supply(it.name, Some(it.stock), Some(it.price), if it.category.Some? then it.category.value else "")
  }

  function FromServerAll(inv: seq<BackendStore.Item>): (r: seq<Supply>)
    ensures |r| == |inv| && forall i :: 0 <= i < |inv| ==> r[i] == FromServer(inv[i])
  {
    seq(|inv|, i requires 0 <= i < |inv| => FromServer(inv[i]))
  }

  /** Over the server's catalog the screen's inventory value is the server
      dashboard's `inventoryValue`. */
  lemma {:induction false} ReportValueIsServerValue(inv: seq<BackendStore.Item>)
    ensures TotalInventoryValue(FromServerAll(inv)) == BackendStore.InventoryValue(inv)
  {
    if inv != [] {
      ReportValueIsServerValue(inv[1..]);
      assert FromServerAll(inv)[1..] == FromServerAll(inv[1..]);
    }
  }

  // ---------------------------------------------------------------------
  // Sales summary
  // ---------------------------------------------------------------------

  /** A row of the report's `salesData` as the screen reads it; an absent
      quantity is None. */
  datatype SalesRow = SalesRow(product: string, quantity: Option<int>, revenue: int)

  function RowQuantityOr0(r: SalesRow): int { if r.quantity.Some? then r.quantity.value else 0 }

  /** Items Sold: `salesData.reduce((sum, item) => sum + (item.quantity || 0), 0)`. */
  function ItemsSold(rows: seq<SalesRow>): (n: int)
    ensures n == SumOf(rows, RowQuantityOr0)
    ensures rows == [] ==> n == 0
    ensures (forall i :: 0 <= i < |rows| ==> rows[i].quantity.None?) ==> n == 0
  {
    NoQuantitiesSellNothing(rows);
    SumOf(rows, RowQuantityOr0)
  }

  lemma {:induction false} NoQuantitiesSellNothing(rows: seq<SalesRow>)
    ensures (forall i :: 0 <= i < |rows| ==> rows[i].quantity.None?) ==> SumOf(rows, RowQuantityOr0) == 0
  {
    if rows != [] {
      NoQuantitiesSellNothing(rows[1..]);
      assert forall i :: 0 <= i < |rows[1..]| ==> rows[1..][i] == rows[i + 1];
    }
  }

  function FromSummary(s: BackendStore.ProductSummary): SalesRow {
    SalesRow(s.product, Some(s.quantity), s.revenue)
  }

  function FromSummaries(rows: seq<BackendStore.ProductSummary>): (r: seq<SalesRow>)
    ensures |r| == |rows| && forall i :: 0 <= i < |rows| ==> r[i] == FromSummary(rows[i])
  {
    seq(|rows|, i requires 0 <= i < |rows| => FromSummary(rows[i]))
  }

  function SaleQuantity(s: BackendStore.Sale): int { s.quantity }

  /** One more sale adds its units to the report's quantities. */
  lemma TallyQuantityStep(sales: seq<BackendStore.Sale>, x: BackendStore.Sale)
    ensures SumOf(BackendStore.Tally(sales + [x]), BackendStore.RowQuantity) ==
            SumOf(BackendStore.Tally(sales), BackendStore.RowQuantity) + x.quantity
  {
    var t := BackendStore.Tally(sales);
    if x.product in BackendStore.Products(sales) {
      var m := BackendStore.TallyAppendKnown(sales, x);
      SumUpdate(t, m, BackendStore.ProductSummary(x.product, t[m].quantity + x.quantity, t[m].revenue + x.total),
                BackendStore.RowQuantity);
    } else {
      BackendStore.TallyAppendNew(sales, x);
      SumAppend(t, [BackendStore.ProductSummary(x.product, x.quantity, x.total)], BackendStore.RowQuantity);
    }
  }

  /** The report's per-product quantities add up to the units in the ledger. */
  lemma {:induction false} TallyQuantityIsUnits(sales: seq<BackendStore.Sale>)
    ensures SumOf(BackendStore.Tally(sales), BackendStore.RowQuantity) == SumOf(sales, SaleQuantity)
  {
    if sales != [] {
      var s := sales[..|sales| - 1];
      var x := sales[|sales| - 1];
      assert sales == s + [x];
      TallyQuantityIsUnits(s);
      SumAppend(s, [x], SaleQuantity);
      TallyQuantityStep(s, x);
    }
  }

  lemma {:induction false} ItemsSoldOfSummaries(rows: seq<BackendStore.ProductSummary>)
    ensures ItemsSold(FromSummaries(rows)) == SumOf(rows, BackendStore.RowQuantity)
  {
    if rows != [] {
      ItemsSoldOfSummaries(rows[1..]);
      assert FromSummaries(rows)[1..] == FromSummaries(rows[1..]);
    }
  }

  /** Items Sold over the server's report is the number of units in the
      sales ledger. */
  lemma ItemsSoldIsUnitsSold(sales: seq<BackendStore.Sale>)
    ensures ItemsSold(FromSummaries(BackendStore.Tally(sales))) == SumOf(sales, SaleQuantity)
  {
    ItemsSoldOfSummaries(BackendStore.Tally(sales));
    TallyQuantityIsUnits(sales);
  }

  // ---------------------------------------------------------------------
  // fetchAllData: when the error view is shown
  // ---------------------------------------------------------------------

  /** The outcome of one of the two fetches; the message is the error's. */
  datatype Fetch = Loaded | Failed(message: string)

  const NoServerMessage: string :=
    "Failed to load report data. Server is not responding. Please ensure the backend server is running."
  const BothFailedMessage: string := "Failed to load report data. Failed to load report data"

  /** The `error` state after `fetchAllData` as written: cleared, then each
      failing fetch sets its own message, and the throw taken when both
      failed overwrites it. Any message shows the error view instead of the
      report. `serverFound` abstracts the port probing. */
  function FetchAllDataAsWritten(serverFound: bool, inventory: Fetch, sales: Fetch): (e: Option<string>)
    ensures !serverFound ==> e == Some(NoServerMessage)
    ensures serverFound ==> (e.Some? <==> inventory.Failed? || sales.Failed?)
  {
    if !serverFound then Some(NoServerMessage)
    else
      var afterInventory := if inventory.Failed? then Some("Failed to load inventory data: " + inventory.message) else None;
      var afterSales := if sales.Failed? then Some("Failed to load sales data: " + sales.message) else afterInventory;
      if inventory.Failed? && sales.Failed? then Some(BothFailedMessage) else afterSales
  }

  /** One loaded half is enough for the code as written to hide the report:
      the inventory loads, the sales fetch fails, and the error view shows
      although the load only counts as failed when both fetches fail. */
  lemma OneFailedFetchHidesReport()
    ensures FetchAllDataAsWritten(true, Loaded, Failed("Failed to fetch sales data (500)")).Some?
  {
  }

  /** The decision the throw expresses: the error view only when no server
      answers or both fetches fail; a single failure shows the half that
      loaded. */
  function FetchAllData(serverFound: bool, inventory: Fetch, sales: Fetch): (e: Option<string>)
    ensures e.Some? <==> !serverFound || (inventory.Failed? && sales.Failed?)
    ensures e.Some? ==> e == FetchAllDataAsWritten(serverFound, inventory, sales)
  {
    if !serverFound then Some(NoServerMessage)
    else if inventory.Failed? && sales.Failed? then Some(BothFailedMessage)
    else None
  }
}
