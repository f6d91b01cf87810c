/** The browser's inventory screen: the `InventorySystem` helper (summary
    statistics, filter and sort, restock and consume of one item) and the
    restock and consume handlers that write one slot of a copied list back
    to the screen state and to the browser's storage. */
module InventoryEngine {
  import opened Common

  const Categories: seq<string> := ["all", "medication", "equipment", "disposable", "emergency", "surgical"]

  datatype InventoryStats = InventoryStats(totalItems: int, totalValue: int, lowStockCount: nat, outOfStockCount: nat)

  function SupplyValue(s: Supply): int { PriceOr0(s) * StockOr0(s) }

  /** `item.stock > 0 && item.stock < 10`; an absent stock compares false. */
  function IsLow(s: Supply): bool { s.stock.Some? && 0 < s.stock.value < 10 }

  /** `item.stock <= 0`; an absent stock compares false. */
  function IsOut(s: Supply): bool { s.stock.Some? && s.stock.value <= 0 }

  /** `getInventoryStats`. An item is never both low and out of stock, so the
      two counts together never exceed the number of items. */
  function GetInventoryStats(inv: seq<Supply>): (r: InventoryStats)
    ensures r.lowStockCount + r.outOfStockCount <= |inv|
    ensures r.lowStockCount == |Filter(inv, IsLow)| && r.outOfStockCount == |Filter(inv, IsOut)|
    ensures r.totalItems == SumOf(inv, StockOr0) && r.totalValue == SumOf(inv, SupplyValue)
  {
    CountDisjoint(inv, IsLow, IsOut);
    InventoryStats(SumOf(inv, StockOr0), SumOf(inv, SupplyValue), Count(inv, IsLow), Count(inv, IsOut))
  }

  /** Reference definition of the stock total, over the stock of each item
      as given (absent as 0) read from the back. */
  function StockTotalFromBack(inv: seq<Supply>): int {
    if inv == [] then 0 else StockTotalFromBack(inv[..|inv| - 1]) + StockOr0(inv[|inv| - 1])
  }

  lemma {:induction false} TotalItemsFromBack(inv: seq<Supply>)
    ensures GetInventoryStats(inv).totalItems == StockTotalFromBack(inv)
  {
    if inv != [] {
      var init := inv[..|inv| - 1];
      assert inv == init + [inv[|inv| - 1]];
      TotalItemsFromBack(init);
      SumAppend(init, [inv[|inv| - 1]], StockOr0);
    }
  }

  /** `restockItem`: the stock grows by the quantity, nothing else changes. */
  function RestockItem(item: Supply, quantity: int): (r: Supply)
    ensures r.stock == Some(StockOr0(item) + quantity)
    ensures r.(stock := item.stock) == item
  {
    item.(stock := Some(StockOr0(item) + quantity))
  }

  /** `consumeItem`: the stock shrinks by the quantity but never below zero. */
  function ConsumeItem(item: Supply, quantity: int): (r: Supply)
    ensures r.stock.Some? && r.stock.value >= 0
    ensures r.stock.value == if StockOr0(item) >= quantity then StockOr0(item) - quantity else 0
    ensures r.(stock := item.stock) == item
  {
    var left := StockOr0(item) - quantity;
    item.(stock := Some(if left > 0 then left else 0))
  }

  /** Consuming what was just restocked gives back the original stock. */
  lemma ConsumeUndoesRestock(item: Supply, quantity: int)
    requires StockOr0(item) >= 0
    ensures ConsumeItem(RestockItem(item, quantity), quantity) == item.(stock := Some(StockOr0(item)))
  {
  }

  /** Restocking one item raises the total stock by the quantity and the
      total value by its price times the quantity. */
  lemma RestockRaisesTotals(inv: seq<Supply>, k: nat, quantity: int)
    requires k < |inv|
    ensures var after := GetInventoryStats(inv[k := RestockItem(inv[k], quantity)]);
            after.totalItems == GetInventoryStats(inv).totalItems + quantity &&
            after.totalValue == GetInventoryStats(inv).totalValue + PriceOr0(inv[k]) * quantity
  {
    var item := RestockItem(inv[k], quantity);
    SumUpdate(inv, k, item, StockOr0);
    SumUpdate(inv, k, item, SupplyValue);
    assert SupplyValue(item) == SupplyValue(inv[k]) + PriceOr0(inv[k]) * quantity by {
      assert PriceOr0(item) == PriceOr0(inv[k]);
    }
  }

  /** The sort key a field selects: the number itself for `price` and
      `stock`, otherwise the rank of the text in the collation order that
      `localeCompare` follows. */
  function FieldKey(field: string, collate: string -> int): Supply -> int {
    (s: Supply) =>
      if field == "price" then PriceOr0(s)
      else if field == "stock" then StockOr0(s)
      else if field == "name" then collate(s.name)
      else collate(s.category)
  }

  function Matches(filter: string, categoryFilter: string): Supply -> bool {
    (s: Supply) => (categoryFilter == "all" || s.category == categoryFilter) && ContainsIgnoreCase(s.name, filter)
  }

  /** `processInventory`: the items of the chosen category whose name
      contains the filter text, ignoring case, each as often as in the
      inventory, sorted by the chosen field,
      ascending for 'asc' and descending otherwise. */
  function ProcessInventory(inv: seq<Supply>, filter: string, categoryFilter: string,
                            sortField: string, sortDirection: string, collate: string -> int): (r: seq<Supply>)
    requires sortField in {"name", "category", "stock", "price"}
    ensures multiset(r) <= multiset(inv)
    ensures forall i :: 0 <= i < |r| ==>
              (categoryFilter == "all" || r[i].category == categoryFilter) && ContainsIgnoreCase(r[i].name, filter)
    ensures forall j :: 0 <= j < |inv| &&
              ((categoryFilter == "all" || inv[j].category == categoryFilter) && ContainsIgnoreCase(inv[j].name, filter))
              ==> inv[j] in r && multiset(r)[inv[j]] == multiset(inv)[inv[j]]
    ensures Ordered(r, FieldKey(sortField, collate), sortDirection != "asc")
  {
    FilterSort(inv, Matches(filter, categoryFilter), FieldKey(sortField, collate), sortDirection != "asc")
  }

  /** Sorting by price puts the prices in order. */
  lemma ProcessInventoryByPrice(inv: seq<Supply>, filter: string, categoryFilter: string,
                                sortDirection: string, collate: string -> int)
    ensures var r := ProcessInventory(inv, filter, categoryFilter, "price", sortDirection, collate);
            forall i, j :: 0 <= i < j < |r| ==>
              if sortDirection == "asc" then PriceOr0(r[i]) <= PriceOr0(r[j]) else PriceOr0(r[i]) >= PriceOr0(r[j])
  {
    var r := ProcessInventory(inv, filter, categoryFilter, "price", sortDirection, collate);
    assert forall i, j :: 0 <= i < j < |r| ==>
             InOrder(FieldKey("price", collate)(r[i]), FieldKey("price", collate)(r[j]), sortDirection != "asc");
  }

  /** Sorting by stock puts the stock levels in order. */
  lemma ProcessInventoryByStock(inv: seq<Supply>, filter: string, categoryFilter: string,
                                sortDirection: string, collate: string -> int)
    ensures var r := ProcessInventory(inv, filter, categoryFilter, "stock", sortDirection, collate);
            forall i, j :: 0 <= i < j < |r| ==>
              if sortDirection == "asc" then StockOr0(r[i]) <= StockOr0(r[j]) else StockOr0(r[i]) >= StockOr0(r[j])
  {
    var r := ProcessInventory(inv, filter, categoryFilter, "stock", sortDirection, collate);
    assert forall i, j :: 0 <= i < j < |r| ==>
             InOrder(FieldKey("stock", collate)(r[i]), FieldKey("stock", collate)(r[j]), sortDirection != "asc");
  }

  /** An empty filter text and the 'all' category keep every item. */
  lemma ProcessInventoryKeepsAll(inv: seq<Supply>, sortField: string, sortDirection: string, collate: string -> int)
    requires sortField in {"name", "category", "stock", "price"}
    ensures multiset(ProcessInventory(inv, "", "all", sortField, sortDirection, collate)) == multiset(inv)
  {
    forall i | 0 <= i < |inv| ensures Matches("", "all")(inv[i]) {
      ContainsEmpty(Lower(inv[i].name));
    }
    FilterAll(inv, Matches("", "all"));
  }

  /** `inventory.findIndex(item => item.name === name)`, None for -1. */
  function IndexOfName(inv: seq<Supply>, name: string): (r: Option<nat>)
    ensures r.Some? ==> r.value < |inv| && inv[r.value].name == name
    ensures r.Some? ==> forall j :: 0 <= j < r.value ==> inv[j].name != name
    ensures r.None? ==> forall j :: 0 <= j < |inv| ==> inv[j].name != name
  {
    FirstIndex(inv, (s: Supply) => s.name == name)
  }

  /** The state of the inventory screen that the two handlers read and write.
      `selectedItem` is "" when nothing is selected; `stored` is the
      `medicalInventory` entry of the browser's storage. */
  class InventoryPage {
    var inventory: seq<Supply>
    var selectedItem: string
    var restockQuantity: int
    var error: Option<string>
    var successMessage: string
    var stored: Option<seq<Supply>>

    constructor (inv: seq<Supply>, saved: Option<seq<Supply>>)
      ensures inventory == inv && stored == saved
      ensures selectedItem == "" && restockQuantity == 1 && error == None && successMessage == ""
    {
      inventory := inv;
      stored := saved;
      selectedItem := "";
      restockQuantity := 1;
      error := None;
      successMessage := "";
    }

    /** Copies the list and replaces the slot k, as `[...inventory]` followed
        by `updatedInventory[itemIndex] = ...`. */
    method ReplaceAt(k: nat, item: Supply) returns (updated: seq<Supply>)
      requires k < |inventory|
      ensures updated == inventory[k := item]
    {
      var cur := inventory;
      var copy := new Supply[|cur|](i requires 0 <= i < |cur| => cur[i]);
      copy[k] := item;
      updated := copy[..];
    }

    /** `handleRestock` */
    method HandleRestock()
      modifies this
      ensures old(selectedItem) == "" ==>
                error == Some("Please select an item to restock") && inventory == old(inventory) &&
                stored == old(stored) && selectedItem == old(selectedItem) && restockQuantity == old(restockQuantity) &&
                successMessage == old(successMessage)
      ensures old(selectedItem) != "" && old(restockQuantity) <= 0 ==>
                error == Some("Please enter a valid quantity") && inventory == old(inventory) &&
                stored == old(stored) && selectedItem == old(selectedItem) && restockQuantity == old(restockQuantity) &&
                successMessage == old(successMessage)
      ensures old(selectedItem) != "" && old(restockQuantity) > 0 && IndexOfName(old(inventory), old(selectedItem)).None? ==>
                error == Some("Selected item not found in inventory") && inventory == old(inventory) &&
                stored == old(stored) && selectedItem == old(selectedItem) && restockQuantity == old(restockQuantity) &&
                successMessage == old(successMessage)
      ensures old(selectedItem) != "" && old(restockQuantity) > 0 && IndexOfName(old(inventory), old(selectedItem)).Some? ==>
                var k := IndexOfName(old(inventory), old(selectedItem)).value;
                inventory == old(inventory)[k := RestockItem(old(inventory)[k], old(restockQuantity))] &&
                stored == Some(inventory) && error == old(error) &&
                successMessage == "Successfully restocked " + DecimalString(old(restockQuantity)) + " units of " + old(selectedItem) &&
                selectedItem == "" && restockQuantity == 1
    {
      if selectedItem == "" {
        error := Some("Please select an item to restock");
        return;
      }
      if restockQuantity <= 0 {
        error := Some("Please enter a valid quantity");
        return;
      }
      var found := IndexOfName(inventory, selectedItem);
      if found.None? {
        error := Some("Selected item not found in inventory");
        return;
      }
      var k := found.value;
      var updated := ReplaceAt(k, RestockItem(inventory[k], restockQuantity));
      inventory := updated;
      stored := Some(updated);
      successMessage := "Successfully restocked " + DecimalString(restockQuantity) + " units of " + selectedItem;
      selectedItem := "";
      restockQuantity := 1;
    }

    /** `handleConsume`. An item whose stock is absent passes the stock check
        (an absent value never compares less) and is consumed down to 0. */
    method HandleConsume()
      modifies this
      ensures old(selectedItem) == "" ==>
                error == Some("Please select an item to consume") && inventory == old(inventory) &&
                stored == old(stored) && selectedItem == old(selectedItem) && restockQuantity == old(restockQuantity) &&
                successMessage == old(successMessage)
      ensures old(selectedItem) != "" && old(restockQuantity) <= 0 ==>
                error == Some("Please enter a valid quantity") && inventory == old(inventory) &&
                stored == old(stored) && selectedItem == old(selectedItem) && restockQuantity == old(restockQuantity) &&
                successMessage == old(successMessage)
      ensures old(selectedItem) != "" && old(restockQuantity) > 0 && IndexOfName(old(inventory), old(selectedItem)).None? ==>
                error == Some("Selected item not found in inventory") && inventory == old(inventory) &&
                stored == old(stored) && selectedItem == old(selectedItem) && restockQuantity == old(restockQuantity) &&
                successMessage == old(successMessage)
      ensures old(selectedItem) != "" && old(restockQuantity) > 0 && IndexOfName(old(inventory), old(selectedItem)).Some? ==>
                var k := IndexOfName(old(inventory), old(selectedItem)).value;
                var s := old(inventory)[k].stock;
                if s.Some? && s.value < old(restockQuantity) then
                  error == Some("Not enough stock available. Current stock: " + IntString(s.value)) &&
                  inventory == old(inventory) && stored == old(stored) && selectedItem == old(selectedItem) &&
                  restockQuantity == old(restockQuantity) && successMessage == old(successMessage)
                else
                  inventory == old(inventory)[k := ConsumeItem(old(inventory)[k], old(restockQuantity))] &&
                  stored == Some(inventory) && error == old(error) &&
                  successMessage == "Successfully consumed " + DecimalString(old(restockQuantity)) + " units of " + old(selectedItem) &&
                  selectedItem == "" && restockQuantity == 1
    {
      if selectedItem == "" {
        error := Some("Please select an item to consume");
        return;
      }
      if restockQuantity <= 0 {
        error := Some("Please enter a valid quantity");
        return;
      }
      var found := IndexOfName(inventory, selectedItem);
      if found.None? {
        error := Some("Selected item not found in inventory");
        return;
      }
      var k := found.value;
      if inventory[k].stock.Some? && inventory[k].stock.value < restockQuantity {
        error := Some("Not enough stock available. Current stock: " + IntString(inventory[k].stock.value));
        return;
      }
      var updated := ReplaceAt(k, ConsumeItem(inventory[k], restockQuantity));
      inventory := updated;
      stored := Some(updated);
      successMessage := "Successfully consumed " + DecimalString(restockQuantity) + " units of " + selectedItem;
      selectedItem := "";
      restockQuantity := 1;
    }
  }

  /** A consume the handler lets through takes exactly the quantity off the
      item's stock: it never has to clamp at zero. */
  lemma HandledConsumeIsExact(item: Supply, quantity: int)
    requires quantity > 0
    requires item.stock.Some? && item.stock.value >= quantity
    ensures ConsumeItem(item, quantity).stock == Some(item.stock.value - quantity)
  {
  }
}
