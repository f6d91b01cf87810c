/** The Express server in its in-memory mode: an inventory catalog, a sales
    ledger and a user directory, the request handlers that change them, and
    the read-side aggregations behind the dashboards and the sales report.
    Timestamps are milliseconds since the epoch and the clock is a parameter
    (`now`). A request body field that is absent is None. */
module BackendStore {
  import opened Common

  datatype Item = Item(name: string, stock: int, price: int, category: Option<string>)

  datatype Sale = Sale(product: string, quantity: int, price: int, total: int, date: int)

  datatype User = User(
    username: string, password: string, role: string, userType: string,
    department: string, isActive: bool, loginCount: int,
    lastLogin: Option<int>, loginHistory: seq<int>)

  /** A user record as it is sent to the browser: every field but the password. */
  datatype PublicUser = PublicUser(
    username: string, role: string, userType: string, department: string,
    isActive: bool, loginCount: int, lastLogin: Option<int>, loginHistory: seq<int>)

  /** An HTTP reply: a success status with its message and payload, or an
      error status with its error text. */
  datatype Reply<T> = Ok(status: int, message: string, body: T) | Err(status: int, error: string)

  // ---------------------------------------------------------------------
  // Seed data
  // ---------------------------------------------------------------------

  const FallbackInventory: seq<Item> := [
    Item("Surgical Bandages", 75, 15, Some("surgical")),
    Item("Syringes (10ml)", 120, 5, Some("disposable")),
    Item("IV Fluids (1L)", 40, 25, Some("medication")),
    Item("Medical Gloves", 300, 10, Some("disposable")),
    Item("Surgical Masks", 250, 12, Some("surgical")),
    Item("Sterile Gauze", 180, 8, Some("surgical")),
    Item("Defibrillator", 3, 2500, Some("emergency")),
    Item("Patient Monitors", 8, 1200, Some("equipment")),
    Item("Ventilators", 5, 5000, Some("emergency")),
    Item("Wheelchairs", 12, 350, Some("equipment")),
    Item("Ibuprofen (200mg)", 120, 15, Some("medication")),
    Item("Antibiotics", 85, 45, Some("medication")),
    Item("Blood Pressure Cuffs", 25, 70, Some("equipment"))
  ]

  /** A directory entry as seeded: active, never logged in. */
  function NewUser(username: string, password: string, role: string, userType: string, department: string): User {
    User(username, password, role, userType, department, true, 0, None, [])
  }

  const InMemoryUsers: seq<User> := [
    NewUser("admin", "admin123", "admin", "doctor", "administration"),
    NewUser("doctor", "doctor123", "user", "doctor", "cardiology"),
    NewUser("nurse", "nurse123", "user", "nurse", "general"),
    NewUser("receptionist", "reception123", "user", "receptionist", "frontdesk")
  ]

  // ---------------------------------------------------------------------
  // Lookups
  // ---------------------------------------------------------------------

  /** `inventory.find(item => item.name === name)`, as a position. */
  function FindItem(inv: seq<Item>, name: string): (r: Option<nat>)
    ensures r.Some? ==> r.value < |inv| && inv[r.value].name == name
    ensures r.Some? ==> forall j :: 0 <= j < r.value ==> inv[j].name != name
    ensures r.None? ==> forall j :: 0 <= j < |inv| ==> inv[j].name != name
  {
    if inv == [] then None
    else if inv[0].name == name then Some(0)
    else match FindItem(inv[1..], name)
      case None => None
      case Some(k) => Some(k + 1)
  }

  /** `users.find(u => u.username === username && u.password === password)` */
  function FindUser(users: seq<User>, username: string, password: string): (r: Option<nat>)
    ensures r.Some? ==> r.value < |users| && users[r.value].username == username && users[r.value].password == password
    ensures r.Some? ==> forall j :: 0 <= j < r.value ==> !(users[j].username == username && users[j].password == password)
    ensures r.None? ==> forall j :: 0 <= j < |users| ==> !(users[j].username == username && users[j].password == password)
  {
    if users == [] then None
    else if users[0].username == username && users[0].password == password then Some(0)
    else match FindUser(users[1..], username, password)
      case None => None
      case Some(k) => Some(k + 1)
  }

  // ---------------------------------------------------------------------
  // POST /api/sales
  // ---------------------------------------------------------------------

  /** `!productName || !quantity || quantity < 1` rejects the request. */
  predicate ValidSaleRequest(productName: string, quantity: Option<int>) {
    productName != "" && quantity.Some? && quantity.value >= 1
  }

  datatype SaleReceipt = SaleReceipt(inventory: seq<Item>, sale: Sale)

  datatype SaleResult = SaleResult(reply: Reply<SaleReceipt>, inventory: seq<Item>, sales: seq<Sale>)

  /** The outcome of a sale request against a catalog and a ledger. */
  function Sell(inv: seq<Item>, sales: seq<Sale>, productName: string, quantity: Option<int>, now: int): (o: SaleResult)
    ensures !ValidSaleRequest(productName, quantity) ==>
              o.reply == Err(400, "Please provide a valid product name and quantity")
    ensures ValidSaleRequest(productName, quantity) && FindItem(inv, productName).None? ==>
              o.reply == Err(404, "Product not found")
    ensures ValidSaleRequest(productName, quantity) && FindItem(inv, productName).Some? &&
            inv[FindItem(inv, productName).value].stock < quantity.value ==>
              o.reply == Err(400, "Insufficient stock")
    ensures o.reply.Err? ==> o.inventory == inv && o.sales == sales
    ensures o.reply.Ok? ==>
              ValidSaleRequest(productName, quantity) && FindItem(inv, productName).Some? &&
              var k := FindItem(inv, productName).value;
              var q := quantity.value;
              var sale := Sale(productName, q, inv[k].price, inv[k].price * q, now);
              q <= inv[k].stock &&
              |o.inventory| == |inv| &&
              o.inventory[k] == inv[k].(stock := inv[k].stock - q) &&
              o.inventory[k].stock >= 0 &&
              (forall j :: 0 <= j < |inv| && j != k ==> o.inventory[j] == inv[j]) &&
              o.sales == sales + [sale] &&
              o.reply == Ok(200, "Sale processed successfully", SaleReceipt(o.inventory, sale))
  {
    if !ValidSaleRequest(productName, quantity) then
      SaleResult(Err(400, "Please provide a valid product name and quantity"), inv, sales)
    else match FindItem(inv, productName)
      case None => SaleResult(Err(404, "Product not found"), inv, sales)
      case Some(k) =>
        var q := quantity.value;
        if inv[k].stock < q then SaleResult(Err(400, "Insufficient stock"), inv, sales)
        else
          var inv' := inv[k := inv[k].(stock := inv[k].stock - q)];
          var sale := Sale(productName, q, inv[k].price, inv[k].price * q, now);
          SaleResult(Ok(200, "Sale processed successfully", SaleReceipt(inv', sale)), inv', sales + [sale])
  }

  predicate NonNegativeStock(inv: seq<Item>) {
    forall j :: 0 <= j < |inv| ==> inv[j].stock >= 0
  }

  /** Selling never drives a stock level below zero. */
  lemma SellKeepsStockNonNegative(inv: seq<Item>, sales: seq<Sale>, productName: string, quantity: Option<int>, now: int)
    requires NonNegativeStock(inv)
    ensures NonNegativeStock(Sell(inv, sales, productName, quantity, now).inventory)
  {
    var o := Sell(inv, sales, productName, quantity, now);
    if o.reply.Ok? {
      var k := FindItem(inv, productName).value;
      forall j | 0 <= j < |o.inventory| ensures o.inventory[j].stock >= 0 {
        if j != k {
          assert o.inventory[j] == inv[j];
        }
      }
    }
  }

  // ---------------------------------------------------------------------
  // POST /api/auth/login
  // ---------------------------------------------------------------------

  /** The bookkeeping of one successful login at time `now`. */
  function RecordLogin(u: User, now: int): (v: User)
    ensures v.loginCount == u.loginCount + 1
    ensures v.lastLogin == Some(now)
    ensures v.loginHistory == u.loginHistory + [now]
    ensures v.(loginCount := u.loginCount, lastLogin := u.lastLogin, loginHistory := u.loginHistory) == u
  {
    u.(loginCount := u.loginCount + 1, lastLogin := Some(now), loginHistory := u.loginHistory + [now])
  }

  /** The user without the password. */
  function Public(u: User): PublicUser {
    PublicUser(u.username, u.role, u.userType, u.department, u.isActive, u.loginCount, u.lastLogin, u.loginHistory)
  }

  datatype LoginResult = LoginResult(reply: Reply<PublicUser>, users: seq<User>)

  function Authenticate(users: seq<User>, username: string, password: string, now: int): (o: LoginResult)
    ensures username == "" || password == "" ==>
              o.reply == Err(400, "Username and password are required")
    ensures username != "" && password != "" && FindUser(users, username, password).None? ==>
              o.reply == Err(401, "Invalid credentials")
    ensures o.reply.Err? ==> o.users == users
    ensures o.reply.Ok? ==>
              username != "" && password != "" && FindUser(users, username, password).Some? &&
              var k := FindUser(users, username, password).value;
              |o.users| == |users| &&
              o.users[k] == RecordLogin(users[k], now) &&
              (forall j :: 0 <= j < |users| && j != k ==> o.users[j] == users[j]) &&
              o.reply == Ok(200, "Authentication successful", Public(o.users[k]))
  {
    if username == "" || password == "" then
      LoginResult(Err(400, "Username and password are required"), users)
    else match FindUser(users, username, password)
      case None => LoginResult(Err(401, "Invalid credentials"), users)
      case Some(k) =>
        var u := RecordLogin(users[k], now);
        LoginResult(Ok(200, "Authentication successful", Public(u)), users[k := u])
  }

  /** A wrong password for an existing user gets exactly the reply an unknown
      user name gets, so the reply does not reveal which of the two was wrong. */
  lemma WrongPasswordLooksLikeUnknownUser(users: seq<User>, username: string, password: string, stranger: string, now: int)
    requires username != "" && password != "" && stranger != ""
    requires FindUser(users, username, password).None?
    requires forall j :: 0 <= j < |users| ==> users[j].username != stranger
    ensures Authenticate(users, username, password, now).reply == Authenticate(users, stranger, password, now).reply
    ensures Authenticate(users, username, password, now).reply == Err(401, "Invalid credentials")
  {
    assert FindUser(users, stranger, password).None?;
  }

  // ---------------------------------------------------------------------
  // POST /api/inventory/add and /api/inventory/restock
  // ---------------------------------------------------------------------

  /** `!name || stock === undefined || price === undefined` rejects the request. */
  predicate ValidAddRequest(name: string, stock: Option<int>, price: Option<int>) {
    name != "" && stock.Some? && price.Some?
  }

  /** `!name || !quantity || parseInt(quantity) < 1` rejects the request. */
  predicate ValidRestockRequest(name: string, quantity: Option<int>) {
    name != "" && quantity.Some? && quantity.value >= 1
  }

  datatype ItemResult = ItemResult(reply: Reply<Item>, inventory: seq<Item>)

  /** The add handler as written, in in-memory mode: after validation it asks
      the database handle, which is never set when the connection failed, so
      every valid request fails with 500 and nothing is added. */
  function AddItemAsWritten(inv: seq<Item>, name: string, stock: Option<int>, price: Option<int>): (o: ItemResult)
    ensures o.inventory == inv
    ensures !ValidAddRequest(name, stock, price) ==> o.reply == Err(400, "Please provide name, stock, and price")
    ensures ValidAddRequest(name, stock, price) ==> o.reply == Err(500, "Failed to add item to inventory")
  {
    if !ValidAddRequest(name, stock, price) then ItemResult(Err(400, "Please provide name, stock, and price"), inv)
    else ItemResult(Err(500, "Failed to add item to inventory"), inv)
  }

  /** The restock handler as written, in in-memory mode: the same missing
      database handle makes every valid request fail with 500. */
  function RestockAsWritten(inv: seq<Item>, name: string, quantity: Option<int>): (o: ItemResult)
    ensures o.inventory == inv
    ensures !ValidRestockRequest(name, quantity) ==> o.reply == Err(400, "Please provide a valid item name and quantity")
    ensures ValidRestockRequest(name, quantity) ==> o.reply == Err(500, "Failed to restock inventory")
  {
    if !ValidRestockRequest(name, quantity) then ItemResult(Err(400, "Please provide a valid item name and quantity"), inv)
    else ItemResult(Err(500, "Failed to restock inventory"), inv)
  }

  /** The add handler as intended, against the in-memory catalog. */
  function AddItem(inv: seq<Item>, name: string, stock: Option<int>, price: Option<int>): (o: ItemResult)
    ensures !ValidAddRequest(name, stock, price) ==>
              o.reply == Err(400, "Please provide name, stock, and price") && o.inventory == inv
    ensures ValidAddRequest(name, stock, price) && FindItem(inv, name).Some? ==>
              o.reply == Err(400, "Item already exists in inventory") && o.inventory == inv
    ensures ValidAddRequest(name, stock, price) && FindItem(inv, name).None? ==>
              var item := Item(name, stock.value, price.value, None);
              o.reply == Ok(201, "Item added to inventory", item) && o.inventory == inv + [item]
  {
    if !ValidAddRequest(name, stock, price) then ItemResult(Err(400, "Please provide name, stock, and price"), inv)
    else if FindItem(inv, name).Some? then ItemResult(Err(400, "Item already exists in inventory"), inv)
    else
      var item := Item(name, stock.value, price.value, None);
      ItemResult(Ok(201, "Item added to inventory", item), inv + [item])
  }

  /** The restock handler as intended, against the in-memory catalog. The
      database path's "modified nothing" branch cannot arise there, since the
      increment is at least 1. */
  function Restock(inv: seq<Item>, name: string, quantity: Option<int>): (o: ItemResult)
    ensures !ValidRestockRequest(name, quantity) ==>
              o.reply == Err(400, "Please provide a valid item name and quantity") && o.inventory == inv
    ensures ValidRestockRequest(name, quantity) && FindItem(inv, name).None? ==>
              o.reply == Err(404, "Item not found in inventory") && o.inventory == inv
    ensures ValidRestockRequest(name, quantity) && FindItem(inv, name).Some? ==>
              var k := FindItem(inv, name).value;
              var item := inv[k].(stock := inv[k].stock + quantity.value);
              o.reply == Ok(200, "Item restocked successfully", item) && o.inventory == inv[k := item]
  {
    if !ValidRestockRequest(name, quantity) then ItemResult(Err(400, "Please provide a valid item name and quantity"), inv)
    else match FindItem(inv, name)
      case None => ItemResult(Err(404, "Item not found in inventory"), inv)
      case Some(k) =>
        var item := inv[k].(stock := inv[k].stock + quantity.value);
        ItemResult(Ok(200, "Item restocked successfully", item), inv[k := item])
  }

  /** A new item, once added, is what a later lookup by its name finds. */
  lemma AddedItemIsFound(inv: seq<Item>, name: string, stock: Option<int>, price: Option<int>)
    requires AddItem(inv, name, stock, price).reply.Ok?
    ensures FindItem(AddItem(inv, name, stock, price).inventory, name) == Some(|inv|)
    ensures AddItem(inv, name, stock, price).inventory[..|inv|] == inv
  {
    var o := AddItem(inv, name, stock, price);
    assert o.inventory == inv + [Item(name, stock.value, price.value, None)];
    FindAppend(inv, Item(name, stock.value, price.value, None));
  }

  lemma {:induction false} FindAppend(inv: seq<Item>, item: Item)
    requires FindItem(inv, item.name).None?
    ensures FindItem(inv + [item], item.name) == Some(|inv|)
  {
    if inv != [] {
      assert (inv + [item])[1..] == inv[1..] + [item];
      FindAppend(inv[1..], item);
    }
  }

  /** The fresh item the in-memory handler loses: a valid request for a name
      the seed catalog lacks fails with 500, where it should add the item. */
  lemma AddItemAsWrittenLosesItem()
    ensures AddItemAsWritten(FallbackInventory, "Thermometers", Some(30), Some(20)).reply.status == 500
    ensures AddItem(FallbackInventory, "Thermometers", Some(30), Some(20)).reply.status == 201
  {
    assert forall j :: 0 <= j < |FallbackInventory| ==> |FallbackInventory[j].name| != |"Thermometers"|;
  }

  /** The restock the in-memory handler refuses: a valid request for a seeded
      item fails with 500, where it should raise its stock. */
  lemma RestockAsWrittenRefuses()
    ensures RestockAsWritten(FallbackInventory, "Ventilators", Some(2)).reply.status == 500
    ensures Restock(FallbackInventory, "Ventilators", Some(2)).reply.status == 200
    ensures Restock(FallbackInventory, "Ventilators", Some(2)).inventory[8].stock == 7
  {
    assert FallbackInventory[8].name == "Ventilators";
    assert forall j :: 0 <= j < 8 ==> |FallbackInventory[j].name| != |"Ventilators"| || FallbackInventory[j].name[0] != 'V';
  }

  /** Selling what was just restocked puts the catalog back as it was. */
  lemma RestockThenSell(inv: seq<Item>, sales: seq<Sale>, name: string, q: int, now: int)
    requires NonNegativeStock(inv)
    requires Restock(inv, name, Some(q)).reply.Ok?
    ensures Sell(Restock(inv, name, Some(q)).inventory, sales, name, Some(q), now).reply.Ok?
    ensures Sell(Restock(inv, name, Some(q)).inventory, sales, name, Some(q), now).inventory == inv
  {
    var k := FindItem(inv, name).value;
    var inv' := Restock(inv, name, Some(q)).inventory;
    assert forall j :: 0 <= j < |inv| ==> inv'[j].name == inv[j].name;
    assert FindItem(inv', name) == Some(k) by {
      FindSameNames(inv, inv', name);
    }
    var o := Sell(inv', sales, name, Some(q), now);
    assert o.inventory[k] == inv[k];
    assert forall j :: 0 <= j < |inv| && j != k ==> o.inventory[j] == inv[j];
  }

  /** Lookup by name only sees the names. */
  lemma {:induction false} FindSameNames(a: seq<Item>, b: seq<Item>, name: string)
    requires |a| == |b| && forall j :: 0 <= j < |a| ==> a[j].name == b[j].name
    ensures FindItem(a, name) == FindItem(b, name)
  {
    if a != [] {
      FindSameNames(a[1..], b[1..], name);
    }
  }

  // ---------------------------------------------------------------------
  // Dashboard aggregations
  // ---------------------------------------------------------------------

  /** Thirty days before `now`. */
  function Cutoff(now: int): int { now - 30 * DayMs }

  function IsRecent(now: int): Sale -> bool {
    (s: Sale) => s.date >= Cutoff(now)
  }

  function SaleTotal(s: Sale): int { s.total }

  function SaleDate(s: Sale): int { s.date }

  /** The sales of the last thirty days, in ledger order. */
  function RecentSales(sales: seq<Sale>, now: int): (r: seq<Sale>)
    ensures forall i :: 0 <= i < |r| ==> r[i].date >= Cutoff(now) && r[i] in sales
    ensures forall i :: 0 <= i < |sales| && sales[i].date >= Cutoff(now) ==> sales[i] in r
  {
    Filter(sales, IsRecent(now))
  }

  /** `totalSales`: the revenue of the last thirty days. */
  function TotalSales(sales: seq<Sale>, now: int): int {
    SumOf(RecentSales(sales, now), SaleTotal)
  }

  /** Reference definition: the ledger's totals, counting a sale exactly when
      it is dated at or after the cutoff. */
  function RevenueSince(sales: seq<Sale>, cutoff: int): int {
    if sales == [] then 0
    else (if sales[0].date >= cutoff then sales[0].total else 0) + RevenueSince(sales[1..], cutoff)
  }

  lemma {:induction false} TotalSalesCountsRecentOnly(sales: seq<Sale>, now: int)
    ensures TotalSales(sales, now) == RevenueSince(sales, Cutoff(now))
  {
    if sales != [] {
      var head := if IsRecent(now)(sales[0]) then [sales[0]] else [];
      var f := Filter(sales[1..], IsRecent(now));
      assert RecentSales(sales, now) == head + f;
      SumAppend(head, f, SaleTotal);
      TotalSalesCountsRecentOnly(sales[1..], now);
    }
  }

  lemma {:induction false} RevenueSinceAppend(a: seq<Sale>, b: seq<Sale>, cutoff: int)
    ensures RevenueSince(a + b, cutoff) == RevenueSince(a, cutoff) + RevenueSince(b, cutoff)
  {
    if a != [] {
      assert (a + b)[1..] == a[1..] + b;
      RevenueSinceAppend(a[1..], b, cutoff);
    } else {
      assert a + b == b;
    }
  }

  /** A sale recorded now adds its total to the thirty-day revenue. */
  lemma SaleAddsToTotalSales(inv: seq<Item>, sales: seq<Sale>, productName: string, quantity: Option<int>, now: int)
    requires Sell(inv, sales, productName, quantity, now).reply.Ok?
    ensures var o := Sell(inv, sales, productName, quantity, now);
            TotalSales(o.sales, now) == TotalSales(sales, now) + o.reply.body.sale.total
  {
    var o := Sell(inv, sales, productName, quantity, now);
    var sale := o.reply.body.sale;
    TotalSalesCountsRecentOnly(sales, now);
    TotalSalesCountsRecentOnly(o.sales, now);
    RevenueSinceAppend(sales, [sale], Cutoff(now));
  }

  function ItemValue(it: Item): int { it.price * it.stock }

  /** `inventoryValue`: the catalog's worth at list price. */
  function InventoryValue(inv: seq<Item>): int {
    SumOf(inv, ItemValue)
  }

  /** The worth of the catalog does not depend on its order. */
  lemma InventoryValueReordered(a: seq<Item>, b: seq<Item>)
    requires multiset(a) == multiset(b)
    ensures InventoryValue(a) == InventoryValue(b)
  {
    SumPermutation(a, b, ItemValue);
  }

  /** A sale takes exactly its total out of the catalog's worth. */
  lemma SaleLowersInventoryValue(inv: seq<Item>, sales: seq<Sale>, productName: string, quantity: Option<int>, now: int)
    requires Sell(inv, sales, productName, quantity, now).reply.Ok?
    ensures var o := Sell(inv, sales, productName, quantity, now);
            InventoryValue(o.inventory) == InventoryValue(inv) - o.reply.body.sale.total
  {
    var k := FindItem(inv, productName).value;
    var o := Sell(inv, sales, productName, quantity, now);
    assert o.inventory == inv[k := inv[k].(stock := inv[k].stock - quantity.value)];
    SumUpdate(inv, k, inv[k].(stock := inv[k].stock - quantity.value), ItemValue);
  }

  /** A restock adds price times quantity to the catalog's worth. */
  lemma RestockRaisesInventoryValue(inv: seq<Item>, name: string, q: int)
    requires Restock(inv, name, Some(q)).reply.Ok?
    ensures InventoryValue(Restock(inv, name, Some(q)).inventory) ==
            InventoryValue(inv) + inv[FindItem(inv, name).value].price * q
  {
    var k := FindItem(inv, name).value;
    SumUpdate(inv, k, inv[k].(stock := inv[k].stock + q), ItemValue);
  }

  datatype StockLine = StockLine(name: string, quantity: int)

  function IsLowStock(it: Item): bool { it.stock < 5 }

  function StockLines(items: seq<Item>): (r: seq<StockLine>)
    ensures |r| == |items|
    ensures forall i :: 0 <= i < |items| ==> r[i] == StockLine(items[i].name, items[i].stock)
  {
    seq(|items|, i requires 0 <= i < |items| => StockLine(items[i].name, items[i].stock))
  }

  /** `lowStockItems`: name and stock of every item with fewer than 5 in stock. */
  function LowStockItems(inv: seq<Item>): (r: seq<StockLine>)
    ensures forall i :: 0 <= i < |r| ==> r[i].quantity < 5
    ensures forall j :: 0 <= j < |inv| && inv[j].stock < 5 ==> StockLine(inv[j].name, inv[j].stock) in r
    ensures forall i :: 0 <= i < |r| ==> exists j :: 0 <= j < |inv| && r[i] == StockLine(inv[j].name, inv[j].stock)
  {
    var f := Filter(inv, IsLowStock);
    var r := StockLines(f);
    assert forall j :: 0 <= j < |inv| && inv[j].stock < 5 ==> StockLine(inv[j].name, inv[j].stock) in r by {
      forall j | 0 <= j < |inv| && inv[j].stock < 5 ensures StockLine(inv[j].name, inv[j].stock) in r {
        assert inv[j] in f;
        var t :| 0 <= t < |f| && f[t] == inv[j];
        assert r[t] == StockLine(inv[j].name, inv[j].stock);
      }
    }
    assert forall i :: 0 <= i < |r| ==> exists j :: 0 <= j < |inv| && r[i] == StockLine(inv[j].name, inv[j].stock) by {
      forall i | 0 <= i < |r| ensures exists j :: 0 <= j < |inv| && r[i] == StockLine(inv[j].name, inv[j].stock) {
        assert f[i] in inv;
        var j :| 0 <= j < |inv| && inv[j] == f[i];
        assert r[i] == StockLine(inv[j].name, inv[j].stock);
      }
    }
    r
  }

  /** The low-stock list follows catalog order: an item appended to the
      catalog is appended to the list exactly when it is low. */
  lemma LowStockAppend(inv: seq<Item>, it: Item)
    ensures LowStockItems(inv + [it]) ==
            LowStockItems(inv) + (if it.stock < 5 then [StockLine(it.name, it.stock)] else [])
  {
    var a := Filter(inv, IsLowStock);
    var b := Filter([it], IsLowStock);
    FilterAppend(inv, [it], IsLowStock);
    assert b == if it.stock < 5 then [it] else [] by {
      assert [it][1..] == [];
    }
    StockLinesAppend(a, b);
    assert StockLines(b) == if it.stock < 5 then [StockLine(it.name, it.stock)] else [];
  }

  lemma StockLinesAppend(a: seq<Item>, b: seq<Item>)
    ensures StockLines(a + b) == StockLines(a) + StockLines(b)
  {
    var l, r := StockLines(a + b), StockLines(a) + StockLines(b);
    assert forall i :: 0 <= i < |l| ==> l[i] == r[i] by {
      forall i | 0 <= i < |l| ensures l[i] == r[i] {
        if i < |a| {
          assert (a + b)[i] == a[i];
        } else {
          assert (a + b)[i] == b[i - |a|];
        }
      }
    }
  }

  function NegStock(it: Item): int { -it.stock }

  function Stock(it: Item): int { it.stock }

  function Price(it: Item): int { it.price }

  /** `leastInStock`: the first item of smallest stock; null for an empty catalog. */
  function LeastInStock(inv: seq<Item>): (r: Option<Item>)
    ensures r.None? <==> inv == []
    ensures r.Some? ==> exists k :: (0 <= k < |inv| && inv[k] == r.value &&
              (forall j :: 0 <= j < |inv| ==> inv[k].stock <= inv[j].stock) &&
              (forall j :: 0 <= j < k ==> inv[j].stock > inv[k].stock))
  {
    if inv == [] then None
    else
      var k := ArgMax(inv, NegStock, false);
      assert forall j :: 0 <= j < |inv| ==> NegStock(inv[j]) <= NegStock(inv[k]);
      Some(inv[k])
  }

  /** `mostInStock`: the first item of largest stock; null for an empty catalog. */
  function MostInStock(inv: seq<Item>): (r: Option<Item>)
    ensures r.None? <==> inv == []
    ensures r.Some? ==> exists k :: (0 <= k < |inv| && inv[k] == r.value &&
              (forall j :: 0 <= j < |inv| ==> inv[j].stock <= inv[k].stock) &&
              (forall j :: 0 <= j < k ==> inv[j].stock < inv[k].stock))
  {
    if inv == [] then None
    else
      var k := ArgMax(inv, Stock, false);
      assert forall j :: 0 <= j < |inv| ==> Stock(inv[j]) <= Stock(inv[k]);
      Some(inv[k])
  }

  // ---------------------------------------------------------------------
  // Per-product tallies (the `salesByProduct` dictionaries)
  // ---------------------------------------------------------------------

  /** The products named in the ledger, each once, in order of first sale
      (the key order of `salesByProduct`). */
  function Products(sales: seq<Sale>): (ps: seq<string>)
    ensures forall i, j :: 0 <= i < j < |ps| ==> ps[i] != ps[j]
    ensures forall k :: 0 <= k < |sales| ==> sales[k].product in ps
    ensures forall p :: p in ps ==> exists k :: 0 <= k < |sales| && sales[k].product == p
  {
    if sales == [] then []
    else
      var s := sales[..|sales| - 1];
      var ps := Products(s);
      var p := sales[|sales| - 1].product;
      assert forall k :: 0 <= k < |s| ==> sales[k] == s[k];
      if p in ps then ps else ps + [p]
  }

  /** Units sold of product p. */
  function QuantityOf(sales: seq<Sale>, p: string): int {
    if sales == [] then 0
    else QuantityOf(sales[..|sales| - 1], p) + (if sales[|sales| - 1].product == p then sales[|sales| - 1].quantity else 0)
  }

  /** Revenue from product p. */
  function RevenueOf(sales: seq<Sale>, p: string): int {
    if sales == [] then 0
    else RevenueOf(sales[..|sales| - 1], p) + (if sales[|sales| - 1].product == p then sales[|sales| - 1].total else 0)
  }

  datatype ProductSummary = ProductSummary(product: string, quantity: int, revenue: int)

  /** The summary of every product the ledger names, in key order. */
  function Tally(sales: seq<Sale>): seq<ProductSummary> {
    var ps := Products(sales);
    seq(|ps|, i requires 0 <= i < |ps| => ProductSummary(ps[i], QuantityOf(sales, ps[i]), RevenueOf(sales, ps[i])))
  }

  lemma {:induction false} AbsentProductSoldNothing(sales: seq<Sale>, p: string)
    requires p !in Products(sales)
    ensures QuantityOf(sales, p) == 0 && RevenueOf(sales, p) == 0
  {
    if sales != [] {
      var s := sales[..|sales| - 1];
      assert p !in Products(s);
      AbsentProductSoldNothing(s, p);
    }
  }

  lemma ProductsAppend(sales: seq<Sale>, x: Sale)
    ensures Products(sales + [x]) ==
            if x.product in Products(sales) then Products(sales) else Products(sales) + [x.product]
  {
    assert (sales + [x])[..|sales|] == sales;
  }

  lemma SumsAppend(sales: seq<Sale>, x: Sale, p: string)
    ensures QuantityOf(sales + [x], p) == QuantityOf(sales, p) + (if x.product == p then x.quantity else 0)
    ensures RevenueOf(sales + [x], p) == RevenueOf(sales, p) + (if x.product == p then x.total else 0)
  {
    assert (sales + [x])[..|sales|] == sales;
  }

  /** One more sale of a known product grows that product's row and no other. */
  lemma TallyAppendKnown(sales: seq<Sale>, x: Sale) returns (m: nat)
    requires x.product in Products(sales)
    ensures m < |Products(sales)| && Products(sales)[m] == x.product
    ensures var t := Tally(sales);
            m < |t| &&
            Tally(sales + [x]) == t[m := ProductSummary(x.product, t[m].quantity + x.quantity, t[m].revenue + x.total)]
  {
    var ps := Products(sales);
    m :| 0 <= m < |ps| && ps[m] == x.product;
    ProductsAppend(sales, x);
    var t, t' := Tally(sales), Tally(sales + [x]);
    var u := t[m := ProductSummary(x.product, t[m].quantity + x.quantity, t[m].revenue + x.total)];
    forall i | 0 <= i < |t'| ensures t'[i] == u[i] {
      SumsAppend(sales, x, ps[i]);
    }
  }

  /** The first sale of a product appends a row for it. */
  lemma TallyAppendNew(sales: seq<Sale>, x: Sale)
    requires x.product !in Products(sales)
    ensures Tally(sales + [x]) == Tally(sales) + [ProductSummary(x.product, x.quantity, x.total)]
  {
    ProductsAppend(sales, x);
    var t, t' := Tally(sales), Tally(sales + [x]);
    var u := t + [ProductSummary(x.product, x.quantity, x.total)];
    assert |t'| == |u|;
    forall i | 0 <= i < |t'| ensures t'[i] == u[i] {
      TallyAppendNewAt(sales, x, i);
    }
  }

  /** The same, one row at a time. */
  lemma TallyAppendNewAt(sales: seq<Sale>, x: Sale, i: int)
    requires x.product !in Products(sales)
    requires 0 <= i <= |Products(sales)|
    ensures |Tally(sales + [x])| == |Tally(sales)| + 1
    ensures Tally(sales + [x])[i] == (Tally(sales) + [ProductSummary(x.product, x.quantity, x.total)])[i]
  {
    ProductsAppend(sales, x);
    var ps, ps' := Products(sales), Products(sales + [x]);
    assert ps' == ps + [x.product];
    SumsAppend(sales, x, ps'[i]);
    if i < |ps| {
      assert ps'[i] == ps[i] != x.product;
    } else {
      AbsentProductSoldNothing(sales, x.product);
      assert ps'[i] == x.product;
    }
  }

  function RowRevenue(r: ProductSummary): int { r.revenue }

  function RowQuantity(r: ProductSummary): int { r.quantity }

  /** One more sale adds its total to the report's revenues. */
  lemma TallyRevenueStep(sales: seq<Sale>, x: Sale)
    ensures SumOf(Tally(sales + [x]), RowRevenue) == SumOf(Tally(sales), RowRevenue) + x.total
  {
    var t := Tally(sales);
    if x.product in Products(sales) {
      var m := TallyAppendKnown(sales, x);
      SumUpdate(t, m, ProductSummary(x.product, t[m].quantity + x.quantity, t[m].revenue + x.total), RowRevenue);
    } else {
      TallyAppendNew(sales, x);
      SumAppend(t, [ProductSummary(x.product, x.quantity, x.total)], RowRevenue);
    }
  }

  /** The report's per-product revenues add up to the ledger's total revenue. */
  lemma {:induction false} TallyRevenueIsTotal(sales: seq<Sale>)
    ensures SumOf(Tally(sales), RowRevenue) == SumOf(sales, SaleTotal)
  {
    if sales != [] {
      var s := sales[..|sales| - 1];
      var x := sales[|sales| - 1];
      assert sales == s + [x];
      TallyRevenueIsTotal(s);
      SumAppend(s, [x], SaleTotal);
      TallyRevenueStep(s, x);
    }
  }

  /** `salesByProduct[sale.product] += ...` for one sale: find the product's
      row and grow it, or start a row for a product not seen before. */
  method CountSale(ghost seen: seq<Sale>, rows: seq<ProductSummary>, x: Sale) returns (rows': seq<ProductSummary>)
    requires rows == Tally(seen)
    ensures rows' == Tally(seen + [x])
  {
    var j := 0;
    while j < |rows| && rows[j].product != x.product
      invariant 0 <= j <= |rows|
      invariant forall l :: 0 <= l < j ==> rows[l].product != x.product
    {
      j := j + 1;
    }
    if j < |rows| {
      var m := TallyAppendKnown(seen, x);
      assert Products(seen)[j] == rows[j].product;
      rows' := rows[j := ProductSummary(x.product, rows[j].quantity + x.quantity, rows[j].revenue + x.total)];
    } else {
      assert forall l :: 0 <= l < |Products(seen)| ==> Products(seen)[l] == rows[l].product;
      TallyAppendNew(seen, x);
      rows' := rows + [ProductSummary(x.product, x.quantity, x.total)];
    }
  }

  /** One pass over the ledger filling `salesByProduct` and summing the
      revenue, as the report handler does (the dashboards use the quantities). */
  method TallyByProduct(sales: seq<Sale>) returns (rows: seq<ProductSummary>, totalRevenue: int)
    ensures rows == Tally(sales)
    ensures totalRevenue == SumOf(sales, SaleTotal)
    ensures totalRevenue == SumOf(rows, RowRevenue)
  {
    rows := [];
    totalRevenue := 0;
    var i := 0;
    while i < |sales|
      invariant 0 <= i <= |sales|
      invariant rows == Tally(sales[..i])
      invariant totalRevenue == SumOf(sales[..i], SaleTotal)
    {
      assert sales[..i + 1] == sales[..i] + [sales[i]];
      SumAppend(sales[..i], [sales[i]], SaleTotal);
      totalRevenue := totalRevenue + sales[i].total;
      rows := CountSale(sales[..i], rows, sales[i]);
      i := i + 1;
    }
    assert sales[..i] == sales;
    TallyRevenueIsTotal(sales);
  }

  /** A best seller as the dashboard lists it. */
  datatype Seller = Seller(name: string, soldQuantity: int)

  function SoldQuantity(s: Seller): int { s.soldQuantity }

  /** `bestSellers`: the rows as `{name, soldQuantity}`, sorted by units sold
      with the stable sort, most first, and the first three kept. Each row is
      listed at most once, none left out sold more than one listed, and among
      rows with the same units the first ones of the report are kept, in
      report order. */
  function BestSellers(rows: seq<ProductSummary>): (r: seq<Seller>)
    ensures |r| == if |rows| < 3 then |rows| else 3
    ensures multiset(r) <= multiset(ToSellers(rows))
    ensures forall i, j :: 0 <= i < j < |r| ==> r[i].soldQuantity >= r[j].soldQuantity
    ensures forall i :: 0 <= i < |r| ==> exists j :: 0 <= j < |rows| && r[i] == Seller(rows[j].product, rows[j].quantity)
    ensures forall j :: 0 <= j < |rows| && (forall i :: 0 <= i < |r| ==> r[i].name != rows[j].product) ==>
              forall i :: 0 <= i < |r| ==> rows[j].quantity <= r[i].soldQuantity
    ensures forall v :: Filter(r, KeyIs(SoldQuantity, v)) <= Filter(ToSellers(rows), KeyIs(SoldQuantity, v))
  {
    var sellers := ToSellers(rows);
    var top := TopBy(sellers, SoldQuantity, 3);
    TopByOrdered(sellers, SoldQuantity, 3);
    TopByIsTop(sellers, SoldQuantity, 3);
    TopByStable(sellers, SoldQuantity, 3);
    TopComesFromRows(sellers, top);
    top
  }

  lemma TopComesFromRows(sellers: seq<Seller>, top: seq<Seller>)
    requires multiset(top) <= multiset(sellers)
    ensures forall i :: 0 <= i < |top| ==> top[i] in sellers
  {
    forall i | 0 <= i < |top| ensures top[i] in sellers {
      assert top[i] in multiset(top);
    }
  }

  function ToSellers(top: seq<ProductSummary>): (r: seq<Seller>)
    ensures |r| == |top|
    ensures forall i :: 0 <= i < |top| ==> r[i] == Seller(top[i].product, top[i].quantity)
  {
    seq(|top|, i requires 0 <= i < |top| => Seller(top[i].product, top[i].quantity))
  }

  // ---------------------------------------------------------------------
  // The five sales the dashboard shows
  // ---------------------------------------------------------------------

  /** As written: the first five recent sales of the ledger. The in-memory
      ledger is in order of sale, so these are the oldest five. */
  function ShownSalesAsWritten(sales: seq<Sale>, now: int): (r: seq<Sale>)
    ensures var rs := RecentSales(sales, now);
            |r| == (if |rs| < 5 then |rs| else 5) && r == rs[..|r|]
  {
    var rs := RecentSales(sales, now);
    rs[..if |rs| < 5 then |rs| else 5]
  }

  /** As intended: the five most recent sales of the last thirty days, newest first. */
  function ShownSales(sales: seq<Sale>, now: int): (r: seq<Sale>)
    ensures var rs := RecentSales(sales, now);
            |r| == if |rs| < 5 then |rs| else 5
    ensures multiset(r) <= multiset(RecentSales(sales, now))
  {
    TopBy(RecentSales(sales, now), SaleDate, 5)
  }

  predicate DatesIncreasing(sales: seq<Sale>) {
    forall i, j :: 0 <= i < j < |sales| ==> sales[i].date < sales[j].date
  }

  /** The intended list is newest first, and no recent sale left out of it is
      newer than one shown. */
  lemma ShownSalesAreNewest(sales: seq<Sale>, now: int)
    ensures forall i, j :: 0 <= i < j < |ShownSales(sales, now)| ==>
              ShownSales(sales, now)[i].date >= ShownSales(sales, now)[j].date
    ensures var rs := RecentSales(sales, now);
            forall j :: 0 <= j < |rs| && rs[j] !in ShownSales(sales, now) ==>
              forall i :: 0 <= i < |ShownSales(sales, now)| ==> rs[j].date <= ShownSales(sales, now)[i].date
  {
    TopByOrdered(RecentSales(sales, now), SaleDate, 5);
    TopByIsTop(RecentSales(sales, now), SaleDate, 5);
  }

  lemma AllRecent(sales: seq<Sale>, now: int)
    requires forall i :: 0 <= i < |sales| ==> Cutoff(now) <= sales[i].date
    ensures RecentSales(sales, now) == sales
  {
    assert forall i :: 0 <= i < |sales| ==> IsRecent(now)(sales[i]);
    FilterAll(sales, IsRecent(now));
  }

  /** Six or more sales made within the last month, in order of sale: the
      dashboard as written leaves out the sale just made. */
  lemma ShownSalesAsWrittenMissesNewest(sales: seq<Sale>, now: int)
    requires |sales| >= 6 && DatesIncreasing(sales)
    requires forall i :: 0 <= i < |sales| ==> Cutoff(now) <= sales[i].date
    ensures sales[|sales| - 1] !in ShownSalesAsWritten(sales, now)
  {
    AllRecent(sales, now);
    var shown := ShownSalesAsWritten(sales, now);
    assert shown == sales[..5];
    forall i | 0 <= i < 5 ensures shown[i] != sales[|sales| - 1] {
      assert sales[i].date < sales[|sales| - 1].date;
    }
  }

  /** On the same ledger the intended list starts with the sale just made. */
  lemma ShownSalesShowsNewest(sales: seq<Sale>, now: int)
    requires |sales| >= 6 && DatesIncreasing(sales)
    requires forall i :: 0 <= i < |sales| ==> Cutoff(now) <= sales[i].date
    ensures ShownSales(sales, now)[0] == sales[|sales| - 1]
  {
    AllRecent(sales, now);
    var last := sales[|sales| - 1];
    var top := ShownSales(sales, now);
    ShownSalesAreNewest(sales, now);
    assert |top| == 5;
    assert top[0] in multiset(sales);
    var t :| 0 <= t < |sales| && sales[t] == top[0];
    assert top[0].date >= last.date by {
      if last in top {
        var i :| 0 <= i < |top| && top[i] == last;
      } else {
        assert sales[|sales| - 1] !in top;
      }
    }
    assert t == |sales| - 1;
  }

  // ---------------------------------------------------------------------
  // The in-memory store and its handlers
  // ---------------------------------------------------------------------

  datatype DashboardData = DashboardData(
    totalSales: int, inventoryValue: int, lowStockItems: seq<StockLine>,
    bestSellers: seq<Seller>, leastInStock: Option<Item>, mostInStock: Option<Item>,
    recentSales: seq<Sale>)

  datatype Preference = Preference(name: string, price: int)

  datatype UserDashboardData = UserDashboardData(
    bestSeller: Seller, ourPreference: Preference, recentlyAdded: Option<Item>,
    lowStockItems: seq<StockLine>)

  datatype SalesReportData = SalesReportData(totalRevenue: int, salesData: seq<ProductSummary>)

  /** The user dashboard's `bestSeller`: the product with most units sold, the
      later key winning a tie, or a placeholder when nothing was sold. */
  function BestSeller(rows: seq<ProductSummary>): (r: Seller)
    ensures rows == [] ==> r == Seller("No products sold yet", 0)
    ensures rows != [] ==> exists k :: (0 <= k < |rows| && r == Seller(rows[k].product, rows[k].quantity) &&
              (forall j :: 0 <= j < |rows| ==> rows[j].quantity <= rows[k].quantity) &&
              (forall j :: k < j < |rows| ==> rows[j].quantity < rows[k].quantity))
  {
    if rows == [] then Seller("No products sold yet", 0)
    else
      var k := ArgMax(rows, RowQuantity, true);
      assert forall j :: 0 <= j < |rows| ==> RowQuantity(rows[j]) <= RowQuantity(rows[k]);
      Seller(rows[k].product, rows[k].quantity)
  }

  /** `ourPreference`: the highest-priced item, the later one winning a tie,
      or a placeholder for an empty catalog. */
  function OurPreference(inv: seq<Item>): (r: Preference)
    ensures inv == [] ==> r == Preference("No items in inventory", 0)
    ensures inv != [] ==> exists k :: (0 <= k < |inv| && r == Preference(inv[k].name, inv[k].price) &&
              (forall j :: 0 <= j < |inv| ==> inv[j].price <= inv[k].price) &&
              (forall j :: k < j < |inv| ==> inv[j].price < inv[k].price))
  {
    if inv == [] then Preference("No items in inventory", 0)
    else
      var k := ArgMax(inv, Price, true);
      assert forall j :: 0 <= j < |inv| ==> Price(inv[j]) <= Price(inv[k]);
      Preference(inv[k].name, inv[k].price)
  }

  class Store {
    var inventory: seq<Item>
    var sales: seq<Sale>
    var users: seq<User>

    /** The store the server falls back to when no database is reachable. */
    constructor ()
      ensures inventory == FallbackInventory && sales == [] && users == InMemoryUsers
    {
      inventory := FallbackInventory;
      sales := [];
      users := InMemoryUsers;
    }

    /** POST /api/sales */
    method ProcessSale(productName: string, quantity: Option<int>, now: int) returns (r: Reply<SaleReceipt>)
      modifies this
      ensures var o := Sell(old(inventory), old(sales), productName, quantity, now);
              r == o.reply && inventory == o.inventory && sales == o.sales
      ensures users == old(users)
    {
      if productName == "" || quantity.None? || quantity.value < 1 {
        return Err(400, "Please provide a valid product name and quantity");
      }
      var found := FindItem(inventory, productName);
      if found.None? {
        return Err(404, "Product not found");
      }
      var k := found.value;
      var q := quantity.value;
      if inventory[k].stock < q {
        return Err(400, "Insufficient stock");
      }
      var product := inventory[k];
      inventory := inventory[k := product.(stock := product.stock - q)];
      var sale := Sale(productName, q, product.price, product.price * q, now);
      sales := sales + [sale];
      r := Ok(200, "Sale processed successfully", SaleReceipt(inventory, sale));
    }

    /** POST /api/auth/login */
    method Login(username: string, password: string, now: int) returns (r: Reply<PublicUser>)
      modifies this
      ensures var o := Authenticate(old(users), username, password, now);
              r == o.reply && users == o.users
      ensures inventory == old(inventory) && sales == old(sales)
    {
      if username == "" || password == "" {
        return Err(400, "Username and password are required");
      }
      var found := FindUser(users, username, password);
      if found.None? {
        return Err(401, "Invalid credentials");
      }
      var k := found.value;
      var user := users[k];
      user := user.(loginCount := user.loginCount + 1);
      user := user.(lastLogin := Some(now));
      user := user.(loginHistory := user.loginHistory + [now]);
      users := users[k := user];
      r := Ok(200, "Authentication successful", Public(user));
    }

    /** POST /api/inventory/add, corrected: the handler as written has no
        in-memory branch and answers a 500 (`AddItemAsWritten`). */
    method Add(name: string, stock: Option<int>, price: Option<int>) returns (r: Reply<Item>)
      modifies this
      ensures var o := AddItem(old(inventory), name, stock, price);
              r == o.reply && inventory == o.inventory
      ensures sales == old(sales) && users == old(users)
    {
      var o := AddItem(inventory, name, stock, price);
      inventory := o.inventory;
      r := o.reply;
    }

    /** POST /api/inventory/restock, corrected: as written it answers a 500
        (`RestockAsWritten`). */
    method RestockItem(name: string, quantity: Option<int>) returns (r: Reply<Item>)
      modifies this
      ensures var o := Restock(old(inventory), name, quantity);
              r == o.reply && inventory == o.inventory
      ensures sales == old(sales) && users == old(users)
    {
      if name == "" || quantity.None? || quantity.value < 1 {
        return Err(400, "Please provide a valid item name and quantity");
      }
      var found := FindItem(inventory, name);
      if found.None? {
        return Err(404, "Item not found in inventory");
      }
      var k := found.value;
      var item := inventory[k].(stock := inventory[k].stock + quantity.value);
      inventory := inventory[k := item];
      r := Ok(200, "Item restocked successfully", item);
    }

    /** GET /api/dashboard, with the corrected list of the five newest sales
        (`ShownSales`) where the server as written sends `ShownSalesAsWritten`. */
    method Dashboard(now: int) returns (d: DashboardData)
      ensures d.totalSales == TotalSales(sales, now)
      ensures d.inventoryValue == InventoryValue(inventory)
      ensures d.lowStockItems == LowStockItems(inventory)
      ensures d.bestSellers == BestSellers(Tally(sales))
      ensures d.leastInStock == LeastInStock(inventory) && d.mostInStock == MostInStock(inventory)
      ensures d.recentSales == ShownSales(sales, now)
    {
      var rows, _ := TallyByProduct(sales);
      d := DashboardData(TotalSales(sales, now), InventoryValue(inventory), LowStockItems(inventory),
                         BestSellers(rows), LeastInStock(inventory), MostInStock(inventory),
                         ShownSales(sales, now));
    }

    /** GET /api/user-dashboard. `pick` is the random catalog position. */
    method UserDashboard(pick: nat) returns (d: UserDashboardData)
      requires inventory == [] || pick < |inventory|
      ensures d.bestSeller == BestSeller(Tally(sales))
      ensures d.ourPreference == OurPreference(inventory)
      ensures d.recentlyAdded == if inventory == [] then None else Some(inventory[pick])
      ensures d.lowStockItems == LowStockItems(inventory)
    {
      var rows, _ := TallyByProduct(sales);
      var recent := if inventory == [] then None else Some(inventory[pick]);
      d := UserDashboardData(BestSeller(rows), OurPreference(inventory), recent, LowStockItems(inventory));
    }

    /** GET /api/reports/sales */
    method SalesReport() returns (rep: SalesReportData)
      ensures rep.salesData == Tally(sales)
      ensures rep.totalRevenue == SumOf(sales, SaleTotal)
      ensures rep.totalRevenue == SumOf(rep.salesData, RowRevenue)
    {
      var rows, total := TallyByProduct(sales);
      rep := SalesReportData(total, rows);
    }
  }
}
