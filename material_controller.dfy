/**
 * The material handlers: creation (with the optional purchase record for
 * the initial stock), update and deletion by id, and the statistics over
 * all materials (stock value, low-stock list, per-category totals).
 */
module MaterialController {
  import opened Refs
  import opened Wrappers
  import opened Numeric
  import opened Text
  import opened MaterialModel
  import opened PurchaseModel
  import opened Store

  datatype MaterialError = MaterialNotFound | ServerError

  function HttpStatus(e: MaterialError): (code: int)
    ensures code == 404 <==> e.MaterialNotFound?
    ensures code == 500 <==> e.ServerError?
  {
    match e
    case MaterialNotFound => 404
    case ServerError => 500
  }

  /** `parseFloat(quantityInStock) || 0`: a missing or unparsable quantity counts as 0. */
  function InitialQuantity(input: MaterialInput): (q: real)
    ensures input.quantityInStock.None? ==> q == 0.0
    ensures input.quantityInStock.Some? ==> q == input.quantityInStock.value
  {
    if input.quantityInStock.Some? then input.quantityInStock.value else 0.0
  }

  /**
   * The purchase record `createMaterial` adds for the initial stock: only
   * when the initial quantity is positive and `initialPurchase` is set; its
   * price is the cost per unit (0 when absent), its total the price times
   * the quantity, and its note "Cadastro inicial". `None` when no record is
   * attempted; `Some(Err(_))` when the purchase schema rejects it.
   */
  function InitialPurchase(material: Id, input: MaterialInput, initialPurchase: bool, buyer: Id, now: Time): (r: Option<Result<Purchase, string>>)
    ensures r.Some? <==> InitialQuantity(input) > 0.0 && initialPurchase
    ensures r.Some? && (input.costPerUnit.None? || input.costPerUnit.value >= 0.0) ==>
              (r.value.Ok? <==> Round2(InitialQuantity(input)) >= 0.01)
    ensures r.Some? && r.value.Ok? ==>
      var price := if input.costPerUnit.Some? then input.costPerUnit.value else 0.0;
      && r.value.value.material == material
      && r.value.value.quantity == Round2(InitialQuantity(input))
      && r.value.value.unitPrice == Round2(price)
      && r.value.value.totalCost == Round2(Mul(price, InitialQuantity(input)))
  {
    var q := InitialQuantity(input);
    if q > 0.0 && initialPurchase then
      var price := if input.costPerUnit.Some? then input.costPerUnit.value else 0.0;
      PriceRoundsNonNegative(price, q);
      Some(NewPurchase(material, q, price, Mul(price, q), input.supplier, buyer, "Cadastro inicial", now))
    else None
  }

  /** A non-negative price, and its product with a positive quantity, round to non-negative values. */
  lemma PriceRoundsNonNegative(price: real, q: real)
    requires q > 0.0
    ensures price >= 0.0 ==> Round2(price) >= 0.0 && Round2(Mul(price, q)) >= 0.0
  {
    if price >= 0.0 {
      RealMulLe(0.0, price, q);
      Round2NonNegative(price);
      Round2NonNegative(Mul(price, q));
    }
  }

  /**
   * The initial purchase records exactly the stock the material was
   * created with, so the stock is not counted twice and the ledger agrees
   * with it, when the quantity is whole cents.
   */
  lemma InitialPurchaseMatchesStock(material: Id, input: MaterialInput, initialPurchase: bool, buyer: Id, now: Time)
    requires input.costPerUnit.Some? && input.costPerUnit.value >= 0.0
    requires TwoDecimals(InitialQuantity(input))
    ensures var p := InitialPurchase(material, input, initialPurchase, buyer, now);
            p.Some? ==> p.value.Ok? && p.value.value.quantity == InitialQuantity(input)
  {
    var q := InitialQuantity(input);
    if q > 0.0 {
      assert Floor(100.0 * q) >= 1;
      Round2Exact(q);
    }
  }

  /**
   * An initial stock below half a cent is accepted by the material schema
   * but rounds to 0 in the purchase schema: the material is created and
   * the handler still answers 500.
   */
  lemma TinyInitialStock(input: MaterialInput, buyer: Id, now: Time)
    requires InputValid(input) && input.quantityInStock == Some(0.004)
    ensures NewMaterial(input, now).Ok?
    ensures InitialPurchase(0, input, true, buyer, now) == Some(Err("ValidationError"))
  {
    assert Round2(0.004) == 0.0 by { assert Floor(100.0 * 0.004 + 0.5) == 0; }
  }

  /** `createMaterial` on the store. */
  method CreateMaterial(db: Db, input: MaterialInput, initialPurchase: bool, buyer: Id, now: Time)
    returns (r: Result<Id, MaterialError>)
    requires db.Valid()
    modifies db`materials, db`purchases, db`nextId
    ensures db.Valid()
    ensures NewMaterial(input, now).Err? ==>
              r == Err(ServerError) && db.materials == old(db.materials) && db.purchases == old(db.purchases)
    ensures NewMaterial(input, now).Ok? ==>
              var id := old(db.nextId);
              var p := InitialPurchase(id, input, initialPurchase, buyer, now);
              && db.materials == old(db.materials)[id := NewMaterial(input, now).value]
              && (p.None? ==> r == Ok(id) && db.purchases == old(db.purchases))
              && (p.Some? && p.value.Ok? ==> r == Ok(id) && db.purchases == old(db.purchases)[id + 1 := p.value.value])
              && (p.Some? && p.value.Err? ==> r == Err(ServerError) && db.purchases == old(db.purchases))
  {
    var created := NewMaterial(input, now);
    if created.Err? {
      return Err(ServerError);
    }
    var purchase := InitialPurchase(db.nextId, input, initialPurchase, buyer, now);
    r := InsertWithPurchase(db, created.value, purchase);
  }

  /**
   * A validated material stored under a fresh id, followed by its initial
   * purchase when one is due; `purchase` is what the purchase schema made
   * of it, `None` when none is due.
   */
  method InsertWithPurchase(db: Db, m: Material, purchase: Option<Result<Purchase, string>>)
    returns (r: Result<Id, MaterialError>)
    requires db.Valid() && MaterialValid(m)
    requires purchase.Some? && purchase.value.Ok? ==> PurchaseValid(purchase.value.value)
    modifies db`materials, db`purchases, db`nextId
    ensures db.Valid()
    ensures var id := old(db.nextId);
            && db.materials == old(db.materials)[id := m]
            && (purchase.None? ==> r == Ok(id) && db.purchases == old(db.purchases))
            && (purchase.Some? && purchase.value.Ok? ==>
                  r == Ok(id) && db.purchases == old(db.purchases)[id + 1 := purchase.value.value])
            && (purchase.Some? && purchase.value.Err? ==> r == Err(ServerError) && db.purchases == old(db.purchases))
  {
    var id := InsertMaterial(db, m);
    r := Ok(id);
    if purchase.Some? {
      if purchase.value.Err? {
        return Err(ServerError);
      }
      var pid := db.NewId();
      db.purchases := db.purchases[pid := purchase.value.value];
    }
  }

  /** A new material document under a fresh id. */
  method InsertMaterial(db: Db, m: Material) returns (id: Id)
    requires db.Valid() && MaterialValid(m)
    modifies db`materials, db`nextId
    ensures db.Valid()
    ensures id == old(db.nextId) && db.nextId == id + 1 && db.materials == old(db.materials)[id := m]
  {
    id := db.NewId();
    db.materials := db.materials[id := m];
  }

  /** The fields of an update request; `None` for a field the body leaves out. */
  datatype MaterialPatch = MaterialPatch(
    name: Option<string>,
    category: Option<string>,
    unit: Option<string>,
    costPerUnit: Option<real>,
    quantityInStock: Option<real>,
    minimumStock: Option<real>,
    supplier: Option<string>)

  /**
   * The fields of a patch written over a material, through the trim
   * setters; `None` when a category or unit is outside its enum. An update
   * by query skips the save hook, so `updatedAt` stays as it was.
   */
  function Patch(m: Material, patch: MaterialPatch): (r: Option<Material>)
    ensures r.Some? <==> (patch.category.None? || ParseCategory(patch.category.value).Some?)
                         && (patch.unit.None? || ParseUnit(patch.unit.value).Some?)
    ensures r.Some? ==> r.value.updatedAt == m.updatedAt
    ensures r.Some? ==> r.value.name == (if patch.name.Some? then Trim(patch.name.value) else m.name)
    ensures r.Some? ==> r.value.category == (if patch.category.Some? then ParseCategory(patch.category.value).value else m.category)
    ensures r.Some? ==> r.value.unit == (if patch.unit.Some? then ParseUnit(patch.unit.value).value else m.unit)
    ensures r.Some? ==> r.value.costPerUnit == (if patch.costPerUnit.Some? then patch.costPerUnit.value else m.costPerUnit)
    ensures r.Some? ==> r.value.quantityInStock == (if patch.quantityInStock.Some? then patch.quantityInStock.value else m.quantityInStock)
    ensures r.Some? ==> r.value.minimumStock == (if patch.minimumStock.Some? then patch.minimumStock.value else m.minimumStock)
    ensures r.Some? ==> r.value.supplier == (if patch.supplier.Some? then Trim(patch.supplier.value) else m.supplier)
    ensures patch == MaterialPatch(None, None, None, None, None, None, None) ==> r == Some(m)
  {
    var category := if patch.category.Some? then ParseCategory(patch.category.value) else Some(m.category);
    var unit := if patch.unit.Some? then ParseUnit(patch.unit.value) else Some(m.unit);
    if category.None? || unit.None? then None
    else
      Some(Material(
        if patch.name.Some? then Trim(patch.name.value) else m.name,
        category.value, unit.value,
        if patch.costPerUnit.Some? then patch.costPerUnit.value else m.costPerUnit,
        if patch.quantityInStock.Some? then patch.quantityInStock.value else m.quantityInStock,
        if patch.minimumStock.Some? then patch.minimumStock.value else m.minimumStock,
        if patch.supplier.Some? then Trim(patch.supplier.value) else m.supplier,
        m.updatedAt))
  }

  /**
   * `updateMaterial`: 404 for an unknown id; 500 when the validators reject
   * the patched document, with nothing written; otherwise the patched
   * document replaces the stored one.
   */
  function Revise(ms: map<Id, Material>, id: Id, patch: MaterialPatch): (r: (map<Id, Material>, Result<Material, MaterialError>))
    ensures id !in ms ==> r == (ms, Err(MaterialNotFound))
    ensures r.1.Err? ==> r.0 == ms
    ensures r.1.Ok? ==> id in ms && MaterialValid(r.1.value) && r.0 == ms[id := r.1.value]
                        && r.1.value.updatedAt == ms[id].updatedAt
    ensures r.1.Ok? ==> Patch(ms[id], patch) == Some(r.1.value)
    ensures id in ms ==> (r.1 == Err(ServerError) <==> Patch(ms[id], patch).None? || !MaterialValid(Patch(ms[id], patch).value))
  {
    if id !in ms then (ms, Err(MaterialNotFound))
    else
      var patched := Patch(ms[id], patch);
      if patched.None? || !MaterialValid(patched.value) then (ms, Err(ServerError))
      else (ms[id := patched.value], Ok(patched.value))
  }

  /** `updateMaterial` on the store. */
  method UpdateMaterial(db: Db, id: Id, patch: MaterialPatch) returns (r: Result<Material, MaterialError>)
    requires db.Valid()
    modifies db`materials
    ensures db.Valid()
    ensures (db.materials, r) == Revise(old(db.materials), id, patch)
  {
    if id !in db.materials {
      return Err(MaterialNotFound);
    }
    var patched := Patch(db.materials[id], patch);
    if patched.None? || !MaterialValid(patched.value) {
      return Err(ServerError);
    }
    db.materials := db.materials[id := patched.value];
    r := Ok(patched.value);
  }

  /** `deleteMaterial` on the store: 404 for an unknown id, otherwise the document is removed. */
  method DeleteMaterial(db: Db, id: Id) returns (r: Result<Material, MaterialError>)
    requires db.Valid()
    modifies db`materials
    ensures db.Valid()
    ensures id !in old(db.materials) ==> r == Err(MaterialNotFound) && db.materials == old(db.materials)
    ensures id in old(db.materials) ==> r == Ok(old(db.materials)[id]) && db.materials == old(db.materials) - {id}
  {
    if id !in db.materials {
      return Err(MaterialNotFound);
    }
    r := Ok(db.materials[id]);
    db.materials := db.materials - {id};
  }

  // ---- getMaterialStats ----

  /** The stock value of one material: cost per unit times quantity in stock. */
  function Value(m: Material): real
  {
    Mul(m.costPerUnit, m.quantityInStock)
  }

  /** `totalStockValue`: the sum of the stock values. */
  function StockValue(ms: seq<Material>): real
  {
    if ms == [] then 0.0 else StockValue(ms[..|ms| - 1]) + Value(ms[|ms| - 1])
  }

  /** A material is low on stock when it has a positive minimum and is at or below it. */
  predicate LowStock(m: Material)
  {
    m.minimumStock > 0.0 && m.quantityInStock <= m.minimumStock
  }

  /** `lowStockMaterials`: the low-stock materials, in their listed order. */
  function LowStockMaterials(ms: seq<Material>): (r: seq<Material>)
    ensures |r| <= |ms|
    ensures forall m :: m in r <==> m in ms && LowStock(m)
  {
    if ms == [] then []
    else (if LowStock(ms[0]) then [ms[0]] else []) + LowStockMaterials(ms[1..])
  }

  datatype CategoryTotals = CategoryTotals(count: nat, totalValue: real)

  /** The totals of a category, or zero totals when it has no entry. */
  function Totals(byCategory: map<Category, CategoryTotals>, c: Category): CategoryTotals
  {
    if c in byCategory then byCategory[c] else CategoryTotals(0, 0.0)
  }

  /** One iteration of the `forEach`: create the category's entry on first sight, then count the material. */
  function Count(byCategory: map<Category, CategoryTotals>, m: Material): map<Category, CategoryTotals>
  {
    var t := Totals(byCategory, m.category);
    byCategory[m.category := CategoryTotals(t.count + 1, t.totalValue + Value(m))]
  }

  /** `byCategory` after the materials, in order. */
  function ByCategory(ms: seq<Material>): map<Category, CategoryTotals>
  {
    if ms == [] then map[] else Count(ByCategory(ms[..|ms| - 1]), ms[|ms| - 1])
  }

  /** Reference definitions: the number and the stock value of the materials of one category. */
  function CategoryCount(ms: seq<Material>, c: Category): nat
  {
    if ms == [] then 0 else CategoryCount(ms[..|ms| - 1], c) + (if ms[|ms| - 1].category == c then 1 else 0)
  }

  function CategoryValue(ms: seq<Material>, c: Category): real
  {
    if ms == [] then 0.0 else CategoryValue(ms[..|ms| - 1], c) + (if ms[|ms| - 1].category == c then Value(ms[|ms| - 1]) else 0.0)
  }

  /** The sums of the counts and of the values over the six categories. */
  function CountSum(b: map<Category, CategoryTotals>): nat
  {
    Totals(b, Cone).count + Totals(b, Cobertura).count + Totals(b, Topping).count
    + Totals(b, Embalagem).count + Totals(b, Utensilio).count + Totals(b, OutroCategoria).count
  }

  function ValueSum(b: map<Category, CategoryTotals>): real
  {
    Totals(b, Cone).totalValue + Totals(b, Cobertura).totalValue + Totals(b, Topping).totalValue
    + Totals(b, Embalagem).totalValue + Totals(b, Utensilio).totalValue + Totals(b, OutroCategoria).totalValue
  }

  datatype MaterialStats = MaterialStats(
    totalMaterials: nat,
    totalStockValue: real,
    lowStockCount: nat,
    lowStockMaterials: seq<Material>,
    byCategory: map<Category, CategoryTotals>)

  /** The statistics `getMaterialStats` answers with. */
  function Stats(ms: seq<Material>): (r: MaterialStats)
    ensures r.lowStockCount == |r.lowStockMaterials| <= r.totalMaterials == |ms|
  {
    var low := LowStockMaterials(ms);
    MaterialStats(|ms|, StockValue(ms), |low|, low, ByCategory(ms))
  }

  /**
   * Per category, the entry holds the number and the stock value of that
   * category's materials, and a category has an entry exactly when one of
   * the materials belongs to it.
   */
  lemma {:induction false} ByCategoryMeaning(ms: seq<Material>, c: Category)
    ensures Totals(ByCategory(ms), c) == CategoryTotals(CategoryCount(ms, c), CategoryValue(ms, c))
    ensures c in ByCategory(ms) <==> exists i :: 0 <= i < |ms| && ms[i].category == c
    decreases |ms|
  {
    if ms != [] {
      var init := ms[..|ms| - 1];
      ByCategoryMeaning(init, c);
      assert forall i :: 0 <= i < |init| ==> init[i] == ms[i];
      if c !in ByCategory(ms) {
        forall i | 0 <= i < |ms|
          ensures ms[i].category != c
        {
          if i < |init| {
            assert init[i].category != c;
          }
        }
      }
    }
  }

  /** The per-category counts add up to `totalMaterials`, and the values to `totalStockValue`. */
  lemma {:induction false} CategoriesAddUp(ms: seq<Material>)
    ensures CountSum(ByCategory(ms)) == |ms|
    ensures ValueSum(ByCategory(ms)) == StockValue(ms)
    decreases |ms|
  {
    if ms != [] {
      CategoriesAddUp(ms[..|ms| - 1]);
      CountAddsOne(ByCategory(ms[..|ms| - 1]), ms[|ms| - 1]);
    }
  }

  /** Counting one material adds one to the count sum and its value to the value sum. */
  lemma CountAddsOne(b: map<Category, CategoryTotals>, m: Material)
    ensures CountSum(Count(b, m)) == CountSum(b) + 1
    ensures ValueSum(Count(b, m)) == ValueSum(b) + Value(m)
  {
    match m.category
    case Cone =>
    case Cobertura =>
    case Topping =>
    case Embalagem =>
    case Utensilio =>
    case OutroCategoria =>
  }

  /** Valid materials have a non-negative total stock value. */
  lemma {:induction false} StockValueNonNegative(ms: seq<Material>)
    requires forall i :: 0 <= i < |ms| ==> MaterialValid(ms[i])
    ensures StockValue(ms) >= 0.0
    decreases |ms|
  {
    if ms != [] {
      var last := ms[|ms| - 1];
      StockValueNonNegative(ms[..|ms| - 1]);
      RealMulLe(0.0, last.costPerUnit, last.quantityInStock);
    }
  }

  /** The `forEach` that fills `byCategory`. */
  method CategoryBreakdown(ms: seq<Material>) returns (byCategory: map<Category, CategoryTotals>)
    ensures byCategory == ByCategory(ms)
  {
    byCategory := map[];
    for i := 0 to |ms|
      invariant byCategory == ByCategory(ms[..i])
    {
      assert ms[..i + 1][..i] == ms[..i];
      var m := ms[i];
      if m.category !in byCategory {
        byCategory := byCategory[m.category := CategoryTotals(0, 0.0)];
      }
      var t := byCategory[m.category];
      byCategory := byCategory[m.category := CategoryTotals(t.count + 1, t.totalValue + Mul(m.costPerUnit, m.quantityInStock))];
    }
    assert ms[..|ms|] == ms;
  }

  /** `getMaterialStats` over the fetched materials. */
  method GetMaterialStats(ms: seq<Material>) returns (stats: MaterialStats)
    ensures stats == Stats(ms)
  {
    var byCategory := CategoryBreakdown(ms);
    var low := LowStockMaterials(ms);
    stats := MaterialStats(|ms|, StockValue(ms), |low|, low, byCategory);
  }
}
