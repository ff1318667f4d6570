/**
 * The pass of `createSale` over the line items, as a function: each item is
 * looked up, checked against stock, priced, and (for a paid sale) deducted
 * right after its own checks. The pass stops at the first failing item and
 * keeps what it already deducted.
 */
module SalePricing {
  import opened Refs
  import opened Wrappers
  import opened ProductModel
  import opened MaterialModel
  import opened SaleModel
  import opened Store
  import opened Numeric

  /** One `materialsUsed` entry of a request: a material and the quantity per unit sold. */
  datatype MaterialUseRequest = MaterialUseRequest(material: Id, quantity: real)

  /** A line item of a request; `unitPrice` 0 stands for an absent override. */
  datatype ItemRequest = ItemRequest(product: Id, quantity: int, unitPrice: real,
                                     materialsUsed: seq<MaterialUseRequest>)

  /** The body of `POST /api/sales`; "" stands for an absent string. */
  datatype SaleRequest = SaleRequest(client: Id, items: seq<ItemRequest>,
                                     paymentMethod: string, paymentStatus: string)

  datatype SaleError =
    | ProductNotFound(product: Id)
    | InsufficientProductStock(product: Id)
    | MaterialNotFound(material: Id)
    | InsufficientMaterialStock(material: Id)
    | SaleNotFound
    | ServerError

  /** The HTTP status each failure is answered with. */
  function HttpStatus(e: SaleError): (code: int)
    ensures code == 404 <==> e.ProductNotFound? || e.MaterialNotFound? || e.SaleNotFound?
    ensures code == 400 <==> e.InsufficientProductStock? || e.InsufficientMaterialStock?
    ensures code == 500 <==> e.ServerError?
  {
    match e
    case ProductNotFound(_) => 404
    case MaterialNotFound(_) => 404
    case SaleNotFound => 404
    case InsufficientProductStock(_) => 400
    case InsufficientMaterialStock(_) => 400
    case ServerError => 500
  }

  /** `paymentStatus || (paymentMethod === 'pendente' ? 'pendente' : 'pago')` */
  function ResolvePaymentStatus(paymentStatus: string, paymentMethod: string): (r: string)
    ensures paymentStatus != "" ==> r == paymentStatus
    ensures paymentStatus == "" ==> (r == "pendente" <==> paymentMethod == "pendente")
    ensures paymentStatus == "" ==> (r == "pago" <==> paymentMethod != "pendente")
  {
    if paymentStatus != "" then paymentStatus
    else if paymentMethod == "pendente" then "pendente" else "pago"
  }

  /** `item.unitPrice || product.price` */
  function UnitPrice(requested: real, price: real): (r: real)
    ensures requested != 0.0 ==> r == requested
    ensures requested == 0.0 ==> r == price
  {
    if requested != 0.0 then requested else price
  }

  /** The totals the pass accumulates, and the priced items so far. */
  datatype Acc = Acc(amount: real, cost: real, materialsCost: real, items: seq<SaleItem>)

  /** The materials of one item so far: their cost and the entries recorded. */
  datatype MatAcc = MatAcc(cost: real, used: seq<MaterialUse>)

  /** Where the pass over one item's materials ends: the materials map and the result. */
  datatype MatRun = MatRun(materials: map<Id, Material>, outcome: Result<MatAcc, SaleError>)

  /** Where the pass over the items ends: both maps and the result. */
  datatype Run = Run(products: map<Id, Product>, materials: map<Id, Material>, outcome: Result<Acc, SaleError>)

  /** `ms'` differs from `ms` at most in stock quantities and `updatedAt`. */
  predicate SameMaterialsButStock(ms: map<Id, Material>, ms': map<Id, Material>)
  {
    ms'.Keys == ms.Keys
    && forall id :: id in ms ==> ms'[id].(quantityInStock := ms[id].quantityInStock, updatedAt := ms[id].updatedAt) == ms[id]
  }

  /** `ps'` differs from `ps` at most in stock counters and `updatedAt`. */
  predicate SameProductsButStock(ps: map<Id, Product>, ps': map<Id, Product>)
  {
    ps'.Keys == ps.Keys
    && forall id :: id in ps ==> ps'[id].(stock := ps[id].stock, updatedAt := ps[id].updatedAt) == ps[id]
  }

  /**
   * One `materialsUsed` entry (saleController.js:129-162): the material must
   * exist and hold `quantity * item.quantity`; that much is priced at the
   * material's cost and, for a paid sale, deducted and saved.
   */
  function UseStep(ms: map<Id, Material>, u: MaterialUseRequest, qty: int, paid: bool, now: Time,
                   acc: MatAcc): (r: MatRun)
    ensures r.outcome.Ok? <==> u.material in ms && ms[u.material].quantityInStock >= Mul(u.quantity, qty as real)
    ensures r.outcome.Err? ==> r.materials == ms
    ensures r.outcome.Err? && u.material !in ms ==> r.outcome.error == MaterialNotFound(u.material)
    ensures r.outcome.Err? && u.material in ms ==> r.outcome.error == InsufficientMaterialStock(u.material)
    ensures SameMaterialsButStock(ms, r.materials)
    ensures MaterialsValid(ms) ==> MaterialsValid(r.materials)
    ensures !paid ==> r.materials == ms
    ensures r.outcome.Ok? && paid ==> forall id :: id in ms ==>
      r.materials[id].quantityInStock == ms[id].quantityInStock - (if id == u.material then Mul(u.quantity, qty as real) else 0.0)
  {
    if u.material !in ms then MatRun(ms, Err(MaterialNotFound(u.material)))
    else
      var m := ms[u.material];
      var needed := Mul(u.quantity, qty as real);
      if m.quantityInStock < needed then MatRun(ms, Err(InsufficientMaterialStock(u.material)))
      else
        var cost := Mul(m.costPerUnit, needed);
        var ms' := if paid then ms[u.material := MaterialModel.Touch(m.(quantityInStock := m.quantityInStock - needed), now)]
                   else ms;
        MatRun(ms', Ok(MatAcc(acc.cost + cost, acc.used + [MaterialUse(u.material, needed, cost)])))
  }

  /** The inner loop of `createSale` (saleController.js:128-163): stops at the first failing entry. */
  function RunMaterials(ms: map<Id, Material>, uses: seq<MaterialUseRequest>, qty: int, paid: bool,
                        now: Time, acc: MatAcc): MatRun
    decreases |uses|
  {
    if uses == [] then MatRun(ms, Ok(acc))
    else
      var st := UseStep(ms, uses[0], qty, paid, now, acc);
      if st.outcome.Err? then st
      else RunMaterials(st.materials, uses[1..], qty, paid, now, st.outcome.value)
  }

  /** The pass from entry `j` on is that entry's step followed by the pass from `j + 1` on. */
  lemma RunMaterialsAt(ms: map<Id, Material>, uses: seq<MaterialUseRequest>, j: nat, qty: int, paid: bool,
                       now: Time, acc: MatAcc)
    requires j < |uses|
    ensures var st := UseStep(ms, uses[j], qty, paid, now, acc);
            RunMaterials(ms, uses[j..], qty, paid, now, acc)
              == if st.outcome.Err? then st else RunMaterials(st.materials, uses[j + 1..], qty, paid, now, st.outcome.value)
  {
    assert uses[j..][0] == uses[j] && uses[j..][1..] == uses[j + 1..];
  }

  /**
   * One line item (saleController.js:99-174): the product must exist and hold
   * `quantity`; it is priced (`unitPrice || product.price`), its materials are
   * processed, and for a paid sale its stock is deducted and saved.
   */
  function ItemStep(ps: map<Id, Product>, ms: map<Id, Material>, it: ItemRequest, paid: bool, now: Time,
                    acc: Acc): Run
  {
    if it.product !in ps then Run(ps, ms, Err(ProductNotFound(it.product)))
    else
      var p := ps[it.product];
      if p.stock < it.quantity then Run(ps, ms, Err(InsufficientProductStock(it.product)))
      else
        var unitPrice := UnitPrice(it.unitPrice, p.price);
        var subtotal := Mul(unitPrice, it.quantity as real);
        var itemCost := Mul(p.costPrice, it.quantity as real);
        var mr := RunMaterials(ms, it.materialsUsed, it.quantity, paid, now, MatAcc(0.0, []));
        if mr.outcome.Err? then Run(ps, mr.materials, Err(mr.outcome.error))
        else
          var mc := mr.outcome.value.cost;
          var ps' := if paid then ps[it.product := ProductModel.Touch(p.(stock := p.stock - it.quantity), now)] else ps;
          Run(ps', mr.materials,
              Ok(Acc(acc.amount + subtotal, acc.cost + (itemCost + mc), acc.materialsCost + mc,
                     acc.items + [SaleItem(it.product, it.quantity, unitPrice, subtotal, mr.outcome.value.used)])))
  }

  /**
   * One line item fails with 404 or 400 before touching anything when the
   * product is missing or short; otherwise only stock counters change, and
   * a paid item lowers its own product's stock by its quantity.
   */
  lemma ItemStepFrame(ps: map<Id, Product>, ms: map<Id, Material>, it: ItemRequest, paid: bool, now: Time, acc: Acc)
    ensures it.product !in ps ==> ItemStep(ps, ms, it, paid, now, acc) == Run(ps, ms, Err(ProductNotFound(it.product)))
    ensures it.product in ps && ps[it.product].stock < it.quantity ==>
      ItemStep(ps, ms, it, paid, now, acc) == Run(ps, ms, Err(InsufficientProductStock(it.product)))
    ensures ItemStep(ps, ms, it, paid, now, acc).outcome.Ok? ==> it.product in ps && ps[it.product].stock >= it.quantity
    ensures ItemStep(ps, ms, it, paid, now, acc).outcome.Err? ==> ItemStep(ps, ms, it, paid, now, acc).products == ps
    ensures SameProductsButStock(ps, ItemStep(ps, ms, it, paid, now, acc).products)
    ensures ProductsValid(ps) ==> ProductsValid(ItemStep(ps, ms, it, paid, now, acc).products)
    ensures !paid ==> ItemStep(ps, ms, it, paid, now, acc).products == ps
    ensures ItemStep(ps, ms, it, paid, now, acc).outcome.Ok? && paid ==> forall id :: id in ps ==>
      ItemStep(ps, ms, it, paid, now, acc).products[id].stock == ps[id].stock - (if id == it.product then it.quantity else 0)
  {
  }

  /** One line item changes materials only through its materials pass. */
  lemma ItemStepMaterials(ps: map<Id, Product>, ms: map<Id, Material>, it: ItemRequest, paid: bool, now: Time, acc: Acc)
    ensures SameMaterialsButStock(ms, ItemStep(ps, ms, it, paid, now, acc).materials)
    ensures MaterialsValid(ms) ==> MaterialsValid(ItemStep(ps, ms, it, paid, now, acc).materials)
    ensures !paid ==> ItemStep(ps, ms, it, paid, now, acc).materials == ms
  {
    if it.product in ps && ps[it.product].stock >= it.quantity {
      RunMaterialsFrame(ms, it.materialsUsed, it.quantity, paid, now, MatAcc(0.0, []));
    }
  }

  /** The outer loop of `createSale` (saleController.js:98-175): stops at the first failing item. */
  function RunItems(ps: map<Id, Product>, ms: map<Id, Material>, items: seq<ItemRequest>, paid: bool,
                    now: Time, acc: Acc): Run
    decreases |items|
  {
    if items == [] then Run(ps, ms, Ok(acc))
    else
      var st := ItemStep(ps, ms, items[0], paid, now, acc);
      if st.outcome.Err? then st
      else RunItems(st.products, st.materials, items[1..], paid, now, st.outcome.value)
  }

  const NoTotals := Acc(0.0, 0.0, 0.0, [])

  /** Whether a request's sale deducts stock when it is created. */
  predicate IsPaid(req: SaleRequest)
  {
    ResolvePaymentStatus(req.paymentStatus, req.paymentMethod) == "pago"
  }

  /** The pass `createSale` makes over the request's items. */
  function PriceSale(ps: map<Id, Product>, ms: map<Id, Material>, req: SaleRequest, now: Time): Run
  {
    RunItems(ps, ms, req.items, IsPaid(req), now, NoTotals)
  }

  /** Profits and the `Sale.create` call once every item passed (saleController.js:178-196). */
  function BuildSale(req: SaleRequest, acc: Acc, seller: Id, now: Time): (r: Result<Sale, string>)
    ensures r.Ok? ==> r.value.items == acc.items && r.value.totalAmount == acc.amount
                      && r.value.totalCost == acc.cost && r.value.materialsCost == acc.materialsCost
    ensures r.Ok? ==> r.value.grossProfit == acc.amount - acc.cost
    ensures r.Ok? ==> r.value.netProfit == 0.85 * r.value.grossProfit
    ensures r.Ok? ==> (r.value.paymentStatus == Pago <==> IsPaid(req))
    ensures r.Ok? ==> (r.value.paidAt.Some? <==> IsPaid(req)) && r.value.status == Concluida
    ensures r.Ok? <==> acc.amount >= 0.0 && acc.cost >= 0.0 && acc.materialsCost >= 0.0
                       && (forall i :: 0 <= i < |acc.items| ==> acc.items[i].quantity >= 1)
                       && ParsePaymentStatus(ResolvePaymentStatus(req.paymentStatus, req.paymentMethod)).Some?
                       && (req.paymentMethod == "" || ParsePaymentMethod(req.paymentMethod).Some?)
  {
    var status := ResolvePaymentStatus(req.paymentStatus, req.paymentMethod);
    var grossProfit := acc.amount - acc.cost;
    var tax := grossProfit * 0.15;
    var netProfit := grossProfit - tax;
    NewSale(req.client, acc.items, acc.amount, acc.cost, acc.materialsCost, grossProfit, netProfit, seller,
            if req.paymentMethod == "" then "dinheiro" else req.paymentMethod, status,
            if status == "pago" then Some(now) else None, now)
  }

  // ---------------------------------------------------------------------
  // What the pass may change: stock counters and `updatedAt`, nothing else.

  /**
   * The materials pass touches only stock quantities, keeps every material
   * valid (it deducts only what it checked was there), and changes nothing
   * when the sale is not paid.
   */
  lemma {:induction false} RunMaterialsFrame(ms: map<Id, Material>, uses: seq<MaterialUseRequest>, qty: int,
                                             paid: bool, now: Time, acc: MatAcc)
    ensures SameMaterialsButStock(ms, RunMaterials(ms, uses, qty, paid, now, acc).materials)
    ensures MaterialsValid(ms) ==> MaterialsValid(RunMaterials(ms, uses, qty, paid, now, acc).materials)
    ensures !paid ==> RunMaterials(ms, uses, qty, paid, now, acc).materials == ms
    decreases |uses|
  {
    if uses != [] {
      var st := UseStep(ms, uses[0], qty, paid, now, acc);
      if st.outcome.Ok? {
        RunMaterialsFrame(st.materials, uses[1..], qty, paid, now, st.outcome.value);
      }
    }
  }

  /** The items pass: the same frame, for products and materials. */
  lemma RunItemsFrame(ps: map<Id, Product>, ms: map<Id, Material>, items: seq<ItemRequest>,
                      paid: bool, now: Time, acc: Acc)
    ensures SameProductsButStock(ps, RunItems(ps, ms, items, paid, now, acc).products)
    ensures SameMaterialsButStock(ms, RunItems(ps, ms, items, paid, now, acc).materials)
    ensures ProductsValid(ps) ==> ProductsValid(RunItems(ps, ms, items, paid, now, acc).products)
    ensures MaterialsValid(ms) ==> MaterialsValid(RunItems(ps, ms, items, paid, now, acc).materials)
    ensures !paid ==> RunItems(ps, ms, items, paid, now, acc).products == ps
    ensures !paid ==> RunItems(ps, ms, items, paid, now, acc).materials == ms
  {
    RunItemsProductFrame(ps, ms, items, paid, now, acc);
    RunItemsMaterialFrame(ps, ms, items, paid, now, acc);
  }

  lemma {:induction false} RunItemsProductFrame(ps: map<Id, Product>, ms: map<Id, Material>, items: seq<ItemRequest>,
                                                paid: bool, now: Time, acc: Acc)
    ensures SameProductsButStock(ps, RunItems(ps, ms, items, paid, now, acc).products)
    ensures ProductsValid(ps) ==> ProductsValid(RunItems(ps, ms, items, paid, now, acc).products)
    ensures !paid ==> RunItems(ps, ms, items, paid, now, acc).products == ps
    decreases |items|
  {
    if items != [] {
      var st := ItemStep(ps, ms, items[0], paid, now, acc);
      ItemStepFrame(ps, ms, items[0], paid, now, acc);
      if st.outcome.Ok? {
        RunItemsProductFrame(st.products, st.materials, items[1..], paid, now, st.outcome.value);
      }
    }
  }

  lemma {:induction false} RunItemsMaterialFrame(ps: map<Id, Product>, ms: map<Id, Material>, items: seq<ItemRequest>,
                                                 paid: bool, now: Time, acc: Acc)
    ensures SameMaterialsButStock(ms, RunItems(ps, ms, items, paid, now, acc).materials)
    ensures MaterialsValid(ms) ==> MaterialsValid(RunItems(ps, ms, items, paid, now, acc).materials)
    ensures !paid ==> RunItems(ps, ms, items, paid, now, acc).materials == ms
    decreases |items|
  {
    if items != [] {
      var st := ItemStep(ps, ms, items[0], paid, now, acc);
      ItemStepMaterials(ps, ms, items[0], paid, now, acc);
      if st.outcome.Ok? {
        RunItemsMaterialFrame(st.products, st.materials, items[1..], paid, now, st.outcome.value);
      }
    }
  }

  // ---------------------------------------------------------------------
  // Exact deductions of a paid sale.

  /** How much of material `id` a list of uses asks for, for `qty` units sold. */
  function UseDemand(uses: seq<MaterialUseRequest>, qty: int, id: Id): real
    decreases |uses|
  {
    if uses == [] then 0.0
    else (if uses[0].material == id then Mul(uses[0].quantity, qty as real) else 0.0) + UseDemand(uses[1..], qty, id)
  }

  /** How much of material `id` all the items of a request ask for. */
  function MaterialDemand(items: seq<ItemRequest>, id: Id): real
    decreases |items|
  {
    if items == [] then 0.0
    else UseDemand(items[0].materialsUsed, items[0].quantity, id) + MaterialDemand(items[1..], id)
  }

  /** How many units of product `id` all the items of a request ask for. */
  function ProductDemand(items: seq<ItemRequest>, id: Id): int
    decreases |items|
  {
    if items == [] then 0
    else (if items[0].product == id then items[0].quantity else 0) + ProductDemand(items[1..], id)
  }

  /** A paid materials pass that succeeds deducts each material's total demand, and found every material. */
  lemma {:induction false} RunMaterialsPaid(ms: map<Id, Material>, uses: seq<MaterialUseRequest>, qty: int,
                                            now: Time, acc: MatAcc)
    requires RunMaterials(ms, uses, qty, true, now, acc).outcome.Ok?
    ensures RunMaterials(ms, uses, qty, true, now, acc).materials.Keys == ms.Keys
    ensures forall j :: 0 <= j < |uses| ==> uses[j].material in ms
    ensures forall id :: id in ms ==>
      RunMaterials(ms, uses, qty, true, now, acc).materials[id].quantityInStock
        == ms[id].quantityInStock - UseDemand(uses, qty, id)
    decreases |uses|
  {
    RunMaterialsFrame(ms, uses, qty, true, now, acc);
    if uses != [] {
      var st := UseStep(ms, uses[0], qty, true, now, acc);
      RunMaterialsPaid(st.materials, uses[1..], qty, now, st.outcome.value);
      forall j | 0 <= j < |uses|
        ensures uses[j].material in ms
      {
        if j > 0 { assert uses[j] == uses[1..][j - 1]; }
      }
    }
  }

  /**
   * A paid sale that passes every check leaves each product's stock lowered by
   * the units the request asks of it, and each material's stock lowered by
   * what its items' `materialsUsed` ask of it.
   */
  lemma RunItemsPaid(ps: map<Id, Product>, ms: map<Id, Material>, items: seq<ItemRequest>, now: Time, acc: Acc)
    requires RunItems(ps, ms, items, true, now, acc).outcome.Ok?
    ensures RunItems(ps, ms, items, true, now, acc).products.Keys == ps.Keys
    ensures RunItems(ps, ms, items, true, now, acc).materials.Keys == ms.Keys
    ensures forall j :: 0 <= j < |items| ==> items[j].product in ps
    ensures forall id :: id in ps ==>
      RunItems(ps, ms, items, true, now, acc).products[id].stock == ps[id].stock - ProductDemand(items, id)
    ensures forall id :: id in ms ==>
      RunItems(ps, ms, items, true, now, acc).materials[id].quantityInStock
        == ms[id].quantityInStock - MaterialDemand(items, id)
  {
    RunItemsPaidProducts(ps, ms, items, now, acc);
    RunItemsPaidMaterials(ps, ms, items, now, acc);
  }

  lemma {:induction false} RunItemsPaidProducts(ps: map<Id, Product>, ms: map<Id, Material>, items: seq<ItemRequest>,
                                                now: Time, acc: Acc)
    requires RunItems(ps, ms, items, true, now, acc).outcome.Ok?
    ensures RunItems(ps, ms, items, true, now, acc).products.Keys == ps.Keys
    ensures forall j :: 0 <= j < |items| ==> items[j].product in ps
    ensures forall id :: id in ps ==>
      RunItems(ps, ms, items, true, now, acc).products[id].stock == ps[id].stock - ProductDemand(items, id)
    decreases |items|
  {
    if items != [] {
      var st := ItemStep(ps, ms, items[0], true, now, acc);
      ItemStepFrame(ps, ms, items[0], true, now, acc);
      RunItemsPaidProducts(st.products, st.materials, items[1..], now, st.outcome.value);
      forall j | 0 <= j < |items|
        ensures items[j].product in ps
      {
        if j > 0 { assert items[j] == items[1..][j - 1]; }
      }
    }
  }

  lemma {:induction false} RunItemsPaidMaterials(ps: map<Id, Product>, ms: map<Id, Material>, items: seq<ItemRequest>,
                                                 now: Time, acc: Acc)
    requires RunItems(ps, ms, items, true, now, acc).outcome.Ok?
    ensures RunItems(ps, ms, items, true, now, acc).materials.Keys == ms.Keys
    ensures forall id :: id in ms ==>
      RunItems(ps, ms, items, true, now, acc).materials[id].quantityInStock
        == ms[id].quantityInStock - MaterialDemand(items, id)
    decreases |items|
  {
    if items != [] {
      var it := items[0];
      var st := ItemStep(ps, ms, it, true, now, acc);
      RunMaterialsPaid(ms, it.materialsUsed, it.quantity, now, MatAcc(0.0, []));
      RunItemsPaidMaterials(st.products, st.materials, items[1..], now, st.outcome.value);
    }
  }

  /**
   * Checking each item against the stock left by the items before it means a
   * paid sale never asks for more than there is: summed over repeated lines,
   * the demand of every product and material is within its stock.
   */
  lemma PaidSaleWithinStock(ps: map<Id, Product>, ms: map<Id, Material>, req: SaleRequest, now: Time)
    requires ProductsValid(ps) && MaterialsValid(ms) && IsPaid(req)
    requires PriceSale(ps, ms, req, now).outcome.Ok?
    ensures forall id :: id in ps ==> ProductDemand(req.items, id) <= ps[id].stock
    ensures forall id :: id in ms ==> MaterialDemand(req.items, id) <= ms[id].quantityInStock
  {
    RunItemsPaid(ps, ms, req.items, now, NoTotals);
    RunItemsFrame(ps, ms, req.items, true, now, NoTotals);
    var r := PriceSale(ps, ms, req, now);
    forall id | id in ps
      ensures ProductDemand(req.items, id) <= ps[id].stock
    {
      assert ProductValid(r.products[id]);
    }
    forall id | id in ms
      ensures MaterialDemand(req.items, id) <= ms[id].quantityInStock
    {
      assert MaterialValid(r.materials[id]);
    }
  }

  // ---------------------------------------------------------------------
  // Prices and totals.

  /** A recorded material entry: the requested per-unit quantity times the units sold, at the material's cost. */
  predicate UsePriced(ms: map<Id, Material>, u: MaterialUseRequest, qty: int, m: MaterialUse)
  {
    && u.material in ms && m.material == u.material
    && m.quantity == Mul(u.quantity, qty as real)
    && m.cost == Mul(ms[u.material].costPerUnit, m.quantity)
  }

  /** A recorded line item: the requested product and quantity, at the catalog price unless overridden. */
  predicate Priced(ps: map<Id, Product>, ms: map<Id, Material>, rq: ItemRequest, it: SaleItem)
  {
    && rq.product in ps && it.product == rq.product && it.quantity == rq.quantity
    && it.unitPrice == UnitPrice(rq.unitPrice, ps[rq.product].price)
    && it.subtotal == Mul(it.unitPrice, it.quantity as real)
    && |it.materialsUsed| == |rq.materialsUsed|
    && forall k :: 0 <= k < |rq.materialsUsed| ==> UsePriced(ms, rq.materialsUsed[k], rq.quantity, it.materialsUsed[k])
  }

  /** The entries of `recorded` from position `n` on are priced for `uses`, one for one. */
  predicate UsesPricedFrom(ms: map<Id, Material>, uses: seq<MaterialUseRequest>, qty: int, recorded: seq<MaterialUse>, n: nat)
  {
    n + |uses| <= |recorded| && forall k :: 0 <= k < |uses| ==> UsePriced(ms, uses[k], qty, recorded[n + k])
  }

  /** The entries of `recorded` from position `n` on are priced for `items`, one for one. */
  predicate PricedFrom(ps: map<Id, Product>, ms: map<Id, Material>, items: seq<ItemRequest>, recorded: seq<SaleItem>, n: nat)
  {
    n + |items| <= |recorded| && forall j :: 0 <= j < |items| ==> Priced(ps, ms, items[j], recorded[n + j])
  }

  /** The sum of the subtotals. */
  function Amount(items: seq<SaleItem>): real
  {
    if items == [] then 0.0 else Amount(items[..|items| - 1]) + items[|items| - 1].subtotal
  }

  /** The sum of the costs of material entries. */
  function UsesCost(uses: seq<MaterialUse>): real
  {
    if uses == [] then 0.0 else UsesCost(uses[..|uses| - 1]) + uses[|uses| - 1].cost
  }

  /** The cost of every material entry of every item. */
  function MaterialsCost(items: seq<SaleItem>): real
  {
    if items == [] then 0.0 else MaterialsCost(items[..|items| - 1]) + UsesCost(items[|items| - 1].materialsUsed)
  }

  /** The products' own cost: catalog cost price times quantity, item by item. */
  function ProductCost(ps: map<Id, Product>, items: seq<SaleItem>): real
    requires forall i :: 0 <= i < |items| ==> items[i].product in ps
  {
    if items == [] then 0.0
    else ProductCost(ps, items[..|items| - 1]) + Mul(ps[items[|items| - 1].product].costPrice, items[|items| - 1].quantity as real)
  }

  /** The accumulated totals agree with the accumulated items. */
  predicate Totals(ps: map<Id, Product>, acc: Acc)
  {
    && (forall i :: 0 <= i < |acc.items| ==> acc.items[i].product in ps)
    && acc.amount == Amount(acc.items)
    && acc.materialsCost == MaterialsCost(acc.items)
    && acc.cost == ProductCost(ps, acc.items) + acc.materialsCost
  }

  /** The entry one successful `materialsUsed` step appends, priced against any catalog with the same costs. */
  lemma UseStepPriced(ms0: map<Id, Material>, ms: map<Id, Material>, u: MaterialUseRequest, qty: int,
                      paid: bool, now: Time, acc: MatAcc)
    requires SameMaterialsButStock(ms0, ms)
    requires UseStep(ms, u, qty, paid, now, acc).outcome.Ok?
    ensures var v := UseStep(ms, u, qty, paid, now, acc).outcome.value;
      && |v.used| == |acc.used| + 1 && v.used[..|acc.used|] == acc.used
      && UsePriced(ms0, u, qty, v.used[|acc.used|])
      && v.cost == acc.cost + v.used[|acc.used|].cost
  {
    var v := UseStep(ms, u, qty, paid, now, acc).outcome.value;
    assert v.used[..|acc.used|] == acc.used;
    assert ms[u.material].costPerUnit == ms0[u.material].costPerUnit;
  }

  /** Appending an entry adds its cost. */
  lemma UsesCostAppend(uses: seq<MaterialUse>, m: MaterialUse)
    ensures UsesCost(uses + [m]) == UsesCost(uses) + m.cost
  {
    assert (uses + [m])[..|uses|] == uses;
  }

  /**
   * The materials pass records one entry per requested entry, each priced at
   * the material's cost, and its cost is their sum.
   */
  lemma {:induction false} RunMaterialsPriced(ms0: map<Id, Material>, ms: map<Id, Material>,
                                              uses: seq<MaterialUseRequest>, qty: int, paid: bool, now: Time, acc: MatAcc)
    requires SameMaterialsButStock(ms0, ms) && acc.cost == UsesCost(acc.used)
    requires RunMaterials(ms, uses, qty, paid, now, acc).outcome.Ok?
    ensures var v := RunMaterials(ms, uses, qty, paid, now, acc).outcome.value;
      && v.cost == UsesCost(v.used)
      && |v.used| == |acc.used| + |uses|
      && v.used[..|acc.used|] == acc.used
      && UsesPricedFrom(ms0, uses, qty, v.used, |acc.used|)
    decreases |uses|
  {
    if uses != [] {
      var st := UseStep(ms, uses[0], qty, paid, now, acc);
      var acc' := st.outcome.value;
      UseStepPriced(ms0, ms, uses[0], qty, paid, now, acc);
      SameMaterialsTransitive(ms0, ms, st.materials);
      assert acc'.used == acc.used + [acc'.used[|acc.used|]];
      UsesCostAppend(acc.used, acc'.used[|acc.used|]);
      RunMaterialsPriced(ms0, st.materials, uses[1..], qty, paid, now, acc');
      var v := RunMaterials(st.materials, uses[1..], qty, paid, now, acc').outcome.value;
      assert RunMaterials(ms, uses, qty, paid, now, acc).outcome.value == v;
      PrefixStep(v.used, acc.used, acc'.used);
      UsesPricedFront(ms0, uses, qty, v.used, |acc.used|);
    }
  }

  /** Entries priced for the first use and for the rest are priced for every use. */
  lemma UsesPricedFront(ms0: map<Id, Material>, uses: seq<MaterialUseRequest>, qty: int, recorded: seq<MaterialUse>, n: nat)
    requires uses != [] && n < |recorded|
    requires UsePriced(ms0, uses[0], qty, recorded[n])
    requires UsesPricedFrom(ms0, uses[1..], qty, recorded, n + 1)
    ensures UsesPricedFrom(ms0, uses, qty, recorded, n)
  {
    forall k | 0 < k < |uses|
      ensures UsePriced(ms0, uses[k], qty, recorded[n + k])
    {
      assert uses[k] == uses[1..][k - 1];
      assert n + k == (n + 1) + (k - 1);
    }
  }

  /** Stock-only changes to materials compose. */
  lemma SameMaterialsTransitive(ms0: map<Id, Material>, ms1: map<Id, Material>, ms2: map<Id, Material>)
    requires SameMaterialsButStock(ms0, ms1) && SameMaterialsButStock(ms1, ms2)
    ensures SameMaterialsButStock(ms0, ms2)
  {
  }

  /** Stock-only changes compose. */
  lemma SameTransitive(ps0: map<Id, Product>, ps1: map<Id, Product>, ps2: map<Id, Product>,
                       ms0: map<Id, Material>, ms1: map<Id, Material>, ms2: map<Id, Material>)
    requires SameProductsButStock(ps0, ps1) && SameProductsButStock(ps1, ps2)
    requires SameMaterialsButStock(ms0, ms1) && SameMaterialsButStock(ms1, ms2)
    ensures SameProductsButStock(ps0, ps2) && SameMaterialsButStock(ms0, ms2)
  {
  }

  /** Appending an item adds its subtotal, its materials' cost and its product cost. */
  lemma TotalsAppend(ps: map<Id, Product>, items: seq<SaleItem>, x: SaleItem)
    requires forall i :: 0 <= i < |items| ==> items[i].product in ps
    requires x.product in ps
    ensures Amount(items + [x]) == Amount(items) + x.subtotal
    ensures MaterialsCost(items + [x]) == MaterialsCost(items) + UsesCost(x.materialsUsed)
    ensures ProductCost(ps, items + [x]) == ProductCost(ps, items) + Mul(ps[x.product].costPrice, x.quantity as real)
  {
    assert (items + [x])[..|items|] == items;
  }

  /** One successful line item appends its priced entry and keeps the totals in agreement. */
  lemma ItemStepPriced(ps0: map<Id, Product>, ms0: map<Id, Material>, ps: map<Id, Product>, ms: map<Id, Material>,
                       it: ItemRequest, paid: bool, now: Time, acc: Acc)
    requires SameProductsButStock(ps0, ps) && SameMaterialsButStock(ms0, ms) && Totals(ps0, acc)
    requires ItemStep(ps, ms, it, paid, now, acc).outcome.Ok?
    ensures var v := ItemStep(ps, ms, it, paid, now, acc).outcome.value;
      && |v.items| == |acc.items| + 1 && v.items[..|acc.items|] == acc.items
      && Priced(ps0, ms0, it, v.items[|acc.items|])
      && Totals(ps0, v)
  {
    var mr := RunMaterials(ms, it.materialsUsed, it.quantity, paid, now, MatAcc(0.0, []));
    RunMaterialsPriced(ms0, ms, it.materialsUsed, it.quantity, paid, now, MatAcc(0.0, []));
    var v := ItemStep(ps, ms, it, paid, now, acc).outcome.value;
    var x := v.items[|acc.items|];
    assert v.items == acc.items + [x];
    assert ps[it.product].price == ps0[it.product].price && ps[it.product].costPrice == ps0[it.product].costPrice;
    assert mr.outcome.value.used[..0] == [];
    forall k | 0 <= k < |it.materialsUsed|
      ensures UsePriced(ms0, it.materialsUsed[k], it.quantity, x.materialsUsed[k])
    {
      assert 0 + k == k;
    }
    TotalsAppend(ps0, acc.items, x);
  }

  /**
   * A pass that succeeds records one priced entry per requested item, in
   * order, and its totals are the sums over those entries: the amount is the
   * sum of subtotals, the materials cost the sum of material entries, and the
   * cost the products' cost prices plus the materials cost.
   */
  lemma {:induction false} RunItemsPriced(ps0: map<Id, Product>, ms0: map<Id, Material>, ps: map<Id, Product>,
                                          ms: map<Id, Material>, items: seq<ItemRequest>, paid: bool, now: Time, acc: Acc)
    requires SameProductsButStock(ps0, ps) && SameMaterialsButStock(ms0, ms) && Totals(ps0, acc)
    requires RunItems(ps, ms, items, paid, now, acc).outcome.Ok?
    ensures var v := RunItems(ps, ms, items, paid, now, acc).outcome.value;
      && Totals(ps0, v)
      && |v.items| == |acc.items| + |items|
      && v.items[..|acc.items|] == acc.items
      && PricedFrom(ps0, ms0, items, v.items, |acc.items|)
    decreases |items|
  {
    if items != [] {
      var st := ItemStep(ps, ms, items[0], paid, now, acc);
      var acc' := st.outcome.value;
      ItemStepPriced(ps0, ms0, ps, ms, items[0], paid, now, acc);
      ItemStepFrame(ps, ms, items[0], paid, now, acc);
      ItemStepMaterials(ps, ms, items[0], paid, now, acc);
      SameTransitive(ps0, ps, st.products, ms0, ms, st.materials);
      RunItemsPriced(ps0, ms0, st.products, st.materials, items[1..], paid, now, acc');
      var v := RunItems(st.products, st.materials, items[1..], paid, now, acc').outcome.value;
      assert RunItems(ps, ms, items, paid, now, acc).outcome.value == v;
      PrefixStep(v.items, acc.items, acc'.items);
      PricedFront(ps0, ms0, items, v.items, |acc.items|);
    }
  }

  /** A prefix of a prefix: `a2` extends `a` by one entry, and `v` extends `a2`. */
  lemma PrefixStep<T>(v: seq<T>, a: seq<T>, a2: seq<T>)
    requires |a2| == |a| + 1 && a2[..|a|] == a && |a2| <= |v| && v[..|a2|] == a2
    ensures v[..|a|] == a && v[|a|] == a2[|a|]
  {
    assert v[..|a|] == v[..|a2|][..|a|];
    assert v[|a|] == v[..|a2|][|a|];
  }

  /** Entries priced for the first request item and for the rest are priced for every request item. */
  lemma PricedFront(ps0: map<Id, Product>, ms0: map<Id, Material>, items: seq<ItemRequest>, recorded: seq<SaleItem>, n: nat)
    requires items != [] && n < |recorded|
    requires Priced(ps0, ms0, items[0], recorded[n])
    requires PricedFrom(ps0, ms0, items[1..], recorded, n + 1)
    ensures PricedFrom(ps0, ms0, items, recorded, n)
  {
    forall j | 0 < j < |items|
      ensures Priced(ps0, ms0, items[j], recorded[n + j])
    {
      assert items[j] == items[1..][j - 1];
      assert n + j == (n + 1) + (j - 1);
    }
  }

  /**
   * A created sale records one priced entry per requested item, in request
   * order; its totals are sums over those entries, gross profit is amount
   * minus cost and net profit is gross profit less the 15% estimated tax.
   */
  lemma CreatedSaleTotals(ps: map<Id, Product>, ms: map<Id, Material>, req: SaleRequest, seller: Id, now: Time)
    requires PriceSale(ps, ms, req, now).outcome.Ok?
    requires BuildSale(req, PriceSale(ps, ms, req, now).outcome.value, seller, now).Ok?
    ensures var s := BuildSale(req, PriceSale(ps, ms, req, now).outcome.value, seller, now).value;
      && |s.items| == |req.items|
      && (forall j :: 0 <= j < |req.items| ==> Priced(ps, ms, req.items[j], s.items[j]))
      && (forall j :: 0 <= j < |s.items| ==> s.items[j].product in ps)
      && s.totalAmount == Amount(s.items)
      && s.materialsCost == MaterialsCost(s.items)
      && s.totalCost == ProductCost(ps, s.items) + s.materialsCost
      && s.grossProfit == s.totalAmount - s.totalCost
      && s.netProfit == 0.85 * s.grossProfit
  {
    RunItemsPriced(ps, ms, ps, ms, req.items, IsPaid(req), now, NoTotals);
    var s := BuildSale(req, PriceSale(ps, ms, req, now).outcome.value, seller, now).value;
    forall j | 0 <= j < |req.items|
      ensures Priced(ps, ms, req.items[j], s.items[j])
    {
      assert 0 + j == j;
    }
  }

  /** A sale created as pending (`paymentStatus` "pendente") checks stock but deducts nothing. */
  lemma PendingSaleKeepsStock(ps: map<Id, Product>, ms: map<Id, Material>, req: SaleRequest, now: Time)
    requires !IsPaid(req)
    ensures PriceSale(ps, ms, req, now).products == ps
    ensures PriceSale(ps, ms, req, now).materials == ms
  {
    RunItemsFrame(ps, ms, req.items, false, now, NoTotals);
  }
}
