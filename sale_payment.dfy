/**
 * The paid/pending transition of a stored sale (`updatePaymentStatus`):
 * marking a pending sale paid deducts what its items recorded, marking a
 * paid sale pending gives it back, and the sale's payment fields are set.
 */
module SalePayment {
  import opened Refs
  import opened Wrappers
  import opened ProductModel
  import opened MaterialModel
  import opened SaleModel
  import opened Store
  import opened SalePricing

  /** The stores after a restocking pass, and whether every save went through. */
  datatype Restock = Restock(products: map<Id, Product>, materials: map<Id, Material>, ok: bool)

  /**
   * The `materialsUsed` loop of one item (saleController.js:242-250 and
   * 264-272): a missing material is skipped; a save the schema refuses
   * (negative stock) throws and ends the request.
   */
  function ApplyUses(ms: map<Id, Material>, uses: seq<MaterialUse>, restore: bool, now: Time): (map<Id, Material>, bool)
    decreases |uses|
  {
    if uses == [] then (ms, true)
    else
      var u := uses[0];
      if u.material !in ms then ApplyUses(ms, uses[1..], restore, now)
      else
        var m := ms[u.material];
        var m' := MaterialModel.Touch(m.(quantityInStock := m.quantityInStock + (if restore then u.quantity else -u.quantity)), now);
        if !MaterialValid(m') then (ms, false)
        else ApplyUses(ms[u.material := m'], uses[1..], restore, now)
  }

  /**
   * One item's product (saleController.js:235-239 and 257-261): skipped when
   * it no longer exists, otherwise its stock moves by the item's quantity and
   * the save fails if the schema refuses the new stock.
   */
  function ProductStep(ps: map<Id, Product>, it: SaleItem, restore: bool, now: Time): (r: (map<Id, Product>, bool))
    ensures SameProductsButStock(ps, r.0)
    ensures !r.1 ==> r.0 == ps
    ensures ProductsValid(ps) ==> ProductsValid(r.0)
    ensures it.product !in ps ==> r == (ps, true)
    ensures it.product in ps && ProductValid(ps[it.product]) ==>
      (r.1 <==> ps[it.product].stock + (if restore then it.quantity else -it.quantity) >= 0)
    ensures r.1 ==> forall id :: id in ps ==>
      r.0[id].stock == ps[id].stock + (if id == it.product then (if restore then it.quantity else -it.quantity) else 0)
  {
    if it.product !in ps then (ps, true)
    else
      var p := ps[it.product];
      var p' := ProductModel.Touch(p.(stock := p.stock + (if restore then it.quantity else -it.quantity)), now);
      if ProductValid(p') then (ps[it.product := p'], true) else (ps, false)
  }

  /**
   * The loop over a sale's items (saleController.js:234-251 when deducting,
   * 256-273 when restoring): each item's product, if it still exists, then
   * its materials.
   */
  function ApplyItems(ps: map<Id, Product>, ms: map<Id, Material>, items: seq<SaleItem>, restore: bool, now: Time): Restock
    decreases |items|
  {
    if items == [] then Restock(ps, ms, true)
    else
      var (ps', okp) := ProductStep(ps, items[0], restore, now);
      if !okp then Restock(ps, ms, false)
      else
        var (ms', ok) := ApplyUses(ms, items[0].materialsUsed, restore, now);
        if !ok then Restock(ps', ms', false)
        else ApplyItems(ps', ms', items[1..], restore, now)
  }

  /** The units of product `id` a sale's items recorded. */
  function SoldUnits(items: seq<SaleItem>, id: Id): int
    decreases |items|
  {
    if items == [] then 0
    else (if items[0].product == id then items[0].quantity else 0) + SoldUnits(items[1..], id)
  }

  /** The quantity of material `id` a list of entries recorded. */
  function UsesQuantity(uses: seq<MaterialUse>, id: Id): real
    decreases |uses|
  {
    if uses == [] then 0.0
    else (if uses[0].material == id then uses[0].quantity else 0.0) + UsesQuantity(uses[1..], id)
  }

  /** The quantity of material `id` a sale's items recorded. */
  function UsedQuantity(items: seq<SaleItem>, id: Id): real
    decreases |items|
  {
    if items == [] then 0.0
    else UsesQuantity(items[0].materialsUsed, id) + UsedQuantity(items[1..], id)
  }

  /**
   * The payment fields a save would store: the status, the method when one
   * is given, and `paidAt` set exactly when the status is "pago". An absent
   * status (`None`) removes the field. `None` when the schema's enums refuse
   * the strings.
   */
  function SetPayment(sale: Sale, status: Option<string>, paymentMethod: string, now: Time): (r: Option<Sale>)
    ensures r.Some? <==> (status.None? || ParsePaymentStatus(status.value).Some?)
                         && (paymentMethod == "" || ParsePaymentMethod(paymentMethod).Some?)
    ensures r.Some? ==> (r.value.paymentStatus == Pago <==> status == Some("pago"))
    ensures r.Some? ==> (r.value.paymentStatus == NoStatus <==> status.None?)
    ensures r.Some? ==> (r.value.paidAt == Some(now) <==> status == Some("pago")) && (status != Some("pago") ==> r.value.paidAt.None?)
    ensures r.Some? && paymentMethod == "" ==> r.value.paymentMethod == sale.paymentMethod
    ensures r.Some? ==> r.value.(paymentStatus := sale.paymentStatus, paymentMethod := sale.paymentMethod, paidAt := sale.paidAt) == sale
    ensures r.Some? ==> (SaleValid(r.value) <==> SaleValid(sale))
  {
    var st := if status.None? then Some(NoStatus) else ParsePaymentStatus(status.value);
    var pm := if paymentMethod == "" then Some(sale.paymentMethod) else ParsePaymentMethod(paymentMethod);
    if st.None? || pm.None? then None
    else Some(sale.(paymentStatus := st.value, paymentMethod := pm.value,
                    paidAt := if status == Some("pago") then Some(now) else None))
  }

  /** Which stock pass a requested status triggers: `Some(false)` deducts, `Some(true)` restores. */
  function Transition(current: PaymentStatus, status: Option<string>): (r: Option<bool>)
    ensures r == Some(false) <==> current == Pendente && status == Some("pago")
    ensures r == Some(true) <==> current == Pago && status == Some("pendente")
  {
    if status == Some("pago") && current == Pendente then Some(false)
    else if status == Some("pendente") && current == Pago then Some(true)
    else None
  }

  /** The stores after `PUT /api/sales/:id/payment`, and its answer. */
  datatype PaymentResult = PaymentResult(products: map<Id, Product>, materials: map<Id, Material>,
                                         sales: map<Id, Sale>, outcome: Result<Sale, SaleError>)

  /** `updatePaymentStatus` (saleController.js:220-306). */
  function UpdatePayment(ps: map<Id, Product>, ms: map<Id, Material>, ss: map<Id, Sale>, id: Id,
                         status: Option<string>, paymentMethod: string, now: Time): PaymentResult
  {
    if id !in ss then PaymentResult(ps, ms, ss, Err(SaleNotFound))
    else
      var sale := ss[id];
      var move := Transition(ReadStatus(sale.paymentStatus), status);
      var rs := if move.Some? then ApplyItems(ps, ms, sale.items, move.value, now) else Restock(ps, ms, true);
      if !rs.ok then PaymentResult(rs.products, rs.materials, ss, Err(ServerError))
      else
        var updated := SetPayment(sale, status, paymentMethod, now);
        if updated.None? then PaymentResult(rs.products, rs.materials, ss, Err(ServerError))
        else PaymentResult(rs.products, rs.materials, ss[id := updated.value], Ok(Loaded(updated.value)))
  }

  // ---------------------------------------------------------------------
  // Laws of the restocking passes.

  /** Entries a pass over materials changes only stock quantities and keeps every material valid. */
  lemma {:induction false} ApplyUsesFrame(ms: map<Id, Material>, uses: seq<MaterialUse>, restore: bool, now: Time)
    ensures SameMaterialsButStock(ms, ApplyUses(ms, uses, restore, now).0)
    ensures MaterialsValid(ms) ==> MaterialsValid(ApplyUses(ms, uses, restore, now).0)
    decreases |uses|
  {
    if uses != [] {
      var u := uses[0];
      if u.material !in ms {
        ApplyUsesFrame(ms, uses[1..], restore, now);
      } else {
        var m := ms[u.material];
        var m' := MaterialModel.Touch(m.(quantityInStock := m.quantityInStock + (if restore then u.quantity else -u.quantity)), now);
        if MaterialValid(m') {
          ApplyUsesFrame(ms[u.material := m'], uses[1..], restore, now);
        }
      }
    }
  }

  /** A pass over a sale's items changes only stock counters and keeps every document valid. */
  lemma {:induction false} ApplyItemsFrame(ps: map<Id, Product>, ms: map<Id, Material>, items: seq<SaleItem>,
                                           restore: bool, now: Time)
    ensures SameProductsButStock(ps, ApplyItems(ps, ms, items, restore, now).products)
    ensures SameMaterialsButStock(ms, ApplyItems(ps, ms, items, restore, now).materials)
    ensures ProductsValid(ps) ==> ProductsValid(ApplyItems(ps, ms, items, restore, now).products)
    ensures MaterialsValid(ms) ==> MaterialsValid(ApplyItems(ps, ms, items, restore, now).materials)
    decreases |items|
  {
    if items != [] {
      var (ps', okp) := ProductStep(ps, items[0], restore, now);
      if okp {
        ApplyUsesFrame(ms, items[0].materialsUsed, restore, now);
        var (ms', ok) := ApplyUses(ms, items[0].materialsUsed, restore, now);
        if ok {
          ApplyItemsFrame(ps', ms', items[1..], restore, now);
        }
      }
    }
  }

  /** A pass over materials that goes through moves each material by exactly what its entries recorded. */
  lemma {:induction false} ApplyUsesExact(ms: map<Id, Material>, uses: seq<MaterialUse>, restore: bool, now: Time)
    requires ApplyUses(ms, uses, restore, now).1
    ensures ApplyUses(ms, uses, restore, now).0.Keys == ms.Keys
    ensures forall id :: id in ms ==>
      ApplyUses(ms, uses, restore, now).0[id].quantityInStock
        == ms[id].quantityInStock + (if restore then UsesQuantity(uses, id) else -UsesQuantity(uses, id))
    decreases |uses|
  {
    ApplyUsesFrame(ms, uses, restore, now);
    if uses != [] {
      var u := uses[0];
      if u.material !in ms {
        ApplyUsesExact(ms, uses[1..], restore, now);
      } else {
        var m := ms[u.material];
        var m' := MaterialModel.Touch(m.(quantityInStock := m.quantityInStock + (if restore then u.quantity else -u.quantity)), now);
        ApplyUsesExact(ms[u.material := m'], uses[1..], restore, now);
      }
    }
  }

  /**
   * A pass over a sale's items that goes through moves each product by the
   * units its items recorded and each material by the quantities recorded.
   */
  lemma ApplyItemsExact(ps: map<Id, Product>, ms: map<Id, Material>, items: seq<SaleItem>,
                                           restore: bool, now: Time)
    requires ApplyItems(ps, ms, items, restore, now).ok
    ensures ApplyItems(ps, ms, items, restore, now).products.Keys == ps.Keys
    ensures ApplyItems(ps, ms, items, restore, now).materials.Keys == ms.Keys
    ensures forall id :: id in ps ==>
      ApplyItems(ps, ms, items, restore, now).products[id].stock
        == ps[id].stock + (if restore then SoldUnits(items, id) else -SoldUnits(items, id))
    ensures forall id :: id in ms ==>
      ApplyItems(ps, ms, items, restore, now).materials[id].quantityInStock
        == ms[id].quantityInStock + (if restore then UsedQuantity(items, id) else -UsedQuantity(items, id))
  {
    ApplyItemsFrame(ps, ms, items, restore, now);
    ApplyItemsSold(ps, ms, items, restore, now);
    ApplyItemsUsed(ps, ms, items, restore, now);
  }

  lemma {:induction false} ApplyItemsSold(ps: map<Id, Product>, ms: map<Id, Material>, items: seq<SaleItem>,
                                          restore: bool, now: Time)
    requires ApplyItems(ps, ms, items, restore, now).ok
    ensures ApplyItems(ps, ms, items, restore, now).products.Keys == ps.Keys
    ensures forall id :: id in ps ==>
      ApplyItems(ps, ms, items, restore, now).products[id].stock
        == ps[id].stock + (if restore then SoldUnits(items, id) else -SoldUnits(items, id))
    decreases |items|
  {
    ApplyItemsFrame(ps, ms, items, restore, now);
    if items != [] {
      var (ps', okp) := ProductStep(ps, items[0], restore, now);
      var (ms', ok) := ApplyUses(ms, items[0].materialsUsed, restore, now);
      ApplyItemsSold(ps', ms', items[1..], restore, now);
    }
  }

  lemma {:induction false} ApplyItemsUsed(ps: map<Id, Product>, ms: map<Id, Material>, items: seq<SaleItem>,
                                          restore: bool, now: Time)
    requires ApplyItems(ps, ms, items, restore, now).ok
    ensures ApplyItems(ps, ms, items, restore, now).materials.Keys == ms.Keys
    ensures forall id :: id in ms ==>
      ApplyItems(ps, ms, items, restore, now).materials[id].quantityInStock
        == ms[id].quantityInStock + (if restore then UsedQuantity(items, id) else -UsedQuantity(items, id))
    decreases |items|
  {
    ApplyItemsFrame(ps, ms, items, restore, now);
    if items != [] {
      var (ps', okp) := ProductStep(ps, items[0], restore, now);
      ApplyUsesExact(ms, items[0].materialsUsed, restore, now);
      var (ms', ok) := ApplyUses(ms, items[0].materialsUsed, restore, now);
      ApplyItemsUsed(ps', ms', items[1..], restore, now);
    }
  }

  /** Every recorded material entry has a non-negative quantity. */
  predicate UsesNonNegative(items: seq<SaleItem>)
  {
    forall i, k :: 0 <= i < |items| && 0 <= k < |items[i].materialsUsed| ==> items[i].materialsUsed[k].quantity >= 0.0
  }

  /** Giving stock back never makes a save fail when the recorded entries are non-negative. */
  lemma {:induction false} ApplyUsesRestoreOk(ms: map<Id, Material>, uses: seq<MaterialUse>, now: Time)
    requires MaterialsValid(ms)
    requires forall k :: 0 <= k < |uses| ==> uses[k].quantity >= 0.0
    ensures ApplyUses(ms, uses, true, now).1
    decreases |uses|
  {
    if uses != [] {
      var u := uses[0];
      assert forall k :: 0 <= k < |uses[1..]| ==> uses[1..][k] == uses[k + 1];
      if u.material !in ms {
        ApplyUsesRestoreOk(ms, uses[1..], now);
      } else {
        var m := ms[u.material];
        var m' := MaterialModel.Touch(m.(quantityInStock := m.quantityInStock + u.quantity), now);
        ApplyUsesRestoreOk(ms[u.material := m'], uses[1..], now);
      }
    }
  }

  /** Marking a valid sale pending again never fails on a stock save. */
  lemma {:induction false} ApplyItemsRestoreOk(ps: map<Id, Product>, ms: map<Id, Material>, items: seq<SaleItem>, now: Time)
    requires ProductsValid(ps) && MaterialsValid(ms)
    requires forall i :: 0 <= i < |items| ==> items[i].quantity >= 1
    requires UsesNonNegative(items)
    ensures ApplyItems(ps, ms, items, true, now).ok
    decreases |items|
  {
    if items != [] {
      var (ps', okp) := ProductStep(ps, items[0], true, now);
      ApplyUsesRestoreOk(ms, items[0].materialsUsed, now);
      ApplyUsesFrame(ms, items[0].materialsUsed, true, now);
      var (ms', ok) := ApplyUses(ms, items[0].materialsUsed, true, now);
      assert forall i :: 0 <= i < |items[1..]| ==> items[1..][i] == items[i + 1];
      ApplyItemsRestoreOk(ps', ms', items[1..], now);
    }
  }

  // ---------------------------------------------------------------------
  // Laws of the transition.

  /**
   * The transition keeps every document valid, changes products and
   * materials only in their stock, and touches no sale but the one named.
   */
  lemma PaymentKeepsValid(ps: map<Id, Product>, ms: map<Id, Material>, ss: map<Id, Sale>, id: Id,
                          status: Option<string>, paymentMethod: string, now: Time)
    requires ProductsValid(ps) && MaterialsValid(ms) && SalesValid(ss)
    ensures var r := UpdatePayment(ps, ms, ss, id, status, paymentMethod, now);
      && ProductsValid(r.products) && MaterialsValid(r.materials) && SalesValid(r.sales)
      && SameProductsButStock(ps, r.products) && SameMaterialsButStock(ms, r.materials)
      && r.sales.Keys == ss.Keys
      && forall other :: other in ss && other != id ==> r.sales[other] == ss[other]
  {
    PaymentKeepsStock(ps, ms, ss, id, status, paymentMethod, now);
    PaymentKeepsSales(ps, ms, ss, id, status, paymentMethod, now);
  }

  lemma PaymentKeepsStock(ps: map<Id, Product>, ms: map<Id, Material>, ss: map<Id, Sale>, id: Id,
                            status: Option<string>, paymentMethod: string, now: Time)
    requires ProductsValid(ps) && MaterialsValid(ms)
    ensures var r := UpdatePayment(ps, ms, ss, id, status, paymentMethod, now);
      && ProductsValid(r.products) && MaterialsValid(r.materials)
      && SameProductsButStock(ps, r.products) && SameMaterialsButStock(ms, r.materials)
  {
    var r := UpdatePayment(ps, ms, ss, id, status, paymentMethod, now);
    if id !in ss {
      assert r.products == ps && r.materials == ms;
    } else {
      var move := Transition(ReadStatus(ss[id].paymentStatus), status);
      PaymentStores(ps, ms, ss, id, status, paymentMethod, now);
      if move.Some? {
        ApplyItemsFrame(ps, ms, ss[id].items, move.value, now);
      } else {
        assert r.products == ps && r.materials == ms;
      }
    }
  }

  lemma PaymentKeepsSales(ps: map<Id, Product>, ms: map<Id, Material>, ss: map<Id, Sale>, id: Id,
                            status: Option<string>, paymentMethod: string, now: Time)
    requires SalesValid(ss)
    ensures var r := UpdatePayment(ps, ms, ss, id, status, paymentMethod, now);
      && SalesValid(r.sales) && r.sales.Keys == ss.Keys
      && forall other :: other in ss && other != id ==> r.sales[other] == ss[other]
  {
    var r := UpdatePayment(ps, ms, ss, id, status, paymentMethod, now);
    if id in ss {
      PaymentStores(ps, ms, ss, id, status, paymentMethod, now);
      if r.outcome.Ok? {
        SalesPut(ss, id, SetPayment(ss[id], status, paymentMethod, now).value);
      } else {
        assert r.sales == ss;
      }
    } else {
      assert r.sales == ss;
    }
  }

  /** Replacing a stored sale by a valid one keeps the others and keeps the collection valid. */
  lemma SalesPut(ss: map<Id, Sale>, id: Id, s: Sale)
    requires SalesValid(ss) && id in ss && SaleValid(s)
    ensures SalesValid(ss[id := s]) && ss[id := s].Keys == ss.Keys
    ensures forall other :: other in ss && other != id ==> ss[id := s][other] == ss[other]
  {
    assert ss[id := s].Keys == ss.Keys;
  }

  /**
   * Asking for the status a sale already has, or for none, moves no stock:
   * a paid sale marked paid again is not deducted twice.
   */
  lemma SameStatusMovesNoStock(ps: map<Id, Product>, ms: map<Id, Material>, ss: map<Id, Sale>, id: Id,
                               status: Option<string>, paymentMethod: string, now: Time)
    requires id in ss && (status.None? || ParsePaymentStatus(status.value) == Some(ReadStatus(ss[id].paymentStatus)))
    ensures UpdatePayment(ps, ms, ss, id, status, paymentMethod, now).products == ps
    ensures UpdatePayment(ps, ms, ss, id, status, paymentMethod, now).materials == ms
  {
  }

  /**
   * A body without `paymentStatus` moves no stock and, when the method is
   * acceptable, goes through: the sale is saved with its status removed
   * and no `paidAt`, and the answer, read back from the store, shows it
   * as "pago".
   */
  lemma AbsentStatusUnsets(ps: map<Id, Product>, ms: map<Id, Material>, ss: map<Id, Sale>, id: Id,
                           paymentMethod: string, now: Time)
    requires id in ss && (paymentMethod == "" || ParsePaymentMethod(paymentMethod).Some?)
    ensures var r := UpdatePayment(ps, ms, ss, id, None, paymentMethod, now);
      && r.products == ps && r.materials == ms
      && r.outcome.Ok? && r.outcome.value.paymentStatus == Pago && r.outcome.value.paidAt.None?
      && r.outcome.value.items == ss[id].items
      && r.sales == ss[id := r.outcome.value.(paymentStatus := NoStatus)]
      && Loaded(r.sales[id]) == r.outcome.value
  {
  }

  /**
   * Marking a pending sale paid, when it goes through, lowers each product by
   * the units the sale recorded and each material by the quantities recorded,
   * and stamps `paidAt`.
   */
  lemma MarkPaidDeducts(ps: map<Id, Product>, ms: map<Id, Material>, ss: map<Id, Sale>, id: Id,
                        paymentMethod: string, now: Time)
    requires id in ss && ss[id].paymentStatus == Pendente
    requires UpdatePayment(ps, ms, ss, id, Some("pago"), paymentMethod, now).outcome.Ok?
    ensures var r := UpdatePayment(ps, ms, ss, id, Some("pago"), paymentMethod, now);
      && r.products.Keys == ps.Keys && r.materials.Keys == ms.Keys
      && (forall p :: p in ps ==> r.products[p].stock == ps[p].stock - SoldUnits(ss[id].items, p))
      && (forall m :: m in ms ==> r.materials[m].quantityInStock == ms[m].quantityInStock - UsedQuantity(ss[id].items, m))
      && r.sales[id].paymentStatus == Pago && r.sales[id].paidAt == Some(now)
  {
    ApplyItemsExact(ps, ms, ss[id].items, false, now);
  }

  /** Deducting a sale's items and then giving them back restores every stock. */
  lemma ApplyRoundTrip(ps: map<Id, Product>, ms: map<Id, Material>, items: seq<SaleItem>, now1: Time, now2: Time)
    requires ProductsValid(ps) && MaterialsValid(ms)
    requires forall i :: 0 <= i < |items| ==> items[i].quantity >= 1
    requires UsesNonNegative(items)
    requires ApplyItems(ps, ms, items, false, now1).ok
    ensures var a := ApplyItems(ps, ms, items, false, now1);
      var b := ApplyItems(a.products, a.materials, items, true, now2);
      b.ok && ProductStocks(b.products) == ProductStocks(ps) && MaterialStocks(b.materials) == MaterialStocks(ms)
  {
    var a := ApplyItems(ps, ms, items, false, now1);
    ApplyItemsFrame(ps, ms, items, false, now1);
    ApplyItemsRestoreOk(a.products, a.materials, items, now2);
    RoundTripProducts(ps, ms, items, now1, now2);
    RoundTripMaterials(ps, ms, items, now1, now2);
  }

  lemma RoundTripProducts(ps: map<Id, Product>, ms: map<Id, Material>, items: seq<SaleItem>, now1: Time, now2: Time)
    requires ApplyItems(ps, ms, items, false, now1).ok
    requires var a := ApplyItems(ps, ms, items, false, now1); ApplyItems(a.products, a.materials, items, true, now2).ok
    ensures var a := ApplyItems(ps, ms, items, false, now1);
      ProductStocks(ApplyItems(a.products, a.materials, items, true, now2).products) == ProductStocks(ps)
  {
    var a := ApplyItems(ps, ms, items, false, now1);
    var b := ApplyItems(a.products, a.materials, items, true, now2);
    ApplyItemsFrame(ps, ms, items, false, now1);
    ApplyItemsFrame(a.products, a.materials, items, true, now2);
    ApplyItemsSold(ps, ms, items, false, now1);
    ApplyItemsSold(a.products, a.materials, items, true, now2);
    assert forall id :: id in ps ==> b.products[id].stock == ps[id].stock;
    ProductStocksEqual(b.products, ps);
  }

  lemma ProductStocksEqual(p1: map<Id, Product>, p2: map<Id, Product>)
    requires p1.Keys == p2.Keys && forall id :: id in p1 ==> p1[id].stock == p2[id].stock
    ensures ProductStocks(p1) == ProductStocks(p2)
  {
  }

  lemma RoundTripMaterials(ps: map<Id, Product>, ms: map<Id, Material>, items: seq<SaleItem>, now1: Time, now2: Time)
    requires ApplyItems(ps, ms, items, false, now1).ok
    requires var a := ApplyItems(ps, ms, items, false, now1); ApplyItems(a.products, a.materials, items, true, now2).ok
    ensures var a := ApplyItems(ps, ms, items, false, now1);
      MaterialStocks(ApplyItems(a.products, a.materials, items, true, now2).materials) == MaterialStocks(ms)
  {
    var a := ApplyItems(ps, ms, items, false, now1);
    var b := ApplyItems(a.products, a.materials, items, true, now2);
    ApplyItemsFrame(ps, ms, items, false, now1);
    ApplyItemsFrame(a.products, a.materials, items, true, now2);
    ApplyItemsUsed(ps, ms, items, false, now1);
    ApplyItemsUsed(a.products, a.materials, items, true, now2);
    assert forall id :: id in ms ==> b.materials[id].quantityInStock == ms[id].quantityInStock;
    MaterialStocksEqual(b.materials, ms);
  }

  lemma MaterialStocksEqual(m1: map<Id, Material>, m2: map<Id, Material>)
    requires m1.Keys == m2.Keys && forall id :: id in m1 ==> m1[id].quantityInStock == m2[id].quantityInStock
    ensures MaterialStocks(m1) == MaterialStocks(m2)
  {
  }

  /**
   * Marking a pending sale paid and then pending again gives every product
   * and material its stock back, whether or not the second save of the sale
   * itself goes through.
   */
  lemma PaidThenPendingRestoresStock(ps: map<Id, Product>, ms: map<Id, Material>, ss: map<Id, Sale>, id: Id,
                                     method1: string, method2: string, now1: Time, now2: Time)
    requires ProductsValid(ps) && MaterialsValid(ms) && SalesValid(ss)
    requires id in ss && ss[id].paymentStatus == Pendente && UsesNonNegative(ss[id].items)
    requires UpdatePayment(ps, ms, ss, id, Some("pago"), method1, now1).outcome.Ok?
    ensures var r1 := UpdatePayment(ps, ms, ss, id, Some("pago"), method1, now1);
      var r2 := UpdatePayment(r1.products, r1.materials, r1.sales, id, Some("pendente"), method2, now2);
      ProductStocks(r2.products) == ProductStocks(ps) && MaterialStocks(r2.materials) == MaterialStocks(ms)
  {
    var sale := ss[id];
    PaymentStores(ps, ms, ss, id, Some("pago"), method1, now1);
    var r1 := UpdatePayment(ps, ms, ss, id, Some("pago"), method1, now1);
    var a := ApplyItems(ps, ms, sale.items, false, now1);
    var paid := SetPayment(sale, Some("pago"), method1, now1).value;
    assert paid.items == sale.items && paid.paymentStatus == Pago;
    assert r1.sales[id] == paid;
    ApplyRoundTrip(ps, ms, sale.items, now1, now2);
    PaymentStores(r1.products, r1.materials, r1.sales, id, Some("pendente"), method2, now2);
  }

  /** Where a transition leaves the stores: the stock pass it triggers, and on success the sale replaced. */
  lemma PaymentStores(ps: map<Id, Product>, ms: map<Id, Material>, ss: map<Id, Sale>, id: Id,
                      status: Option<string>, paymentMethod: string, now: Time)
    requires id in ss
    ensures var r := UpdatePayment(ps, ms, ss, id, status, paymentMethod, now);
      var move := Transition(ReadStatus(ss[id].paymentStatus), status);
      && (move.Some? ==> && r.products == ApplyItems(ps, ms, ss[id].items, move.value, now).products
                         && r.materials == ApplyItems(ps, ms, ss[id].items, move.value, now).materials)
      && (move.None? ==> r.products == ps && r.materials == ms)
      && (r.outcome.Ok? <==> (move.None? || ApplyItems(ps, ms, ss[id].items, move.value, now).ok)
                             && SetPayment(ss[id], status, paymentMethod, now).Some?)
      && (r.outcome.Ok? ==> && SetPayment(ss[id], status, paymentMethod, now).Some?
                            && r.sales == ss[id := SetPayment(ss[id], status, paymentMethod, now).value]
                            && r.outcome.value == Loaded(r.sales[id]))
  {
  }

  /**
   * A paid sale whose status is removed still reads as "pago", so asking
   * for "pendente" afterwards gives its stock back: every product rises by
   * the units the sale recorded and every material by the quantities
   * recorded, although no stock was deducted in between.
   */
  lemma UnsetThenPendingRestoresStock(ps: map<Id, Product>, ms: map<Id, Material>, ss: map<Id, Sale>, id: Id,
                                      method1: string, method2: string, now1: Time, now2: Time)
    requires ProductsValid(ps) && MaterialsValid(ms) && SalesValid(ss)
    requires id in ss && ss[id].paymentStatus == Pago && UsesNonNegative(ss[id].items)
    requires method1 == "" || ParsePaymentMethod(method1).Some?
    ensures var r1 := UpdatePayment(ps, ms, ss, id, None, method1, now1);
      var r2 := UpdatePayment(r1.products, r1.materials, r1.sales, id, Some("pendente"), method2, now2);
      && r1.products == ps && r1.materials == ms && r1.sales[id].paymentStatus == NoStatus
      && r2.products.Keys == ps.Keys && r2.materials.Keys == ms.Keys
      && (forall p :: p in ps ==> r2.products[p].stock == ps[p].stock + SoldUnits(ss[id].items, p))
      && (forall m :: m in ms ==> r2.materials[m].quantityInStock == ms[m].quantityInStock + UsedQuantity(ss[id].items, m))
  {
    var items := ss[id].items;
    AbsentStatusUnsets(ps, ms, ss, id, method1, now1);
    var r1 := UpdatePayment(ps, ms, ss, id, None, method1, now1);
    assert r1.sales[id].items == items && ReadStatus(r1.sales[id].paymentStatus) == Pago;
    PaymentStores(r1.products, r1.materials, r1.sales, id, Some("pendente"), method2, now2);
    assert SaleValid(ss[id]);
    ApplyItemsRestoreOk(ps, ms, items, now2);
    ApplyItemsExact(ps, ms, items, true, now2);
  }

  /**
   * `createSale` stores the per-unit quantity of a material entry as the
   * request gives it, and a negative one passes its stock check. A sale
   * whose single item recorded -10 and then +10 of a material at stock 0 is
   * deducted without trouble (0, then 10, then 0), but giving it back
   * drives the stock to -10 on the first entry, and that save fails.
   */
  lemma NegativeUseBreaksRoundTrip(ps: map<Id, Product>, ms: map<Id, Material>, product: Id, mat: Id,
                                   now1: Time, now2: Time)
    requires MaterialsValid(ms) && mat in ms && ms[mat].quantityInStock == 0.0 && product !in ps
    ensures var items := [SaleItem(product, 1, 0.0, 0.0, [MaterialUse(mat, -10.0, 0.0), MaterialUse(mat, 10.0, 0.0)])];
      var a := ApplyItems(ps, ms, items, false, now1);
      && a.ok && mat in a.materials && a.materials[mat].quantityInStock == 0.0
      && !ApplyItems(a.products, a.materials, items, true, now2).ok
  {
    var uses := [MaterialUse(mat, -10.0, 0.0), MaterialUse(mat, 10.0, 0.0)];
    var m := ms[mat];
    var up := MaterialModel.Touch(m.(quantityInStock := 10.0), now1);
    var down := MaterialModel.Touch(up.(quantityInStock := 0.0), now1);
    var second := [MaterialUse(mat, 10.0, 0.0)];
    assert uses[1..] == second && second[1..] == [];
    assert MaterialValid(up) && MaterialValid(down);
    assert ApplyUses(ms, uses, false, now1) == ApplyUses(ms[mat := up], second, false, now1);
    assert ApplyUses(ms[mat := up], second, false, now1) == ApplyUses(ms[mat := up][mat := down], [], false, now1);
    var ms1 := ms[mat := up][mat := down];
    var below := MaterialModel.Touch(down.(quantityInStock := -10.0), now2);
    assert !MaterialValid(below);
    assert ApplyUses(ms1, uses, true, now2) == (ms1, false);
  }

  /** Every product and material has at least what the sale's items recorded of it. */
  predicate StockCovers(ps: map<Id, Product>, ms: map<Id, Material>, items: seq<SaleItem>)
  {
    && (forall id :: id in ps ==> ps[id].stock >= SoldUnits(items, id))
    && (forall id :: id in ms ==> ms[id].quantityInStock >= UsedQuantity(items, id))
  }

  lemma {:induction false} UsesQuantityNonNegative(uses: seq<MaterialUse>, id: Id)
    requires forall k :: 0 <= k < |uses| ==> uses[k].quantity >= 0.0
    ensures UsesQuantity(uses, id) >= 0.0
    decreases |uses|
  {
    if uses != [] {
      assert forall k :: 0 <= k < |uses[1..]| ==> uses[1..][k] == uses[k + 1];
      UsesQuantityNonNegative(uses[1..], id);
    }
  }

  lemma {:induction false} UsedQuantityNonNegative(items: seq<SaleItem>, id: Id)
    requires UsesNonNegative(items)
    ensures UsedQuantity(items, id) >= 0.0
    decreases |items|
  {
    if items != [] {
      assert forall k :: 0 <= k < |items[0].materialsUsed| ==> items[0].materialsUsed[k].quantity >= 0.0 by {
        forall k | 0 <= k < |items[0].materialsUsed| ensures items[0].materialsUsed[k].quantity >= 0.0 {
          assert 0 < |items|;
        }
      }
      UsesQuantityNonNegative(items[0].materialsUsed, id);
      assert UsesNonNegative(items[1..]) by {
        forall i, k | 0 <= i < |items[1..]| && 0 <= k < |items[1..][i].materialsUsed|
          ensures items[1..][i].materialsUsed[k].quantity >= 0.0
        {
          assert items[1..][i] == items[i + 1];
        }
      }
      UsedQuantityNonNegative(items[1..], id);
    }
  }

  lemma {:induction false} SoldUnitsNonNegative(items: seq<SaleItem>, id: Id)
    requires forall i :: 0 <= i < |items| ==> items[i].quantity >= 1
    ensures SoldUnits(items, id) >= 0
    decreases |items|
  {
    if items != [] {
      assert forall i :: 0 <= i < |items[1..]| ==> items[1..][i] == items[i + 1];
      SoldUnitsNonNegative(items[1..], id);
    }
  }

  /** Deducting a list of non-negative entries goes through when every material holds what they ask of it. */
  lemma {:induction false} ApplyUsesDeductOk(ms: map<Id, Material>, uses: seq<MaterialUse>, now: Time)
    requires MaterialsValid(ms)
    requires forall k :: 0 <= k < |uses| ==> uses[k].quantity >= 0.0
    requires forall id :: id in ms ==> ms[id].quantityInStock >= UsesQuantity(uses, id)
    ensures ApplyUses(ms, uses, false, now).1
    decreases |uses|
  {
    if uses != [] {
      var u := uses[0];
      assert forall k :: 0 <= k < |uses[1..]| ==> uses[1..][k] == uses[k + 1];
      forall id | id in ms ensures UsesQuantity(uses[1..], id) >= 0.0 {
        UsesQuantityNonNegative(uses[1..], id);
      }
      if u.material !in ms {
        ApplyUsesDeductOk(ms, uses[1..], now);
      } else {
        var m := ms[u.material];
        var m' := MaterialModel.Touch(m.(quantityInStock := m.quantityInStock - u.quantity), now);
        assert MaterialValid(m');
        var ms' := ms[u.material := m'];
        forall id | id in ms' ensures ms'[id].quantityInStock >= UsesQuantity(uses[1..], id) {
          assert UsesQuantity(uses, id) == (if u.material == id then u.quantity else 0.0) + UsesQuantity(uses[1..], id);
        }
        ApplyUsesDeductOk(ms', uses[1..], now);
      }
    }
  }

  /** Deducting a sale's items goes through when the stock covers everything they recorded. */
  lemma {:induction false} ApplyItemsDeductOk(ps: map<Id, Product>, ms: map<Id, Material>, items: seq<SaleItem>, now: Time)
    requires ProductsValid(ps) && MaterialsValid(ms)
    requires forall i :: 0 <= i < |items| ==> items[i].quantity >= 1
    requires UsesNonNegative(items) && StockCovers(ps, ms, items)
    ensures ApplyItems(ps, ms, items, false, now).ok
    decreases |items|
  {
    if items != [] {
      var it := items[0];
      var rest := items[1..];
      assert forall i :: 0 <= i < |rest| ==> rest[i] == items[i + 1];
      assert UsesNonNegative(rest) by {
        forall i, k | 0 <= i < |rest| && 0 <= k < |rest[i].materialsUsed| ensures rest[i].materialsUsed[k].quantity >= 0.0 {
          assert rest[i] == items[i + 1];
        }
      }
      var (ps', okp) := ProductStep(ps, it, false, now);
      forall id | id in ps ensures ps[id].stock - (if id == it.product then it.quantity else 0) >= SoldUnits(rest, id) {
        assert SoldUnits(items, id) == (if it.product == id then it.quantity else 0) + SoldUnits(rest, id);
      }
      if it.product in ps {
        SoldUnitsNonNegative(rest, it.product);
      }
      assert okp;
      assert forall k :: 0 <= k < |it.materialsUsed| ==> it.materialsUsed[k].quantity >= 0.0;
      forall id | id in ms ensures ms[id].quantityInStock - UsesQuantity(it.materialsUsed, id) >= UsedQuantity(rest, id) {
        assert UsedQuantity(items, id) == UsesQuantity(it.materialsUsed, id) + UsedQuantity(rest, id);
      }
      forall id | id in ms ensures ms[id].quantityInStock >= UsesQuantity(it.materialsUsed, id) {
        UsedQuantityNonNegative(rest, id);
      }
      ApplyUsesDeductOk(ms, it.materialsUsed, now);
      ApplyUsesExact(ms, it.materialsUsed, false, now);
      ApplyUsesFrame(ms, it.materialsUsed, false, now);
      var (ms', ok) := ApplyUses(ms, it.materialsUsed, false, now);
      assert StockCovers(ps', ms', rest);
      ApplyItemsDeductOk(ps', ms', rest, now);
    }
  }

  /**
   * Marking a pending sale paid goes through when the method is accepted and
   * every product and material holds what the sale recorded of it.
   */
  lemma MarkPaidSucceeds(ps: map<Id, Product>, ms: map<Id, Material>, ss: map<Id, Sale>, id: Id,
                         paymentMethod: string, now: Time)
    requires ProductsValid(ps) && MaterialsValid(ms) && SalesValid(ss)
    requires id in ss && ss[id].paymentStatus == Pendente
    requires paymentMethod == "" || ParsePaymentMethod(paymentMethod).Some?
    requires UsesNonNegative(ss[id].items) && StockCovers(ps, ms, ss[id].items)
    ensures UpdatePayment(ps, ms, ss, id, Some("pago"), paymentMethod, now).outcome.Ok?
  {
    assert SaleValid(ss[id]);
    ApplyItemsDeductOk(ps, ms, ss[id].items, now);
    PaymentStores(ps, ms, ss, id, Some("pago"), paymentMethod, now);
  }
}
