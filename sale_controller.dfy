/**
 * The sale handlers (controllers/saleController.js) over the document store:
 * creating a sale, which checks and (when paid) deducts stock item by item,
 * and the paid/pending transition.
 */
module SaleController {
  import opened Refs
  import opened Wrappers
  import opened Numeric
  import opened ProductModel
  import opened MaterialModel
  import opened SaleModel
  import opened Store
  import opened SalePricing
  import opened SalePayment

  /**
   * The `materialsUsed` loop of one line item (saleController.js:124-164):
   * each entry is looked up, checked, priced and, for a paid sale, deducted
   * and saved before the next entry is read.
   */
  method ProcessMaterials(db: Db, uses: seq<MaterialUseRequest>, qty: int, paid: bool, now: Time)
    returns (outcome: Result<MatAcc, SaleError>)
    modifies db`materials
    ensures MatRun(db.materials, outcome) == RunMaterials(old(db.materials), uses, qty, paid, now, MatAcc(0.0, []))
  {
    var itemMaterialsCost := 0.0;
    var materialsUsed: seq<MaterialUse> := [];
    ghost var goal := RunMaterials(db.materials, uses, qty, paid, now, MatAcc(0.0, []));
    var j := 0;
    while j < |uses|
      invariant 0 <= j <= |uses|
      invariant RunMaterials(db.materials, uses[j..], qty, paid, now, MatAcc(itemMaterialsCost, materialsUsed)) == goal
    {
      RunMaterialsAt(db.materials, uses, j, qty, paid, now, MatAcc(itemMaterialsCost, materialsUsed));
      var step := TakeMaterial(db, uses[j], qty, paid, now, MatAcc(itemMaterialsCost, materialsUsed));
      if step.Err? {
        return step;
      }
      itemMaterialsCost, materialsUsed := step.value.cost, step.value.used;
      j := j + 1;
    }
    return Ok(MatAcc(itemMaterialsCost, materialsUsed));
  }

  /**
   * One pass of that loop: the entry's material is looked up and checked,
   * the quantity needed and its cost are added to the totals, and for a paid
   * sale the material is saved with that quantity taken out.
   */
  method TakeMaterial(db: Db, matItem: MaterialUseRequest, qty: int, paid: bool, now: Time, acc: MatAcc)
    returns (outcome: Result<MatAcc, SaleError>)
    modifies db`materials
    ensures MatRun(db.materials, outcome) == UseStep(old(db.materials), matItem, qty, paid, now, acc)
  {
    if matItem.material !in db.materials {
      return Err(MaterialNotFound(matItem.material));
    }
    var material := db.materials[matItem.material];
    var quantityNeeded := Mul(matItem.quantity, qty as real);
    if material.quantityInStock < quantityNeeded {
      return Err(InsufficientMaterialStock(matItem.material));
    }
    var materialCost := Mul(material.costPerUnit, quantityNeeded);
    if paid {
      db.materials := db.materials[matItem.material :=
        MaterialModel.Touch(material.(quantityInStock := material.quantityInStock - quantityNeeded), now)];
    }
    outcome := Ok(MatAcc(acc.cost + materialCost, acc.used + [MaterialUse(matItem.material, quantityNeeded, materialCost)]));
  }

  /**
   * The loop over the line items (saleController.js:98-175): totals are
   * accumulated, and each item's stock is checked against what the items
   * before it left.
   */
  method ProcessItems(db: Db, items: seq<ItemRequest>, paid: bool, now: Time) returns (outcome: Result<Acc, SaleError>)
    modifies db`products, db`materials
    ensures db.products == RunItems(old(db.products), old(db.materials), items, paid, now, NoTotals).products
    ensures db.materials == RunItems(old(db.products), old(db.materials), items, paid, now, NoTotals).materials
    ensures outcome == RunItems(old(db.products), old(db.materials), items, paid, now, NoTotals).outcome
  {
    var totalAmount, totalCost, totalMaterialsCost := 0.0, 0.0, 0.0;
    var saleItems: seq<SaleItem> := [];
    ghost var goal := RunItems(db.products, db.materials, items, paid, now, NoTotals);
    var i := 0;
    while i < |items|
      invariant 0 <= i <= |items|
      invariant RunItems(db.products, db.materials, items[i..], paid, now,
                         Acc(totalAmount, totalCost, totalMaterialsCost, saleItems)) == goal
    {
      var item := items[i];
      ghost var acc := Acc(totalAmount, totalCost, totalMaterialsCost, saleItems);
      ghost var st := ItemStep(db.products, db.materials, item, paid, now, acc);
      assert RunItems(db.products, db.materials, items[i..], paid, now, acc)
          == if st.outcome.Err? then st else RunItems(st.products, st.materials, items[i + 1..], paid, now, st.outcome.value) by {
        assert items[i..][0] == item && items[i..][1..] == items[i + 1..];
      }
      if item.product !in db.products {
        return Err(ProductNotFound(item.product));
      }
      var product := db.products[item.product];
      if product.stock < item.quantity {
        return Err(InsufficientProductStock(item.product));
      }
      var unitPrice := UnitPrice(item.unitPrice, product.price);
      var subtotal := Mul(unitPrice, item.quantity as real);
      var itemCost := Mul(product.costPrice, item.quantity as real);
      var materials := ProcessMaterials(db, item.materialsUsed, item.quantity, paid, now);
      if materials.Err? {
        return Err(materials.error);
      }
      var itemMaterialsCost := materials.value.cost;
      totalMaterialsCost := totalMaterialsCost + itemMaterialsCost;
      totalAmount := totalAmount + subtotal;
      totalCost := totalCost + (itemCost + itemMaterialsCost);
      saleItems := saleItems + [SaleItem(item.product, item.quantity, unitPrice, subtotal, materials.value.used)];
      if paid {
        db.products := db.products[item.product := ProductModel.Touch(product.(stock := product.stock - item.quantity), now)];
      }
      assert st == Run(db.products, db.materials, Ok(Acc(totalAmount, totalCost, totalMaterialsCost, saleItems)));
      i := i + 1;
    }
    return Ok(Acc(totalAmount, totalCost, totalMaterialsCost, saleItems));
  }

  /**
   * `POST /api/sales`. The stores end exactly where the pass `PriceSale`
   * ends: on a failing item the deductions of the items before it stay, and
   * so do all deductions when `Sale.create` then refuses the sale.
   */
  method CreateSale(db: Db, req: SaleRequest, seller: Id, now: Time) returns (r: Result<Id, SaleError>)
    requires db.Valid()
    modifies db`products, db`materials, db`sales, db`nextId
    ensures db.Valid()
    ensures db.products == PriceSale(old(db.products), old(db.materials), req, now).products
    ensures db.materials == PriceSale(old(db.products), old(db.materials), req, now).materials
    ensures var run := PriceSale(old(db.products), old(db.materials), req, now);
      run.outcome.Err? ==> r == Err(run.outcome.error) && db.sales == old(db.sales)
    ensures var run := PriceSale(old(db.products), old(db.materials), req, now);
      run.outcome.Ok? && BuildSale(req, run.outcome.value, seller, now).Err? ==>
        r == Err(ServerError) && db.sales == old(db.sales)
    ensures var run := PriceSale(old(db.products), old(db.materials), req, now);
      run.outcome.Ok? && BuildSale(req, run.outcome.value, seller, now).Ok? ==>
        r.Ok? && r.value !in old(db.sales)
        && db.sales == old(db.sales)[r.value := BuildSale(req, run.outcome.value, seller, now).value]
  {
    var finalPaymentStatus := ResolvePaymentStatus(req.paymentStatus, req.paymentMethod);
    var paid := finalPaymentStatus == "pago";
    RunItemsFrame(db.products, db.materials, req.items, paid, now, NoTotals);
    var totals := ProcessItems(db, req.items, paid, now);
    if totals.Err? {
      return Err(totals.error);
    }
    var created := BuildSale(req, totals.value, seller, now);
    if created.Err? {
      return Err(ServerError);
    }
    var id := db.NewId();
    db.sales := db.sales[id := created.value];
    return Ok(id);
  }

  /** The `materialsUsed` loop of one item when stock moves (saleController.js:243-249, 265-271). */
  method RestockUses(db: Db, uses: seq<MaterialUse>, restore: bool, now: Time) returns (ok: bool)
    modifies db`materials
    ensures (db.materials, ok) == ApplyUses(old(db.materials), uses, restore, now)
  {
    ghost var goal := ApplyUses(db.materials, uses, restore, now);
    var k := 0;
    while k < |uses|
      invariant 0 <= k <= |uses|
      invariant ApplyUses(db.materials, uses[k..], restore, now) == goal
    {
      var matItem := uses[k];
      assert uses[k..][0] == matItem && uses[k..][1..] == uses[k + 1..];
      if matItem.material in db.materials {
        var material := db.materials[matItem.material];
        var delta := if restore then matItem.quantity else -matItem.quantity;
        var saved := MaterialModel.Touch(material.(quantityInStock := material.quantityInStock + delta), now);
        if !MaterialValid(saved) {
          return false;
        }
        db.materials := db.materials[matItem.material := saved];
      }
      k := k + 1;
    }
    return true;
  }

  /** The product half of one item of that loop. */
  method RestockProduct(db: Db, item: SaleItem, restore: bool, now: Time) returns (ok: bool)
    modifies db`products
    ensures (db.products, ok) == ProductStep(old(db.products), item, restore, now)
  {
    if item.product in db.products {
      var product := db.products[item.product];
      var delta := if restore then item.quantity else -item.quantity;
      var saved := ProductModel.Touch(product.(stock := product.stock + delta), now);
      if !ProductValid(saved) {
        return false;
      }
      db.products := db.products[item.product := saved];
    }
    return true;
  }

  /** The loop over a sale's items when stock moves (saleController.js:234-251, 256-273). */
  method RestockItems(db: Db, items: seq<SaleItem>, restore: bool, now: Time) returns (ok: bool)
    modifies db`products, db`materials
    ensures Restock(db.products, db.materials, ok) == ApplyItems(old(db.products), old(db.materials), items, restore, now)
  {
    ghost var goal := ApplyItems(db.products, db.materials, items, restore, now);
    var i := 0;
    while i < |items|
      invariant 0 <= i <= |items|
      invariant ApplyItems(db.products, db.materials, items[i..], restore, now) == goal
    {
      var item := items[i];
      assert items[i..][0] == item && items[i..][1..] == items[i + 1..];
      ghost var ps, ms := db.products, db.materials;
      var productOk := RestockProduct(db, item, restore, now);
      if !productOk {
        assert goal == Restock(ps, ms, false);
        return false;
      }
      var materialsOk := RestockUses(db, item.materialsUsed, restore, now);
      if !materialsOk {
        assert goal == Restock(db.products, db.materials, false);
        return false;
      }
      assert goal == ApplyItems(db.products, db.materials, items[i + 1..], restore, now);
      i := i + 1;
    }
    return true;
  }

  /**
   * `PUT /api/sales/:id/payment`. The stores end where `UpdatePayment` says;
   * by `PaymentKeepsValid` every document stays valid.
   */
  method UpdatePaymentStatus(db: Db, id: Id, status: Option<string>, paymentMethod: string, now: Time)
    returns (r: Result<Sale, SaleError>)
    requires db.Valid()
    modifies db`products, db`materials, db`sales
    ensures db.Valid()
    ensures PaymentResult(db.products, db.materials, db.sales, r)
         == UpdatePayment(old(db.products), old(db.materials), old(db.sales), id, status, paymentMethod, now)
  {
    PaymentKeepsValid(db.products, db.materials, db.sales, id, status, paymentMethod, now);
    if id !in db.sales {
      return Err(SaleNotFound);
    }
    var sale := db.sales[id];
    var current := ReadStatus(sale.paymentStatus);
    if status == Some("pago") && current == Pendente {
      var ok := RestockItems(db, sale.items, false, now);
      if !ok {
        return Err(ServerError);
      }
    }
    if status == Some("pendente") && current == Pago {
      var ok := RestockItems(db, sale.items, true, now);
      if !ok {
        return Err(ServerError);
      }
    }
    var updated := SetPayment(sale, status, paymentMethod, now);
    if updated.None? {
      return Err(ServerError);
    }
    db.sales := db.sales[id := updated.value];
    return Ok(Loaded(updated.value));
  }
}
