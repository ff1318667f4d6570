/**
 * The material-purchase handlers: a purchase adds stock to its material,
 * updating it moves stock by the change in quantity, and deleting it takes
 * the quantity back out (never below zero).
 *
 * Each handler is a pure transition on the material and purchase
 * collections (`RecordPurchase`, `AmendPurchase`, `RemovePurchase`) and a
 * method on the store proved to perform it.
 */
module PurchaseController {
  import opened Refs
  import opened Wrappers
  import opened Numeric
  import MaterialModel
  import opened PurchaseModel
  import opened Store
  import opened Text

  type Material = MaterialModel.Material

  datatype PurchaseError = MaterialNotFound | PurchaseNotFound | ServerError

  function HttpStatus(e: PurchaseError): (code: int)
    ensures code == 404 <==> e.MaterialNotFound? || e.PurchaseNotFound?
    ensures code == 500 <==> e.ServerError?
  {
    match e
    case MaterialNotFound => 404
    case PurchaseNotFound => 404
    case ServerError => 500
  }

  /** The two collections a purchase handler writes, and its answer. */
  datatype Step<T> = Step(materials: map<Id, Material>, purchases: map<Id, Purchase>, outcome: Result<T, PurchaseError>)

  /** The material after a purchase arrives: stock rounded to cents, cost per unit set to the price paid. */
  function Receive(m: Material, quantity: real, unitPrice: real, now: Time): (r: Material)
    ensures r.quantityInStock == Round2(m.quantityInStock + quantity) && r.costPerUnit == unitPrice
    ensures r.(quantityInStock := m.quantityInStock, costPerUnit := m.costPerUnit, updatedAt := m.updatedAt) == m
  {
    var stocked := m.(quantityInStock := Round2(m.quantityInStock + quantity));
    var priced := if unitPrice != m.costPerUnit then stocked.(costPerUnit := unitPrice) else stocked;
    MaterialModel.Touch(priced, now)
  }

  /**
   * The material after a purchase's quantity changes from `oldQuantity` to
   * `newQuantity`: stock moves by the difference, rounded, with no clamp;
   * the cost per unit follows the new price only when it differs from the
   * purchase's old price.
   */
  function Adjust(m: Material, oldQuantity: real, oldPrice: real, newQuantity: real, unitPrice: real, now: Time): (r: Material)
    ensures r.quantityInStock == Round2(m.quantityInStock + (newQuantity - oldQuantity))
    ensures r.costPerUnit == (if unitPrice != oldPrice then unitPrice else m.costPerUnit)
    ensures r.(quantityInStock := m.quantityInStock, costPerUnit := m.costPerUnit, updatedAt := m.updatedAt) == m
  {
    var stocked := m.(quantityInStock := Round2(m.quantityInStock + (newQuantity - oldQuantity)));
    var priced := if unitPrice != oldPrice then stocked.(costPerUnit := unitPrice) else stocked;
    MaterialModel.Touch(priced, now)
  }

  /** The material after a purchase is deleted: its quantity is taken out, and a negative result becomes 0. */
  function GiveBack(m: Material, quantity: real, now: Time): (r: Material)
    ensures r.quantityInStock >= 0.0
    ensures quantity <= m.quantityInStock ==> r.quantityInStock == m.quantityInStock - quantity
    ensures quantity > m.quantityInStock ==> r.quantityInStock == 0.0
    ensures MaterialModel.MaterialValid(m) ==> MaterialModel.MaterialValid(r)
    ensures r.(quantityInStock := m.quantityInStock, updatedAt := m.updatedAt) == m
  {
    var left := m.quantityInStock - quantity;
    MaterialModel.Touch(m.(quantityInStock := if left < 0.0 then 0.0 else left), now)
  }

  /**
   * `createMaterialPurchase`: 404 for an unknown material; otherwise the
   * purchase record is created first (500 when its schema rejects it, with
   * nothing written), then the material is received and saved (500 when
   * its schema rejects it, with the purchase kept). `newId` is the id the
   * database gives the new record; an empty supplier falls back to the
   * material's.
   */
  function RecordPurchase(ms: map<Id, Material>, ps: map<Id, Purchase>, newId: Id, material: Id,
                          quantity: real, unitPrice: real, supplier: string, notes: string,
                          buyer: Id, now: Time): (r: Step<Id>)
    ensures material !in ms ==> r == Step(ms, ps, Err(MaterialNotFound))
    ensures r.outcome.Err? ==> r.materials == ms
    ensures r.outcome.Ok? ==>
      && r.outcome.value == newId && material in ms
      && r.materials == ms[material := Receive(ms[material], quantity, unitPrice, now)]
      && newId in r.purchases && r.purchases == ps[newId := r.purchases[newId]]
      && r.purchases[newId].material == material
      && r.purchases[newId].quantity == Round2(quantity)
      && r.purchases[newId].totalCost == Round2(Mul(quantity, unitPrice))
    ensures material in ms ==>
      var p := NewPurchase(material, quantity, unitPrice, Round2(Mul(quantity, unitPrice)),
                           if supplier != "" then supplier else ms[material].supplier, buyer, notes, now);
      var received := Receive(ms[material], quantity, unitPrice, now);
      && (r.outcome.Ok? <==> p.Ok? && MaterialModel.MaterialValid(received))
      && (p.Err? ==> r == Step(ms, ps, Err(ServerError)))
      && (p.Ok? && !MaterialModel.MaterialValid(received) ==> r == Step(ms, ps[newId := p.value], Err(ServerError)))
      && (r.outcome.Ok? ==> r.purchases == ps[newId := p.value])
  {
    if material !in ms then Step(ms, ps, Err(MaterialNotFound))
    else
      var m := ms[material];
      var totalCost := Round2(Mul(quantity, unitPrice));
      var p := NewPurchase(material, quantity, unitPrice, totalCost,
                           if supplier != "" then supplier else m.supplier, buyer, notes, now);
      if p.Err? then Step(ms, ps, Err(ServerError))
      else
        var received := Receive(m, quantity, unitPrice, now);
        Round2Exact(totalCost);
        if !MaterialModel.MaterialValid(received) then Step(ms, ps[newId := p.value], Err(ServerError))
        else Step(ms[material := received], ps[newId := p.value], Ok(newId))
  }

  /**
   * `updateMaterialPurchase`: 404 for an unknown purchase, then 404 when its
   * material is gone; otherwise the material is adjusted and saved (500
   * with nothing written when its schema rejects it), and then the purchase
   * takes the new quantity, price and total, and the supplier and notes
   * when they are given (500 when its schema rejects it, with the material
   * already saved).
   */
  function AmendPurchase(ms: map<Id, Material>, ps: map<Id, Purchase>, id: Id, quantity: real,
                         unitPrice: real, supplier: Option<string>, notes: Option<string>,
                         now: Time): Step<Purchase>
  {
    if id !in ps then Step(ms, ps, Err(PurchaseNotFound))
    else
      var p := ps[id];
      if p.material !in ms then Step(ms, ps, Err(MaterialNotFound))
      else
        var adjusted := Adjust(ms[p.material], p.quantity, p.unitPrice, quantity, unitPrice, now);
        if !MaterialModel.MaterialValid(adjusted) then Step(ms, ps, Err(ServerError))
        else
          var ms' := ms[p.material := adjusted];
          var saved := SavePurchase(p, quantity, unitPrice, Round2(Mul(unitPrice, quantity)), supplier, notes);
          if saved.Err? then Step(ms', ps, Err(ServerError))
          else Step(ms', ps[id := saved.value], Ok(saved.value))
  }

  /**
   * An update answers 404 for an unknown purchase or material and changes
   * nothing then; when it goes through, the material is adjusted by the
   * change and the purchase record replaced by its saved version, which
   * holds the new quantity and price rounded, the total recomputed from
   * them, and the supplier and notes only when they were sent.
   */
  lemma AmendPurchaseMeaning(ms: map<Id, Material>, ps: map<Id, Purchase>, id: Id, quantity: real,
                             unitPrice: real, supplier: Option<string>, notes: Option<string>, now: Time)
    ensures var r := AmendPurchase(ms, ps, id, quantity, unitPrice, supplier, notes, now);
      && (id !in ps ==> r == Step(ms, ps, Err(PurchaseNotFound)))
      && (id in ps && ps[id].material !in ms ==> r == Step(ms, ps, Err(MaterialNotFound)))
      && (r.outcome.Ok? ==>
            && id in ps && ps[id].material in ms
            && r.materials == ms[ps[id].material := Adjust(ms[ps[id].material], ps[id].quantity, ps[id].unitPrice, quantity, unitPrice, now)]
            && r.purchases == ps[id := r.outcome.value]
            && r.outcome.value.material == ps[id].material
            && r.outcome.value.quantity == Round2(quantity)
            && r.outcome.value.unitPrice == Round2(unitPrice)
            && r.outcome.value.totalCost == Round2(Mul(unitPrice, quantity))
            && r.outcome.value.supplier == (if supplier.Some? then Trim(supplier.value) else ps[id].supplier)
            && r.outcome.value.notes == (if notes.Some? then Trim(notes.value) else ps[id].notes)
            && r.outcome.value.purchaseDate == ps[id].purchaseDate)
      && (id in ps && ps[id].material in ms ==>
            var adjusted := Adjust(ms[ps[id].material], ps[id].quantity, ps[id].unitPrice, quantity, unitPrice, now);
            var saved := SavePurchase(ps[id], quantity, unitPrice, Round2(Mul(unitPrice, quantity)), supplier, notes);
            && (r.outcome.Ok? <==> MaterialModel.MaterialValid(adjusted) && saved.Ok?)
            && (!MaterialModel.MaterialValid(adjusted) ==> r == Step(ms, ps, Err(ServerError)))
            && (MaterialModel.MaterialValid(adjusted) && saved.Err? ==>
                  r == Step(ms[ps[id].material := adjusted], ps, Err(ServerError))))
  {
    if id in ps && ps[id].material in ms {
      var p := ps[id];
      var adjusted := Adjust(ms[p.material], p.quantity, p.unitPrice, quantity, unitPrice, now);
      var saved := SavePurchase(p, quantity, unitPrice, Round2(Mul(unitPrice, quantity)), supplier, notes);
      if MaterialModel.MaterialValid(adjusted) && saved.Ok? {
        Round2Exact(Round2(Mul(unitPrice, quantity)));
        assert AmendPurchase(ms, ps, id, quantity, unitPrice, supplier, notes, now)
            == Step(ms[p.material := adjusted], ps[id := saved.value], Ok(saved.value));
      }
    }
  }

  /**
   * `deleteMaterialPurchase`: 404 for an unknown purchase, then 404 when its
   * material is gone; otherwise the quantity is given back and the record
   * removed. The material save cannot fail: the clamp keeps stock at or
   * above zero.
   */
  function RemovePurchase(ms: map<Id, Material>, ps: map<Id, Purchase>, id: Id, now: Time): (r: Step<Purchase>)
    ensures id !in ps ==> r == Step(ms, ps, Err(PurchaseNotFound))
    ensures id in ps && ps[id].material !in ms ==> r == Step(ms, ps, Err(MaterialNotFound))
    ensures id in ps && ps[id].material in ms ==>
      r == Step(ms[ps[id].material := GiveBack(ms[ps[id].material], ps[id].quantity, now)], ps - {id}, Ok(ps[id]))
  {
    if id !in ps then Step(ms, ps, Err(PurchaseNotFound))
    else
      var p := ps[id];
      if p.material !in ms then Step(ms, ps, Err(MaterialNotFound))
      else Step(ms[p.material := GiveBack(ms[p.material], p.quantity, now)], ps - {id}, Ok(p))
  }

  /** Replacing one valid material keeps the collection valid. */
  lemma MaterialsValidPut(ms: map<Id, Material>, id: Id, m: Material)
    requires MaterialsValid(ms) && MaterialModel.MaterialValid(m)
    ensures MaterialsValid(ms[id := m])
  {
  }

  /** Adding or replacing one valid purchase keeps the collection valid. */
  lemma PurchasesValidPut(ps: map<Id, Purchase>, id: Id, p: Purchase)
    requires PurchasesValid(ps) && PurchaseValid(p)
    ensures PurchasesValid(ps[id := p])
  {
  }

  /** Creating a purchase leaves only schema-valid documents behind. */
  lemma RecordKeepsValid(ms: map<Id, Material>, ps: map<Id, Purchase>, newId: Id, material: Id,
                         quantity: real, unitPrice: real, supplier: string, notes: string, buyer: Id, now: Time)
    requires MaterialsValid(ms) && PurchasesValid(ps)
    ensures var r := RecordPurchase(ms, ps, newId, material, quantity, unitPrice, supplier, notes, buyer, now);
            MaterialsValid(r.materials) && PurchasesValid(r.purchases)
  {
    if material in ms {
      var m := ms[material];
      var p := NewPurchase(material, quantity, unitPrice, Round2(Mul(quantity, unitPrice)),
                           if supplier != "" then supplier else m.supplier, buyer, notes, now);
      if p.Ok? {
        PurchasesValidPut(ps, newId, p.value);
        var received := Receive(m, quantity, unitPrice, now);
        if MaterialModel.MaterialValid(received) {
          MaterialsValidPut(ms, material, received);
        }
      }
    }
  }

  /** Updating a purchase leaves only schema-valid documents behind. */
  lemma AmendKeepsValid(ms: map<Id, Material>, ps: map<Id, Purchase>, id: Id, quantity: real, unitPrice: real,
                        supplier: Option<string>, notes: Option<string>, now: Time)
    requires MaterialsValid(ms) && PurchasesValid(ps)
    ensures var r := AmendPurchase(ms, ps, id, quantity, unitPrice, supplier, notes, now);
            MaterialsValid(r.materials) && PurchasesValid(r.purchases)
  {
    var r := AmendPurchase(ms, ps, id, quantity, unitPrice, supplier, notes, now);
    if id in ps && ps[id].material in ms {
      var p := ps[id];
      var adjusted := Adjust(ms[p.material], p.quantity, p.unitPrice, quantity, unitPrice, now);
      var saved := SavePurchase(p, quantity, unitPrice, Round2(Mul(unitPrice, quantity)), supplier, notes);
      if MaterialModel.MaterialValid(adjusted) {
        MaterialsValidPut(ms, p.material, adjusted);
        if saved.Ok? {
          PurchasesValidPut(ps, id, saved.value);
          assert r == Step(ms[p.material := adjusted], ps[id := saved.value], Ok(saved.value));
        } else {
          assert r == Step(ms[p.material := adjusted], ps, Err(ServerError));
        }
      }
    }
  }

  /** Updating a purchase neither adds nor removes a material or a purchase. */
  lemma AmendKeepsKeys(ms: map<Id, Material>, ps: map<Id, Purchase>, id: Id, quantity: real, unitPrice: real,
                       supplier: Option<string>, notes: Option<string>, now: Time)
    ensures var r := AmendPurchase(ms, ps, id, quantity, unitPrice, supplier, notes, now);
            r.materials.Keys == ms.Keys && r.purchases.Keys == ps.Keys
  {
    var r := AmendPurchase(ms, ps, id, quantity, unitPrice, supplier, notes, now);
    if id in ps && ps[id].material in ms {
      var p := ps[id];
      var adjusted := Adjust(ms[p.material], p.quantity, p.unitPrice, quantity, unitPrice, now);
      var saved := SavePurchase(p, quantity, unitPrice, Round2(Mul(unitPrice, quantity)), supplier, notes);
      if MaterialModel.MaterialValid(adjusted) {
        UpdateKeepsKeys(ms, p.material, adjusted);
        if saved.Ok? {
          UpdateKeepsKeys(ps, id, saved.value);
          assert r == Step(ms[p.material := adjusted], ps[id := saved.value], Ok(saved.value));
        } else {
          assert r == Step(ms[p.material := adjusted], ps, Err(ServerError));
        }
      }
    }
  }

  /** Overwriting an existing key neither adds nor removes a key. */
  lemma UpdateKeepsKeys<V>(m: map<Id, V>, k: Id, v: V)
    requires k in m
    ensures m[k := v].Keys == m.Keys
  {
  }

  /** Deleting a purchase leaves only schema-valid documents behind. */
  lemma RemoveKeepsValid(ms: map<Id, Material>, ps: map<Id, Purchase>, id: Id, now: Time)
    requires MaterialsValid(ms) && PurchasesValid(ps)
    ensures var r := RemovePurchase(ms, ps, id, now);
            MaterialsValid(r.materials) && PurchasesValid(r.purchases)
  {
    if id in ps && ps[id].material in ms {
      var p := ps[id];
      MaterialsValidPut(ms, p.material, GiveBack(ms[p.material], p.quantity, now));
    }
  }

  /**
   * Creating a purchase and then deleting it returns the material's stock
   * to its earlier value and the purchase collection to its earlier
   * contents, when the stock and the quantity are whole cents.
   */
  lemma CreateThenDeleteRestoresStock(ms: map<Id, Material>, ps: map<Id, Purchase>, newId: Id, material: Id,
                                      quantity: real, unitPrice: real, supplier: string, notes: string,
                                      buyer: Id, now: Time, later: Time)
    requires newId !in ps && material in ms
    requires ms[material].quantityInStock >= 0.0
    requires TwoDecimals(ms[material].quantityInStock) && TwoDecimals(quantity)
    ensures var created := RecordPurchase(ms, ps, newId, material, quantity, unitPrice, supplier, notes, buyer, now);
            created.outcome.Ok? ==>
              var deleted := RemovePurchase(created.materials, created.purchases, newId, later);
              && deleted.outcome.Ok?
              && deleted.purchases == ps
              && deleted.materials.Keys == ms.Keys
              && deleted.materials[material].quantityInStock == ms[material].quantityInStock
              && deleted.materials[material].costPerUnit == unitPrice
              && (forall other :: other in ms && other != material ==> deleted.materials[other] == ms[other])
  {
    var created := RecordPurchase(ms, ps, newId, material, quantity, unitPrice, supplier, notes, buyer, now);
    if created.outcome.Ok? {
      assert created.materials == ms[material := Receive(ms[material], quantity, unitPrice, now)];
      ReceiveThenGiveBack(ms, ps, newId, material, created.purchases[newId], quantity, unitPrice, now, later);
    }
  }

  /** The store-level half of the round trip: a received purchase given back again. */
  lemma ReceiveThenGiveBack(ms: map<Id, Material>, ps: map<Id, Purchase>, newId: Id, material: Id, p: Purchase,
                            quantity: real, unitPrice: real, now: Time, later: Time)
    requires newId !in ps && material in ms && p.material == material && p.quantity == Round2(quantity)
    requires ms[material].quantityInStock >= 0.0
    requires TwoDecimals(ms[material].quantityInStock) && TwoDecimals(quantity)
    ensures var deleted := RemovePurchase(ms[material := Receive(ms[material], quantity, unitPrice, now)],
                                          ps[newId := p], newId, later);
            && deleted.outcome.Ok?
            && deleted.purchases == ps
            && deleted.materials.Keys == ms.Keys
            && deleted.materials[material].quantityInStock == ms[material].quantityInStock
            && deleted.materials[material].costPerUnit == unitPrice
            && (forall other :: other in ms && other != material ==> deleted.materials[other] == ms[other])
  {
    var s := ms[material].quantityInStock;
    TwoDecimalsClosed(s, quantity);
    Round2Exact(s + quantity);
    Round2Exact(quantity);
    assert Receive(ms[material], quantity, unitPrice, now).quantityInStock == s + quantity;
    assert ps[newId := p] - {newId} == ps;
  }

  /** An update that keeps the quantity leaves a whole-cent stock where it was. */
  lemma SameQuantityKeepsStock(ms: map<Id, Material>, ps: map<Id, Purchase>, id: Id, unitPrice: real,
                               supplier: Option<string>, notes: Option<string>, now: Time)
    requires id in ps && ps[id].material in ms && TwoDecimals(ms[ps[id].material].quantityInStock)
    ensures var r := AmendPurchase(ms, ps, id, ps[id].quantity, unitPrice, supplier, notes, now);
            r.materials.Keys == ms.Keys
            && r.materials[ps[id].material].quantityInStock == ms[ps[id].material].quantityInStock
  {
    Round2Exact(ms[ps[id].material].quantityInStock);
  }

  /**
   * An update with a quantity below one cent is refused by the purchase
   * schema after the material was already saved: the stock has moved while
   * the purchase still records its old quantity.
   */
  lemma UpdateBelowMinimumMovesStockOnly(ms: map<Id, Material>, ps: map<Id, Purchase>, id: Id,
                                          unitPrice: real, now: Time)
    requires id in ps && ps[id].material in ms && PurchasesValid(ps)
    requires ms[ps[id].material].quantityInStock == 5.0 && ps[id].quantity == 2.0
    requires ms[ps[id].material].costPerUnit >= 0.0 && ms[ps[id].material].minimumStock >= 0.0
    requires ms[ps[id].material].name != ""
    requires unitPrice == ps[id].unitPrice
    ensures var r := AmendPurchase(ms, ps, id, 0.0, unitPrice, None, None, now);
            && r.outcome == Err(ServerError)
            && r.purchases == ps
            && r.materials[ps[id].material].quantityInStock == 3.0
  {
    var r := AmendPurchase(ms, ps, id, 0.0, unitPrice, None, None, now);
    assert Round2(5.0 + (0.0 - 2.0)) == 3.0 by { Round2Exact(3.0) by { IntTwoDecimals(3); } }
    assert Round2(0.0) == 0.0 by { IntTwoDecimals(0); Round2Exact(0.0); }
  }

  /** A purchase of 10 units at 2.50 costs 25.00, adds 10 to stock and sets the cost per unit to 2.50. */
  lemma PurchaseExample(m: Material, ps: map<Id, Purchase>, now: Time)
    requires MaterialModel.MaterialValid(m) && m.quantityInStock == 4.0 && 0 !in ps
    ensures var r := RecordPurchase(map[7 := m], ps, 0, 7, 10.0, 2.5, "", "", 1, now);
            && r.outcome == Ok(0)
            && r.purchases[0].totalCost == 25.0 && r.purchases[0].unitPrice == 2.5
            && r.materials[7].quantityInStock == 14.0 && r.materials[7].costPerUnit == 2.5
  {
    assert Mul(10.0, 2.5) == 25.0;
    assert Round2(25.0) == 25.0 by { IntTwoDecimals(25); Round2Exact(25.0); }
    assert Round2(10.0) == 10.0 by { IntTwoDecimals(10); Round2Exact(10.0); }
    assert Round2(4.0 + 10.0) == 14.0 by { IntTwoDecimals(14); Round2Exact(14.0); }
    assert Round2(2.5) == 2.5 by {
      assert TwoDecimals(2.5) by { assert Floor(100.0 * 2.5) == 250; }
      Round2Exact(2.5);
    }
    var p := NewPurchase(7, 10.0, 2.5, 25.0, m.supplier, 1, "", now);
    assert p.Ok? && p.value.totalCost == 25.0 && p.value.unitPrice == 2.5;
    var received := Receive(m, 10.0, 2.5, now);
    assert MaterialModel.MaterialValid(received);
  }

  /** `createMaterialPurchase` on the store. */
  method CreatePurchase(db: Db, material: Id, quantity: real, unitPrice: real, supplier: string,
                        notes: string, buyer: Id, now: Time) returns (r: Result<Id, PurchaseError>)
    requires db.Valid()
    modifies db`materials, db`purchases, db`nextId
    ensures db.Valid()
    ensures Step(db.materials, db.purchases, r)
            == RecordPurchase(old(db.materials), old(db.purchases), old(db.nextId), material,
                              quantity, unitPrice, supplier, notes, buyer, now)
  {
    RecordKeepsValid(db.materials, db.purchases, db.nextId, material, quantity, unitPrice, supplier, notes, buyer, now);
    if material !in db.materials {
      return Err(MaterialNotFound);
    }
    var m := db.materials[material];
    var totalCost := Round2(Mul(quantity, unitPrice));
    var created := NewPurchase(material, quantity, unitPrice, totalCost,
                               if supplier != "" then supplier else m.supplier, buyer, notes, now);
    if created.Err? {
      return Err(ServerError);
    }
    var id := db.NewId();
    db.purchases := db.purchases[id := created.value];
    var saved := ReceiveStock(db, material, quantity, unitPrice, now);
    if !saved {
      return Err(ServerError);
    }
    r := Ok(id);
  }

  /** The material side of `createMaterialPurchase`: stock added, rounded, the new price taken, and the save. */
  method ReceiveStock(db: Db, material: Id, quantity: real, unitPrice: real, now: Time) returns (saved: bool)
    requires material in db.materials
    modifies db`materials
    ensures var received := Receive(old(db.materials[material]), quantity, unitPrice, now);
            && saved == MaterialModel.MaterialValid(received)
            && db.materials == if saved then old(db.materials)[material := received] else old(db.materials)
  {
    var m := db.materials[material];
    var received := m.(quantityInStock := Round2(m.quantityInStock + quantity));
    if unitPrice != m.costPerUnit {
      received := received.(costPerUnit := unitPrice);
    }
    received := MaterialModel.Touch(received, now);
    if !MaterialModel.MaterialValid(received) {
      return false;
    }
    db.materials := db.materials[material := received];
    saved := true;
  }

  /** `updateMaterialPurchase` on the store. */
  method UpdatePurchase(db: Db, id: Id, quantity: real, unitPrice: real, supplier: Option<string>,
                        notes: Option<string>, now: Time) returns (r: Result<Purchase, PurchaseError>)
    requires db.Valid()
    modifies db`materials, db`purchases
    ensures db.Valid()
    ensures Step(db.materials, db.purchases, r)
            == AmendPurchase(old(db.materials), old(db.purchases), id, quantity, unitPrice, supplier, notes, now)
  {
    AmendKeepsValid(db.materials, db.purchases, id, quantity, unitPrice, supplier, notes, now);
    AmendKeepsKeys(db.materials, db.purchases, id, quantity, unitPrice, supplier, notes, now);
    if id !in db.purchases {
      return Err(PurchaseNotFound);
    }
    if db.purchases[id].material !in db.materials {
      return Err(MaterialNotFound);
    }
    r := AmendFound(db, id, quantity, unitPrice, supplier, notes, now);
  }

  /** `updateMaterialPurchase` once the purchase and its material were found: the two saves. */
  method AmendFound(db: Db, id: Id, quantity: real, unitPrice: real, supplier: Option<string>,
                    notes: Option<string>, now: Time) returns (r: Result<Purchase, PurchaseError>)
    requires id in db.purchases && db.purchases[id].material in db.materials
    modifies db`materials, db`purchases
    ensures Step(db.materials, db.purchases, r)
            == AmendPurchase(old(db.materials), old(db.purchases), id, quantity, unitPrice, supplier, notes, now)
  {
    var p := db.purchases[id];
    ghost var ms' := db.materials[p.material := Adjust(db.materials[p.material], p.quantity, p.unitPrice, quantity, unitPrice, now)];
    var saved := SaveAdjustment(db, p.material, p.quantity, p.unitPrice, quantity, unitPrice, now);
    if !saved {
      return Err(ServerError);
    }
    assert db.materials == ms';
    r := SaveAmendment(db, id, quantity, unitPrice, supplier, notes);
  }

  /**
   * The first half of `updateMaterialPurchase`: the material's stock moves
   * by the change in quantity, its cost follows a changed price, and the
   * save succeeds only when the schema accepts the result.
   */
  method SaveAdjustment(db: Db, material: Id, oldQuantity: real, oldPrice: real, quantity: real,
                        unitPrice: real, now: Time) returns (saved: bool)
    requires material in db.materials
    modifies db`materials
    ensures var adjusted := Adjust(old(db.materials[material]), oldQuantity, oldPrice, quantity, unitPrice, now);
            && saved == MaterialModel.MaterialValid(adjusted)
            && db.materials == if saved then old(db.materials)[material := adjusted] else old(db.materials)
  {
    var m := db.materials[material];
    var adjusted := m.(quantityInStock := Round2(m.quantityInStock + (quantity - oldQuantity)));
    if unitPrice != oldPrice {
      adjusted := adjusted.(costPerUnit := unitPrice);
    }
    adjusted := MaterialModel.Touch(adjusted, now);
    assert adjusted == Adjust(m, oldQuantity, oldPrice, quantity, unitPrice, now);
    if !MaterialModel.MaterialValid(adjusted) {
      return false;
    }
    db.materials := db.materials[material := adjusted];
    saved := true;
  }

  /** The second half of `updateMaterialPurchase`: the purchase record takes the new values and is saved. */
  method SaveAmendment(db: Db, id: Id, quantity: real, unitPrice: real, supplier: Option<string>,
                       notes: Option<string>) returns (r: Result<Purchase, PurchaseError>)
    requires id in db.purchases
    modifies db`purchases
    ensures var saved := SavePurchase(old(db.purchases[id]), quantity, unitPrice, Round2(Mul(unitPrice, quantity)), supplier, notes);
            if saved.Err? then r == Err(ServerError) && db.purchases == old(db.purchases)
            else r == Ok(saved.value) && db.purchases == old(db.purchases)[id := saved.value]
  {
    var saved := SavePurchase(db.purchases[id], quantity, unitPrice, Round2(Mul(unitPrice, quantity)), supplier, notes);
    if saved.Err? {
      return Err(ServerError);
    }
    db.purchases := db.purchases[id := saved.value];
    r := Ok(saved.value);
  }

  /** `deleteMaterialPurchase` on the store. */
  method DeletePurchase(db: Db, id: Id, now: Time) returns (r: Result<Purchase, PurchaseError>)
    requires db.Valid()
    modifies db`materials, db`purchases
    ensures db.Valid()
    ensures Step(db.materials, db.purchases, r) == RemovePurchase(old(db.materials), old(db.purchases), id, now)
  {
    RemoveKeepsValid(db.materials, db.purchases, id, now);
    if id !in db.purchases {
      return Err(PurchaseNotFound);
    }
    var p := db.purchases[id];
    if p.material !in db.materials {
      return Err(MaterialNotFound);
    }
    var m := db.materials[p.material];
    var left := m.quantityInStock - p.quantity;
    var returned := m.(quantityInStock := left);
    if returned.quantityInStock < 0.0 {
      returned := returned.(quantityInStock := 0.0);
    }
    db.materials := db.materials[p.material := MaterialModel.Touch(returned, now)];
    db.purchases := db.purchases - {id};
    r := Ok(p);
  }
}
