/** The MaterialPurchase schema: a ledger entry that adds stock to a material. */
module PurchaseModel {
  import opened Refs
  import opened Wrappers
  import opened Numeric
  import opened Text

  datatype Purchase = Purchase(
    material: Id,
    quantity: real,
    unitPrice: real,
    totalCost: real,
    supplier: string,
    purchaseDate: Time,
    purchasedBy: Id,
    notes: string)

  /** Stored values: rounded to cents by the setters, and above the minimums. */
  predicate PurchaseValid(p: Purchase)
  {
    && p.quantity >= 0.01 && p.unitPrice >= 0.0 && p.totalCost >= 0.0
    && TwoDecimals(p.quantity) && TwoDecimals(p.unitPrice) && TwoDecimals(p.totalCost)
  }

  /** `MaterialPurchase.create`: the three `Round2` setters, then the minimums. */
  function NewPurchase(material: Id, quantity: real, unitPrice: real, totalCost: real,
                       supplier: string, purchasedBy: Id, notes: string, now: Time): (r: Result<Purchase, string>)
    ensures r.Ok? <==> Round2(quantity) >= 0.01 && Round2(unitPrice) >= 0.0 && Round2(totalCost) >= 0.0
    ensures r.Ok? ==> PurchaseValid(r.value) && r.value.purchaseDate == now
                      && r.value.quantity == Round2(quantity) && r.value.unitPrice == Round2(unitPrice)
                      && r.value.totalCost == Round2(totalCost) && r.value.material == material
  {
    var p := Purchase(material, Round2(quantity), Round2(unitPrice), Round2(totalCost),
                      Trim(supplier), now, purchasedBy, Trim(notes));
    if PurchaseValid(p) then Ok(p) else Err("ValidationError")
  }

  /**
   * `purchase.save()` after fields were assigned: the setters round each
   * assigned number, then the minimums are checked.
   */
  function SavePurchase(p: Purchase, quantity: real, unitPrice: real, totalCost: real,
                        supplier: Option<string>, notes: Option<string>): (r: Result<Purchase, string>)
    ensures r.Ok? <==> Round2(quantity) >= 0.01 && Round2(unitPrice) >= 0.0 && Round2(totalCost) >= 0.0
    ensures r.Ok? ==> PurchaseValid(r.value) && r.value.material == p.material
                      && r.value.quantity == Round2(quantity) && r.value.unitPrice == Round2(unitPrice)
                      && r.value.totalCost == Round2(totalCost)
                      && r.value.purchaseDate == p.purchaseDate && r.value.purchasedBy == p.purchasedBy
                      && r.value.supplier == (if supplier.Some? then Trim(supplier.value) else p.supplier)
                      && r.value.notes == (if notes.Some? then Trim(notes.value) else p.notes)
  {
    var q := p.(quantity := Round2(quantity), unitPrice := Round2(unitPrice), totalCost := Round2(totalCost),
                supplier := if supplier.Some? then Trim(supplier.value) else p.supplier,
                notes := if notes.Some? then Trim(notes.value) else p.notes);
    if PurchaseValid(q) then Ok(q) else Err("ValidationError")
  }
}
