/**
 * The document store the controllers read and write: one map per
 * collection, each document kept valid by its schema, and an id counter
 * standing for the database's id generator.
 */
module Store {
  import opened Refs
  import opened ProductModel
  import opened MaterialModel
  import opened SaleModel
  import opened PurchaseModel
  import opened ConsumptionModel

  predicate ProductsValid(ps: map<Id, Product>)
  {
    forall id :: id in ps ==> ProductValid(ps[id])
  }

  predicate MaterialsValid(ms: map<Id, Material>)
  {
    forall id :: id in ms ==> MaterialValid(ms[id])
  }

  predicate SalesValid(ss: map<Id, Sale>)
  {
    forall id :: id in ss ==> SaleValid(ss[id])
  }

  predicate PurchasesValid(ps: map<Id, Purchase>)
  {
    forall id :: id in ps ==> PurchaseValid(ps[id])
  }

  predicate ConsumptionsValid(cs: map<Id, Consumption>)
  {
    forall id :: id in cs ==> ConsumptionValid(cs[id])
  }

  /** The stock counter of every product. */
  function ProductStocks(ps: map<Id, Product>): (r: map<Id, int>)
    ensures r.Keys == ps.Keys
    ensures forall id :: id in ps ==> r[id] == ps[id].stock
  {
    map id | id in ps :: ps[id].stock
  }

  /** The stock counter of every material. */
  function MaterialStocks(ms: map<Id, Material>): (r: map<Id, real>)
    ensures r.Keys == ms.Keys
    ensures forall id :: id in ms ==> r[id] == ms[id].quantityInStock
  {
    map id | id in ms :: ms[id].quantityInStock
  }

  class Db {
    var products: map<Id, Product>
    var materials: map<Id, Material>
    var sales: map<Id, Sale>
    var purchases: map<Id, Purchase>
    var consumptions: map<Id, Consumption>
    /** The next id the database hands out. */
    var nextId: Id

    /** Every stored document passed its schema, and every id was handed out. */
    ghost predicate Valid()
      reads this
    {
      && ProductsValid(products) && MaterialsValid(materials) && SalesValid(sales)
      && PurchasesValid(purchases) && ConsumptionsValid(consumptions)
      && (forall id :: id in products ==> id < nextId)
      && (forall id :: id in materials ==> id < nextId)
      && (forall id :: id in sales ==> id < nextId)
      && (forall id :: id in purchases ==> id < nextId)
      && (forall id :: id in consumptions ==> id < nextId)
    }

    constructor ()
      ensures Valid()
      ensures products == map[] && materials == map[] && sales == map[]
      ensures purchases == map[] && consumptions == map[]
    {
      products, materials, sales := map[], map[], map[];
      purchases, consumptions := map[], map[];
      nextId := 0;
    }

    /** A fresh document id, distinct from every id in use. */
    method NewId() returns (id: Id)
      requires Valid()
      modifies this`nextId
      ensures Valid() && id == old(nextId) && nextId == id + 1
      ensures id !in products && id !in materials && id !in sales
      ensures id !in purchases && id !in consumptions
    {
      id := nextId;
      nextId := nextId + 1;
    }
  }
}
