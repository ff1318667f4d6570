/** The Product schema: a sellable item with price, cost and stock. */
module ProductModel {
  import opened Refs
  import opened Wrappers
  import opened Text

  datatype Product = Product(
    name: string,
    description: string,
    price: real,
    costPrice: real,
    stock: int,
    category: string,
    createdAt: Time,
    updatedAt: Time)

  /** The schema validators: a non-empty name and non-negative price, cost and stock. */
  predicate ProductValid(p: Product)
  {
    p.name != "" && p.price >= 0.0 && p.costPrice >= 0.0 && p.stock >= 0
  }

  /**
   * Creating a document: the `trim` setters run, `stock` takes its default 0,
   * both timestamps are `now`, then the validators decide.
   */
  function NewProduct(name: string, description: string, price: real, costPrice: real,
                      stock: Option<int>, category: string, now: Time): (r: Result<Product, string>)
    ensures r.Ok? <==> Trim(name) != "" && price >= 0.0 && costPrice >= 0.0
                       && (stock.None? || stock.value >= 0)
    ensures r.Ok? ==> ProductValid(r.value) && r.value.name == Trim(name)
                      && r.value.stock == (if stock.Some? then stock.value else 0)
                      && r.value.createdAt == now && r.value.updatedAt == now
  {
    var p := Product(Trim(name), Trim(description), price, costPrice,
                     if stock.Some? then stock.value else 0, Trim(category), now, now);
    if ProductValid(p) then Ok(p) else Err("ValidationError")
  }

  /** The pre-save hook: every save refreshes `updatedAt` and nothing else. */
  function Touch(p: Product, now: Time): (r: Product)
    ensures r.updatedAt == now
    ensures r.(updatedAt := p.updatedAt) == p
    ensures ProductValid(r) == ProductValid(p)
  {
    p.(updatedAt := now)
  }
}
