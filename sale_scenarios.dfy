/** Worked instances of the sale pass, on small catalogs. */
module SaleScenarios {
  import opened Refs
  import opened Wrappers
  import opened ProductModel
  import opened MaterialModel
  import opened SaleModel
  import opened SalePricing

  function Sundae(price: real, costPrice: real, stock: int): Product
  {
    Product("Sundae", "", price, costPrice, stock, "sobremesa", 0, 0)
  }

  function Cone(stock: real): Material
  {
    Material("Casquinha", MaterialModel.Cone, Unidade, 0.5, stock, 0.0, "", 0)
  }

  /**
   * Three units at catalog price 100 and cost 40, paid in cash: amount 300,
   * cost 120, gross profit 180, net profit 153, and 7 of 10 left in stock.
   */
  lemma PaidSaleExample()
    ensures var ps := map[1 := Sundae(100.0, 40.0, 10)];
      var req := SaleRequest(9, [ItemRequest(1, 3, 0.0, [])], "dinheiro", "");
      var run := PriceSale(ps, map[], req, 50);
      && run.outcome.Ok?
      && run.products[1].stock == 7
      && BuildSale(req, run.outcome.value, 4, 50).Ok?
      && BuildSale(req, run.outcome.value, 4, 50).value.totalAmount == 300.0
      && BuildSale(req, run.outcome.value, 4, 50).value.totalCost == 120.0
      && BuildSale(req, run.outcome.value, 4, 50).value.grossProfit == 180.0
      && BuildSale(req, run.outcome.value, 4, 50).value.netProfit == 153.0
      && BuildSale(req, run.outcome.value, 4, 50).value.paidAt == Some(50)
  {
    var ps := map[1 := Sundae(100.0, 40.0, 10)];
    var req := SaleRequest(9, [ItemRequest(1, 3, 0.0, [])], "dinheiro", "");
    assert IsPaid(req);
    var st := ItemStep(ps, map[], req.items[0], true, 50, NoTotals);
    assert st.outcome.value.amount == 300.0;
    assert PriceSale(ps, map[], req, 50) == st;
  }

  /**
   * The second item fails its stock check after the first was already
   * deducted: the answer is 400 and the first product's stock stays lowered.
   */
  lemma FailedSaleKeepsEarlierDeduction()
    ensures var ps := map[1 := Sundae(10.0, 4.0, 10), 2 := Sundae(12.0, 5.0, 3)];
      var req := SaleRequest(9, [ItemRequest(1, 2, 0.0, []), ItemRequest(2, 5, 0.0, [])], "pix", "pago");
      var run := PriceSale(ps, map[], req, 50);
      && run.outcome == Err(InsufficientProductStock(2))
      && HttpStatus(run.outcome.error) == 400
      && run.products[1].stock == 8 && run.products[2].stock == 3
  {
    var ps := map[1 := Sundae(10.0, 4.0, 10), 2 := Sundae(12.0, 5.0, 3)];
    var req := SaleRequest(9, [ItemRequest(1, 2, 0.0, []), ItemRequest(2, 5, 0.0, [])], "pix", "pago");
    var st := ItemStep(ps, map[], req.items[0], true, 50, NoTotals);
    assert st.products[1].stock == 8;
    var st2 := ItemStep(st.products, st.materials, req.items[1], true, 50, st.outcome.value);
    assert req.items[1..] == [req.items[1]];
    assert PriceSale(ps, map[], req, 50) == st2;
  }

  /**
   * A pending sale of the same product on two lines is checked line by line
   * against the undeducted stock, so 3 + 3 units pass against a stock of 4;
   * the same request paid is refused on its second line.
   */
  lemma PendingLinesCheckedSeparately()
    ensures var ps := map[1 := Sundae(10.0, 4.0, 4)];
      var lines := [ItemRequest(1, 3, 0.0, []), ItemRequest(1, 3, 0.0, [])];
      && PriceSale(ps, map[], SaleRequest(9, lines, "pendente", ""), 50).outcome.Ok?
      && PriceSale(ps, map[], SaleRequest(9, lines, "pix", ""), 50).outcome == Err(InsufficientProductStock(1))
  {
    var ps := map[1 := Sundae(10.0, 4.0, 4)];
    var lines := [ItemRequest(1, 3, 0.0, []), ItemRequest(1, 3, 0.0, [])];
    assert lines[1..] == [lines[1]];
    var pending := ItemStep(ps, map[], lines[0], false, 50, NoTotals);
    assert PriceSale(ps, map[], SaleRequest(9, lines, "pendente", ""), 50)
        == RunItems(ps, map[], [lines[1]], false, 50, pending.outcome.value);
    var paid := ItemStep(ps, map[], lines[0], true, 50, NoTotals);
    assert paid.products[1].stock == 1;
    assert PriceSale(ps, map[], SaleRequest(9, lines, "pix", ""), 50)
        == RunItems(paid.products, map[], [lines[1]], true, 50, paid.outcome.value);
  }

  /** A cone per unit sold: three units need three cones, two in stock is a 400 that changes nothing. */
  lemma MissingMaterialStock()
    ensures var ps := map[1 := Sundae(10.0, 4.0, 10)];
      var ms := map[5 := Cone(2.0)];
      var req := SaleRequest(9, [ItemRequest(1, 3, 0.0, [MaterialUseRequest(5, 1.0)])], "dinheiro", "");
      var run := PriceSale(ps, ms, req, 50);
      && run.outcome == Err(InsufficientMaterialStock(5))
      && run.products == ps && run.materials == ms
  {
    var ps := map[1 := Sundae(10.0, 4.0, 10)];
    var ms := map[5 := Cone(2.0)];
    var req := SaleRequest(9, [ItemRequest(1, 3, 0.0, [MaterialUseRequest(5, 1.0)])], "dinheiro", "");
    assert req.items[0].materialsUsed[1..] == [];
    assert PriceSale(ps, ms, req, 50) == ItemStep(ps, ms, req.items[0], true, 50, NoTotals);
  }
}
