/**
 * The read side of the sale handlers: the period report (`getSalesReport`)
 * as folds over the fetched sales, and the list pagination arithmetic
 * (`getSales`).
 */
module SaleReport {
  import opened Refs
  import opened Wrappers
  import opened Numeric
  import opened SaleModel

  /** The report's query: completed, paid sales dated within the period. */
  predicate Reported(s: Sale, startDate: Time, endDate: Time)
  {
    startDate <= s.saleDate <= endDate && s.status == Concluida && s.paymentStatus == Pago
  }

  /** The sales the report's query returns, in stored order. */
  function ReportedSales(sales: seq<Sale>, startDate: Time, endDate: Time): (r: seq<Sale>)
    ensures |r| <= |sales|
    ensures forall s :: s in r <==> s in sales && Reported(s, startDate, endDate)
  {
    if sales == [] then []
    else (if Reported(sales[0], startDate, endDate) then [sales[0]] else []) + ReportedSales(sales[1..], startDate, endDate)
  }

  function SumAmount(sales: seq<Sale>): real
  {
    if sales == [] then 0.0 else sales[0].totalAmount + SumAmount(sales[1..])
  }

  function SumCost(sales: seq<Sale>): real
  {
    if sales == [] then 0.0 else sales[0].totalCost + SumCost(sales[1..])
  }

  function SumGrossProfit(sales: seq<Sale>): real
  {
    if sales == [] then 0.0 else sales[0].grossProfit + SumGrossProfit(sales[1..])
  }

  function SumNetProfit(sales: seq<Sale>): real
  {
    if sales == [] then 0.0 else sales[0].netProfit + SumNetProfit(sales[1..])
  }

  datatype SalesStatistics = SalesStatistics(totalSales: nat, totalAmount: real, totalCost: real,
                                             totalGrossProfit: real, totalNetProfit: real)

  /**
   * `getSalesReport` (saleController.js:311-361): both dates are required
   * (400 otherwise); the statistics are the count and the sums over the
   * reported sales. An absent date, or an empty one, is `None`.
   */
  function SalesReport(sales: seq<Sale>, startDate: Option<Time>, endDate: Option<Time>): (r: Result<SalesStatistics, int>)
    ensures r.Err? <==> startDate.None? || endDate.None?
    ensures r.Err? ==> r.error == 400
    ensures r.Ok? ==> r.value.totalSales <= |sales|
    ensures r.Ok? ==> var reported := ReportedSales(sales, startDate.value, endDate.value);
                      && r.value.totalSales == |reported|
                      && r.value.totalAmount == SumAmount(reported) && r.value.totalCost == SumCost(reported)
                      && r.value.totalGrossProfit == SumGrossProfit(reported)
                      && r.value.totalNetProfit == SumNetProfit(reported)
  {
    if startDate.None? || endDate.None? then Err(400)
    else
      var reported := ReportedSales(sales, startDate.value, endDate.value);
      Ok(SalesStatistics(|reported|, SumAmount(reported), SumCost(reported),
                         SumGrossProfit(reported), SumNetProfit(reported)))
  }

  /** Filtering works sale by sale: one more stored sale adds itself when it is reported. */
  lemma {:induction false} ReportedSalesAppend(sales: seq<Sale>, s: Sale, startDate: Time, endDate: Time)
    ensures ReportedSales(sales + [s], startDate, endDate)
            == ReportedSales(sales, startDate, endDate) + (if Reported(s, startDate, endDate) then [s] else [])
  {
    if sales == [] {
      assert sales + [s] == [s];
    } else {
      var head := if Reported(sales[0], startDate, endDate) then [sales[0]] else [];
      var last := if Reported(s, startDate, endDate) then [s] else [];
      assert (sales + [s])[0] == sales[0] && (sales + [s])[1..] == sales[1..] + [s];
      calc {
        ReportedSales(sales + [s], startDate, endDate);
        head + ReportedSales(sales[1..] + [s], startDate, endDate);
        { ReportedSalesAppend(sales[1..], s, startDate, endDate); }
        head + (ReportedSales(sales[1..], startDate, endDate) + last);
        (head + ReportedSales(sales[1..], startDate, endDate)) + last;
        ReportedSales(sales, startDate, endDate) + last;
      }
    }
  }

  /** Each sum over a list with one more sale grows by that sale's field. */
  lemma {:induction false} SumsAppend(sales: seq<Sale>, s: Sale)
    ensures SumAmount(sales + [s]) == SumAmount(sales) + s.totalAmount
    ensures SumCost(sales + [s]) == SumCost(sales) + s.totalCost
    ensures SumGrossProfit(sales + [s]) == SumGrossProfit(sales) + s.grossProfit
    ensures SumNetProfit(sales + [s]) == SumNetProfit(sales) + s.netProfit
  {
    if sales == [] {
      assert sales + [s] == [s];
    } else {
      assert (sales + [s])[0] == sales[0] && (sales + [s])[1..] == sales[1..] + [s];
      SumsAppend(sales[1..], s);
    }
  }

  /**
   * A sale outside the period, not completed or not paid leaves the report
   * as it was; one that is reported adds one to the count and its amount,
   * cost and profits to the totals.
   */
  lemma ReportOneMore(sales: seq<Sale>, s: Sale, startDate: Time, endDate: Time)
    ensures var before := SalesReport(sales, Some(startDate), Some(endDate)).value;
            var after := SalesReport(sales + [s], Some(startDate), Some(endDate)).value;
            if Reported(s, startDate, endDate) then
              after == SalesStatistics(before.totalSales + 1, before.totalAmount + s.totalAmount,
                                       before.totalCost + s.totalCost, before.totalGrossProfit + s.grossProfit,
                                       before.totalNetProfit + s.netProfit)
            else after == before
  {
    var reported := ReportedSales(sales, startDate, endDate);
    ReportedSalesAppend(sales, s, startDate, endDate);
    SumsAppend(reported, s);
    assert reported + [] == reported;
  }

  /** The profit fields of a sale agree with its totals, as `createSale` computes them. */
  predicate ProfitsConsistent(s: Sale)
  {
    s.grossProfit == s.totalAmount - s.totalCost && s.netProfit == 0.85 * s.grossProfit
  }

  /** Summed over consistent sales, gross profit is amount minus cost and net profit is 85% of it. */
  lemma {:induction false} SumsConsistent(sales: seq<Sale>)
    requires forall i :: 0 <= i < |sales| ==> ProfitsConsistent(sales[i])
    ensures SumGrossProfit(sales) == SumAmount(sales) - SumCost(sales)
    ensures SumNetProfit(sales) == 0.85 * SumGrossProfit(sales)
  {
    if sales != [] {
      assert forall i :: 0 <= i < |sales[1..]| ==> sales[1..][i] == sales[i + 1];
      SumsConsistent(sales[1..]);
    }
  }

  /**
   * When every stored sale's profits agree with its totals, so do the
   * report's: total gross profit is total amount minus total cost, and total
   * net profit is 85% of total gross profit.
   */
  lemma ReportConsistent(sales: seq<Sale>, startDate: Time, endDate: Time)
    requires forall i :: 0 <= i < |sales| ==> ProfitsConsistent(sales[i])
    ensures var r := SalesReport(sales, Some(startDate), Some(endDate)).value;
      r.totalGrossProfit == r.totalAmount - r.totalCost && r.totalNetProfit == 0.85 * r.totalGrossProfit
  {
    var reported := ReportedSales(sales, startDate, endDate);
    forall i | 0 <= i < |reported|
      ensures ProfitsConsistent(reported[i])
    {
      assert reported[i] in sales;
    }
    SumsConsistent(reported);
  }

  // ---------------------------------------------------------------------
  // Pagination of the list endpoints (saleController.js:10-13, 26-27, 40).

  /** `skip = (page - 1) * limit` */
  function Skip(page: int, limit: int): (r: int)
    ensures page >= 1 && limit >= 0 ==> r >= 0
    ensures limit > 0 ==> (r >= 0 <==> page >= 1)
  {
    (page - 1) * limit
  }

  /** `Math.ceil(total / limit)`; `None` for a zero limit, where JavaScript gives Infinity or NaN. */
  function Pages(total: nat, limit: int): (r: Option<int>)
    ensures limit == 0 <==> r.None?
    ensures limit > 0 ==> r.value >= 0
  {
    if limit == 0 then None else Some(Ceil(total as real / limit as real))
  }

  /** With a positive limit, `pages` full pages hold the listing and one page fewer does not. */
  lemma PagesBounds(total: nat, limit: int)
    requires limit > 0
    ensures var pages := Pages(total, limit).value; (pages - 1) * limit < total <= pages * limit
  {
    var x := total as real / limit as real;
    var pages := Pages(total, limit).value;
    assert x * limit as real == total as real;
    RealMulLe(x, pages as real, limit as real);
    RealMulLe((pages - 1) as real, x, limit as real);
    assert ((pages - 1) as real) * (limit as real) < x * (limit as real) by {
      assert (x - (pages - 1) as real) * (limit as real) > 0.0;
    }
    assert ((pages - 1) * limit) as real == ((pages - 1) as real) * (limit as real);
    assert (pages * limit) as real == (pages as real) * (limit as real);
  }

  /**
   * With a positive limit, every index of the listing lies on exactly one
   * page between 1 and `pages`: page `i / limit + 1`.
   */
  lemma PageOf(total: nat, limit: int, i: int)
    requires limit > 0 && 0 <= i < total
    ensures var page := i / limit + 1;
      && 1 <= page <= Pages(total, limit).value
      && Skip(page, limit) <= i < Skip(page, limit) + limit
      && forall q :: 1 <= q && Skip(q, limit) <= i < Skip(q, limit) + limit ==> q == page
  {
    var page := i / limit + 1;
    PagesBounds(total, limit);
    PageHolds(limit, i);
    PageWithin(Pages(total, limit).value, page, limit, i, total);
    forall q | 1 <= q && Skip(q, limit) <= i < Skip(q, limit) + limit
      ensures q == page
    {
      PageUnique(q, page, limit, i);
    }
  }

  /** Index `i` lies on page `i / limit + 1`. */
  lemma PageHolds(limit: int, i: int)
    requires limit > 0 && i >= 0
    ensures Skip(i / limit + 1, limit) <= i < Skip(i / limit + 1, limit) + limit
  {
    assert Skip(i / limit + 1, limit) == (i / limit) * limit;
  }

  /** A page that starts at or before an index of the listing is no later than the last page. */
  lemma PageWithin(pages: int, page: int, limit: int, i: int, total: int)
    requires limit > 0 && 0 <= i < total <= pages * limit && page >= 1 && Skip(page, limit) <= i
    ensures page <= pages
  {
    if page > pages {
      MulLe(pages, page - 1, limit);
    }
  }

  /** Two pages that both hold index `i` are the same page. */
  lemma PageUnique(q: int, page: int, limit: int, i: int)
    requires limit > 0 && q >= 1 && page >= 1
    requires Skip(q, limit) <= i < Skip(q, limit) + limit
    requires Skip(page, limit) <= i < Skip(page, limit) + limit
    ensures q == page
  {
    if q < page {
      MulLe(q, page - 1, limit);
    } else if q > page {
      MulLe(page, q - 1, limit);
    }
  }
}
