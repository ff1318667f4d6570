/**
 * `getMaterialConsumptionReport`: the material uses recorded on the
 * completed, paid sales of a period, aggregated per material into total
 * quantity, total cost and number of uses.
 *
 * The aggregation fills a dictionary keyed by the material's id in nested
 * loops (sales, their items, the items' material uses). A use whose
 * material no longer exists has no id to key on, so every such use lands
 * under one shared key, `None`. The dictionary keeps its keys in the
 * order they were first seen, as a JavaScript object does for these keys.
 */
module ConsumptionReport {
  import opened Refs
  import opened Wrappers
  import opened SaleModel
  import opened SaleReport

  /** The dictionary key of a use: the material's id while it exists, one shared key otherwise. */
  type Key = Option<Id>

  function KeyOf(existing: set<Id>, u: MaterialUse): (k: Key)
    ensures k.Some? <==> u.material in existing
    ensures k.Some? ==> k.value == u.material
  {
    if u.material in existing then Some(u.material) else None
  }

  datatype Entry = Entry(material: Key, totalQuantity: real, totalCost: real, salesCount: nat)

  /** The dictionary being filled: its keys in insertion order, and an entry per key. */
  datatype Tally = Tally(order: seq<Key>, entries: map<Key, Entry>)

  const Empty := Tally([], map[])

  /** Each key is listed once, the listed keys are the entries' keys, and each entry names its key. */
  ghost predicate WellFormed(t: Tally)
  {
    && (forall i, j :: 0 <= i < j < |t.order| ==> t.order[i] != t.order[j])
    && (forall k :: k in t.entries <==> k in t.order)
    && (forall k :: k in t.entries ==> t.entries[k].material == k)
  }

  /** The entry for a key, or a zero entry when the key has not been seen. */
  function Get(t: Tally, k: Key): Entry
  {
    if k in t.entries then t.entries[k] else Entry(k, 0.0, 0.0, 0)
  }

  /** One iteration of the innermost loop: create the entry on first sight, then add the use to it. */
  function Add(t: Tally, k: Key, u: MaterialUse): Tally
  {
    var e := Get(t, k);
    var e' := e.(totalQuantity := e.totalQuantity + u.quantity, totalCost := e.totalCost + u.cost,
                 salesCount := e.salesCount + 1);
    Tally(if k in t.entries then t.order else t.order + [k], t.entries[k := e'])
  }

  /** The uses, one after another, added to the tally. */
  function Fold(existing: set<Id>, t: Tally, uses: seq<MaterialUse>): Tally
    decreases |uses|
  {
    if uses == [] then t else Fold(existing, Add(t, KeyOf(existing, uses[0]), uses[0]), uses[1..])
  }

  /** The material uses of a list of items, in order. */
  function ItemUses(items: seq<SaleItem>): seq<MaterialUse>
  {
    if items == [] then [] else ItemUses(items[..|items| - 1]) + items[|items| - 1].materialsUsed
  }

  /** The material uses of a list of sales, in order. */
  function SalesUses(sales: seq<Sale>): seq<MaterialUse>
  {
    if sales == [] then [] else SalesUses(sales[..|sales| - 1]) + ItemUses(sales[|sales| - 1].items)
  }

  /** `Object.values`: the entries in key insertion order. */
  function Values(order: seq<Key>, entries: map<Key, Entry>): (r: seq<Entry>)
    requires forall i :: 0 <= i < |order| ==> order[i] in entries
    ensures |r| == |order|
    ensures forall i :: 0 <= i < |order| ==> r[i] == entries[order[i]]
  {
    if order == [] then []
    else Values(order[..|order| - 1], entries) + [entries[order[|order| - 1]]]
  }

  /** The `reduce` over the entries' costs. */
  function SumCosts(es: seq<Entry>): real
  {
    if es == [] then 0.0 else SumCosts(es[..|es| - 1]) + es[|es| - 1].totalCost
  }

  /** Reference sums over the uses that land under one key. */
  function QuantityOf(existing: set<Id>, uses: seq<MaterialUse>, k: Key): real
  {
    if uses == [] then 0.0
    else (if KeyOf(existing, uses[0]) == k then uses[0].quantity else 0.0) + QuantityOf(existing, uses[1..], k)
  }

  function CostOf(existing: set<Id>, uses: seq<MaterialUse>, k: Key): real
  {
    if uses == [] then 0.0
    else (if KeyOf(existing, uses[0]) == k then uses[0].cost else 0.0) + CostOf(existing, uses[1..], k)
  }

  function CountOf(existing: set<Id>, uses: seq<MaterialUse>, k: Key): nat
  {
    if uses == [] then 0
    else (if KeyOf(existing, uses[0]) == k then 1 else 0) + CountOf(existing, uses[1..], k)
  }

  /** The cost of every use, whatever its key. */
  function TotalCost(uses: seq<MaterialUse>): real
  {
    if uses == [] then 0.0 else uses[0].cost + TotalCost(uses[1..])
  }

  datatype ConsumptionStatistics = ConsumptionStatistics(totalMaterialsUsed: nat, totalCost: real)

  datatype Report = Report(statistics: ConsumptionStatistics, consumption: seq<Entry>)

  /** The response body built from a filled dictionary. */
  function ReportOf(t: Tally): (r: Report)
    requires WellFormed(t)
    ensures r.statistics.totalMaterialsUsed == |t.order| == |r.consumption|
  {
    var consumption := Values(t.order, t.entries);
    Report(ConsumptionStatistics(|consumption|, SumCosts(consumption)), consumption)
  }

  /**
   * The report: 400 unless both dates are given; otherwise the uses of the
   * completed, paid sales of the period, aggregated. `existing` holds the
   * ids of the materials that still exist.
   */
  function ConsumptionOf(sales: seq<Sale>, existing: set<Id>, startDate: Option<Time>, endDate: Option<Time>): (r: Result<Report, int>)
    ensures r.Err? <==> startDate.None? || endDate.None?
    ensures r.Err? ==> r.error == 400
  {
    if startDate.None? || endDate.None? then Err(400)
    else
      var t := Fold(existing, Empty, SalesUses(ReportedSales(sales, startDate.value, endDate.value)));
      FoldWellFormed(existing, Empty, SalesUses(ReportedSales(sales, startDate.value, endDate.value)));
      Ok(ReportOf(t))
  }

  /** Adding a use keeps the dictionary well formed and adds exactly its key. */
  lemma AddWellFormed(t: Tally, k: Key, u: MaterialUse)
    requires WellFormed(t)
    ensures WellFormed(Add(t, k, u))
    ensures Add(t, k, u).entries.Keys == t.entries.Keys + {k}
  {
    var r := Add(t, k, u);
    if k !in t.entries {
      forall i, j | 0 <= i < j < |r.order|
        ensures r.order[i] != r.order[j]
      {
        if j == |t.order| {
          assert r.order[i] == t.order[i];
        }
      }
    }
  }

  /**
   * Folding keeps the dictionary well formed, and its keys become the keys
   * it had plus the key of every use folded in.
   */
  lemma {:induction false} FoldWellFormed(existing: set<Id>, t: Tally, uses: seq<MaterialUse>)
    requires WellFormed(t)
    ensures WellFormed(Fold(existing, t, uses))
    ensures forall k :: k in Fold(existing, t, uses).entries <==>
              k in t.entries || exists i :: 0 <= i < |uses| && KeyOf(existing, uses[i]) == k
    decreases |uses|
  {
    if uses != [] {
      var k := KeyOf(existing, uses[0]);
      AddWellFormed(t, k, uses[0]);
      FoldWellFormed(existing, Add(t, k, uses[0]), uses[1..]);
      forall k' | k' in Fold(existing, t, uses).entries
        ensures k' in t.entries || exists i :: 0 <= i < |uses| && KeyOf(existing, uses[i]) == k'
      {
        if k' !in t.entries && k' != k {
          var i :| 0 <= i < |uses[1..]| && KeyOf(existing, uses[1..][i]) == k';
          assert KeyOf(existing, uses[i + 1]) == k';
        }
      }
      forall k' | exists i :: 0 <= i < |uses| && KeyOf(existing, uses[i]) == k'
        ensures k' in Fold(existing, t, uses).entries
      {
        var i :| 0 <= i < |uses| && KeyOf(existing, uses[i]) == k';
        if i > 0 {
          assert KeyOf(existing, uses[1..][i - 1]) == k';
        }
      }
    }
  }

  /**
   * Per key, the folded entry holds what it held before plus the total
   * quantity, the total cost and the number of the uses under that key.
   */
  lemma {:induction false} FoldEntry(existing: set<Id>, t: Tally, uses: seq<MaterialUse>, k: Key)
    ensures Get(Fold(existing, t, uses), k).totalQuantity == Get(t, k).totalQuantity + QuantityOf(existing, uses, k)
    ensures Get(Fold(existing, t, uses), k).totalCost == Get(t, k).totalCost + CostOf(existing, uses, k)
    ensures Get(Fold(existing, t, uses), k).salesCount == Get(t, k).salesCount + CountOf(existing, uses, k)
    decreases |uses|
  {
    if uses != [] {
      FoldEntry(existing, Add(t, KeyOf(existing, uses[0]), uses[0]), uses[1..], k);
    }
  }

  /** Folding two lists is folding the first and then the second. */
  lemma {:induction false} FoldAppend(existing: set<Id>, t: Tally, a: seq<MaterialUse>, b: seq<MaterialUse>)
    ensures Fold(existing, t, a + b) == Fold(existing, Fold(existing, t, a), b)
    decreases |a|
  {
    if a == [] {
      assert a + b == b;
    } else {
      var t' := Add(t, KeyOf(existing, a[0]), a[0]);
      assert (a + b)[0] == a[0] && (a + b)[1..] == a[1..] + b;
      assert Fold(existing, t, a + b) == Fold(existing, t', a[1..] + b);
      FoldAppend(existing, t', a[1..], b);
    }
  }

  /** Changing entries other than those listed leaves the listed values alone. */
  lemma {:induction false} ValuesUnlisted(order: seq<Key>, entries: map<Key, Entry>, k: Key, e: Entry)
    requires forall i :: 0 <= i < |order| ==> order[i] in entries
    requires k !in order
    ensures Values(order, entries[k := e]) == Values(order, entries)
    decreases |order|
  {
    if order != [] {
      ValuesUnlisted(order[..|order| - 1], entries, k, e);
    }
  }

  /** Raising the cost of one listed entry by c raises the sum of the costs by c. */
  lemma {:induction false} SumCostsUpdate(order: seq<Key>, entries: map<Key, Entry>, k: Key, e: Entry, c: real)
    requires forall i :: 0 <= i < |order| ==> order[i] in entries
    requires forall i, j :: 0 <= i < j < |order| ==> order[i] != order[j]
    requires k in order && k in entries && e.totalCost == entries[k].totalCost + c
    ensures SumCosts(Values(order, entries[k := e])) == SumCosts(Values(order, entries)) + c
    decreases |order|
  {
    var n := |order| - 1;
    var init := order[..n];
    var updated := entries[k := e];
    assert forall i :: 0 <= i < |init| ==> init[i] == order[i];
    var before := Values(init, entries);
    var after := Values(init, updated);
    assert SumCosts(Values(order, entries)) == SumCosts(before) + entries[order[n]].totalCost by {
      assert Values(order, entries) == before + [entries[order[n]]];
      SumCostsSnoc(before, entries[order[n]]);
    }
    assert SumCosts(Values(order, updated)) == SumCosts(after) + updated[order[n]].totalCost by {
      assert Values(order, updated) == after + [updated[order[n]]];
      SumCostsSnoc(after, updated[order[n]]);
    }
    if order[n] == k {
      assert k !in init;
      ValuesUnlisted(init, entries, k, e);
    } else {
      assert k in init;
      SumCostsUpdate(init, entries, k, e, c);
    }
  }

  /** The sum of the costs grows by the cost of an entry put last. */
  lemma SumCostsSnoc(es: seq<Entry>, e: Entry)
    ensures SumCosts(es + [e]) == SumCosts(es) + e.totalCost
  {
    assert (es + [e])[..|es|] == es;
  }

  /** Adding a use to a well-formed dictionary adds its cost to the sum of the costs. */
  lemma AddCost(t: Tally, k: Key, u: MaterialUse)
    requires WellFormed(t)
    ensures WellFormed(Add(t, k, u))
    ensures SumCosts(Values(Add(t, k, u).order, Add(t, k, u).entries)) == SumCosts(Values(t.order, t.entries)) + u.cost
  {
    AddWellFormed(t, k, u);
    var r := Add(t, k, u);
    if k in t.entries {
      assert r.order == t.order;
      SumCostsUpdate(t.order, t.entries, k, r.entries[k], u.cost);
    } else {
      AddNewCost(t, k, u);
    }
  }

  /** A key seen for the first time adds one entry, holding the use's cost, after the others. */
  lemma AddNewCost(t: Tally, k: Key, u: MaterialUse)
    requires WellFormed(t) && k !in t.entries
    ensures WellFormed(Add(t, k, u))
    ensures SumCosts(Values(Add(t, k, u).order, Add(t, k, u).entries)) == SumCosts(Values(t.order, t.entries)) + u.cost
  {
    AddWellFormed(t, k, u);
    var r := Add(t, k, u);
    AppendCost(t.order, t.entries, k, r.entries[k]);
  }

  /** Listing one more key, with a new entry, adds that entry's cost. */
  lemma AppendCost(order: seq<Key>, entries: map<Key, Entry>, k: Key, e: Entry)
    requires forall i :: 0 <= i < |order| ==> order[i] in entries
    requires k !in order
    ensures SumCosts(Values(order + [k], entries[k := e])) == SumCosts(Values(order, entries)) + e.totalCost
  {
    var order' := order + [k];
    assert order'[..|order'| - 1] == order;
    ValuesUnlisted(order, entries, k, e);
    var vs := Values(order', entries[k := e]);
    assert vs == Values(order, entries) + [e];
    assert vs[..|vs| - 1] == Values(order, entries);
  }

  /** The sum of the entries' costs grows by the cost of every use folded in. */
  lemma {:induction false} FoldCost(existing: set<Id>, t: Tally, uses: seq<MaterialUse>)
    requires WellFormed(t)
    ensures WellFormed(Fold(existing, t, uses))
    ensures var r := Fold(existing, t, uses);
            SumCosts(Values(r.order, r.entries)) == SumCosts(Values(t.order, t.entries)) + TotalCost(uses)
    decreases |uses|
  {
    if uses != [] {
      var k := KeyOf(existing, uses[0]);
      AddCost(t, k, uses[0]);
      FoldCost(existing, Add(t, k, uses[0]), uses[1..]);
    }
  }

  /** A list without repetitions has as many elements as its set. */
  lemma {:induction false} DistinctCount(order: seq<Key>)
    requires forall i, j :: 0 <= i < j < |order| ==> order[i] != order[j]
    ensures |set k | k in order| == |order|
    decreases |order|
  {
    if order != [] {
      var init := order[..|order| - 1];
      var last := order[|order| - 1];
      assert forall i :: 0 <= i < |init| ==> init[i] == order[i];
      DistinctCount(init);
      assert (set k | k in order) == (set k | k in init) + {last};
      assert last !in (set k | k in init);
    }
  }

  /**
   * What the report promises: 400 exactly when a date is missing;
   * otherwise one entry per distinct key among the period's uses
   * (`totalMaterialsUsed` counts them), each entry holding the sums of its
   * uses' quantities and costs and their number, and a total cost equal to
   * the cost of all those uses.
   */
  lemma ReportMeaning(sales: seq<Sale>, existing: set<Id>, startDate: Time, endDate: Time)
    ensures var uses := SalesUses(ReportedSales(sales, startDate, endDate));
            var r := ConsumptionOf(sales, existing, Some(startDate), Some(endDate));
            && r.Ok?
            && r.value.statistics.totalCost == TotalCost(uses)
            && r.value.statistics.totalMaterialsUsed
               == |set i | 0 <= i < |uses| :: KeyOf(existing, uses[i])|
            && (forall e :: e in r.value.consumption ==>
                  && (exists i :: 0 <= i < |uses| && KeyOf(existing, uses[i]) == e.material)
                  && e.totalQuantity == QuantityOf(existing, uses, e.material)
                  && e.totalCost == CostOf(existing, uses, e.material)
                  && e.salesCount == CountOf(existing, uses, e.material))
  {
    var uses := SalesUses(ReportedSales(sales, startDate, endDate));
    FoldWellFormed(existing, Empty, uses);
    assert ConsumptionOf(sales, existing, Some(startDate), Some(endDate)) == Ok(ReportOf(Fold(existing, Empty, uses)));
    FoldDescribed(existing, uses);
  }

  /** What the report of the uses `uses` says: its totals, and the sums each entry holds. */
  predicate Describes(report: Report, existing: set<Id>, uses: seq<MaterialUse>)
  {
    && report.statistics.totalCost == TotalCost(uses)
    && report.statistics.totalMaterialsUsed == |set i | 0 <= i < |uses| :: KeyOf(existing, uses[i])|
    && (forall e :: e in report.consumption ==>
          && (exists i :: 0 <= i < |uses| && KeyOf(existing, uses[i]) == e.material)
          && e.totalQuantity == QuantityOf(existing, uses, e.material)
          && e.totalCost == CostOf(existing, uses, e.material)
          && e.salesCount == CountOf(existing, uses, e.material))
  }

  lemma FoldDescribed(existing: set<Id>, uses: seq<MaterialUse>)
    ensures WellFormed(Fold(existing, Empty, uses))
    ensures Describes(ReportOf(Fold(existing, Empty, uses)), existing, uses)
  {
    ReportTotals(existing, uses);
    ReportEntries(existing, uses);
  }

  /** The folded dictionary's cost total is the cost of all uses, and it lists one entry per distinct key. */
  lemma ReportTotals(existing: set<Id>, uses: seq<MaterialUse>)
    ensures WellFormed(Fold(existing, Empty, uses))
    ensures var r := ReportOf(Fold(existing, Empty, uses));
            && r.statistics.totalCost == TotalCost(uses)
            && r.statistics.totalMaterialsUsed == |set i | 0 <= i < |uses| :: KeyOf(existing, uses[i])|
  {
    var t := Fold(existing, Empty, uses);
    FoldCost(existing, Empty, uses);
    FoldKeys(existing, uses);
    DistinctCount(t.order);
  }

  /** Each value of the folded dictionary names a key some use has and holds that key's sums. */
  lemma ReportEntries(existing: set<Id>, uses: seq<MaterialUse>)
    ensures WellFormed(Fold(existing, Empty, uses))
    ensures var t := Fold(existing, Empty, uses);
            forall e :: e in Values(t.order, t.entries) ==>
              && (exists i :: 0 <= i < |uses| && KeyOf(existing, uses[i]) == e.material)
              && e.totalQuantity == QuantityOf(existing, uses, e.material)
              && e.totalCost == CostOf(existing, uses, e.material)
              && e.salesCount == CountOf(existing, uses, e.material)
  {
    var t := Fold(existing, Empty, uses);
    FoldWellFormed(existing, Empty, uses);
    forall e | e in Values(t.order, t.entries)
      ensures && (exists i :: 0 <= i < |uses| && KeyOf(existing, uses[i]) == e.material)
              && e.totalQuantity == QuantityOf(existing, uses, e.material)
              && e.totalCost == CostOf(existing, uses, e.material)
              && e.salesCount == CountOf(existing, uses, e.material)
    {
      ValuesIn(t.order, t.entries, e);
      FoldEntry(existing, Empty, uses, e.material);
    }
  }

  /** The keys a fold from the empty dictionary lists are the keys of its uses. */
  lemma FoldKeys(existing: set<Id>, uses: seq<MaterialUse>)
    ensures WellFormed(Fold(existing, Empty, uses))
    ensures (set k | k in Fold(existing, Empty, uses).order) == (set i | 0 <= i < |uses| :: KeyOf(existing, uses[i]))
  {
    var t := Fold(existing, Empty, uses);
    FoldWellFormed(existing, Empty, uses);
    forall k | k in t.order
      ensures k in (set i | 0 <= i < |uses| :: KeyOf(existing, uses[i]))
    {
      assert k in t.entries;
      var i :| 0 <= i < |uses| && KeyOf(existing, uses[i]) == k;
    }
    forall i | 0 <= i < |uses|
      ensures KeyOf(existing, uses[i]) in t.order
    {
      assert KeyOf(existing, uses[i]) in t.entries;
    }
  }

  /** Every listed value is the entry of a listed key. */
  lemma {:induction false} ValuesIn(order: seq<Key>, entries: map<Key, Entry>, e: Entry)
    requires forall i :: 0 <= i < |order| ==> order[i] in entries
    requires e in Values(order, entries)
    ensures exists k :: k in order && k in entries && entries[k] == e
    decreases |order|
  {
    var n := |order| - 1;
    if e != entries[order[n]] {
      assert forall i :: 0 <= i < |order[..n]| ==> order[..n][i] == order[i];
      ValuesIn(order[..n], entries, e);
    }
  }

  /** Two uses of two deleted materials are reported as one entry. */
  lemma DeletedMaterialsMerge(existing: set<Id>, a: Id, b: Id)
    requires a != b && a !in existing && b !in existing
    ensures var t := Fold(existing, Empty, [MaterialUse(a, 1.0, 2.0), MaterialUse(b, 3.0, 4.0)]);
            t.order == [None] && None in t.entries && t.entries[None] == Entry(None, 4.0, 6.0, 2)
  {
    var uses := [MaterialUse(a, 1.0, 2.0), MaterialUse(b, 3.0, 4.0)];
    var t1 := Add(Empty, None, uses[0]);
    assert t1 == Tally([None], map[None := Entry(None, 1.0, 2.0, 1)]);
    var t2 := Add(t1, None, uses[1]);
    assert t2 == Tally([None], map[None := Entry(None, 4.0, 6.0, 2)]);
    assert uses[1..][1..] == [];
    assert Fold(existing, Empty, uses) == Fold(existing, t1, uses[1..]) == Fold(existing, t2, uses[1..][1..]);
  }

  /** The innermost loop: the uses of one item added to the dictionary. */
  method TallyUses(existing: set<Id>, t: Tally, uses: seq<MaterialUse>) returns (r: Tally)
    ensures r == Fold(existing, t, uses)
  {
    r := t;
    for j := 0 to |uses|
      invariant r == Fold(existing, t, uses[..j])
    {
      FoldAppend(existing, t, uses[..j], [uses[j]]);
      assert uses[..j + 1] == uses[..j] + [uses[j]];
      r := Add(r, KeyOf(existing, uses[j]), uses[j]);
    }
    assert uses[..|uses|] == uses;
  }

  /** The middle loop: the items of one sale. */
  method TallySale(existing: set<Id>, t: Tally, sale: Sale) returns (r: Tally)
    ensures r == Fold(existing, t, ItemUses(sale.items))
  {
    var items := sale.items;
    r := t;
    for j := 0 to |items|
      invariant r == Fold(existing, t, ItemUses(items[..j]))
    {
      assert items[..j + 1][..j] == items[..j];
      FoldAppend(existing, t, ItemUses(items[..j]), items[j].materialsUsed);
      r := TallyUses(existing, r, items[j].materialsUsed);
    }
    assert items[..|items|] == items;
  }

  /** `getMaterialConsumptionReport`, with `existing` the ids of the materials that still exist. */
  method MaterialConsumptionReport(sales: seq<Sale>, existing: set<Id>, startDate: Option<Time>,
                                   endDate: Option<Time>) returns (r: Result<Report, int>)
    ensures r == ConsumptionOf(sales, existing, startDate, endDate)
  {
    if startDate.None? || endDate.None? {
      return Err(400);
    }
    var reported := ReportedSales(sales, startDate.value, endDate.value);
    var t := Empty;
    for i := 0 to |reported|
      invariant t == Fold(existing, Empty, SalesUses(reported[..i]))
    {
      FoldNextSale(existing, reported, i);
      t := TallySale(existing, t, reported[i]);
    }
    assert reported[..|reported|] == reported;
    FoldWellFormed(existing, Empty, SalesUses(reported));
    r := Ok(ReportOf(t));
  }

  /** Folding the uses of one more sale is tallying that sale on top of the earlier ones. */
  lemma FoldNextSale(existing: set<Id>, sales: seq<Sale>, i: nat)
    requires i < |sales|
    ensures Fold(existing, Empty, SalesUses(sales[..i + 1]))
            == Fold(existing, Fold(existing, Empty, SalesUses(sales[..i])), ItemUses(sales[i].items))
  {
    assert sales[..i + 1][..i] == sales[..i];
    FoldAppend(existing, Empty, SalesUses(sales[..i]), ItemUses(sales[i].items));
  }
}
