/**
 * The material-consumption handlers: recording a consumption takes its
 * quantity out of the material's stock (whole units for materials counted
 * in units), and deleting the record puts the quantity back.
 *
 * As for purchases, each handler is a pure transition (`Consume`,
 * `Unconsume`) and a method on the store proved to perform it.
 */
module ConsumptionController {
  import opened Refs
  import opened Wrappers
  import opened Numeric
  import MaterialModel
  import opened ConsumptionModel
  import opened Store

  type Material = MaterialModel.Material

  datatype ConsumptionError =
    | MaterialNotFound
    | ConsumptionNotFound
    | WholeUnitsRequired
    | InsufficientStock
    | ServerError

  function HttpStatus(e: ConsumptionError): (code: int)
    ensures code == 404 <==> e.MaterialNotFound? || e.ConsumptionNotFound?
    ensures code == 400 <==> e.WholeUnitsRequired? || e.InsufficientStock?
    ensures code == 500 <==> e.ServerError?
  {
    match e
    case MaterialNotFound => 404
    case ConsumptionNotFound => 404
    case WholeUnitsRequired => 400
    case InsufficientStock => 400
    case ServerError => 500
  }

  /** The two collections a consumption handler writes, and its answer. */
  datatype Step<T> = Step(materials: map<Id, Material>, consumptions: map<Id, Consumption>,
                          outcome: Result<T, ConsumptionError>)

  /** The quantity recorded and deducted: whole units for a material counted in units, the request otherwise. */
  function Deducted(m: Material, quantity: real): (d: real)
    ensures m.unit == MaterialModel.Unidade ==> d <= quantity < d + 1.0 && d == Floor(quantity) as real
    ensures m.unit != MaterialModel.Unidade ==> d == quantity
  {
    if m.unit == MaterialModel.Unidade then Floor(quantity) as real else quantity
  }

  /** The stock after a deduction: rounded to cents, and 0 instead of a negative value. */
  function Drawn(m: Material, deducted: real, now: Time): (r: Material)
    ensures r.quantityInStock >= 0.0
    ensures Round2(m.quantityInStock - deducted) >= 0.0 ==> r.quantityInStock == Round2(m.quantityInStock - deducted)
    ensures Round2(m.quantityInStock - deducted) < 0.0 ==> r.quantityInStock == 0.0
    ensures MaterialModel.MaterialValid(m) ==> MaterialModel.MaterialValid(r)
    ensures r.(quantityInStock := m.quantityInStock, updatedAt := m.updatedAt) == m
  {
    var left := Round2(m.quantityInStock - deducted);
    MaterialModel.Touch(m.(quantityInStock := if left < 0.0 then 0.0 else left), now)
  }

  /** The stock after a consumption record is deleted: the recorded quantity added back, rounded to cents. */
  function Replenished(m: Material, quantity: real, now: Time): (r: Material)
    ensures r.quantityInStock == Round2(m.quantityInStock + quantity)
    ensures r.(quantityInStock := m.quantityInStock, updatedAt := m.updatedAt) == m
  {
    MaterialModel.Touch(m.(quantityInStock := Round2(m.quantityInStock + quantity)), now)
  }

  /**
   * `createMaterialConsumption`: 404 for an unknown material; 400 when a
   * material counted in units is asked for less than one whole unit; 400
   * when the stock is below the requested quantity (before any flooring);
   * 500 when the record's schema rejects it; otherwise the record is
   * created and the stock drawn down. `newId` is the id the database gives
   * the record.
   */
  function Consume(ms: map<Id, Material>, cs: map<Id, Consumption>, newId: Id, material: Id, quantity: real,
                   reason: Option<string>, reasonDescription: string, consumedBy: Id, notes: string,
                   now: Time): (r: Step<Id>)
    ensures r.outcome.Err? ==> r.materials == ms && r.consumptions == cs
    ensures r.outcome == Err(MaterialNotFound) <==> material !in ms
    ensures r.outcome == Err(WholeUnitsRequired) <==>
              material in ms && ms[material].unit == MaterialModel.Unidade && Floor(quantity) <= 0
    ensures r.outcome == Err(InsufficientStock) <==>
              && material in ms && !(ms[material].unit == MaterialModel.Unidade && Floor(quantity) <= 0)
              && ms[material].quantityInStock < quantity
    ensures r.outcome.Ok? <==>
              && material in ms && !(ms[material].unit == MaterialModel.Unidade && Floor(quantity) <= 0)
              && ms[material].quantityInStock >= quantity
              && NewConsumption(material, Deducted(ms[material], quantity), reason, reasonDescription,
                                consumedBy, notes, now).Ok?
    ensures r.outcome.Ok? ==>
      && material in ms && ms[material].quantityInStock >= quantity
      && r.outcome.value == newId
      && r.materials == ms[material := Drawn(ms[material], Deducted(ms[material], quantity), now)]
      && newId in r.consumptions && r.consumptions == cs[newId := r.consumptions[newId]]
      && r.consumptions[newId].quantity == Round2(Deducted(ms[material], quantity))
      && r.consumptions[newId].material == material
      && r.consumptions[newId] == NewConsumption(material, Deducted(ms[material], quantity), reason,
                                                 reasonDescription, consumedBy, notes, now).value
  {
    if material !in ms then Step(ms, cs, Err(MaterialNotFound))
    else
      var m := ms[material];
      if m.unit == MaterialModel.Unidade && Floor(quantity) <= 0 then Step(ms, cs, Err(WholeUnitsRequired))
      else if m.quantityInStock < quantity then Step(ms, cs, Err(InsufficientStock))
      else
        var d := Deducted(m, quantity);
        var c := NewConsumption(material, d, reason, reasonDescription, consumedBy, notes, now);
        if c.Err? then Step(ms, cs, Err(ServerError))
        else Step(ms[material := Drawn(m, d, now)], cs[newId := c.value], Ok(newId))
  }

  /**
   * `deleteMaterialConsumption`: 404 for an unknown record, then 404 when
   * its material is gone; otherwise the recorded quantity goes back into
   * stock and the record is removed.
   */
  function Unconsume(ms: map<Id, Material>, cs: map<Id, Consumption>, id: Id, now: Time): (r: Step<Consumption>)
    ensures id !in cs ==> r == Step(ms, cs, Err(ConsumptionNotFound))
    ensures id in cs && cs[id].material !in ms ==> r == Step(ms, cs, Err(MaterialNotFound))
    ensures id in cs && cs[id].material in ms ==>
      r == Step(ms[cs[id].material := Replenished(ms[cs[id].material], cs[id].quantity, now)], cs - {id}, Ok(cs[id]))
  {
    if id !in cs then Step(ms, cs, Err(ConsumptionNotFound))
    else
      var c := cs[id];
      if c.material !in ms then Step(ms, cs, Err(MaterialNotFound))
      else Step(ms[c.material := Replenished(ms[c.material], c.quantity, now)], cs - {id}, Ok(c))
  }

  /**
   * The clamp at zero never fires: a consumption that passes the stock
   * check deducts at most the stock, so the rounded stock is already
   * non-negative.
   */
  lemma ClampNeverFires(m: Material, quantity: real)
    requires m.quantityInStock >= quantity
    requires m.unit == MaterialModel.Unidade ==> Floor(quantity) > 0
    ensures Round2(m.quantityInStock - Deducted(m, quantity)) >= 0.0
  {
    Round2NonNegative(m.quantityInStock - Deducted(m, quantity));
  }

  /** Replacing one valid material keeps the collection valid. */
  lemma MaterialsValidPut(ms: map<Id, Material>, id: Id, m: Material)
    requires MaterialsValid(ms) && MaterialModel.MaterialValid(m)
    ensures MaterialsValid(ms[id := m])
  {
  }

  /** Adding or replacing one valid record keeps the collection valid. */
  lemma ConsumptionsValidPut(cs: map<Id, Consumption>, id: Id, c: Consumption)
    requires ConsumptionsValid(cs) && ConsumptionValid(c)
    ensures ConsumptionsValid(cs[id := c])
  {
  }

  /** Deleting a consumption leaves only schema-valid documents behind. */
  lemma UnconsumeKeepsValid(ms: map<Id, Material>, cs: map<Id, Consumption>, id: Id, now: Time)
    requires MaterialsValid(ms) && ConsumptionsValid(cs)
    ensures var r := Unconsume(ms, cs, id, now);
            MaterialsValid(r.materials) && ConsumptionsValid(r.consumptions)
  {
    if id in cs && cs[id].material in ms {
      var m := ms[cs[id].material];
      Round2NonNegative(m.quantityInStock + cs[id].quantity);
      MaterialsValidPut(ms, cs[id].material, Replenished(m, cs[id].quantity, now));
    }
  }

  /**
   * Recording a consumption and then deleting it returns the material's
   * stock to its earlier value, when the stock and the requested quantity
   * are whole cents.
   */
  lemma CreateThenDeleteRestoresStock(ms: map<Id, Material>, cs: map<Id, Consumption>, newId: Id, material: Id,
                                      quantity: real, reason: Option<string>, reasonDescription: string,
                                      consumedBy: Id, notes: string, now: Time, later: Time)
    requires material in ms
    requires TwoDecimals(ms[material].quantityInStock) && TwoDecimals(quantity)
    requires Consume(ms, cs, newId, material, quantity, reason, reasonDescription, consumedBy, notes, now).outcome.Ok?
    ensures var created := Consume(ms, cs, newId, material, quantity, reason, reasonDescription, consumedBy, notes, now);
            var deleted := Unconsume(created.materials, created.consumptions, newId, later);
            && deleted.outcome.Ok?
            && deleted.materials.Keys == ms.Keys
            && deleted.materials[material].quantityInStock == ms[material].quantityInStock
  {
    RoundTrip(ms[material], quantity, now, later);
  }

  /** The material-level round trip: draw the deduction, then add the recorded quantity back. */
  lemma RoundTrip(m: Material, quantity: real, now: Time, later: Time)
    requires TwoDecimals(m.quantityInStock) && TwoDecimals(quantity) && m.quantityInStock >= quantity
    ensures var d := Deducted(m, quantity);
            Replenished(Drawn(m, d, now), Round2(d), later).quantityInStock == m.quantityInStock
  {
    ExactDeduction(m, quantity);
    DrawReplenish(m, Deducted(m, quantity), now, later);
  }

  /**
   * Recording a consumption and then deleting it leaves the records as
   * they were, and every other material untouched.
   */
  lemma CreateThenDeleteRestoresRecords(ms: map<Id, Material>, cs: map<Id, Consumption>, newId: Id, material: Id,
                                        quantity: real, reason: Option<string>, reasonDescription: string,
                                        consumedBy: Id, notes: string, now: Time, later: Time)
    requires newId !in cs
    ensures var created := Consume(ms, cs, newId, material, quantity, reason, reasonDescription, consumedBy, notes, now);
            created.outcome.Ok? ==>
              var deleted := Unconsume(created.materials, created.consumptions, newId, later);
              && deleted.consumptions == cs
              && (forall other :: other in ms && other != material ==> deleted.materials[other] == ms[other])
  {
    var created := Consume(ms, cs, newId, material, quantity, reason, reasonDescription, consumedBy, notes, now);
    if created.outcome.Ok? {
      var c := created.consumptions[newId];
      assert created.consumptions == cs[newId := c];
      assert c.material == material;
      var drawn := Drawn(ms[material], Deducted(ms[material], quantity), now);
      assert created.materials == ms[material := drawn];
      var deleted := Unconsume(created.materials, created.consumptions, newId, later);
      var back := Replenished(drawn, c.quantity, later);
      assert deleted == Step(ms[material := drawn][material := back], cs[newId := c] - {newId}, Ok(c));
      PutThenRemove(ms, cs, newId, material, drawn, back, c);
    }
  }

  /** A record added and removed again leaves the records as they were; a key written twice leaves the others alone. */
  lemma PutThenRemove(ms: map<Id, Material>, cs: map<Id, Consumption>, newId: Id, material: Id,
                      m1: Material, m2: Material, c: Consumption)
    requires newId !in cs
    ensures cs[newId := c] - {newId} == cs
    ensures forall other :: other in ms && other != material ==> ms[material := m1][material := m2][other] == ms[other]
  {
  }

  /** Drawing whole cents out of a whole-cent stock and putting them back restores it. */
  lemma DrawReplenish(m: Material, d: real, now: Time, later: Time)
    requires TwoDecimals(m.quantityInStock)
    requires Round2(m.quantityInStock - d) == m.quantityInStock - d >= 0.0 && Round2(d) == d
    ensures Replenished(Drawn(m, d, now), Round2(d), later).quantityInStock == m.quantityInStock
  {
    var drawn := Drawn(m, d, now);
    assert drawn.quantityInStock == m.quantityInStock - d;
    assert (m.quantityInStock - d) + d == m.quantityInStock;
    Round2Exact(m.quantityInStock);
  }

  /**
   * With whole-cent stock and request, the deduction is whole cents, is
   * stored unchanged by the rounding setter, and the drawn stock is exact.
   */
  lemma ExactDeduction(m: Material, quantity: real)
    requires TwoDecimals(m.quantityInStock) && TwoDecimals(quantity)
    requires m.quantityInStock >= quantity
    ensures var d := Deducted(m, quantity);
            TwoDecimals(d) && Round2(d) == d && Round2(m.quantityInStock - d) == m.quantityInStock - d
            && m.quantityInStock - d >= 0.0
  {
    var d := Deducted(m, quantity);
    assert TwoDecimals(d) by {
      if m.unit == MaterialModel.Unidade {
        IntTwoDecimals(Floor(quantity));
      }
    }
    TwoDecimalsClosed(m.quantityInStock, d);
    Round2Exact(m.quantityInStock - d);
    Round2Exact(d);
  }

  /** Five units in stock, 2.7 requested: 2 are recorded and 3 remain. */
  lemma WholeUnitsExample(m: Material, cs: map<Id, Consumption>, now: Time)
    requires MaterialModel.MaterialValid(m) && m.unit == MaterialModel.Unidade && m.quantityInStock == 5.0
    ensures var r := Consume(map[3 := m], cs, 9, 3, 2.7, None, "", 1, "", now);
            && r.outcome == Ok(9)
            && r.consumptions[9].quantity == 2.0
            && r.materials[3].quantityInStock == 3.0
  {
    assert Floor(2.7) == 2;
    assert Round2(2.0) == 2.0 by { IntTwoDecimals(2); Round2Exact(2.0); }
    assert Round2(5.0 - 2.0) == 3.0 by { IntTwoDecimals(3); Round2Exact(3.0); }
  }

  /** A request whose quantity exceeds the stock is refused even when its whole part would fit. */
  lemma StockCheckBeforeFlooring(m: Material, cs: map<Id, Consumption>, now: Time)
    requires m.unit == MaterialModel.Unidade && m.quantityInStock == 2.5
    ensures Consume(map[3 := m], cs, 9, 3, 2.7, None, "", 1, "", now).outcome == Err(InsufficientStock)
  {
    assert Floor(2.7) == 2;
  }

  /** `createMaterialConsumption` on the store. */
  method CreateConsumption(db: Db, material: Id, quantity: real, reason: Option<string>, reasonDescription: string,
                           consumedBy: Id, notes: string, now: Time) returns (r: Result<Id, ConsumptionError>)
    requires db.Valid()
    modifies db`materials, db`consumptions, db`nextId
    ensures db.Valid()
    ensures Step(db.materials, db.consumptions, r)
            == Consume(old(db.materials), old(db.consumptions), old(db.nextId), material, quantity, reason,
                       reasonDescription, consumedBy, notes, now)
  {
    ghost var step := Consume(db.materials, db.consumptions, db.nextId, material, quantity, reason,
                              reasonDescription, consumedBy, notes, now);
    if material !in db.materials {
      return Err(MaterialNotFound);
    }
    var m := db.materials[material];
    if m.unit == MaterialModel.Unidade {
      var whole := Floor(quantity);
      if whole <= 0 {
        assert step.outcome == Err(WholeUnitsRequired);
        return Err(WholeUnitsRequired);
      }
    }
    if m.quantityInStock < quantity {
      assert step.outcome == Err(InsufficientStock);
      return Err(InsufficientStock);
    }
    var d := if m.unit == MaterialModel.Unidade then Floor(quantity) as real else quantity;
    assert d == Deducted(m, quantity);
    var created := NewConsumption(material, d, reason, reasonDescription, consumedBy, notes, now);
    if created.Err? {
      assert step.outcome == Err(ServerError);
      return Err(ServerError);
    }
    assert step == Step(db.materials[material := Drawn(m, d, now)], db.consumptions[db.nextId := created.value], Ok(db.nextId));
    r := RecordConsumption(db, material, d, created.value, now);
  }

  /** The new record under a fresh id, then the material's stock drawn. */
  method RecordConsumption(db: Db, material: Id, d: real, c: Consumption, now: Time) returns (r: Result<Id, ConsumptionError>)
    requires db.Valid() && material in db.materials && ConsumptionValid(c)
    modifies db`materials, db`consumptions, db`nextId
    ensures db.Valid()
    ensures r == Ok(old(db.nextId))
    ensures db.consumptions == old(db.consumptions)[old(db.nextId) := c]
    ensures db.materials == old(db.materials)[material := Drawn(old(db.materials[material]), d, now)]
  {
    var id := db.NewId();
    ConsumptionsValidPut(db.consumptions, id, c);
    db.consumptions := db.consumptions[id := c];
    DrawStock(db, material, d, now);
    r := Ok(id);
  }

  /** The stock update of `createMaterialConsumption`: deduct, round, clamp at zero, save. */
  method DrawStock(db: Db, material: Id, deducted: real, now: Time)
    requires material in db.materials && MaterialsValid(db.materials)
    modifies db`materials
    ensures MaterialsValid(db.materials)
    ensures db.materials == old(db.materials)[material := Drawn(old(db.materials[material]), deducted, now)]
  {
    var m := db.materials[material];
    var drawn := m.(quantityInStock := Round2(m.quantityInStock - deducted));
    if drawn.quantityInStock < 0.0 {
      drawn := drawn.(quantityInStock := 0.0);
    }
    drawn := MaterialModel.Touch(drawn, now);
    assert drawn == Drawn(m, deducted, now);
    MaterialsValidPut(db.materials, material, drawn);
    db.materials := db.materials[material := drawn];
  }

  /** `deleteMaterialConsumption` on the store. */
  method DeleteConsumption(db: Db, id: Id, now: Time) returns (r: Result<Consumption, ConsumptionError>)
    requires db.Valid()
    modifies db`materials, db`consumptions
    ensures db.Valid()
    ensures Step(db.materials, db.consumptions, r) == Unconsume(old(db.materials), old(db.consumptions), id, now)
  {
    UnconsumeKeepsValid(db.materials, db.consumptions, id, now);
    if id !in db.consumptions {
      return Err(ConsumptionNotFound);
    }
    var c := db.consumptions[id];
    if c.material !in db.materials {
      return Err(MaterialNotFound);
    }
    var m := db.materials[c.material];
    db.materials := db.materials[c.material := MaterialModel.Touch(m.(quantityInStock := Round2(m.quantityInStock + c.quantity)), now)];
    db.consumptions := db.consumptions - {id};
    r := Ok(c);
  }
}
