/** The MaterialConsumption schema: a ledger entry that takes stock from a material. */
module ConsumptionModel {
  import opened Refs
  import opened Wrappers
  import opened Numeric
  import opened Text

  datatype Reason = UsoProducao | PerdaQuebras | Vencimento | TesteQualidade | OutroMotivo

  function ParseReason(s: string): (r: Option<Reason>)
    ensures r.Some? <==> s in {"uso_producao", "perda_quebras", "vencimento", "teste_qualidade", "outro"}
  {
    match s
    case "uso_producao" => Some(UsoProducao)
    case "perda_quebras" => Some(PerdaQuebras)
    case "vencimento" => Some(Vencimento)
    case "teste_qualidade" => Some(TesteQualidade)
    case "outro" => Some(OutroMotivo)
    case _ => None
  }

  datatype Consumption = Consumption(
    material: Id,
    quantity: real,
    reason: Reason,
    reasonDescription: string,
    consumedBy: Id,
    consumptionDate: Time,
    notes: string)

  /** The stored quantity is rounded to cents and at least 0.01. */
  predicate ConsumptionValid(c: Consumption)
  {
    c.quantity >= 0.01 && TwoDecimals(c.quantity)
  }

  /**
   * `MaterialConsumption.create`: `reason` defaults to "uso_producao" when
   * absent and is trimmed and checked against the enum otherwise; the
   * quantity setter rounds to cents.
   */
  function NewConsumption(material: Id, quantity: real, reason: Option<string>, reasonDescription: string,
                          consumedBy: Id, notes: string, now: Time): (r: Result<Consumption, string>)
    ensures r.Ok? <==> Round2(quantity) >= 0.01 && (reason.None? || ParseReason(Trim(reason.value)).Some?)
    ensures r.Ok? ==> ConsumptionValid(r.value) && r.value.quantity == Round2(quantity)
                      && r.value.material == material && r.value.consumptionDate == now
    ensures r.Ok? && reason.None? ==> r.value.reason == UsoProducao
  {
    var why := if reason.None? then Some(UsoProducao) else ParseReason(Trim(reason.value));
    if why.None? then Err("ValidationError")
    else
      var c := Consumption(material, Round2(quantity), why.value, Trim(reasonDescription), consumedBy, now, Trim(notes));
      if ConsumptionValid(c) then Ok(c) else Err("ValidationError")
  }
}
