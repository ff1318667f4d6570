/** The Sale schema: a priced sale with its line items and payment state. */
module SaleModel {
  import opened Refs
  import opened Wrappers

  datatype PaymentMethod = Dinheiro | CartaoDebito | CartaoCredito | Pix | Boleto | MethodPendente

  /**
   * The stored payment status. `NoStatus` is a document whose status was
   * assigned `undefined`: the field is removed, and the enum validator does
   * not look at an absent value.
   */
  datatype PaymentStatus = Pago | Pendente | NoStatus

  datatype SaleStatus = SalePendente | Concluida | Cancelada

  function ParsePaymentMethod(s: string): (r: Option<PaymentMethod>)
    ensures r.Some? <==> s in {"dinheiro", "cartao_debito", "cartao_credito", "pix", "boleto", "pendente"}
  {
    match s
    case "dinheiro" => Some(Dinheiro)
    case "cartao_debito" => Some(CartaoDebito)
    case "cartao_credito" => Some(CartaoCredito)
    case "pix" => Some(Pix)
    case "boleto" => Some(Boleto)
    case "pendente" => Some(MethodPendente)
    case _ => None
  }

  function ParsePaymentStatus(s: string): (r: Option<PaymentStatus>)
    ensures r == Some(Pago) <==> s == "pago"
    ensures r == Some(Pendente) <==> s == "pendente"
    ensures r.None? <==> s != "pago" && s != "pendente"
  {
    match s
    case "pago" => Some(Pago)
    case "pendente" => Some(Pendente)
    case _ => None
  }

  /** A material consumed by one line item: total quantity and its cost. */
  datatype MaterialUse = MaterialUse(material: Id, quantity: real, cost: real)

  /** A `materialsUsed` entry takes quantity 1 and cost 0 when they are absent. */
  function NewMaterialUse(material: Id, quantity: Option<real>, cost: Option<real>): (r: MaterialUse)
    ensures r.material == material
    ensures r.quantity == (if quantity.None? then 1.0 else quantity.value)
    ensures r.cost == (if cost.None? then 0.0 else cost.value)
  {
    MaterialUse(material, if quantity.None? then 1.0 else quantity.value,
                if cost.None? then 0.0 else cost.value)
  }

  datatype SaleItem = SaleItem(
    product: Id,
    quantity: int,
    unitPrice: real,
    subtotal: real,
    materialsUsed: seq<MaterialUse>)

  datatype Sale = Sale(
    client: Id,
    items: seq<SaleItem>,
    totalAmount: real,
    totalCost: real,
    materialsCost: real,
    grossProfit: real,
    netProfit: real,
    seller: Id,
    paymentMethod: PaymentMethod,
    paymentStatus: PaymentStatus,
    paidAt: Option<Time>,
    status: SaleStatus,
    saleDate: Time)

  /**
   * The status a loaded document shows. Mongoose fills an absent field with
   * the schema default "pago" when it reads a document back, so only a
   * stored "pendente" reads as pending.
   */
  function ReadStatus(st: PaymentStatus): (r: PaymentStatus)
    ensures r != NoStatus
    ensures r == Pendente <==> st == Pendente
  {
    if st == Pendente then Pendente else Pago
  }

  /** A stored sale as `findById` returns it: the same document with its status read back. */
  function Loaded(s: Sale): (r: Sale)
    ensures r.paymentStatus == ReadStatus(s.paymentStatus)
    ensures r.(paymentStatus := s.paymentStatus) == s
    ensures s.paymentStatus != NoStatus ==> r == s
  {
    s.(paymentStatus := ReadStatus(s.paymentStatus))
  }

  /** The schema's minimums: item quantity at least 1, non-negative totals. */
  predicate SaleValid(s: Sale)
  {
    && (forall i :: 0 <= i < |s.items| ==> s.items[i].quantity >= 1)
    && s.totalAmount >= 0.0 && s.totalCost >= 0.0 && s.materialsCost >= 0.0
  }

  /**
   * `Sale.create`: the string fields are cast to their enums ("" takes the
   * default: "dinheiro", "pago"), `status` defaults to "concluida", and the
   * validators decide. Profits carry no bound.
   */
  function NewSale(client: Id, items: seq<SaleItem>, totalAmount: real, totalCost: real,
                   materialsCost: real, grossProfit: real, netProfit: real, seller: Id,
                   paymentMethod: string, paymentStatus: string, paidAt: Option<Time>,
                   now: Time): (r: Result<Sale, string>)
    ensures r.Ok? <==>
      && (paymentMethod == "" || ParsePaymentMethod(paymentMethod).Some?)
      && (paymentStatus == "" || ParsePaymentStatus(paymentStatus).Some?)
      && (forall i :: 0 <= i < |items| ==> items[i].quantity >= 1)
      && totalAmount >= 0.0 && totalCost >= 0.0 && materialsCost >= 0.0
    ensures r.Ok? ==> SaleValid(r.value) && r.value.status == Concluida && r.value.saleDate == now
    ensures r.Ok? && paymentMethod == "" ==> r.value.paymentMethod == Dinheiro
    ensures r.Ok? ==> (r.value.paymentStatus == Pago <==> paymentStatus in {"", "pago"})
  {
    var pm := if paymentMethod == "" then Some(Dinheiro) else ParsePaymentMethod(paymentMethod);
    var ps := if paymentStatus == "" then Some(Pago) else ParsePaymentStatus(paymentStatus);
    if pm.None? || ps.None? then Err("ValidationError")
    else
      var s := Sale(client, items, totalAmount, totalCost, materialsCost, grossProfit, netProfit,
                    seller, pm.value, ps.value, paidAt, Concluida, now);
      if SaleValid(s) then Ok(s) else Err("ValidationError")
  }
}
