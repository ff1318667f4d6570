/** The Material schema: a raw material kept in stock, with category and unit enums. */
module MaterialModel {
  import opened Refs
  import opened Wrappers
  import opened Text

  datatype Category = Cone | Cobertura | Topping | Embalagem | Utensilio | OutroCategoria

  datatype Unit = Unidade | Kg | Litro | Pacote | Caixa

  function ParseCategory(s: string): (r: Option<Category>)
    ensures r.Some? <==> s in {"cone", "cobertura", "topping", "embalagem", "utensilio", "outro"}
    ensures r == Some(Cone) <==> s == "cone"
  {
    match s
    case "cone" => Some(Cone)
    case "cobertura" => Some(Cobertura)
    case "topping" => Some(Topping)
    case "embalagem" => Some(Embalagem)
    case "utensilio" => Some(Utensilio)
    case "outro" => Some(OutroCategoria)
    case _ => None
  }

  function ParseUnit(s: string): (r: Option<Unit>)
    ensures r.Some? <==> s in {"unidade", "kg", "litro", "pacote", "caixa"}
    ensures r == Some(Unidade) <==> s == "unidade"
  {
    match s
    case "unidade" => Some(Unidade)
    case "kg" => Some(Kg)
    case "litro" => Some(Litro)
    case "pacote" => Some(Pacote)
    case "caixa" => Some(Caixa)
    case _ => None
  }

  datatype Material = Material(
    name: string,
    category: Category,
    unit: Unit,
    costPerUnit: real,
    quantityInStock: real,
    minimumStock: real,
    supplier: string,
    updatedAt: Time)

  /** The schema validators on numbers; category and unit are enums by type. */
  predicate MaterialValid(m: Material)
  {
    m.name != "" && m.costPerUnit >= 0.0 && m.quantityInStock >= 0.0 && m.minimumStock >= 0.0
  }

  /** The fields of a create request, as the body carries them ("" or None when absent). */
  datatype MaterialInput = MaterialInput(
    name: string,
    category: string,
    unit: string,
    costPerUnit: Option<real>,
    quantityInStock: Option<real>,
    minimumStock: Option<real>,
    supplier: string)

  /** What `Material.create` accepts. */
  predicate InputValid(input: MaterialInput)
  {
    && Trim(input.name) != ""
    && ParseCategory(input.category).Some?
    && (input.unit == "" || ParseUnit(input.unit).Some?)
    && input.costPerUnit.Some? && input.costPerUnit.value >= 0.0
    && (input.quantityInStock.None? || input.quantityInStock.value >= 0.0)
    && (input.minimumStock.None? || input.minimumStock.value >= 0.0)
  }

  /**
   * `Material.create`: trim setters, defaults (`unit` "unidade", stock 0,
   * minimum 0), the enums, the required cost and the minimums.
   */
  function NewMaterial(input: MaterialInput, now: Time): (r: Result<Material, string>)
    ensures r.Ok? <==> InputValid(input)
    ensures r.Ok? ==> MaterialValid(r.value) && r.value.updatedAt == now
    ensures r.Ok? && input.unit == "" ==> r.value.unit == Unidade
    ensures r.Ok? ==> r.value.quantityInStock == (if input.quantityInStock.Some? then input.quantityInStock.value else 0.0)
    ensures r.Ok? ==> && r.value.name == Trim(input.name) && r.value.supplier == Trim(input.supplier)
                      && Some(r.value.category) == ParseCategory(input.category)
                      && (input.unit != "" ==> Some(r.value.unit) == ParseUnit(input.unit))
                      && r.value.costPerUnit == input.costPerUnit.value
                      && r.value.minimumStock == (if input.minimumStock.Some? then input.minimumStock.value else 0.0)
  {
    var category := ParseCategory(input.category);
    var unit := if input.unit == "" then Some(Unidade) else ParseUnit(input.unit);
    if category.None? || unit.None? || input.costPerUnit.None? then Err("ValidationError")
    else
      var m := Material(Trim(input.name), category.value, unit.value, input.costPerUnit.value,
                        if input.quantityInStock.Some? then input.quantityInStock.value else 0.0,
                        if input.minimumStock.Some? then input.minimumStock.value else 0.0,
                        Trim(input.supplier), now);
      assert MaterialValid(m) <==> InputValid(input);
      if MaterialValid(m) then Ok(m) else Err("ValidationError")
  }

  /** The pre-save hook: every save refreshes `updatedAt` and nothing else. */
  function Touch(m: Material, now: Time): (r: Material)
    ensures r.updatedAt == now
    ensures r.(updatedAt := m.updatedAt) == m
    ensures MaterialValid(r) == MaterialValid(m)
  {
    m.(updatedAt := now)
  }
}
