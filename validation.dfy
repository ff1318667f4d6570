/**
 * The request validation chains: each chain is a list of checks on the
 * fields of the request body, and a request goes on to its handler only
 * when every check passes. `isEmail` comes from the validator library and
 * is a parameter.
 */
module Validation {
  import opened Refs
  import opened Wrappers
  import opened Text
  import opened Lengths
  import opened Security
  import opened MaterialModel
  import opened UserModel

  /** `req.body[name]`, `Undefined` when the body has no such field. */
  function Field(body: Json, name: string): Json
  {
    if body.Obj? && Lookup(body.fields, name).Some? then Lookup(body.fields, name).value else Undefined
  }

  /**
   * The text a string rule sees: strings as they are, null and undefined as
   * the empty string, booleans and objects by their string forms. A number
   * or an array in a string rule is not modelled and reads as `None`.
   */
  function AsText(v: Json): Option<string>
  {
    match v
    case Str(s) => Some(s)
    case Null => Some("")
    case Undefined => Some("")
    case Bool(b) => Some(if b then "true" else "false")
    case Obj(_) => Some("[object Object]")
    case _ => None
  }

  /** The string form of a value read by a string rule, "" where the model does not give one. */
  function TextOf(v: Json): string
  {
    if AsText(v).Some? then AsText(v).value else ""
  }

  predicate IsDigit(c: char)
  {
    '0' as int <= c as int <= '9' as int
  }

  predicate AllDigits(ds: string)
  {
    forall i :: 0 <= i < |ds| ==> IsDigit(ds[i])
  }

  function DigitsValue(ds: string): (n: nat)
    requires AllDigits(ds)
  {
    if ds == [] then 0
    else
      assert IsDigit(ds[|ds| - 1]);
      10 * DigitsValue(ds[..|ds| - 1]) + (ds[|ds| - 1] as int - '0' as int)
  }

  function Pow10(n: nat): (r: nat)
    ensures r >= 1
  {
    if n == 0 then 1 else 10 * Pow10(n - 1)
  }

  /**
   * The value of the digits after a decimal point: their integer value
   * over `10^|ds|`, so ".25" is 25/100. It lies in [0, 1).
   */
  function FractionValue(ds: string): (x: real)
    requires AllDigits(ds)
    ensures 0.0 <= x < 1.0
  {
    DigitsBelowPow10(ds);
    Below(DigitsValue(ds), Pow10(|ds|));
    DigitsValue(ds) as real / Pow10(|ds|) as real
  }

  /** Trailing zeros after the point do not change the value: ".5" and ".50" read the same. */
  lemma TrailingZeroFraction(ds: string)
    requires AllDigits(ds)
    ensures AllDigits(ds + "0") && FractionValue(ds + "0") == FractionValue(ds)
  {
    var ds0 := ds + "0";
    assert ds0[..|ds0| - 1] == ds;
    assert DigitsValue(ds0) == 10 * DigitsValue(ds);
    assert Pow10(|ds0|) == 10 * Pow10(|ds|);
    ScaleBoth(DigitsValue(ds), Pow10(|ds|));
  }

  lemma ScaleBoth(n: nat, p: nat)
    requires p > 0
    ensures (10 * n) as real / (10 * p) as real == n as real / p as real
  {
    assert (10 * n) as real == 10.0 * n as real && (10 * p) as real == 10.0 * p as real;
  }

  /** `n` digits are worth less than `10^n`. */
  lemma {:induction false} DigitsBelowPow10(ds: string)
    requires AllDigits(ds)
    ensures DigitsValue(ds) < Pow10(|ds|)
  {
    if ds != [] {
      DigitsBelowPow10(ds[..|ds| - 1]);
      assert IsDigit(ds[|ds| - 1]);
    }
  }

  /** A smaller natural number over a positive one is a fraction in [0, 1). */
  lemma Below(n: nat, p: nat)
    requires n < p
    ensures 0.0 <= n as real / p as real < 1.0
  {
    assert n as real < p as real;
  }

  /** `[-+]?[0-9]+`: the integer syntax the integer rule accepts, and its value. */
  function ParseInt(s: string): (r: Option<int>)
    ensures r.Some? && s != [] && s[0] != '-' ==> r.value >= 0
  {
    var sign := if s != [] && (s[0] == '-' || s[0] == '+') then 1 else 0;
    var ds := s[sign..];
    if ds == [] || !AllDigits(ds) then None
    else if sign == 1 && s[0] == '-' then Some(-(DigitsValue(ds) as int))
    else Some(DigitsValue(ds))
  }

  /** The index of the first `.` in `s`, or `|s|` when there is none. */
  function DotIndex(s: string): (i: nat)
    ensures i <= |s| && (i < |s| ==> s[i] == '.') && (forall m :: 0 <= m < i ==> s[m] != '.')
  {
    if s == [] then 0 else if s[0] == '.' then 0 else 1 + DotIndex(s[1..])
  }

  /**
   * The decimal syntax of the float rule without an exponent: an optional
   * sign, digits, an optional point with digits, at least one digit in all.
   */
  function ParseDecimal(s: string): (r: Option<real>)
    ensures r.Some? && s != [] && s[0] != '-' ==> r.value >= 0.0
  {
    var sign := if s != [] && (s[0] == '-' || s[0] == '+') then 1 else 0;
    var x := UnsignedDecimal(s[sign..]);
    if x.Some? && sign == 1 && s[0] == '-' then Some(-x.value) else x
  }

  /** The same syntax once the sign is taken off. */
  function UnsignedDecimal(body: string): (r: Option<real>)
    ensures r.Some? ==> r.value >= 0.0
  {
    var dot := DotIndex(body);
    var whole := body[..dot];
    var frac := if dot < |body| then body[dot + 1..] else [];
    if whole == [] && frac == [] then None
    else if !AllDigits(whole) || !AllDigits(frac) then None
    else Some(DigitsValue(whole) as real + FractionValue(frac))
  }

  /**
   * A digit string reads as its value, unsigned or after `+`, and as its
   * negation after `-`.
   */
  lemma ParseIntValue(ds: string)
    requires ds != [] && AllDigits(ds)
    ensures ParseInt(ds) == Some(DigitsValue(ds) as int)
    ensures ParseInt("+" + ds) == Some(DigitsValue(ds) as int)
    ensures ParseInt("-" + ds) == Some(-(DigitsValue(ds) as int))
  {
    assert IsDigit(ds[0]);
    assert ("+" + ds)[1..] == ds;
    assert ("-" + ds)[1..] == ds;
  }

  /** The first point of `w + "." + f`, for digits `w`, is the one after `w`. */
  lemma DotAfterDigits(w: string, f: string)
    requires AllDigits(w)
    ensures DotIndex(w + "." + f) == |w|
  {
    var s := w + "." + f;
    assert s[|w|] == '.';
    assert forall m :: 0 <= m < |w| ==> s[m] == w[m];
  }

  /** A digit string has no point. */
  lemma DotAbsent(w: string)
    requires AllDigits(w)
    ensures DotIndex(w) == |w|
  {
  }

  /** Whole digits, a point and fraction digits read as the whole part plus the fraction. */
  lemma UnsignedDecimalValue(w: string, f: string)
    requires AllDigits(w) && AllDigits(f) && w + f != []
    ensures UnsignedDecimal(w + "." + f) == Some(DigitsValue(w) as real + FractionValue(f))
  {
    var s := w + "." + f;
    DotAfterDigits(w, f);
    assert s[..|w|] == w && s[|w| + 1..] == f;
  }

  /**
   * Digits, a point and digits read as the whole part plus the fraction;
   * digits alone read as their value. `SignedDecimal` gives the negated
   * forms.
   */
  lemma ParseDecimalValue(w: string, f: string)
    requires AllDigits(w) && AllDigits(f) && w + f != []
    ensures ParseDecimal(w + "." + f) == Some(DigitsValue(w) as real + FractionValue(f))
    ensures w != [] ==> ParseDecimal(w) == Some(DigitsValue(w) as real)
  {
    UnsignedDecimalValue(w, f);
    SignedDecimal(w + "." + f);
    if w != [] {
      DecimalAgreesWithInt(w);
      ParseIntValue(w);
    }
  }

  /** A string that starts with a digit or a point reads as its unsigned form, and negated after `-`. */
  lemma SignedDecimal(s: string)
    requires s != [] && (IsDigit(s[0]) || s[0] == '.')
    ensures ParseDecimal(s) == UnsignedDecimal(s)
    ensures UnsignedDecimal(s).Some? ==> ParseDecimal("-" + s) == Some(-UnsignedDecimal(s).value)
  {
    assert s[0] != '-' && s[0] != '+';
    assert s[0..] == s;
    var t := "-" + s;
    assert t[0] == '-' && t[1..] == s;
  }

  /** Whatever the integer rule reads, the decimal rule reads as the same number. */
  lemma DecimalAgreesWithInt(s: string)
    requires ParseInt(s).Some?
    ensures ParseDecimal(s) == Some(ParseInt(s).value as real)
  {
    var sign := if s != [] && (s[0] == '-' || s[0] == '+') then 1 else 0;
    var ds := s[sign..];
    DotAbsent(ds);
    assert ds[..|ds|] == ds;
    assert UnsignedDecimal(ds) == Some(DigitsValue(ds) as real + FractionValue([]));
  }

  /** The number a numeric rule reads: a JSON number, or a string in decimal syntax. */
  function NumberOf(v: Json): Option<real>
  {
    match v
    case Num(n) => Some(n)
    case Str(s) => ParseDecimal(s)
    case _ => None
  }

  /** `isFloat({ min })` */
  predicate FloatAtLeast(v: Json, min: real)
  {
    NumberOf(v).Some? && NumberOf(v).value >= min
  }

  /** `isInt({ min })`: a whole JSON number, or a string in integer syntax. */
  predicate IntAtLeast(v: Json, min: int)
  {
    match v
    case Num(n) => n == n.Floor as real && n >= min as real
    case Str(s) => ParseInt(s).Some? && ParseInt(s).value >= min
    case _ => false
  }

  /** `trim()` followed by `isLength({ min, max })`, which counts as `IsLengthCount` does. */
  predicate TrimmedLength(v: Json, min: nat, max: nat)
  {
    AsText(v).Some? && min <= IsLengthCount(Trim(AsText(v).value)) <= max
  }

  /** `isLength({ min })` without trimming. */
  predicate MinLength(v: Json, min: nat)
  {
    AsText(v).Some? && IsLengthCount(AsText(v).value) >= min
  }

  /** `notEmpty()` */
  predicate NotEmpty(v: Json)
  {
    AsText(v).Some? && AsText(v).value != ""
  }

  /** `isIn(list)` */
  predicate IsIn(v: Json, list: set<string>)
  {
    AsText(v).Some? && AsText(v).value in list
  }

  predicate Email(v: Json, isEmail: string -> bool)
  {
    AsText(v).Some? && isEmail(AsText(v).value)
  }

  /** One check of a chain: the field it reports and whether it passed. */
  datatype Check = Check(field: string, ok: bool)

  /** `validationResult(req)`: the fields of the failing checks, in chain order. */
  function Errors(checks: seq<Check>): (errors: seq<string>)
    ensures errors == [] <==> forall i :: 0 <= i < |checks| ==> checks[i].ok
    ensures |errors| <= |checks|
  {
    if checks == [] then []
    else
      var rest := Errors(checks[1..]);
      assert forall i :: 1 <= i < |checks| ==> checks[i] == checks[1..][i - 1];
      if checks[0].ok then rest else [checks[0].field] + rest
  }

  datatype Gate = Next | BadRequest(errors: seq<string>)

  /** `handleValidationErrors`: 400 with the list of errors, or on to the handler. */
  function HandleValidationErrors(checks: seq<Check>): (g: Gate)
    ensures g.Next? <==> forall i :: 0 <= i < |checks| ==> checks[i].ok
    ensures g.BadRequest? ==> g.errors != [] && g.errors == Errors(checks)
  {
    var errors := Errors(checks);
    if errors == [] then Next else BadRequest(errors)
  }

  function RegisterChecks(body: Json, isEmail: string -> bool): seq<Check>
  {
    [ Check("name", TrimmedLength(Field(body, "name"), 2, 50)),
      Check("email", Email(Field(body, "email"), isEmail)),
      Check("password", MinLength(Field(body, "password"), 6)) ]
  }

  function LoginChecks(body: Json, isEmail: string -> bool): seq<Check>
  {
    [ Check("email", Email(Field(body, "email"), isEmail)),
      Check("password", NotEmpty(Field(body, "password"))) ]
  }

  function ProductChecks(body: Json): seq<Check>
  {
    [ Check("name", TrimmedLength(Field(body, "name"), 2, 100)),
      Check("price", FloatAtLeast(Field(body, "price"), 0.0)),
      Check("costPrice", FloatAtLeast(Field(body, "costPrice"), 0.0)),
      Check("stock", IntAtLeast(Field(body, "stock"), 0)) ]
  }

  function ClientChecks(body: Json, isEmail: string -> bool): seq<Check>
  {
    [ Check("name", TrimmedLength(Field(body, "name"), 2, 100)),
      Check("email", Email(Field(body, "email"), isEmail)),
      Check("phone", AsText(Field(body, "phone")).Some? && IsLengthCount(Trim(AsText(Field(body, "phone")).value)) >= 10) ]
  }

  /** The item checks of `items.*.product` and `items.*.quantity`, one pair per array element. */
  function ItemChecks(items: seq<Json>): (checks: seq<Check>)
    ensures |checks| == 2 * |items|
    ensures forall i :: 0 <= i < |items| ==>
              checks[2 * i] == Check("items.*.product", NotEmpty(Field(items[i], "product")))
              && checks[2 * i + 1] == Check("items.*.quantity", IntAtLeast(Field(items[i], "quantity"), 1))
  {
    if items == [] then []
    else
      var last := items[|items| - 1];
      ItemChecks(items[..|items| - 1])
      + [Check("items.*.product", NotEmpty(Field(last, "product"))),
         Check("items.*.quantity", IntAtLeast(Field(last, "quantity"), 1))]
  }

  function SaleChecks(body: Json): seq<Check>
  {
    var items := Field(body, "items");
    [ Check("client", NotEmpty(Field(body, "client"))),
      Check("items", items.Arr? && |items.items| >= 1) ]
    + (if items.Arr? then ItemChecks(items.items) else [])
  }

  const Categories: set<string> := {"cone", "cobertura", "topping", "embalagem", "utensilio", "outro"}
  const Units: set<string> := {"unidade", "kg", "litro", "pacote", "caixa"}
  const Roles: set<string> := {"admin", "vendedor", "cliente"}

  function MaterialChecks(body: Json): seq<Check>
  {
    [ Check("name", TrimmedLength(Field(body, "name"), 2, 100)),
      Check("category", IsIn(Field(body, "category"), Categories)),
      Check("costPerUnit", FloatAtLeast(Field(body, "costPerUnit"), 0.0)),
      Check("quantityInStock", FloatAtLeast(Field(body, "quantityInStock"), 0.0)),
      Check("unit", Field(body, "unit").Undefined? || IsIn(Field(body, "unit"), Units)) ]
  }

  function CreateUserChecks(body: Json, isEmail: string -> bool): seq<Check>
  {
    var phone := Field(body, "phone");
    [ Check("name", TrimmedLength(Field(body, "name"), 2, 100)),
      Check("email", Email(Field(body, "email"), isEmail)),
      Check("password", MinLength(Field(body, "password"), 6)),
      Check("role", Field(body, "role").Undefined? || IsIn(Field(body, "role"), Roles)),
      Check("phone", phone.Undefined? || (AsText(phone).Some? && IsLengthCount(Trim(AsText(phone).value)) >= 10)) ]
  }

  function ForgotPasswordChecks(body: Json, isEmail: string -> bool): seq<Check>
  {
    [ Check("email", Email(Field(body, "email"), isEmail)) ]
  }

  function ResetPasswordChecks(body: Json): seq<Check>
  {
    [ Check("password", MinLength(Field(body, "password"), 6)) ]
  }

  /** One sale item as the chain wants it: a product and a whole quantity of at least 1. */
  predicate ItemOk(item: Json)
  {
    NotEmpty(Field(item, "product")) && IntAtLeast(Field(item, "quantity"), 1)
  }

  /** Every check of a chain passed. */
  predicate AllOk(checks: seq<Check>)
  {
    forall i :: 0 <= i < |checks| ==> checks[i].ok
  }

  lemma AllOkConcat(a: seq<Check>, b: seq<Check>)
    ensures AllOk(a + b) <==> AllOk(a) && AllOk(b)
  {
    if AllOk(a) && AllOk(b) {
      forall i | 0 <= i < |a + b| ensures (a + b)[i].ok {
        if i >= |a| { assert (a + b)[i] == b[i - |a|]; }
      }
    }
    if AllOk(a + b) {
      forall i | 0 <= i < |a| ensures a[i].ok {
        assert (a + b)[i] == a[i];
      }
      forall i | 0 <= i < |b| ensures b[i].ok {
        assert (a + b)[i + |a|] == b[i];
      }
    }
  }

  /** The item checks all pass exactly when every item is well formed. */
  lemma {:induction false} ItemChecksMeaning(items: seq<Json>)
    ensures AllOk(ItemChecks(items)) <==> forall i :: 0 <= i < |items| ==> ItemOk(items[i])
  {
    if items != [] {
      var init := items[..|items| - 1];
      var last := items[|items| - 1];
      var pair := [Check("items.*.product", NotEmpty(Field(last, "product"))),
                   Check("items.*.quantity", IntAtLeast(Field(last, "quantity"), 1))];
      assert ItemChecks(items) == ItemChecks(init) + pair;
      ItemChecksMeaning(init);
      AllOkConcat(ItemChecks(init), pair);
      assert AllOk(pair) <==> ItemOk(last) by {
        assert pair[0].ok && pair[1].ok <==> ItemOk(last);
      }
      assert forall i :: 0 <= i < |init| ==> init[i] == items[i];
    }
  }

  /** A sale body passes exactly when it names a client and lists at least one item, each with a product and a whole quantity of at least 1. */
  lemma SaleChecksMeaning(body: Json)
    ensures HandleValidationErrors(SaleChecks(body)).Next? <==>
              && NotEmpty(Field(body, "client"))
              && Field(body, "items").Arr? && |Field(body, "items").items| >= 1
              && forall i :: 0 <= i < |Field(body, "items").items| ==> ItemOk(Field(body, "items").items[i])
  {
    var items := Field(body, "items");
    assert HandleValidationErrors(SaleChecks(body)).Next? <==> AllOk(SaleChecks(body));
    var head := [Check("client", NotEmpty(Field(body, "client"))), Check("items", items.Arr? && |items.items| >= 1)];
    assert AllOk(head) <==> NotEmpty(Field(body, "client")) && items.Arr? && |items.items| >= 1 by {
      assert head[0].ok == NotEmpty(Field(body, "client"));
      assert head[1].ok == (items.Arr? && |items.items| >= 1);
    }
    if items.Arr? {
      assert SaleChecks(body) == head + ItemChecks(items.items);
      AllOkConcat(head, ItemChecks(items.items));
      ItemChecksMeaning(items.items);
    } else {
      assert SaleChecks(body) == head;
      assert !SaleChecks(body)[1].ok;
    }
  }

  /** A whole JSON number of at least 1, or an integer string of at least 1: the sale item's schema minimum. */
  lemma IntAtLeastOne(v: Json)
    requires IntAtLeast(v, 1)
    ensures v.Num? ==> v.n >= 1.0
    ensures v.Str? ==> ParseInt(v.s).value >= 1
  {
  }

  /** The fields of a material body as the material schema reads them. */
  function MaterialInputOf(body: Json): MaterialInput
  {
    var unit := Field(body, "unit");
    var supplier := Field(body, "supplier");
    MaterialInput(
      Trim(TextOf(Field(body, "name"))),
      TextOf(Field(body, "category")),
      if unit.Undefined? then "" else TextOf(unit),
      NumberOf(Field(body, "costPerUnit")),
      NumberOf(Field(body, "quantityInStock")),
      if Field(body, "minimumStock").Undefined? then None else NumberOf(Field(body, "minimumStock")),
      TextOf(supplier))
  }

  /** A chain that lets the request through passed each of its checks. */
  lemma Passed(checks: seq<Check>, i: nat)
    requires HandleValidationErrors(checks).Next? && i < |checks|
    ensures checks[i].ok
  {
  }

  /**
   * A material body that passes its chain, and whose minimum stock is
   * absent or a non-negative number, is one `Material.create` accepts.
   */
  lemma MaterialChecksMeetSchema(body: Json, now: Time)
    requires HandleValidationErrors(MaterialChecks(body)).Next?
    requires Field(body, "minimumStock").Undefined? || FloatAtLeast(Field(body, "minimumStock"), 0.0)
    ensures NewMaterial(MaterialInputOf(body), now).Ok?
  {
    var checks := MaterialChecks(body);
    Passed(checks, 0);
    Passed(checks, 1);
    Passed(checks, 2);
    Passed(checks, 3);
    Passed(checks, 4);
    MaterialFieldsMeetSchema(body, now);
  }

  lemma MaterialFieldsMeetSchema(body: Json, now: Time)
    requires var checks := MaterialChecks(body);
             checks[0].ok && checks[1].ok && checks[2].ok && checks[3].ok && checks[4].ok
    requires Field(body, "minimumStock").Undefined? || FloatAtLeast(Field(body, "minimumStock"), 0.0)
    ensures NewMaterial(MaterialInputOf(body), now).Ok?
  {
    var input := MaterialInputOf(body);
    assert |Trim(TextOf(Field(body, "name")))| >= 2;
    assert Trim(input.name) != "" by { TrimTwice(TextOf(Field(body, "name"))); }
    assert input.category == TextOf(Field(body, "category")) && input.category in Categories;
    CategoryParses(input.category);
    if !Field(body, "unit").Undefined? {
      assert input.unit == TextOf(Field(body, "unit")) && input.unit in Units;
      UnitParses(input.unit);
    }
    assert input.costPerUnit.Some? && input.costPerUnit.value >= 0.0 by {
      assert input.costPerUnit == NumberOf(Field(body, "costPerUnit"));
    }
    assert input.quantityInStock.Some? && input.quantityInStock.value >= 0.0 by {
      assert input.quantityInStock == NumberOf(Field(body, "quantityInStock"));
    }
    assert InputValid(input);
  }

  lemma CategoryParses(s: string)
    requires s in Categories
    ensures ParseCategory(s).Some?
  {
  }

  lemma UnitParses(s: string)
    requires s in Units
    ensures ParseUnit(s).Some?
  {
  }

  /** Trimming a trimmed string changes nothing. */
  lemma TrimTwice(s: string)
    ensures Trim(Trim(s)) == Trim(s)
  {
    var t := Trim(s);
    if t != [] {
      assert !IsSpace(t[0]) && !IsSpace(t[|t| - 1]);
      assert TrimStart(t) == t;
      assert TrimEnd(t) == t;
    }
  }

  /** A material body whose fields all pass the chain, with a minimum stock of -1. */
  function NegativeMinimumBody(): Json
  {
    Obj([("name", Str("Cone")), ("category", Str("cone")), ("costPerUnit", Num(1.0)),
         ("quantityInStock", Num(5.0)), ("minimumStock", Num(-1.0))])
  }

  lemma NegativeMinimumFields()
    ensures Field(NegativeMinimumBody(), "name") == Str("Cone")
    ensures Field(NegativeMinimumBody(), "category") == Str("cone")
    ensures Field(NegativeMinimumBody(), "costPerUnit") == Num(1.0)
    ensures Field(NegativeMinimumBody(), "quantityInStock") == Num(5.0)
    ensures Field(NegativeMinimumBody(), "unit") == Undefined
    ensures Field(NegativeMinimumBody(), "minimumStock") == Num(-1.0)
  {
  }

  /** The material chain does not look at `minimumStock`: a negative one passes it and the schema then refuses the body. */
  lemma NegativeMinimumPassesChecks(now: Time)
    ensures HandleValidationErrors(MaterialChecks(NegativeMinimumBody())).Next?
    ensures NewMaterial(MaterialInputOf(NegativeMinimumBody()), now).Err?
  {
    NegativeMinimumFields();
    ConeFieldsPass(NegativeMinimumBody());
    NegativeMinimumRefused(NegativeMinimumBody(), now);
  }

  lemma ConeFieldsPass(body: Json)
    requires Field(body, "name") == Str("Cone") && Field(body, "category") == Str("cone")
    requires Field(body, "costPerUnit") == Num(1.0) && Field(body, "quantityInStock") == Num(5.0)
    requires Field(body, "unit") == Undefined
    ensures HandleValidationErrors(MaterialChecks(body)).Next?
  {
    ConeNamePasses(body);
    ConeRestPasses(body);
    FivePassed(MaterialChecks(body));
  }

  lemma ConeNamePasses(body: Json)
    requires Field(body, "name") == Str("Cone")
    ensures MaterialChecks(body)[0].ok
  {
    ConeName();
  }

  lemma ConeName()
    ensures TrimmedLength(Str("Cone"), 2, 100)
  {
    var cone := "Cone";
    TrimCone();
    PlainWordCount('C', 'o', 'n', 'e');
    assert ['C', 'o', 'n', 'e'] == cone;
    assert AsText(Str(cone)) == Some(cone);
  }

  lemma ConeRestPasses(body: Json)
    requires Field(body, "category") == Str("cone")
    requires Field(body, "costPerUnit") == Num(1.0) && Field(body, "quantityInStock") == Num(5.0)
    requires Field(body, "unit") == Undefined
    ensures var checks := MaterialChecks(body); checks[1].ok && checks[2].ok && checks[3].ok && checks[4].ok
  {
    assert IsIn(Str("cone"), Categories) by { assert "cone" in Categories; }
    assert FloatAtLeast(Num(1.0), 0.0) && FloatAtLeast(Num(5.0), 0.0);
  }

  lemma TrimCone()
    ensures Trim("Cone") == "Cone"
  {
    assert !IsSpace('C') && !IsSpace('e');
    assert TrimStart("Cone") == "Cone";
    assert TrimEnd("Cone") == "Cone";
  }

  lemma FivePassed(checks: seq<Check>)
    requires |checks| == 5 && checks[0].ok && checks[1].ok && checks[2].ok && checks[3].ok && checks[4].ok
    ensures HandleValidationErrors(checks).Next?
  {
    forall i | 0 <= i < |checks| ensures checks[i].ok {
      assert i == 0 || i == 1 || i == 2 || i == 3 || i == 4;
    }
  }

  lemma NegativeMinimumRefused(body: Json, now: Time)
    requires Field(body, "minimumStock") == Num(-1.0)
    ensures NewMaterial(MaterialInputOf(body), now).Err?
  {
    var input := MaterialInputOf(body);
    MinimumStockRead(body, -1.0);
    NegativeMinimumInvalid(input);
  }

  /** A JSON number under `minimumStock` is the input's minimum stock. */
  lemma MinimumStockRead(body: Json, n: real)
    requires Field(body, "minimumStock") == Num(n)
    ensures MaterialInputOf(body).minimumStock == Some(n)
  {
    NumberOfNum(n);
  }

  lemma NumberOfNum(n: real)
    ensures NumberOf(Num(n)) == Some(n)
  {
  }

  lemma NegativeMinimumInvalid(input: MaterialInput)
    requires input.minimumStock == Some(-1.0)
    ensures !InputValid(input)
  {
  }

  /** A create-user body that passes its chain carries no role, or one of the three roles. */
  lemma CreateUserRole(body: Json, isEmail: string -> bool)
    requires HandleValidationErrors(CreateUserChecks(body, isEmail)).Next?
    ensures Field(body, "role").Undefined? || ParseRole(TextOf(Field(body, "role"))).Some?
  {
    Passed(CreateUserChecks(body, isEmail), 3);
    RoleCheckMeaning(body, isEmail);
  }

  lemma RoleCheckMeaning(body: Json, isEmail: string -> bool)
    requires CreateUserChecks(body, isEmail)[3].ok
    ensures Field(body, "role").Undefined? || ParseRole(TextOf(Field(body, "role"))).Some?
  {
  }

  /** A register body that passes its chain has a password the user schema accepts. */
  lemma RegisterPassword(body: Json, isEmail: string -> bool)
    requires HandleValidationErrors(RegisterChecks(body, isEmail)).Next?
    ensures AsText(Field(body, "password")).Some? && Utf16Length(TextOf(Field(body, "password"))) >= 6
    ensures Trim(TextOf(Field(body, "name"))) != ""
  {
    Passed(RegisterChecks(body, isEmail), 0);
    Passed(RegisterChecks(body, isEmail), 2);
    IsLengthWithinUtf16(TextOf(Field(body, "password")));
  }
  /** A register body passes exactly when its trimmed name has 2 to 50 characters, its e-mail is one, and its password has at least 6 characters. */
  lemma RegisterChecksMeaning(body: Json, isEmail: string -> bool)
    ensures HandleValidationErrors(RegisterChecks(body, isEmail)).Next? <==>
              && TrimmedLength(Field(body, "name"), 2, 50)
              && Email(Field(body, "email"), isEmail)
              && MinLength(Field(body, "password"), 6)
  {
    ChainPasses(RegisterChecks(body, isEmail));
  }

  /** A login body passes exactly when it carries an e-mail and a non-empty password. */
  lemma LoginChecksMeaning(body: Json, isEmail: string -> bool)
    ensures HandleValidationErrors(LoginChecks(body, isEmail)).Next? <==>
              Email(Field(body, "email"), isEmail) && NotEmpty(Field(body, "password"))
  {
    ChainPasses(LoginChecks(body, isEmail));
  }

  /** A product body passes exactly when its trimmed name has 2 to 100 characters, both prices are numbers of at least 0 and the stock is a whole number of at least 0. */
  lemma ProductChecksMeaning(body: Json)
    ensures HandleValidationErrors(ProductChecks(body)).Next? <==>
              && TrimmedLength(Field(body, "name"), 2, 100)
              && FloatAtLeast(Field(body, "price"), 0.0)
              && FloatAtLeast(Field(body, "costPrice"), 0.0)
              && IntAtLeast(Field(body, "stock"), 0)
  {
    ChainPasses(ProductChecks(body));
  }

  /** A client body passes exactly when its trimmed name has 2 to 100 characters, its e-mail is one and its trimmed phone has at least 10 characters. */
  lemma ClientChecksMeaning(body: Json, isEmail: string -> bool)
    ensures HandleValidationErrors(ClientChecks(body, isEmail)).Next? <==>
              && TrimmedLength(Field(body, "name"), 2, 100)
              && Email(Field(body, "email"), isEmail)
              && AsText(Field(body, "phone")).Some? && IsLengthCount(Trim(TextOf(Field(body, "phone")))) >= 10
  {
    var checks := ClientChecks(body, isEmail);
    ChainPasses(checks);
    var phone := Field(body, "phone");
    assert checks[2].ok <==> AsText(phone).Some? && IsLengthCount(Trim(TextOf(phone))) >= 10;
  }

  /** A material body passes exactly when its name, category, cost, quantity and optional unit pass; its minimum stock is not looked at. */
  lemma MaterialChecksMeaning(body: Json)
    ensures HandleValidationErrors(MaterialChecks(body)).Next? <==>
              && TrimmedLength(Field(body, "name"), 2, 100)
              && IsIn(Field(body, "category"), Categories)
              && FloatAtLeast(Field(body, "costPerUnit"), 0.0)
              && FloatAtLeast(Field(body, "quantityInStock"), 0.0)
              && (Field(body, "unit").Undefined? || IsIn(Field(body, "unit"), Units))
  {
    ChainPasses(MaterialChecks(body));
  }

  /** A create-user body passes exactly when name, e-mail and password pass and the role and phone are absent or valid. */
  lemma CreateUserChecksMeaning(body: Json, isEmail: string -> bool)
    ensures HandleValidationErrors(CreateUserChecks(body, isEmail)).Next? <==>
              && TrimmedLength(Field(body, "name"), 2, 100)
              && Email(Field(body, "email"), isEmail)
              && MinLength(Field(body, "password"), 6)
              && (Field(body, "role").Undefined? || IsIn(Field(body, "role"), Roles))
              && (Field(body, "phone").Undefined?
                  || (AsText(Field(body, "phone")).Some? && IsLengthCount(Trim(TextOf(Field(body, "phone")))) >= 10))
  {
    var checks := CreateUserChecks(body, isEmail);
    ChainPasses(checks);
    var phone := Field(body, "phone");
    assert checks[4].ok <==> phone.Undefined? || (AsText(phone).Some? && IsLengthCount(Trim(TextOf(phone))) >= 10);
  }

  /** The forgot-password body passes exactly when it carries an e-mail; the reset body exactly when its password has at least 6 characters. */
  lemma PasswordChecksMeaning(body: Json, isEmail: string -> bool)
    ensures HandleValidationErrors(ForgotPasswordChecks(body, isEmail)).Next? <==> Email(Field(body, "email"), isEmail)
    ensures HandleValidationErrors(ResetPasswordChecks(body)).Next? <==> MinLength(Field(body, "password"), 6)
  {
    ChainPasses(ForgotPasswordChecks(body, isEmail));
    ChainPasses(ResetPasswordChecks(body));
  }

  /** A chain of up to five checks lets the request through exactly when each of them passed. */
  lemma ChainPasses(checks: seq<Check>)
    requires 1 <= |checks| <= 5
    ensures HandleValidationErrors(checks).Next? <==>
              && checks[0].ok
              && (|checks| > 1 ==> checks[1].ok)
              && (|checks| > 2 ==> checks[2].ok)
              && (|checks| > 3 ==> checks[3].ok)
              && (|checks| > 4 ==> checks[4].ok)
  {
    if forall i :: 0 <= i < |checks| ==> i < 5 ==> checks[i].ok {
      forall i | 0 <= i < |checks| ensures checks[i].ok {
        assert i < 5;
      }
    }
  }
}
