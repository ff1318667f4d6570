# Ice-cream shop back end: inventory ledger, sales, sanitisation and accounts

This project is a Dafny model of the core of a small shop back end (an
Express and Mongoose application for an ice-cream business). It keeps
products and materials with stock counters. Three ledgers act on that stock:

- sales;
- material purchases;
- material consumptions.

Around this ledger sit input sanitisation, log redaction, request
validation, access guards and the account-token lifecycle (registration,
login, first administrator, password reset, e-mail verification).

The model follows the program's structure, one module per source file:

| module | what it models |
|---|---|
| `ProductModel`, `MaterialModel`, `SaleModel`, `PurchaseModel`, `ConsumptionModel` | the schemas: enums, defaults, minimums and two-decimal setters, as datatypes and validity predicates, plus the pre-save hook that refreshes `updatedAt` |
| `Store` | the document store, as a class holding one map per collection and the id generator |
| `SalePricing`, `SaleController`, `SalePayment`, `SaleReport`, `SaleScenarios` | sale creation (pricing, per-item checks, deduction for paid sales only, early returns that keep earlier deductions), the paid and pending state machine, the sales report and pagination, and worked examples |
| `PurchaseController`, `ConsumptionController`, `ConsumptionReport`, `MaterialController` | purchase and consumption handlers with their stock effects and reversals, the consumption report and the material statistics |
| `Security`, `SecurityLogger`, `Text`, `Numeric` | the recursive `sanitize` transform and `sanitizeInput`; log redaction; the string helpers and rounding they rely on |
| `Validation`, `Auth` | the express-validator chains; `protect`, `isAdmin` and `isAdminOrVendedor` |
| `UserModel`, `AuthController` | the user document with its hashed one-time tokens and save hook; the account handlers |

Handlers that change documents in place are methods on classes:

- `Store.Db` and `AuthController.Users` hold the collections;
- `UserModel.User` is a document;
- `Security.Request` is a request.

Each such method is proved against a specification function of the state
before it. The laws the program relies on are lemmas about those functions:

- totals are sums;
- a paid sale never drives stock below zero;
- the payment transitions undo each other;
- creating and then deleting a purchase or a consumption restores stock;
- a reset token works once.

Numbers are exact reals. `Math.round(x * 100) / 100` is
`Numeric.Round2(x) = Floor(100 x + 1/2) / 100`. The `unidade` unit uses
`Floor`. A product's stock and a sale item's quantity are integers (`int`):
the validation chains let a product or a sale through only when these are
whole numbers (`isInt` in middlewares/validation.js:55-57 and 90-92).

The sanitizer takes its operator table as a parameter. The middleware as
written is `Security.Request.SanitizeInput(OperatorTable)`. `Operators` is
the same table in lower case, as the lower-cased lookup needs it (see
Findings). The Security rows state what the middleware returns for a request.
In the running server only the query reaches it populated: server.js:65
mounts it before the body parser at server.js:78, so `req.body` is still
undefined. It also runs at application level, where `req.params` is still
empty.

The following are parameters of the model:

- hashing: bcrypt and SHA-256;
- the random token;
- JWT signing and verification;
- the clock;
- the outcome of sending an e-mail;
- the `isEmail` check.

Where the code and its design description differ, the model follows the code:

- `register` takes the role from the request body, so a self-registered user
  can ask for `admin` (`AuthController.RegisterAcceptsAdmin`).
- `forgotPassword` and `resendVerificationEmail` use the same status for
  known and unknown addresses, but the message differs. A known address gets
  the "sent" or console message, or a 500 when the e-mail fails. An unknown
  one gets the generic notice (`AuthController.ForgotPasswordMeaning`).
- `resendVerificationEmail` answers 400 for an address that is already verified.
- `updatePaymentStatus` saves the stock changes before it saves the sale, so a
  failing sale save leaves the stock moved.
- `updatePaymentStatus` with no `paymentStatus` in the body assigns
  `undefined`, which removes the field. The enum does not check an absent
  value, so the sale is saved without a status and without `paidAt`, and no
  stock moves (`SalePayment.AbsentStatusUnsets`). Mongoose fills the absent
  field with the schema default "pago" whenever the sale is read back
  (`SaleModel.Loaded`). The answer therefore shows "pago", and a later
  "pendente" gives the stock back although none was deducted
  (`SalePayment.UnsetThenPendingRestoresStock`). A report, which filters in
  the database, does not count the sale.
- Lengths are counted as the code counts them. Mongoose's `minlength` and
  `password.length` count UTF-16 code units (`Lengths.Utf16Length`). The
  validator's `isLength` counts characters other than U+FE0E and U+FE0F
  (`Lengths.IsLengthCount`).
- `updateMaterialPurchase` can likewise move stock and then fail to save the
  purchase.
- On a pending sale the item checks read stock as it stands, so repeated lines
  for one product are checked separately, never against their sum.
- In `createMaterialConsumption` the clamp at zero never fires: the earlier
  stock check already guarantees a non-negative result.
- In the consumption report, consumptions of deleted materials fall under a
  single key.
- `createMaterial` with an initial stock so small that it rounds to zero
  creates the material, but the initial purchase then fails its minimum, so
  the answer is 500 with the material kept.
- `updateMaterial` goes through `findByIdAndUpdate`, which bypasses the save
  hook, so it does not refresh `updatedAt`.
- `validateMaterial` has no rule for `minimumStock`: a negative one passes the
  chain and is refused by the schema (`Validation.NegativeMinimumPassesChecks`).
- `createUser` checks the role again, but after the validation chain that
  400 branch cannot be reached (`Validation.CreateUserRole`).

## Model

| member | source | states |
|---|---|---|
| SaleModel.ParsePaymentMethod | models/Sale.js:73-77 | a payment method is accepted exactly when it is one of the six enum strings |
| SaleModel.ParsePaymentStatus | models/Sale.js:78-82 | "pago" and "pendente" map to their statuses, both ways, and every other string is refused |
| SaleModel.ReadStatus | models/Sale.js:78-82 | a document read back never lacks a status: it reads "pendente" exactly when "pendente" is stored, and "pago" otherwise |
| SaleModel.Loaded | models/Sale.js:78-82 | a sale read back differs from the stored one only in its status, which is `ReadStatus` of the stored one; a sale with a status is read back unchanged |
| SaleModel.NewMaterialUse | models/Sale.js:22-35 | a `materialsUsed` entry keeps its material, and an absent quantity becomes 1 and an absent cost 0 |
| SaleModel.NewSale | models/Sale.js:38-100 | creation succeeds exactly when the enums accept the method and status, every item quantity is at least 1 and the three totals are non-negative; the result is valid, "concluida", dated now, and defaults to "dinheiro" and "pago" |
| SalePricing.PriceSale | controllers/saleController.js:86-196 | no contract of its own: the pass `createSale` makes over the request; `CreatedSaleTotals`, `PaidSaleWithinStock` and `PendingSaleKeepsStock` state its results |
| SalePricing.RunItems | controllers/saleController.js:98-175 | no contract of its own: the item loop; `RunItemsFrame`, `RunItemsPaid` and `RunItemsPriced` state its results |
| SalePricing.ItemStep | controllers/saleController.js:99-174 | no contract of its own: one item; `ItemStepFrame`, `ItemStepMaterials` and `ItemStepPriced` state its results |
| SalePricing.RunMaterials | controllers/saleController.js:128-163 | no contract of its own: the materials loop; `RunMaterialsAt`, `RunMaterialsFrame`, `RunMaterialsPaid` and `RunMaterialsPriced` state its results |
| SalePricing.HttpStatus | controllers/saleController.js:101-146 | a missing product, material or sale answers 404, short stock answers 400, a failure of the store answers 500 |
| SalePricing.ResolvePaymentStatus | controllers/saleController.js:95 | an explicit status wins; without one the sale is "pendente" exactly when the method is "pendente", and "pago" otherwise |
| SalePricing.UnitPrice | controllers/saleController.js:116 | a non-zero requested unit price wins; a zero or absent one falls back to the catalog price |
| SalePricing.UseStep | controllers/saleController.js:129-162 | one `materialsUsed` entry passes exactly when its material exists and holds the per-unit quantity times the units sold; otherwise 404 or 400 with nothing changed; only stock moves, only for a paid sale, and by exactly that quantity |
| SalePricing.RunMaterialsAt | controllers/saleController.js:128-163 | the materials loop stops at the first failing entry and otherwise continues from the stock the entry left |
| SalePricing.ItemStepFrame | controllers/saleController.js:99-174 | a missing product answers 404 and short stock 400, with no product changed; a passing item had the stock; only stock counters move, only for a paid sale, and the item's own product falls by its quantity |
| SalePricing.ItemStepMaterials | controllers/saleController.js:124-164 | one item changes materials only in stock, keeps them valid, and changes none for a pending sale |
| SalePricing.BuildSale | controllers/saleController.js:177-196 | the created sale carries the accumulated items and totals, gross profit is amount minus cost, net profit is 85% of it, status "pago" and `paidAt` exactly when paid, "concluida"; creation fails exactly when a schema minimum or enum refuses it |
| SalePricing.RunMaterialsFrame | controllers/saleController.js:128-163 | the materials loop changes only stock quantities, keeps every material valid, and changes nothing for a pending sale |
| SalePricing.RunItemsFrame | controllers/saleController.js:98-175 | the item loop changes only stock counters of products and materials, keeps every document valid, and changes nothing for a pending sale |
| SalePricing.RunItemsProductFrame | controllers/saleController.js:98-175 | the product half of the frame above |
| SalePricing.RunItemsMaterialFrame | controllers/saleController.js:98-175 | the material half of the frame above |
| SalePricing.RunMaterialsPaid | controllers/saleController.js:138-162 | a paid materials loop that goes through found every material and lowered each by the total its entries ask for |
| SalePricing.RunItemsPaid | controllers/saleController.js:98-175 | a paid sale that goes through found every product and lowered each product by the units sold and each material by what the items' `materialsUsed` ask of it |
| SalePricing.RunItemsPaidProducts | controllers/saleController.js:109-174 | the product half of `RunItemsPaid` |
| SalePricing.RunItemsPaidMaterials | controllers/saleController.js:138-162 | the material half of `RunItemsPaid` |
| SalePricing.PaidSaleWithinStock | controllers/saleController.js:109-174 | a paid sale that goes through asked no product or material for more than it held, so no stock goes below zero |
| SalePricing.UseStepPriced | controllers/saleController.js:138-156 | the entry a passing `materialsUsed` step records is the per-unit quantity times the units sold, priced at the material's cost, and its cost is added |
| SalePricing.UsesCostAppend | controllers/saleController.js:149 | appending a material entry adds its cost |
| SalePricing.RunMaterialsPriced | controllers/saleController.js:124-166 | the materials loop records one priced entry per requested entry, in order, and its cost is their sum |
| SalePricing.TotalsAppend | controllers/saleController.js:167-168 | appending an item adds its subtotal, its materials' cost and its product cost to the totals |
| SalePricing.ItemStepPriced | controllers/saleController.js:116-168 | a passing item records the requested product and quantity at the requested unit price or else the catalog price, subtotal price times quantity, its priced materials, and keeps the totals in agreement with the items |
| SalePricing.RunItemsPriced | controllers/saleController.js:98-175 | the item loop records one priced item per requested item, in order, with amount the sum of subtotals and cost the cost prices plus the materials cost |
| SalePricing.CreatedSaleTotals | controllers/saleController.js:116-196 | a created sale has one priced item per requested line, `totalAmount` the sum of subtotals, `totalCost` cost prices times quantities plus `materialsCost`, gross profit amount minus cost and net profit gross less 15% |
| SalePricing.PendingSaleKeepsStock | controllers/saleController.js:159-174 | a sale created as pending changes no product and no material |
| SaleController.TakeMaterial | controllers/saleController.js:129-162 | the body of the materials loop leaves the materials and the outcome where `UseStep` says |
| SaleController.ProcessMaterials | controllers/saleController.js:127-164 | the materials loop leaves the materials and the outcome where the specification pass `RunMaterials` says |
| SaleController.ProcessItems | controllers/saleController.js:98-175 | the item loop leaves products, materials and totals where `RunItems` says, including the deductions saved before a failing item |
| SaleController.CreateSale | controllers/saleController.js:86-215 | the stores end where `PriceSale` ends; a failing item answers its error and adds no sale while earlier deductions stay; a refused `Sale.create` answers 500 and keeps the deductions; otherwise exactly one sale with a fresh id is added; every document stays valid |
| SaleController.RestockUses | controllers/saleController.js:242-250 | the `materialsUsed` loop of `updatePaymentStatus` leaves the materials where `ApplyUses` says |
| SaleController.RestockProduct | controllers/saleController.js:235-239 | the product part of one item leaves the products where `ProductStep` says |
| SaleController.RestockItems | controllers/saleController.js:234-273 | the item loop of either direction leaves products and materials where `ApplyItems` says, including a loop cut short by a refused save |
| SaleController.UpdatePaymentStatus | controllers/saleController.js:220-306 | the stores and the answer are those of `UpdatePayment`: the stock pass follows the status as read back, the sale is stored as saved and answered as re-read; every document stays valid |
| SalePayment.ProductStep | controllers/saleController.js:235-239 | a product that no longer exists is skipped; otherwise its stock moves by the item quantity, down or up, and the save fails exactly when the new stock would be negative, leaving the products as they were |
| SalePayment.SetPayment | controllers/saleController.js:277-287 | the save stores the status, or removes it when none is sent, the method when one is given, and `paidAt` exactly when the status is "pago"; it fails exactly when an enum refuses the strings; nothing else of the sale changes |
| SalePayment.Transition | controllers/saleController.js:233-255 | stock is deducted exactly when "pago" is asked of a pending sale, and given back exactly when "pendente" is asked of a paid one; an absent status moves nothing. `UpdatePayment` applies it to the status as read back, so a sale without a status counts as paid |
| SalePayment.ApplyUsesFrame | controllers/saleController.js:242-250 | the materials pass changes only stock and keeps every material valid |
| SalePayment.ApplyItemsFrame | controllers/saleController.js:234-273 | the item pass changes only stock counters and keeps every document valid |
| SalePayment.ApplyUsesExact | controllers/saleController.js:242-250 | a materials pass that goes through moves each material by exactly the quantities its entries recorded |
| SalePayment.ApplyItemsExact | controllers/saleController.js:234-273 | an item pass that goes through moves each product by the units recorded and each material by the quantities recorded, and keeps the key sets |
| SalePayment.ApplyItemsSold | controllers/saleController.js:235-239 | the product half of `ApplyItemsExact` |
| SalePayment.ApplyItemsUsed | controllers/saleController.js:242-250 | the material half of `ApplyItemsExact` |
| SalePayment.ApplyUsesRestoreOk | controllers/saleController.js:264-271 | giving back entries whose recorded quantities are all non-negative never fails a material save |
| SalePayment.ApplyItemsRestoreOk | controllers/saleController.js:256-273 | giving back a sale whose items have quantities of at least 1 and non-negative recorded material quantities never fails a save |
| SalePayment.PaymentKeepsValid | controllers/saleController.js:220-306 | a payment update keeps every document valid, changes products and materials only in stock, and no sale but the one named |
| SalePayment.PaymentKeepsStock | controllers/saleController.js:233-274 | the stock half of `PaymentKeepsValid` |
| SalePayment.PaymentKeepsSales | controllers/saleController.js:277-287 | the sales half of `PaymentKeepsValid` |
| SalePayment.SalesPut | controllers/saleController.js:287 | saving one valid sale keeps the others and the collection valid |
| SalePayment.SameStatusMovesNoStock | controllers/saleController.js:233-274 | asking for the status the sale reads as, or for none, moves no stock; "pago" on a sale without a status deducts nothing |
| SalePayment.AbsentStatusUnsets | controllers/saleController.js:222-289 | a body without `paymentStatus` moves no stock and, with an acceptable method, saves the sale with its items, its status removed and no `paidAt`; the answer, re-read, shows "pago" |
| SalePayment.UnsetThenPendingRestoresStock | controllers/saleController.js:222-289 | removing a paid sale's status and then asking for "pendente" raises every product by the units the sale recorded and every material by the quantities recorded, though nothing was deducted in between (for non-negative recorded material quantities) |
| SalePayment.MarkPaidDeducts | controllers/saleController.js:233-252 | marking a pending sale paid lowers each product by the units recorded and each material by the quantities recorded, and stamps `paidAt` |
| SalePayment.ApplyRoundTrip | controllers/saleController.js:234-273 | deducting a sale's items and giving them back restores every stock, when the recorded material quantities are non-negative |
| SalePayment.RoundTripProducts | controllers/saleController.js:235-261 | the product half of `ApplyRoundTrip` |
| SalePayment.RoundTripMaterials | controllers/saleController.js:242-271 | the material half of `ApplyRoundTrip` |
| SalePayment.PaidThenPendingRestoresStock | controllers/saleController.js:233-274 | "pendente" to "pago" and back restores every product and material stock, when the recorded material quantities are non-negative |
| SalePayment.MarkPaidSucceeds | controllers/saleController.js:233-289 | "pago" on a pending sale succeeds when the method is accepted, the recorded material quantities are non-negative and every product and material holds what the sale recorded of it |
| SalePayment.ApplyItemsDeductOk | controllers/saleController.js:234-251 | deducting goes through when every product and material holds at least what the items recorded of it |
| SalePayment.ApplyUsesDeductOk | controllers/saleController.js:242-250 | deducting non-negative entries goes through when every material holds what they ask of it |
| SalePayment.NegativeUseBreaksRoundTrip | controllers/saleController.js:264-271 | a sale that recorded -10 then +10 of a material at stock 0 deducts without failing and leaves the stock at 0, but giving it back fails the first save |
| SalePayment.UpdatePayment | controllers/saleController.js:220-289 | no contract of its own: the stores and the answer of `updatePaymentStatus`; its laws are `PaymentStores`, `PaymentKeepsValid`, `SameStatusMovesNoStock`, `AbsentStatusUnsets` and `MarkPaidDeducts` |
| SalePayment.ApplyItems | controllers/saleController.js:234-273 | no contract of its own: the pass over a sale's items; `ApplyItemsFrame` and `ApplyItemsExact` state what it changes |
| SalePayment.ApplyUses | controllers/saleController.js:242-250 | no contract of its own: the pass over one item's material entries; `ApplyUsesFrame` and `ApplyUsesExact` state what it changes |
| SalePayment.PaymentStores | controllers/saleController.js:220-289 | a payment update leaves the stock where the pass for the status as read back leaves it, or untouched when there is no pass; it succeeds exactly when that pass (if any) goes through and the enums accept the status and method, and then it replaces the one sale and answers with that sale as re-read |
| SaleReport.ReportedSales | controllers/saleController.js:322-329 | the report holds exactly the stored sales that are "concluida", "pago" and dated in the period |
| SaleReport.Reported | controllers/saleController.js:322-329 | no contract of its own: the report's filter; `ReportedSales` states the selection by it |
| SaleReport.SumAmount | controllers/saleController.js:332 | no contract of its own: the `reduce` over `totalAmount`; `SumsConsistent` and `ReportOneMore` state its laws |
| SaleReport.SumCost | controllers/saleController.js:333 | no contract of its own: the `reduce` over `totalCost`; `SumsConsistent` states its laws |
| SaleReport.SumGrossProfit | controllers/saleController.js:334 | no contract of its own: the `reduce` over `grossProfit`; `SumsConsistent` states its laws |
| SaleReport.SumNetProfit | controllers/saleController.js:335 | no contract of its own: the `reduce` over `netProfit`; `SumsConsistent` states its laws |
| SaleReport.SalesReport | controllers/saleController.js:313-335 | a missing date answers 400; with both dates the statistics are the number of reported sales (completed, paid, in the period) and their summed amount, cost, gross profit and net profit |
| SaleReport.ReportOneMore | controllers/saleController.js:313-335 | one more stored sale leaves the report as it was unless it is reported, and then adds one to the count and its amount, cost and profits to the totals |
| SaleReport.SumsConsistent | controllers/saleController.js:332-335 | summed over sales whose profits agree with their totals, gross profit is amount minus cost and net profit 85% of it |
| SaleReport.ReportConsistent | controllers/saleController.js:331-335 | the report's totals keep the same relation between amount, cost, gross and net profit |
| SaleReport.Skip | controllers/saleController.js:13 | the skip is non-negative exactly for pages from 1 on |
| SaleReport.Pages | controllers/saleController.js:40 | the page count is absent exactly for a zero limit, and never negative for a positive limit |
| SaleReport.PagesBounds | controllers/saleController.js:40 | `pages` full pages hold the listing and one page fewer does not |
| SaleReport.PageOf | controllers/saleController.js:11-13 | every listed index lies on exactly one page between 1 and `pages` |
| SaleScenarios.PaidSaleExample | controllers/saleController.js:86-196 | three units at 100 with cost 40 give totals 300/120/180/153 and leave 7 of 10 in stock |
| SaleScenarios.FailedSaleKeepsEarlierDeduction | controllers/saleController.js:109-174 | a second item short of stock answers 400 while the first item's deduction stays |
| SaleScenarios.PendingLinesCheckedSeparately | controllers/saleController.js:108-114 | a pending sale checks each line against undeducted stock, so two lines of 3 pass against 4; paid, the second line is refused |
| SaleScenarios.MissingMaterialStock | controllers/saleController.js:138-146 | a material short of stock answers 400 and changes nothing |
| PurchaseModel.NewPurchase | models/MaterialPurchase.js:3-56 | creation rounds quantity, price and total to cents and succeeds exactly when the rounded quantity is at least 0.01 and the price and total are non-negative; the record is valid, keeps its material and is dated now |
| PurchaseModel.SavePurchase | models/MaterialPurchase.js:9-35 | a save after assignment stores the quantity, price and total each rounded to cents, succeeds under the same minimums, keeps the material, date and buyer, and changes supplier and notes only when they were given |
| Numeric.Floor | controllers/materialConsumptionController.js:97 | `Math.floor`: the greatest integer not above the value |
| Numeric.Ceil | controllers/saleController.js:40 | `Math.ceil`: the least integer not below the value |
| Numeric.Round2 | models/MaterialPurchase.js:13-16 | `Math.round(v * 100) / 100` lies within half a cent of the value and has at most two decimals |
| Numeric.Round2Exact | models/MaterialPurchase.js:13-16 | rounding a value that already has two decimals leaves it unchanged |
| PurchaseController.HttpStatus | controllers/materialPurchaseController.js:203-216 | an unknown purchase or material answers 404, a failure of the store 500 |
| PurchaseController.Receive | controllers/materialPurchaseController.js:88-95 | the received material's stock is the old stock plus the quantity, rounded to cents, its cost per unit is the price paid, and nothing else but `updatedAt` changes |
| PurchaseController.Adjust | controllers/materialPurchaseController.js:218-230 | an updated purchase moves stock by new minus old quantity, rounded, with no clamp; the cost per unit follows the new price only when it differs from the purchase's old price |
| PurchaseController.GiveBack | controllers/materialPurchaseController.js:287-293 | a deleted purchase's quantity is taken out of stock and a negative result becomes 0, so stock stays non-negative and a valid material stays valid |
| PurchaseController.RecordPurchase | controllers/materialPurchaseController.js:59-96 | an unknown material answers 404 with nothing written; for a known material it succeeds exactly when the purchase schema accepts the record and the material schema accepts the received material; a refused record answers 500 with nothing written, a refused material answers 500 with the purchase kept and the material as it was; a success returns the new id, stores exactly the created record with the rounded quantity and total, and receives the stock into the material |
| PurchaseController.AmendPurchaseMeaning | controllers/materialPurchaseController.js:196-243 | an unknown purchase or a vanished material answers 404 with nothing changed; otherwise it succeeds exactly when the adjusted material and the saved purchase are both valid, a refused material answers 500 with nothing written, and a refused purchase answers 500 with the material already adjusted; a success adjusts the material by the change and replaces the purchase by its saved version, which keeps its material and date and holds the rounded new quantity and price, the total as price times quantity rounded, and the supplier and notes only when they were sent |
| PurchaseController.AmendPurchase | controllers/materialPurchaseController.js:196-243 | no contract of its own: `updateMaterialPurchase` as a transition; `AmendPurchaseMeaning`, `AmendKeepsValid` and `AmendKeepsKeys` state its results |
| PurchaseController.RemovePurchase | controllers/materialPurchaseController.js:266-298 | 404 for an unknown purchase or vanished material with nothing changed; otherwise the quantity is given back and the record removed |
| PurchaseController.RecordKeepsValid | controllers/materialPurchaseController.js:59-96 | creating a purchase leaves only schema-valid documents |
| PurchaseController.AmendKeepsValid | controllers/materialPurchaseController.js:196-243 | updating a purchase leaves only schema-valid documents |
| PurchaseController.AmendKeepsKeys | controllers/materialPurchaseController.js:196-243 | updating a purchase neither adds nor removes a material or a purchase |
| PurchaseController.RemoveKeepsValid | controllers/materialPurchaseController.js:266-298 | deleting a purchase leaves only schema-valid documents |
| PurchaseController.CreateThenDeleteRestoresStock | controllers/materialPurchaseController.js:89-298 | creating and then deleting a purchase restores the material's whole-cent stock and the purchase collection, changes no other material, and leaves the cost per unit at the price paid |
| PurchaseController.ReceiveThenGiveBack | controllers/materialPurchaseController.js:88-298 | a received whole-cent purchase given back restores the stock and the purchases and keeps the new cost per unit |
| PurchaseController.SameQuantityKeepsStock | controllers/materialPurchaseController.js:219-225 | an update that keeps the quantity leaves a whole-cent stock where it was |
| PurchaseController.UpdateBelowMinimumMovesStockOnly | controllers/materialPurchaseController.js:225-243 | an update to a quantity under one cent answers 500 after the material was saved: stock moved from 5 to 3 while the purchase still records 2 |
| PurchaseController.PurchaseExample | controllers/materialPurchaseController.js:73-96 | 10 units at 2.50 cost 25.00, add 10 to stock and set the cost per unit to 2.50 |
| PurchaseController.CreatePurchase | controllers/materialPurchaseController.js:59-114 | the handler leaves the store and answers as `RecordPurchase` says, and every document stays valid |
| PurchaseController.ReceiveStock | controllers/materialPurchaseController.js:88-96 | the material is received and saved exactly when the schema accepts the result |
| PurchaseController.UpdatePurchase | controllers/materialPurchaseController.js:196-261 | the handler leaves the store and answers as `AmendPurchase` says, and every document stays valid |
| PurchaseController.AmendFound | controllers/materialPurchaseController.js:218-243 | the two saves after the lookups leave the store as `AmendPurchase` says |
| PurchaseController.SaveAdjustment | controllers/materialPurchaseController.js:218-232 | the material is adjusted and saved exactly when the schema accepts the result |
| PurchaseController.SaveAmendment | controllers/materialPurchaseController.js:234-243 | the purchase takes the new values and is saved exactly when its schema accepts them, else 500 with the record unchanged |
| PurchaseController.DeletePurchase | controllers/materialPurchaseController.js:266-311 | the handler leaves the store and answers as `RemovePurchase` says, and every document stays valid |
| ConsumptionReport.KeyOf | controllers/materialPurchaseController.js:148 | a use is keyed by its material's id exactly while the material exists |
| ConsumptionReport.ReportOf | controllers/materialPurchaseController.js:167-181 | `totalMaterialsUsed` is the number of entries listed |
| ConsumptionReport.Values | controllers/materialPurchaseController.js:167 | `Object.values` lists the entry of each key, in key insertion order |
| ConsumptionReport.ConsumptionOf | controllers/materialPurchaseController.js:123-128 | the report answers 400 exactly when a date is missing |
| ConsumptionReport.AddWellFormed | controllers/materialPurchaseController.js:150-161 | adding a use keeps the dictionary well formed and adds exactly its key |
| ConsumptionReport.Fold | controllers/materialPurchaseController.js:147-162 | no contract of its own: the uses added to the tally one after another; `FoldWellFormed`, `FoldEntry`, `FoldAppend`, `FoldCost` and `FoldKeys` state its results |
| ConsumptionReport.FoldWellFormed | controllers/materialPurchaseController.js:144-165 | after the loops the dictionary holds exactly the keys it had plus the key of every use |
| ConsumptionReport.FoldEntry | controllers/materialPurchaseController.js:159-161 | per key, the entry holds the total quantity, total cost and number of the uses under that key |
| ConsumptionReport.FoldAppend | controllers/materialPurchaseController.js:144-147 | the nested loops over sales and items add their uses one list after another |
| ConsumptionReport.FoldCost | controllers/materialPurchaseController.js:159-168 | the sum of the entries' costs grows by the cost of every use added |
| ConsumptionReport.FoldKeys | controllers/materialPurchaseController.js:150-157 | the listed keys are exactly the keys of the uses |
| ConsumptionReport.ReportTotals | controllers/materialPurchaseController.js:167-179 | the report's total cost is the cost of all uses and it counts one material per distinct key |
| ConsumptionReport.ReportEntries | controllers/materialPurchaseController.js:150-167 | each reported entry belongs to a key some use has and holds that key's sums and count |
| ConsumptionReport.ReportMeaning | controllers/materialPurchaseController.js:119-191 | 400 exactly when a date is missing; otherwise only completed, paid sales of the period count, with one entry per distinct key holding its sums, `totalMaterialsUsed` counting them and `totalCost` the cost of all uses |
| ConsumptionReport.DeletedMaterialsMerge | controllers/materialPurchaseController.js:148 | uses of two different deleted materials are reported as one entry |
| ConsumptionReport.TallyUses | controllers/materialPurchaseController.js:147-162 | the innermost loop adds one item's uses as the fold does |
| ConsumptionReport.TallySale | controllers/materialPurchaseController.js:145-164 | the middle loop adds one sale's items' uses as the fold does |
| ConsumptionReport.MaterialConsumptionReport | controllers/materialPurchaseController.js:119-191 | the handler's loops produce exactly the report `ConsumptionOf` specifies |
| ConsumptionModel.ParseReason | models/MaterialConsumption.js:18-24 | a reason is accepted exactly when it is one of the five enum strings |
| ConsumptionModel.NewConsumption | models/MaterialConsumption.js:3-44 | creation rounds the quantity to cents and succeeds exactly when it is at least 0.01 and the trimmed reason, when given, is in the enum; an absent reason becomes "uso_producao"; the record keeps its material and is dated now |
| ConsumptionController.HttpStatus | controllers/materialConsumptionController.js:65-92 | an unknown material or record answers 404, a fraction of a unit or short stock 400, a failure of the store 500 |
| ConsumptionController.Deducted | controllers/materialConsumptionController.js:97 | a material counted in units records and deducts the whole part of the request; any other unit the request itself |
| ConsumptionController.Drawn | controllers/materialConsumptionController.js:105-110 | the stock becomes the old stock minus the deduction, rounded to cents, and 0 instead of a negative value; a valid material stays valid; nothing else but `updatedAt` changes |
| ConsumptionController.Replenished | controllers/materialConsumptionController.js:157 | deleting a record adds its quantity back, rounded to cents, and changes nothing else but `updatedAt` |
| ConsumptionController.Consume | controllers/materialConsumptionController.js:59-112 | 404 exactly for an unknown material, 400 exactly for a material in units asked for less than one unit, 400 exactly when the remaining case asks for more than the stock, success exactly when the stock suffices and the record's schema accepts it, and nothing written on any error; a success stores the created record, had stock for the unfloored request, records the rounded deduction under the new id and draws the stock down |
| ConsumptionController.Unconsume | controllers/materialConsumptionController.js:135-161 | 404 for an unknown record or vanished material with nothing changed; otherwise the recorded quantity goes back and the record is removed |
| ConsumptionController.ClampNeverFires | controllers/materialConsumptionController.js:105-110 | a consumption that passed the stock check never drives the rounded stock below zero, so the clamp is never needed |
| ConsumptionController.UnconsumeKeepsValid | controllers/materialConsumptionController.js:135-161 | deleting a consumption leaves only schema-valid documents |
| ConsumptionController.CreateThenDeleteRestoresStock | controllers/materialConsumptionController.js:105-157 | recording and then deleting a consumption restores a whole-cent stock and keeps the set of materials |
| ConsumptionController.RoundTrip | controllers/materialConsumptionController.js:105-157 | drawing the deduction and adding the recorded quantity back restores a whole-cent stock |
| ConsumptionController.CreateThenDeleteRestoresRecords | controllers/materialConsumptionController.js:95-161 | recording and deleting a consumption leaves the records as they were and every other material untouched |
| ConsumptionController.DrawReplenish | controllers/materialConsumptionController.js:105-157 | drawing whole cents and putting them back restores the stock |
| ConsumptionController.ExactDeduction | controllers/materialConsumptionController.js:97-105 | with whole-cent stock and request, the deduction is whole cents, is stored unchanged, and the drawn stock is exact and non-negative |
| ConsumptionController.WholeUnitsExample | controllers/materialConsumptionController.js:76-105 | 2.7 units requested of 5: 2 are recorded and 3 remain |
| ConsumptionController.StockCheckBeforeFlooring | controllers/materialConsumptionController.js:87-92 | 2.7 units against a stock of 2.5 are refused although 2 would fit |
| ConsumptionController.CreateConsumption | controllers/materialConsumptionController.js:59-130 | the handler leaves the store and answers as `Consume` says, and every document stays valid |
| ConsumptionController.RecordConsumption | controllers/materialConsumptionController.js:95-112 | the record is stored under a fresh id and the material's stock drawn |
| ConsumptionController.DrawStock | controllers/materialConsumptionController.js:105-112 | the stock update deducts, rounds, clamps at zero and keeps every material valid |
| ConsumptionController.DeleteConsumption | controllers/materialConsumptionController.js:135-174 | the handler leaves the store and answers as `Unconsume` says, and every document stays valid |
| ProductModel.NewProduct | models/Product.js:3-41 | creation trims the name and succeeds exactly when it is non-empty and price, cost price and a given stock are non-negative; stock defaults to 0 and both timestamps are now |
| ProductModel.Touch | models/Product.js:44-47 | every save refreshes `updatedAt` and nothing else, so validity is unchanged |
| MaterialModel.ParseCategory | models/Material.js:13-17 | a category is accepted exactly when it is one of the six enum strings |
| MaterialModel.ParseUnit | models/Material.js:18-23 | a unit is accepted exactly when it is one of the five enum strings |
| MaterialModel.NewMaterial | models/Material.js:3-60 | creation succeeds exactly when the name, category, unit, required cost and minimums pass; the stored material has the trimmed name and supplier, the category and unit parsed from the input, the given cost per unit, the stock and minimum given or 0, and the unit "unidade" when none is given |
| MaterialModel.Touch | models/Material.js:63-66 | every save refreshes `updatedAt` and nothing else, so validity is unchanged |
| MaterialController.HttpStatus | controllers/materialController.js:138-143 | an unknown material answers 404, a failure of the store 500 |
| MaterialController.InitialQuantity | controllers/materialController.js:89 | a missing or unparsable initial quantity counts as 0 |
| MaterialController.InitialPurchase | controllers/materialController.js:94-105 | a purchase record is attempted exactly when the initial quantity is positive and `initialPurchase` is set; it names the new material, records the rounded quantity, the cost per unit (0 when absent) and their product rounded |
| MaterialController.PriceRoundsNonNegative | controllers/materialController.js:100-101 | a non-negative price and its product with a positive quantity round to non-negative values |
| MaterialController.InitialPurchaseMatchesStock | controllers/materialController.js:89-105 | the initial purchase records exactly the stock the material was created with, so the stock is not counted twice |
| MaterialController.TinyInitialStock | controllers/materialController.js:91-105 | an initial stock of 0.004 creates the material but the purchase schema refuses the record |
| MaterialController.CreateMaterial | controllers/materialController.js:84-122 | a refused material answers 500 with nothing written; otherwise the material is stored under a fresh id, followed by its initial purchase when one is due, and a refused purchase answers 500 with the material kept |
| MaterialController.InsertWithPurchase | controllers/materialController.js:91-106 | the material is stored under a fresh id and the purchase, when due and valid, under the next one |
| MaterialController.InsertMaterial | controllers/materialController.js:91 | a new material is stored under a fresh id |
| MaterialController.Patch | controllers/materialController.js:129-136 | a patch is accepted exactly when its category and unit are in their enums; each field it carries is taken (name and supplier trimmed), each it leaves out is kept, an empty patch changes nothing, and `updatedAt` is not refreshed |
| MaterialController.Revise | controllers/materialController.js:127-157 | an unknown id answers 404; 500 exactly when the patch is refused or the patched document fails the validators, both with nothing written; otherwise the patched document replaces the stored one |
| MaterialController.UpdateMaterial | controllers/materialController.js:127-157 | the handler leaves the store and answers as `Revise` says |
| MaterialController.DeleteMaterial | controllers/materialController.js:162-184 | an unknown id answers 404 with nothing changed; otherwise that document alone is removed |
| MaterialController.LowStock | controllers/materialController.js:198-200 | no contract of its own: a positive minimum at or above the stock; `LowStockMaterials` uses it |
| MaterialController.StockValue | controllers/materialController.js:194-196 | no contract of its own: the sum of cost per unit times stock; `StockValueNonNegative` and `CountAddsOne` state its laws |
| MaterialController.ByCategory | controllers/materialController.js:202-212 | no contract of its own: the per-category fold; `ByCategoryMeaning` and `CategoriesAddUp` state its results |
| MaterialController.LowStockMaterials | controllers/materialController.js:198-200 | the low-stock list holds exactly the materials with a positive minimum at or above their stock |
| MaterialController.Stats | controllers/materialController.js:193-222 | `lowStockCount` is the length of the low-stock list and `totalMaterials` the number of materials |
| MaterialController.ByCategoryMeaning | controllers/materialController.js:202-212 | each category's entry holds the number and stock value of its materials, and a category has an entry exactly when a material belongs to it |
| MaterialController.CategoriesAddUp | controllers/materialController.js:193-212 | the per-category counts add up to `totalMaterials` and the values to `totalStockValue` |
| MaterialController.CountAddsOne | controllers/materialController.js:210-211 | counting one material adds one to the count sum and its value to the value sum |
| MaterialController.StockValueNonNegative | controllers/materialController.js:194-196 | valid materials have a non-negative total stock value |
| MaterialController.CategoryBreakdown | controllers/materialController.js:202-212 | the `forEach` fills `byCategory` exactly as the fold `ByCategory` specifies |
| MaterialController.GetMaterialStats | controllers/materialController.js:189-231 | the handler answers exactly the statistics `Stats` specifies |
| Text.TrimStart | middlewares/security.js:132 | the result is a suffix of the input, the dropped prefix is all white space, and it does not start with white space |
| Text.TrimEnd | middlewares/security.js:132 | the result is a prefix of the input, the dropped suffix is all white space, and it does not end with white space |
| Text.Trim | middlewares/security.js:132 | `trim()` gives an infix of the input with no white space at either end; `TrimDropsBlanks` adds that all it cuts off is white space, which pins the result down |
| Text.TrimDropsBlanks | middlewares/security.js:132 | all that `trim()` cuts off before and after its result is white space |
| Text.Lower | middlewares/security.js:106 | `toLowerCase()` keeps the length and lowers each character |
| Text.RemoveAll | middlewares/security.js:132 | removing a character class keeps exactly the characters outside it; order and number are stated by `RemoveAllOne` and `RemoveAllAppend` |
| Text.RemoveAllOne | middlewares/security.js:132 | one character is kept exactly when it is outside the class |
| Text.RemoveAllAppend | middlewares/security.js:132 | removal works piece by piece, so the kept characters keep their order and number |
| Lengths.Utf16Length | models/User.js:21 | `.length` lies between the number of characters and twice that |
| Lengths.Utf16LengthExact | controllers/authController.js:602 | `.length` equals the number of characters exactly when none lies outside the Basic Multilingual Plane, and twice it exactly when all do |
| Lengths.IsLengthCount | middlewares/validation.js:27 | the `isLength` count never exceeds the number of characters |
| Lengths.IsLengthCountExact | middlewares/validation.js:20 | the `isLength` count equals the number of characters exactly when no variation selector occurs |
| Lengths.RemoveAllCount | middlewares/validation.js:20 | removing a character class shortens a string exactly when some character is in the class |
| Lengths.IsLengthWithinUtf16 | middlewares/validation.js:154 | the `isLength` count never exceeds `.length` |
| Lengths.EmojiPasswordLength | models/User.js:21 | three astral emoji are 6 code units for the schema and `.length`, and 3 for `isLength` |
| Lengths.SelectorNotCounted | middlewares/validation.js:27 | `isLength` counts "abcde" followed by U+FE0F as 5, and `.length` as 6 |
| Security.Strip | middlewares/security.js:75 | no contract of its own: `replace(dangerousChars, '')`; `StripMeaning` states what it removes |
| Security.Clean | middlewares/security.js:96-136 | no contract of its own: no dangerous character in any string or key at any depth; `SanitizeClean` proves it of every sanitized value |
| Security.StripMeaning | middlewares/security.js:75 | stripping leaves no character of the class, and changes a string exactly when it held one |
| Security.TrimKeepsClean | middlewares/security.js:132 | trimming a clean string keeps it clean |
| Security.Lookup | middlewares/security.js:106-119 | reading a key finds a value exactly when the object has that key |
| Security.Assign | middlewares/security.js:119 | `obj[k] = v` makes `k` read `v`, leaves every other key as it was, adds no other entry and keeps keys distinct |
| Security.Sanitize | middlewares/security.js:96-136 | null, undefined, booleans and numbers come back unchanged; a string comes back stripped of the class and then trimmed, with no character of the class left; an array keeps its length and order with each element sanitized; an object comes back with distinct keys |
| Security.Fields | middlewares/security.js:103-121 | the rebuilt object has distinct keys |
| Security.FieldsLookup | middlewares/security.js:104-121 | a key is in the rebuilt object exactly when some input key lands on it (not an operator, not stripped to empty), and it holds the sanitized value of the last such input key |
| Security.FieldsStep | middlewares/security.js:104-120 | one more input key either writes its stripped key or leaves the result as it was |
| Security.FieldsPresence | middlewares/security.js:104-120 | a key is present exactly when an earlier input key lands on it |
| Security.FieldsValue | middlewares/security.js:119 | a key holds the sanitized value of the last input key landing on it |
| Security.LookupSkipped | middlewares/security.js:106-116 | a skipped key leaves the result as it was |
| Security.SanitizeClean | middlewares/security.js:96-136 | the sanitizer's output holds no character of the class in any string or key, at any depth |
| Security.FieldsClean | middlewares/security.js:104-121 | every key and value of a rebuilt object is clean |
| Security.AssignKeepsClean | middlewares/security.js:119 | assigning a clean value under a clean key keeps an object clean |
| Security.CleanHasNoOperatorKey | middlewares/security.js:106-111 | a sanitized object has no operator key at any level |
| Security.ElemMatchSurvives | middlewares/security.js:76-108 | with the table as written, `{"$elemMatch": v}` comes back as `{"elemMatch": sanitize(v)}` |
| Security.ElemMatchDropped | middlewares/security.js:76-108 | with the table in lower case, `$elemMatch` and `$elemmatch` keys are dropped with their values |
| Security.ElemMatchKeptAsWritten | middlewares/security.js:93-116 | the written table lets `$elemMatch` through and stripping turns it into `elemMatch` |
| Security.ElemMatchNotKept | middlewares/security.js:106-108 | the lower-case table drops both spellings |
| Security.LowerCaseNotInTable | middlewares/security.js:76-94 | the lower-cased key is not in the written table |
| Security.LowerElemMatch | middlewares/security.js:106 | both spellings lower to `$elemmatch` |
| Security.StripElemMatch | middlewares/security.js:111 | stripping `$elemMatch` gives `elemMatch` |
| Security.Restore | middlewares/security.js:147-151 | restoring fields keeps the body an object with distinct keys |
| Security.RestoreMeaning | middlewares/security.js:143-151 | a preserved field the original body defined (not undefined) reads its original value, and every other key reads what the sanitizer produced |
| Security.PreservedFieldsKept | middlewares/security.js:140-151 | in the body the middleware returns, `email`, `password`, `resetToken` and `verificationToken` are exactly as sent, under either table |
| Security.OtherFieldsSanitized | middlewares/security.js:142-151 | in the body the middleware returns, every other key carries the sanitized value, under either table |
| Security.HandlerElemMatch | middlewares/security.js:76-151 | for a body `{"$elemMatch": v}` the middleware as written returns `{"elemMatch": sanitize(v)}`; with the lower-case table it returns `{}` |
| Security.CleanParam | middlewares/security.js:157-166 | a parameter named like a token, or not a string, is left alone; any other string is stripped but not trimmed, and a clean one is unchanged |
| Security.SanitizedBody | middlewares/security.js:140-151 | no contract of its own: the new `req.body`; `PreservedFieldsKept`, `OtherFieldsSanitized` and `HandlerElemMatch` state it |
| Security.Request.SanitizeInput | middlewares/security.js:74-177 | under the given operator table, the middleware replaces the body by its sanitized form with the credentials restored, sanitizes an object or array query, and cleans every parameter in place, keeping their number and order |
| SecurityLogger.Redact | utils/securityLogger.js:31-45 | the copy keeps the keys in order, replaces the value of each key whose lower case contains a sensitive fragment by "[REDACTED]", and keeps every other value |
| SecurityLogger.RedactEntry | utils/securityLogger.js:37-42 | no contract of its own: one entry after the loop; `RedactLookup` and `RedactFront` state its effect |
| SecurityLogger.RedactLookup | utils/securityLogger.js:31-45 | read as an object, the copy has exactly the input's keys; a sensitive key reads "[REDACTED]" and any other key reads what it did |
| SecurityLogger.RedactFront | utils/securityLogger.js:37-42 | redaction goes entry by entry, so it can be taken from the front |
| SecurityLogger.SanitizeLogDetails | utils/securityLogger.js:31-45 | the loop over the copy produces exactly `Redact` of the details, and the input is a value left as it was |
| SecurityLogger.SecurityEventLine | utils/securityLogger.js:10-26 | the line is tagged "[SECURITY]" with timestamp and event; details are redacted in production and raw anywhere else |
| SecurityLogger.ErrorLine | utils/securityLogger.js:95-108 | in production the message and the redacted context; elsewhere the error record with the stack only in development and the context spread over it |
| SecurityLogger.RedactionOnlyInProduction | utils/securityLogger.js:19-25 | a password detail is "[REDACTED]" in production and written as given in development |
| Validation.FractionValue | middlewares/validation.js:50-51 | the digits after the point are worth their integer value over a power of ten, a fraction in [0, 1) |
| Validation.DigitsBelowPow10 | middlewares/validation.js:50-51 | n digits are worth less than 10 to the n |
| Validation.TrailingZeroFraction | middlewares/validation.js:50-51 | a trailing zero after the point does not change the value |
| Validation.ParseInt | middlewares/validation.js:56-57 | an integer string without a leading minus reads as a value of at least 0; the value itself is stated by `ParseIntValue` |
| Validation.ParseIntValue | middlewares/validation.js:56-57 | a digit string reads as its value, unsigned or after `+`, and as its negation after `-` |
| Validation.DotIndex | middlewares/validation.js:50-51 | the position of the first decimal point, or the length when there is none |
| Validation.ParseDecimal | middlewares/validation.js:50-51 | a decimal string without a leading minus reads as a value of at least 0; the value itself is stated by `ParseDecimalValue` and `SignedDecimal` |
| Validation.ParseDecimalValue | middlewares/validation.js:50-51 | digits, a point and digits read as the whole part plus the fraction, and digits alone read as their value |
| Validation.SignedDecimal | middlewares/validation.js:50-51 | a string that starts with a digit or a point reads as its unsigned value, and as its negation after a leading `-` |
| Validation.UnsignedDecimalValue | middlewares/validation.js:50-51 | without a sign, digits, a point and digits read as the whole part plus the fraction |
| Validation.DecimalAgreesWithInt | middlewares/validation.js:50-57 | whatever the integer rule reads, the decimal rule reads as the same number |
| Validation.DotAfterDigits | middlewares/validation.js:50-51 | the decimal point of digits, a point and digits is the one after the whole part |
| Validation.Errors | middlewares/validation.js:5 | the error list is empty exactly when every check of the chain passed, and lists at most one entry per check |
| Validation.HandleValidationErrors | middlewares/validation.js:4-14 | the request goes on exactly when every check passed; otherwise 400 with the non-empty list of failing fields in chain order |
| Validation.ItemChecks | middlewares/validation.js:87-92 | two checks per sale item, the product check and the whole-quantity-of-at-least-1 check, in item order |
| Validation.AllOkConcat | middlewares/validation.js:80-94 | a chain built from two parts passes exactly when both parts pass |
| Validation.RegisterChecks | middlewares/validation.js:17-30 | no contract of its own: the register chain; `RegisterChecksMeaning` states when it passes |
| Validation.LoginChecks | middlewares/validation.js:33-42 | no contract of its own: the login chain; `LoginChecksMeaning` states when it passes |
| Validation.ProductChecks | middlewares/validation.js:45-60 | no contract of its own: the product chain; `ProductChecksMeaning` states when it passes |
| Validation.ClientChecks | middlewares/validation.js:63-77 | no contract of its own: the client chain; `ClientChecksMeaning` states when it passes |
| Validation.SaleChecks | middlewares/validation.js:80-94 | no contract of its own: the sale chain; `SaleChecksMeaning` states when it passes |
| Validation.MaterialChecks | middlewares/validation.js:97-116 | no contract of its own: the material chain; `MaterialChecksMeaning` states when it passes |
| Validation.CreateUserChecks | middlewares/validation.js:119-140 | no contract of its own: the create-user chain; `CreateUserChecksMeaning` states when it passes |
| Validation.ForgotPasswordChecks | middlewares/validation.js:143-149 | no contract of its own: the forgot-password chain; `PasswordChecksMeaning` states when it passes |
| Validation.ResetPasswordChecks | middlewares/validation.js:152-157 | no contract of its own: the reset-password chain; `PasswordChecksMeaning` states when it passes |
| Validation.ItemChecksMeaning | middlewares/validation.js:87-92 | the item checks all pass exactly when every item names a product and has a whole quantity of at least 1 |
| Validation.SaleChecksMeaning | middlewares/validation.js:80-94 | a sale body passes exactly when it names a client and has a non-empty items array whose every item is well formed |
| Validation.RegisterChecksMeaning | middlewares/validation.js:17-30 | a register body passes exactly when the trimmed name counts 2 to 50 under `isLength`, the e-mail is valid and the password counts at least 6 under `isLength` |
| Validation.LoginChecksMeaning | middlewares/validation.js:33-42 | a login body passes exactly when the e-mail is valid and the password is not empty |
| Validation.ProductChecksMeaning | middlewares/validation.js:45-60 | a product body passes exactly when the trimmed name counts 2 to 100 under `isLength`, price and cost price are numbers of at least 0 and the stock is a whole number of at least 0 |
| Validation.ClientChecksMeaning | middlewares/validation.js:63-77 | a client body passes exactly when the trimmed name counts 2 to 100 under `isLength`, the e-mail is valid and the trimmed phone counts at least 10 |
| Validation.MaterialChecksMeaning | middlewares/validation.js:97-116 | a material body passes exactly when the trimmed name counts 2 to 100 under `isLength`, and the category, cost per unit, quantity and the optional unit pass; the minimum stock is not examined |
| Validation.CreateUserChecksMeaning | middlewares/validation.js:119-140 | a create-user body passes exactly when the trimmed name counts 2 to 100 and the password at least 6 under `isLength`, the e-mail is valid, the role is absent or one of the three, and the phone is absent or counts at least 10 once trimmed |
| Validation.PasswordChecksMeaning | middlewares/validation.js:143-157 | the forgot-password body passes exactly when the e-mail is valid; the reset body exactly when the password counts at least 6 under `isLength` |
| Validation.ChainPasses | middlewares/validation.js:4-14 | a chain of up to five checks lets the request through exactly when each check passed |
| Validation.IntAtLeastOne | middlewares/validation.js:90-92 | a quantity that passes the item check is at least 1, whether given as a number or as a string |
| Validation.Passed | middlewares/validation.js:4-14 | a chain that lets the request through passed each of its checks |
| Validation.MaterialChecksMeetSchema | middlewares/validation.js:97-116 | a material body that passes its chain, with a minimum stock that is absent or at least 0, is accepted by the material schema |
| Validation.NegativeMinimumPassesChecks | middlewares/validation.js:97-116 | a material body with a minimum stock of -1 passes the chain, and the schema then refuses it |
| Validation.CreateUserRole | middlewares/validation.js:130-133 | a create-user body that passes its chain has no role or one of admin, vendedor and cliente |
| Validation.RegisterPassword | middlewares/validation.js:17-30 | a register body that passes its chain has a non-blank trimmed name and a password of at least 6 UTF-16 units, as the user schema demands |
| Auth.Split | middlewares/auth.js:10 | splitting on single spaces yields at least one piece and no piece contains a space |
| Auth.SplitJoin | middlewares/auth.js:10 | joining the pieces of a split with single spaces gives the header back |
| Auth.JoinAfterEmpty | middlewares/auth.js:10 | an empty first piece contributes only its separator to the joined text |
| Auth.JoinAfterChar | middlewares/auth.js:10 | a character in front of the first piece ends up in front of the joined text |
| Auth.SplitWord | middlewares/auth.js:10 | a word without spaces splits into itself |
| Auth.SplitAfterWord | middlewares/auth.js:10 | a word, a space and more text split into the word followed by the pieces of the rest |
| Auth.Bearer | middlewares/auth.js:9 | no contract of its own: the header test `startsWith('Bearer')`; `TokenSource` and `BareBearerHidesCookie` use it |
| Auth.TokenSource | middlewares/auth.js:9-13 | a token is never empty; a header starting with Bearer wins and gives a space-free token; without one the cookie's token counts, when it is not empty |
| Auth.BearerWins | middlewares/auth.js:9-10 | a header `Bearer t` gives `t`, with or without further pieces, whatever the cookie holds |
| Auth.BareBearerHidesCookie | middlewares/auth.js:9-15 | a bare `Bearer` header, or one with two spaces, gives no token even when the cookie holds one |
| Auth.BareBearerPieces | middlewares/auth.js:9-10 | `Bearer` is a bearer header and splits into the single piece `Bearer` |
| Auth.DoubleSpacePieces | middlewares/auth.js:9-10 | `Bearer  abc` is a bearer header whose second piece is empty |
| Auth.SplitDoubleSpace | middlewares/auth.js:10 | two spaces after a word leave an empty second piece |
| Auth.FindById | middlewares/auth.js:35 | the lookup returns a stored document with the id asked for, and nothing only when no document has that id |
| Auth.Authenticate | middlewares/auth.js:5-72 | no token is refused as NoToken and only then; a token the signature check refuses as BadToken and only then; a verified token naming no stored account as UserNotFound and only then; a success is the stored user the token names, without the password digest |
| Auth.Request.Protect | middlewares/auth.js:5-72 | the request goes on exactly when authentication succeeds, with `req.user` set to that user; a refusal is 401 with its reason; a missing user clears `req.user` and a missing or bad token leaves it as it was |
| Auth.WithoutPassword | middlewares/auth.js:35 | no contract of its own: `.select('-password')`; `Authenticate` states the user it yields |
| Auth.Request.constructor | middlewares/auth.js:35 | a fresh request carries no user |
| Auth.IsAdmin | middlewares/auth.js:75-84 | the request goes on exactly when the loaded user is an administrator, and is 403 otherwise |
| Auth.IsAdminOrVendedor | middlewares/auth.js:87-96 | the request goes on exactly when the loaded user is an administrator or a seller, and is 403 otherwise |
| Auth.GatesNested | middlewares/auth.js:75-96 | whoever passes isAdmin passes isAdminOrVendedor, and a client gets 403 from isAdminOrVendedor |
| Auth.ProtectedAdmin | middlewares/auth.js:5-84 | a request that passed protect and isAdmin carries the stored administrator whose id the token names |
| UserModel.ParseRole | models/User.js:24-28 | a role string is accepted exactly when it is admin, vendedor or cliente |
| UserModel.RoleName | models/User.js:24-28 | the stored name of each role reads back as that role |
| UserModel.NewAccount | models/User.js:5-74 | creation succeeds exactly when the trimmed name is not blank, the trimmed e-mail matches the pattern, the password has at least 6 UTF-16 code units and the role is one of the three; the stored document then holds the trimmed name, e-mail and phone, the digest of the password, the given role and verification flag, no tokens and no expiries, and the creation time |
| UserModel.IssueReset | models/User.js:82-96 | after issuing, the digest of the raw token matches exactly until ten minutes from now, no other digest matches, and every other field is unchanged |
| UserModel.IssueVerification | models/User.js:99-113 | after issuing, the digest of the raw token matches exactly until twenty-four hours from now, no other digest matches, and every other field is unchanged |
| UserModel.ClearReset | models/User.js:39-46 | once the reset pair is cleared no token matches, and every other field is unchanged |
| UserModel.ClearVerification | models/User.js:51-58 | once the verification pair is cleared no token matches, and every other field is unchanged |
| UserModel.ReissueRevokes | models/User.js:82-113 | a second token issued with a different digest replaces the first, which then never matches |
| UserModel.User.Load | models/User.js:5-63 | a loaded document holds exactly the stored fields, with the password not marked as modified |
| UserModel.User.GetResetPasswordToken | models/User.js:82-96 | returns the raw token and leaves the document as IssueReset describes |
| UserModel.User.GetEmailVerificationToken | models/User.js:99-113 | returns the raw token and leaves the document as IssueVerification describes |
| UserModel.User.SetPassword | models/User.js:18-23 | assigns the new password and marks it as modified, nothing else changes |
| UserModel.User.Save | models/User.js:66-74 | a modified password is replaced by its digest and an unmodified one is left alone, so a digest is never hashed twice; afterwards the password is not marked as modified |
| AuthController.FindOne | controllers/authController.js:14 | the position of the first document matching the filter, and nothing exactly when no document matches |
| AuthController.FindOneAt | controllers/authController.js:589-592 | a matching document with no match before it is the one found |
| AuthController.LoginOutcome | controllers/authController.js:96-184 | 401 exactly when the address is unknown or the password's digest differs; a session exactly when the account found first has the digest and is verified, otherwise 403 |
| AuthController.CreateDoc | controllers/authController.js:24-32 | no contract of its own: `User.create` with the unique index; `CreateDocMeaning` and `CreateDocId` state its result |
| AuthController.RequireVerification | controllers/authController.js:285-286 | no contract of its own: the verification flag as the environment sets it; `FirstAdminRule` and `FirstAdminCreated` use it |
| AuthController.RegisterStep | controllers/authController.js:9-91 | no contract of its own: `register` as a transition; `RegisterNeverLogsIn`, `RegisterToken` and `RegisterKeepsValid` state its results |
| AuthController.FirstAdminStep | controllers/authController.js:234-386 | no contract of its own: `createFirstAdmin` as a transition; `FirstAdminRule`, `FirstAdminRefused` and `FirstAdminCreated` state its results |
| AuthController.CreateUserStep | controllers/authController.js:446-509 | no contract of its own: `createUser` as a transition; `CreateUserMeaning` and `CreatedUser` state its results |
| AuthController.ForgotPasswordStep | controllers/authController.js:514-572 | no contract of its own: `forgotPassword` as a transition; `ForgotPasswordMeaning` states its results |
| AuthController.ResetPasswordStep | controllers/authController.js:577-650 | no contract of its own: `resetPassword` as a transition; `ResetPasswordMeaning` and `ResetWorksOnce` state its results |
| AuthController.VerifyEmailStep | controllers/authController.js:655-709 | no contract of its own: `verifyEmail` as a transition; `VerifyEmailMeaning` states its results |
| AuthController.ResendVerificationStep | controllers/authController.js:714-770 | no contract of its own: `resendVerificationEmail` as a transition; `ResendVerificationMeaning` states its results |
| AuthController.ValidAppend | controllers/authController.js:24-32 | appending a schema-valid document under the next id keeps the collection valid |
| AuthController.ValidReplace | controllers/authController.js:613 | writing a schema-valid document back under its own id keeps the collection valid |
| AuthController.CreateDocMeaning | controllers/authController.js:24-32 | a created document is schema-valid, carries the id, role, verification flag and password digest asked for, holds no tokens, and no stored document has the same address |
| AuthController.CreateDocId | controllers/authController.js:24-32 | a created document carries the id it was created with |
| AuthController.RegisterKeepsValid | controllers/authController.js:9-91 | registration keeps the collection valid |
| AuthController.RegisterNeverLogsIn | controllers/authController.js:9-91 | registration answers 201 without a session, 400 exactly when the address is known in any case, or 500; only a 201 adds a document, last, unverified, with the next id and the role asked for or cliente |
| AuthController.RegisterToken | controllers/authController.js:34-66 | after a delivered verification e-mail the new account's token matches for 24 hours; after a failed one no token matches |
| AuthController.RegisterAcceptsAdmin | controllers/authController.js:24-32 | asking for the admin role at registration creates an administrator |
| AuthController.FirstAdminKeepsValid | controllers/authController.js:234-386 | creating the first administrator keeps the collection valid |
| AuthController.FirstAdminRule | controllers/authController.js:234-386 | any existing administrator gives 400 and no change; a created administrator is verified exactly when verification is not required and gets a session token exactly then |
| AuthController.FirstAdminRefused | controllers/authController.js:255-282 | any existing administrator gives 400 and no change, and every refusal leaves the collection as it was |
| AuthController.FirstAdminCreated | controllers/authController.js:289-366 | a created administrator goes last with the next id, is verified exactly when verification is not required and gets a session token exactly then |
| AuthController.CreatedAdmin | controllers/authController.js:289-296 | an account created with role admin is an administrator, verified as asked |
| AuthController.AwaitingKeeps | controllers/authController.js:33-66 | issuing and clearing the verification token changes neither id, address, password, role nor verification flag |
| AuthController.FirstAdminOnce | controllers/authController.js:255-263 | after a first administrator is created, the route refuses every later call with 400 |
| AuthController.CreateUserKeepsValid | controllers/authController.js:446-509 | creating a user keeps the collection valid |
| AuthController.CreateUserMeaning | controllers/authController.js:446-509 | an unknown role is refused exactly when the required fields are present; a created account goes last with the next id, is verified and has the role asked for or cliente; every refusal changes nothing |
| AuthController.CreatedUser | controllers/authController.js:477-486 | an account `createUser` creates is appended after the existing ones with the next id, verified, and with the role asked for or `cliente` |
| AuthController.ForgotPasswordKeepsValid | controllers/authController.js:514-572 | the forgot-password flow keeps the collection valid |
| AuthController.ForgotPasswordMeaning | controllers/authController.js:514-572 | a delivered e-mail always answers 200; the generic notice comes exactly for an unknown address; only the account found changes, and its reset token then matches for ten minutes |
| AuthController.ResetPasswordKeepsValid | controllers/authController.js:577-650 | the reset flow keeps the collection valid |
| AuthController.ResetPasswordMeaning | controllers/authController.js:577-650 | a reset succeeds exactly when some account holds the token's digest unexpired and the password has at least six UTF-16 code units; that account alone gets the new digest, loses its reset token and is logged in; a refusal changes nothing |
| AuthController.ResetWorksOnce | controllers/authController.js:589-620 | replaying a reset token that succeeded, at any later time and with any password, is refused with 400 |
| AuthController.ForgotThenReset | controllers/authController.js:514-650 | a token handed out by forgotPassword resets the password exactly while its ten minutes last |
| AuthController.VerifyEmailKeepsValid | controllers/authController.js:655-709 | e-mail verification keeps the collection valid |
| AuthController.VerifyEmailMeaning | controllers/authController.js:655-709 | verification succeeds exactly when some account holds the token's digest unexpired; that account becomes verified, loses its token and is logged in; otherwise 400 and no change |
| AuthController.ResendVerificationKeepsValid | controllers/authController.js:714-770 | resending keeps the collection valid |
| AuthController.ResendVerificationMeaning | controllers/authController.js:714-770 | 400 exactly for a known verified address, the generic notice exactly for an unknown one; a delivered resend makes the new token live for 24 hours and kills any token of another digest; no other account changes |
| AuthController.RegisterVerifyLogin | controllers/authController.js:9-184 | a delivered registration followed by the link within 24 hours verifies and logs in the new account, and then the same address and password log in |
| AuthController.RegisteredThenVerified | controllers/authController.js:655-709 | the link verifies the newly registered account, which keeps its address and password digest |
| AuthController.RegisteredHoldsLink | controllers/authController.js:9-91 | after a delivered registration the new account is the first to hold the link's digest, still live within 24 hours |
| AuthController.CreatedFields | controllers/authController.js:24-32 | the created document keeps the id, the trimmed address and the password digest |
| AuthController.AppendedFirstHolder | controllers/authController.js:666-670 | a document appended last that holds a digest no earlier document holds is the one found |
| AuthController.RegisterAppends | controllers/authController.js:24-80 | a delivered registration appends the created account holding the new verification token and answers 201 with the next id |
| AuthController.VerifiedLogsIn | controllers/authController.js:96-184 | a verified account found first by its address logs in with its password |
| AuthController.Users.constructor | controllers/authController.js:9 | an empty collection with the id generator at zero is valid |
| AuthController.Users.SaveAt | controllers/authController.js:613 | the save hook hashes a modified password only, and the document is written back at its position and nowhere else |
| AuthController.Users.Insert | controllers/authController.js:24-32 | the new document goes last and takes the next id |
| AuthController.Users.InsertAwaitingVerification | controllers/authController.js:33-66 | the new document goes last holding the verification token, cleared again when the e-mail fails |
| AuthController.Users.Register | controllers/authController.js:9-91 | performs exactly the registration step and keeps the collection valid |
| AuthController.Users.RegisterNew | controllers/authController.js:24-80 | a refused creation answers 500 and changes nothing; otherwise the account goes last awaiting verification and the answer is 201 with its id |
| AuthController.Users.Login | controllers/authController.js:96-184 | answers exactly what LoginOutcome describes and changes nothing |
| AuthController.Users.CreateFirstAdmin | controllers/authController.js:234-386 | performs exactly the first-administrator step and keeps the collection valid |
| AuthController.Users.CreateAdmin | controllers/authController.js:289-366 | creates the administrator last, awaiting verification when required and with a session token otherwise; a refused creation answers 500 and changes nothing |
| AuthController.Users.CreateUser | controllers/authController.js:446-509 | performs exactly the create-user step and keeps the collection valid |
| AuthController.Users.ForgotPassword | controllers/authController.js:514-572 | performs exactly the forgot-password step and keeps the collection valid |
| AuthController.Users.IssueResetAt | controllers/authController.js:529-563 | the found account gets a reset token and the sent or console notice, or has it cleared again with 500 when the e-mail fails |
| AuthController.Users.ResetPassword | controllers/authController.js:577-650 | performs exactly the reset step and keeps the collection valid |
| AuthController.Users.VerifyEmail | controllers/authController.js:655-709 | performs exactly the verification step and keeps the collection valid |
| AuthController.Users.ResendVerificationEmail | controllers/authController.js:714-770 | performs exactly the resend step and keeps the collection valid |
| AuthController.Users.IssueVerificationAt | controllers/authController.js:737-761 | the found account gets a new verification token and the notice, or has it cleared again with 500 when the e-mail fails |
| Store.ProductStocks | controllers/saleController.js:159-162 | the stock counter of every stored product, keyed as the products are |
| Store.MaterialStocks | controllers/materialConsumptionController.js:105-110 | the stock counter of every stored material, keyed as the materials are |
| Store.Db.constructor | models/Product.js:23-28 | an empty store is valid |
| Store.Db.NewId | controllers/saleController.js:183 | a fresh id that no stored document of any collection uses, and the store stays valid |

## Left out

- Input and output: the HTTP layer, routes, helmet and the rate limiters, server start-up, the database connection, the admin-creation script and the e-mail templates and transport. Sending an e-mail is an outcome parameter: delivered, with or without development mode, or failed.
- The security-logging calls inside handlers and guards: they only write to the console. The lines they would write are `SecurityLogger.SecurityEventLine` and `SecurityLogger.ErrorLine`.
- `logout`, `getMe`, `getUsers`: cookie clearing, a lookup and a paginated listing with no state change.
- The client and product controllers and the client schema. They are plain create, read, update and delete passthroughs, and the client schema encrypts the CPF with a foreign library. Their pagination uses the same formula as `SaleReport.Skip` and `SaleReport.Pages`.
- `.populate`, sorting, regex search filters and `Date` parsing of report ranges: the filtered lists are inputs.
- IEEE-754 arithmetic and NaN: numbers are exact reals. A string that does not parse is `None`, not NaN.
- Exponent notation in `isFloat` and `isInt`: decimal syntax only.
- `normalizeEmail` and the `isEmail` rule: `isEmail` is a parameter, and the normalisation is not modelled.
- Numbers, arrays and nested objects inside string rules: they read as the strings JavaScript would give only for the cases listed in `Validation.AsText`.
- Interleaving across `await`s and lost updates: each handler runs alone to completion.
- JavaScript object key order beyond insertion order; cyclic objects in `sanitize`.
- The length and salt of a bcrypt digest, and `comparePassword`: the digest is a deterministic function of the password and a password matches when the digests agree.
- The street-address fields of the user document: no handler in the model reads them.
- Text.Lower: `toLowerCase` beyond ASCII is not modelled; the model lowers A to Z only. `trim` uses the white space set of JavaScript.
- The middleware's mount order. server.js:65 mounts `sanitizeInput` before `express.json()` at server.js:78, so in the running server its body branch sees `undefined` and its parameter loop sees no parameters; only the query branch acts there. `Security.Request.SanitizeInput` is stated for any request. It assumes Express 4, where the middleware may replace `req.query`.
- ApplyUsesRestoreOk: stated only for non-negative recorded material quantities. `createSale` stores the request's per-unit quantity as given (controllers/saleController.js:138-160), and neither the validator (middlewares/validation.js:80-95) nor the schema (models/Sale.js:27-30) bounds it, so a negative entry can make the restore fail with 500 (`SalePayment.NegativeUseBreaksRoundTrip`).
- ApplyItemsRestoreOk: stated only when the recorded material quantities are non-negative, for the reason given for `ApplyUsesRestoreOk`.
- ApplyRoundTrip: the deduct-then-restore round trip is stated only when the recorded material quantities are non-negative; `SalePayment.NegativeUseBreaksRoundTrip` shows it failing otherwise.
- PaidThenPendingRestoresStock: stated only when the recorded material quantities are non-negative, since otherwise the restore can fail with 500 partway through.
- UnsetThenPendingRestoresStock: stated only when the recorded material quantities are non-negative, for the same reason.
- AuthController.FindOne: the e-mail filter `new RegExp('^' + email + '$', 'i')` is read as case-insensitive equality. Regular-expression metacharacters in the address are not modelled.
- SalePayment.UpdatePayment: the status is a string or absent. A JSON `null` or a non-string status is not modelled.
- AuthController.CreateDocMeaning: the unique index is modelled as exact equality of the stored addresses. A duplicate key error becomes the handler's 500.

## Findings

| source | as written | input that shows it | evidently intended | confidence | as-written member | corrected member |
|---|---|---|---|---|---|---|
| middlewares/security.js:76-108 | the operator table lists `$elemMatch` with a capital M, but keys are compared after `toLowerCase`, so that entry never matches and the key survives as `elemMatch` with its value | the query string `?$elemMatch[x]=1`, which the query parser reads as `{"$elemMatch": {"x": "1"}}` (`v` = `{"x": "1"}`) | the `$elemMatch` key is dropped like every other listed operator | not executed | Security.ElemMatchSurvives | Security.ElemMatchDropped |
