# Sales-order processor, tax calculator and catalog seeding

A Dafny model of the order-handling core of a small ERP service that turns
classified chat commands into sales orders. Three parts are modelled:

- the **invoice processor** (`InvoiceProcessorFacadeImpl`): dispatch on the
  command's intent. Only `CREATE_SALES_ORDER` does anything. It numbers a new
  invoice as one more than the largest stored number and displays it as
  `SO-<n>`. It resolves the party, falling back to the default customer
  `Anonymous Traders`, and the default organization `Selmel Liquors`. It turns
  each line item into an invoice item and aborts on an unknown product. Then it
  saves the invoice and replies with text. Every other intent gets the reply
  `Functionality not implement`;
- the **tax calculator** (`TaxCalculator.calculate`): a per-country lookup,
  then the rate, the tax rounded to cents, and the total rounded from the
  *unrounded* tax;
- the **seeding routine** (`SeedService.seed`): when no organization exists,
  it saves two organizations, six products and six parties, all attached to
  `Selmel Liquors`.

Layout, one module per file:

| file | module | contents |
|---|---|---|
| `wrappers.dfy` | `Wrappers` | `Option`, `Result` |
| `lookup.dfy` | `Lookup` | first row matching a predicate (a `findOne`) |
| `entities.dfy` | `Entities` | organization, party, product, tax config, invoice, invoice item, line item, command payload |
| `storage.dfy` | `Storage` | the abstract `Store`, its insert functions and the `Database` class whose `save` methods update it in place |
| `decimal.dfy` | `Decimal` | number-to-decimal-string conversion and its inverse |
| `tax_calculator.dfy` | `TaxCalculator` | `Round2`, `Calculate` and their lemmas |
| `invoice_processor.dfy` | `InvoiceProcessor` | lookups, item list, `NewInvoice`/`Process` specifications, the store invariant `WellFormed`, the `InvoiceProcessorFacade` class, lemmas |
| `seed.dfy` | `Seed` | the seed batches, `Seeded`, the `SeedService` class, lemmas |

Each repository the processor and the seeding code use is a `seq` field of
`Storage.Database`, in insertion order. A `findOne` with an equality `where` is "the first row that matches".
Database UUIDs are natural numbers handed out by a counter (`nextId`); only
their freshness matters to the model. The classes' methods (`ProcessInvoice`,
`Seed`, the `Save*` methods) change the database in place. Each states its new
state as a function of the old one (`Process`, `Seeded`, `Insert*`). The
properties are proved as lemmas about those functions. `ProcessInvoice` and
`Seed` also carry the store invariant `WellFormed` forward; the low-level
`Save*` methods do not, since `save` accepts any row.

Amounts are exact reals. JavaScript's `toFixed(2)` on an exact decimal is
modelled as `Round2`: rounding to whole hundredths with ties away from zero.

Behaviour the code does not implement, which the model therefore does not
have either:
- Names are matched exactly, not case-insensitively.
- An unknown party is never created; the default customer's record is used.
- Only `CREATE_SALES_ORDER` changes anything. Fulfilment, invoicing, payment,
  `UNKNOWN` and inventory checks only log; any other intent does nothing.
- No subtotal, tax or total is computed for an order: `total_amount` stays
  null, and stock is neither checked nor decremented. So Ryan's order for 800
  kingfisher on a freshly seeded database, with only 50 in stock, becomes
  `SO-1` with no total (`Seed.FirstOrderAfterSeeding`).
- The reply for an unrecognised intent is the literal
  `Functionality not implement`.
- The command's intent is an arbitrary string. The declared union of intents
  in `src/clients/schema/brain.client.schema.ts` does not even contain
  `CREATE_SALES_ORDER`. That schema also has no `due_date` field, although the
  processor reads one, so the model's payload carries an optional due date.

## Model

| member | source | states |
|---|---|---|
| `Lookup.FirstIndex` | src/common/utils/tax-calculator-util.ts:22-24 | the index found satisfies the predicate and no earlier row does; when none is found, no row satisfies it |
| `Lookup.FindFirst` | src/messages/facade/invoice.processor.facade.ts:151-154 | the row found is in the repository and matches; nothing is found exactly when no row matches |
| `Storage.Database.SaveOrganization` | src/seed/seed.service.ts:41-42 | saving appends the organization under a fresh id and changes nothing else |
| `Storage.Database.SaveProducts` | src/seed/seed.service.ts:96-97 | saving a batch appends its products, numbered from the next fresh id, and changes nothing else |
| `Storage.Database.SaveParties` | src/seed/seed.service.ts:153-154 | saving a batch appends its parties, numbered from the next fresh id, and changes nothing else |
| `Storage.Database.SaveInvoice` | src/messages/facade/invoice.processor.facade.ts:36 | saving appends the invoice, consumes the next id and returns the stored invoice |
| `Decimal.DecimalString` | src/messages/facade/invoice.processor.facade.ts:93 | the number's text is a non-empty string of digits with no leading zero |
| `Decimal.ParseDecimalString` | src/messages/facade/invoice.processor.facade.ts:93 | parsing a number's decimal text gives the number back |
| `Decimal.DecimalStringInjective` | src/messages/facade/invoice.processor.facade.ts:93 | different numbers have different decimal texts |
| `TaxCalculator.Round2Bounds` | src/common/utils/tax-calculator-util.ts:29-30 | a rounded amount is a whole number of cents, within half a cent of the amount, and non-negative for a non-negative amount |
| `TaxCalculator.Round2IsNearest` | src/common/utils/tax-calculator-util.ts:29-30 | no whole number of cents is closer to the amount than its rounding |
| `TaxCalculator.Round2TiesAwayFromZero` | src/common/utils/tax-calculator-util.ts:29-30 | an amount exactly half a cent from two whole numbers of cents rounds away from zero, for positive and negative amounts |
| `TaxCalculator.Round2Monotonic` | src/common/utils/tax-calculator-util.ts:29-30 | rounding preserves order |
| `TaxCalculator.Calculate` | src/common/utils/tax-calculator-util.ts:13-33 | tax is the rounding of subtotal×rate/100; the total is the rounding of subtotal plus the unrounded tax; rate and tax type come from the first config whose country is exactly the argument, else 0 and "N/A" |
| `TaxCalculator.CalculateWithoutConfig` | src/common/utils/tax-calculator-util.ts:25-31 | with no config for the country: rate 0, tax 0, total the rounded subtotal, type "N/A" |
| `TaxCalculator.CalculateTotalNearSum` | src/common/utils/tax-calculator-util.ts:26-30 | the total is within one cent of subtotal plus rounded tax |
| `TaxCalculator.CalculateTotalCanDifferFromSum` | src/common/utils/tax-calculator-util.ts:26-30 | the total is not always the subtotal plus the rounded tax: a subtotal of 0.004 at 100% gives tax 0 and total 0.01 |
| `TaxCalculator.Round2ShiftWholeCents` | src/common/utils/tax-calculator-util.ts:29-30 | rounding a non-negative amount plus a non-negative whole number of cents adds those cents to the rounded amount |
| `TaxCalculator.CalculateTotalIsSumForWholeCents` | src/common/utils/tax-calculator-util.ts:26-30 | for a subtotal of whole cents, when the configuration used has a non-negative rate, the total is exactly subtotal plus rounded tax; a difference needs a sub-cent subtotal or a negative amount |
| `TaxCalculator.CalculateNonNegative` | src/common/utils/tax-calculator-util.ts:25-30 | a non-negative subtotal, when the configuration used has a non-negative rate, gives a non-negative tax and a total at least the rounded subtotal |
| `InvoiceProcessor.FindProductByName` | src/messages/facade/invoice.processor.facade.ts:151-154 | the product found has exactly the name; none is found exactly when no product has it |
| `InvoiceProcessor.FindPartyByName` | src/messages/facade/invoice.processor.facade.ts:158 | the party found has exactly the name; none is found exactly when no party has it |
| `InvoiceProcessor.GetPartyByName` | src/messages/facade/invoice.processor.facade.ts:156-164 | a party with the exact name is returned when one exists; otherwise the lookup of the default customer |
| `InvoiceProcessor.GetOrganizationByName` | src/messages/facade/invoice.processor.facade.ts:166-173 | the organization found has exactly the name; null exactly when none has it |
| `InvoiceProcessor.BuildItems` | src/messages/facade/invoice.processor.facade.ts:127-142 | succeeds exactly when every line names a known product, with one item per line in order; otherwise fails naming the first unknown product |
| `InvoiceProcessor.MaxInvoiceNumber` | src/messages/facade/invoice.processor.facade.ts:81-89 | at least every stored number, 0 with no invoices, otherwise equal to some stored number |
| `InvoiceProcessor.DisplayNumberInjective` | src/messages/facade/invoice.processor.facade.ts:93 | different invoice numbers give different display numbers |
| `InvoiceProcessor.InvoiceProcessorFacade.ProcessInvoice` | src/messages/facade/invoice.processor.facade.ts:28-76 | the new database and the reply are those of `Process` on the old database; a well-formed database stays well formed |
| `InvoiceProcessor.InvoiceProcessorFacade.CreateInvoiceEntity` | src/messages/facade/invoice.processor.facade.ts:78-119 | the invoice built, or the error thrown, is that of `NewInvoice` on the current database, which it only reads |
| `InvoiceProcessor.OtherIntentsChangeNothing` | src/messages/facade/invoice.processor.facade.ts:48-75 | any intent but a sales order leaves the store unchanged and replies "Functionality not implement" |
| `InvoiceProcessor.NewInvoiceNumbering` | src/messages/facade/invoice.processor.facade.ts:81-90 | the new number exceeds every stored number, is 1 for the first invoice, and is one more than some stored number otherwise |
| `InvoiceProcessor.NewInvoiceHeader` | src/messages/facade/invoice.processor.facade.ts:91-96 | display number "SO-" followed by the number, status PENDING, the payload's intent, a due date null exactly when none or an empty one was sent, no total, the creation time |
| `InvoiceProcessor.NewInvoiceParty` | src/messages/facade/invoice.processor.facade.ts:99-106 | an exact party match is used; a missing, empty or unmatched name uses the default customer's record; the organization is the default organization |
| `InvoiceProcessor.NewInvoiceNullReference` | src/messages/facade/invoice.processor.facade.ts:99-106 | building dies on a null dereference exactly when the party lookup (with fallback) or the default organization lookup finds nothing |
| `InvoiceProcessor.MissingDefaultsAbort` | src/messages/facade/invoice.processor.facade.ts:33-44 | a sales order without the defaults replies "Issue creating order" with the null-dereference message and saves nothing |
| `InvoiceProcessor.UnknownProductAborts` | src/messages/facade/invoice.processor.facade.ts:127-132 | the first line naming an unknown product aborts the order: nothing is saved and the reply names that product |
| `InvoiceProcessor.NoLineItemsStillCreates` | src/messages/facade/invoice.processor.facade.ts:108-124 | absent or empty line items give an invoice with no item list, and the order is still created |
| `InvoiceProcessor.ItemsFollowLineItems` | src/messages/facade/invoice.processor.facade.ts:127-142 | items match line items one for one and in order: quantity, product name as description, the resolved product's id as assigned to the in-memory item, back-reference to the new invoice |
| `InvoiceProcessor.SalesOrderAddsOneInvoice` | src/messages/facade/invoice.processor.facade.ts:31-44 | success appends exactly one invoice, keeps organizations, parties and products, and the reply carries the display number; failure changes nothing and replies with the error message |
| `InvoiceProcessor.ConsecutiveOrdersNumbered` | src/messages/facade/invoice.processor.facade.ts:81-90 | two sales orders in a row get consecutive numbers |
| `InvoiceProcessor.WellFormedNumbersUnique` | src/messages/facade/invoice.processor.facade.ts:89-93 | in a well-formed store no two invoices share a number or a display number |
| `InvoiceProcessor.ProcessPreservesWellFormed` | src/messages/facade/invoice.processor.facade.ts:78-111 | every command keeps fresh ids, increasing invoice numbers, matching display numbers and existing party and organization references, and the product reference the processor assigns to each in-memory item names an existing product (the persisted reference is null, see "Left out") |
| `Seed.SeedService.Seed` | src/seed/seed.service.ts:21-166 | the new database is `Seeded` of the old one; a well-formed database stays well formed |
| `Seed.SeedSkipsWhenOrganizationsExist` | src/seed/seed.service.ts:23-25 | with an organization present, seeding changes nothing |
| `Seed.SeedIdempotent` | src/seed/seed.service.ts:23-25 | seeding twice gives the same store as seeding once |
| `Seed.SeedCreatesOrganizations` | src/seed/seed.service.ts:29-42 | exactly two organizations, Hemadri Solutions and Selmel Liquors, both in IN, with fresh ids |
| `Seed.SeedCreatesProducts` | src/seed/seed.service.ts:47-97 | exactly six products are appended, all under Selmel Liquors, none with a negative price or stock |
| `Seed.SeedCreatesParties` | src/seed/seed.service.ts:104-154 | exactly six parties are appended, all under Selmel Liquors, among them the customer Anonymous Traders |
| `Seed.SeedResolvesDefaults` | src/seed/seed.service.ts:129-136 | after seeding, the default organization resolves to Selmel Liquors and every party lookup finds a party |
| `Seed.SeededStoreHasNoNullReference` | src/messages/facade/invoice.processor.facade.ts:99-106 | on a freshly seeded store, building an invoice never dies on a null dereference |
| `Seed.SeedPreservesWellFormed` | src/seed/seed.service.ts:29-154 | seeding keeps the store well formed |
| `Seed.SeededEmptyStore` | src/seed/seed.service.ts:29-154 | the organizations, first product and first parties of a seeded empty database, with their ids |
| `Seed.RyanOrder` | src/messages/facade/invoice.processor.facade.ts:31-39 | Ryan's order for 800 kingfisher on such a store becomes SO-1 with one item for kingfisher |
| `Seed.EmptyStoreWellFormed` | src/seed/seed.service.ts:23-25 | the empty database that seeding starts from is well formed, the base case for `Seed` and `ProcessInvoice` carrying `WellFormed` forward |
| `Seed.FirstOrderAfterSeeding` | src/messages/facade/invoice.processor.facade.ts:31-39 | on a freshly seeded empty database that order is saved as SO-1 and the reply names SO-1 |

## Left out

- Messaging, the intent classifier, PDF rendering, document storage, users and
  authentication, controllers, guards and modules are not part of this model.
- The log lines of every branch are not modelled; for the five logging intents
  the model keeps only their effect (none) and the shared reply.
- Concurrency: `Promise.all` over the line items is a sequential map. When
  several products are unknown, the model reports the first in list order,
  whereas the processor reports whichever lookup fails first. The read-max-then-insert
  numbering race is outside a sequential model. Uniqueness and consecutive
  numbering are proved for commands processed one after another.
- Floating point: amounts are exact reals, and `Round2` is exact rounding with
  ties away from zero. The IEEE behaviour of `toFixed`/`parseFloat` is not
  modelled, for example `1.005` rounding down.
- Invoice numbers are unbounded naturals. JavaScript numbers stop growing by
  one above 2^53 and print in exponent form from 10^21; neither is modelled.
- The clock is the parameter `now` of the processor. The due date is kept as
  the string sent, because `new Date(...)` parsing is not modelled.
- `InvoiceProcessor.ItemFor`: the model keeps the product id the processor
  assigns to each item's `productId` (src/messages/facade/invoice.processor.facade.ts:135).
  The item entity declares no such column, only the `product` relation
  (src/messages/entities/invoice-item.entity.ts:19-20), and that relation is
  never set. So the row the cascaded `save` writes has a null product
  reference. The model's items, and `WellFormed`'s product clause, describe
  the in-memory item, not the stored row.
- Generated UUIDs are a counter on the store. Invoice items carry no id of
  their own; their back-reference is the invoice's id.
- The SQL `MAX()` query and TypeORM `findOne` are a scan of the in-memory
  sequence. `findOne` returns the first matching row in insertion order;
  SQL leaves that order unspecified.
- The error thrown by a missing party or organization is modelled by its V8
  message text `Cannot read properties of null (reading 'id')`.
- Database failures during seeding, which are logged and re-thrown, are not
  modelled: every `save` succeeds.
- `InvoiceProcessor.InvoiceProcessorFacade.ProcessInvoice`: a failing `MAX`
  query (src/messages/facade/invoice.processor.facade.ts:81-84) or a failing
  invoice `save` (line 36) is caught by the `try` at lines 33-44, saves nothing
  and replies "Issue creating order " plus the database's message. The model's
  queries and saves never fail, so only the null-reference and unknown-product
  errors reach that reply.
- The tax calculator's repository is the sequence of configs passed to
  `Calculate`. The processor never calls the calculator.
