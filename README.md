# CRM mutations, modelled in Dafny

A model of the write side of a small GraphQL CRM service. The service has
four mutation resolvers:

- **createCustomer** checks the phone format, then inserts a customer whose email must be unique.
- **bulkCreateCustomers** inserts a list of customers. Each record runs in its own transaction, and the resolver collects the created rows and the indexed error lines.
- **createProduct** guards price and stock, then inserts a product.
- **createOrder** checks the customer and the product ids, then stores an order linked to the products. Its total is the sum of their prices.

The database tables become a `Store` class (`crm_store.dfy`). It holds three
maps keyed by id, and each resolver is a method that returns a `Result`: the
created row or the error message. Every method keeps the table constraints
in `Store.Valid()`:

- emails are unique;
- prices are positive and stock is non-negative;
- every order has a stored customer and at least one stored product, and its total equals the sum of its products' prices.

The value-level rules live in separate modules:

- `phone.dfy`: the phone pattern, as a predicate over characters.
- `digits.dfy`: decimal digit strings. They cover `\d` and the rendering of the record index in bulk error lines.
- `crm_rules.dfy`: the error messages, the insert outcome, a functional description of the bulk loop (`BulkAfter`/`BulkRun`), the product and order guards, and the order total.

The bulk method is proved against `BulkRun`, and the lemmas about `BulkRun`
state what bulk creation promises. The client methods `CustomerScenario`,
`OrderScenario` and `RepeatedProductScenario` state these cases as verified
client code against the store:

- a duplicate email is refused;
- prices 10.00 and 5.50 give an order total of 15.50;
- a repeated product id is refused.

Two behaviours of the code worth noting:

- Bulk creation does not check the phone format (`BulkSkipsPhoneCheck`), so a stored customer's phone need not match the pattern.
- Python's `$` also matches before one final newline, so `"123-456-7890\n"` is accepted (`PhoneExamples`).

Prices are Dafny `real`: exact, as Python's `Decimal` is while results fit its context precision.

## Model

| member | source | states |
|---|---|---|
| PhoneFormat.PhoneError | crm/schema.py:35-37 | no error exactly when the phone is absent, empty, or in the pattern's grammar ("+" and 10 to 15 digits, or 3, 3 and 4 digits joined by dashes), possibly followed by one newline; otherwise the error is "Invalid phone format" |
| PhoneFormat.PhoneBodyGrammar | crm/schema.py:36 | the character-position predicate is equivalent to the pattern's grammar: "+" and 10 to 15 digits, or 3, 3 and 4 digits joined by dashes |
| PhoneFormat.PhoneMatchesGrammar | crm/schema.py:36 | the full match, with `$` allowing one final newline, is the grammar form or the grammar form followed by "\n" |
| PhoneFormat.PhoneMatchesShape | crm/schema.py:36 | a matching phone is 11 to 17 characters long and made only of digits, "+", "-" and "\n"; a "+" can appear only first and a newline only last |
| PhoneFormat.PhoneExamples | crm/schema.py:36 | "+12345678901", "123-456-7890" and "123-456-7890\n" match; "abc", "12345", a 9-digit and a 16-digit international number do not |
| Digits.DecimalString | crm/schema.py:79-81 | `str(idx)` is a non-empty digit string, has no leading zero, and reads back as idx |
| CrmRules.ErrorLineInjective | crm/schema.py:79-81 | an error line "Record i: reason" determines both the index and the reason |
| CrmRules.RenderInjective | crm/schema.py:66-83 | the list of error lines bulk creation returns determines the failures (indices and reasons) it was rendered from |
| CrmRules.RenderExample | crm/schema.py:79-81 | the failure of record 1 renders as "Record 1: " followed by its reason |
| CrmRules.BulkCounts | crm/schema.py:66-83 | after n records, created plus failed is n |
| CrmRules.BulkTaken | crm/schema.py:69-77 | the stored emails are the ones stored before the batch plus those of the created records |
| CrmRules.BulkIndices | crm/schema.py:69-81 | failures name processed records, with indices strictly increasing |
| CrmRules.BulkPrefixStable | crm/schema.py:69-81 | later records never remove created rows, failures or stored emails left by earlier ones |
| CrmRules.BulkFailuresAreOutcomes | crm/schema.py:69-81 | every logged failure carries the error that inserting its record raised on the store left by the records before it |
| CrmRules.BulkRecordFailure | crm/schema.py:69-81 | record i is logged with reason m exactly when inserting it after records 0..i-1 raises m |
| CrmRules.BulkRecordCreated | crm/schema.py:69-77 | a record whose insert succeeds appears in the created list, right after the earlier created records |
| CrmRules.BulkCreatedIsSuccess | crm/schema.py:69-77 | conversely, every created row is an input record whose insert succeeded, placed right after the rows created before it |
| CrmRules.BulkDuplicate | crm/schema.py:69-79 | with no other failure, record i is logged as a duplicate exactly when its email was stored before the batch or belongs to a record the batch created earlier |
| CrmRules.BulkEmailsFresh | crm/schema.py:69-79 | the created records' emails are pairwise distinct and none was stored before the batch |
| CrmRules.BulkExample | crm/schema.py:65-83 | for ann, ann, cy the records created are the first and third, and the only error line is "Record 1: Email already exists" |
| CrmRules.BulkSkipsPhoneCheck | crm/schema.py:72-76 | in any batch, a record whose phone createCustomer rejects is still created when no other constraint fails and its email is not stored before it |
| CrmRules.BulkSkipsPhoneCheckExample | crm/schema.py:72-76 | the phone "abc" draws "Invalid phone format" from createCustomer, yet bulk creation stores the record |
| CrmRules.CountCheck | crm/schema.py:123-125 | the count of distinct stored ids equals the length of the list exactly when the ids are pairwise distinct and all stored |
| CrmRules.OrderError | crm/schema.py:115-125 | no error exactly when the list is non-empty, the customer is stored and the ids are distinct and stored; otherwise the first failing check gives its message, in the resolver's order |
| CrmRules.PriceSumIsSetSum | crm/schema.py:123-127 | over distinct ids, the left-to-right total equals the price sum of the product set the order is linked to |
| CrmRules.PriceSumPositive | crm/schema.py:127 | a non-empty order of positively priced products has a positive total; CreateOrder uses it to promise a positive total |
| CrmStore.Store.InsertCustomer | crm/schema.py:40-44 | the table gains exactly one row, with the given fields under an id above every stored one, and the stored emails gain its email |
| CrmStore.Store.CreateCustomer | crm/schema.py:34-51 | error precedence is phone, then other constraint, then duplicate email; success exactly when all pass; on failure the table is unchanged; on success it gains exactly the new row and the message is "Customer created successfully" |
| CrmStore.Store.CreateRecord | crm/schema.py:70-81 | one bulk record fails exactly when its insert raises, leaving the table unchanged; otherwise the table gains exactly that row |
| CrmStore.Store.BulkCreateCustomers | crm/schema.py:65-83 | created plus errors is the input length; the created rows come from the records BulkRun creates, in order; the errors are BulkRun's failures rendered as "Record i: reason"; the table keeps every old row and gains exactly the created rows, under fresh increasing ids |
| CrmStore.Store.CreateProduct | crm/schema.py:93-104 | price is checked before stock and stock defaults to 0; success exactly when both pass; on failure the table is unchanged; on success it gains exactly one product with the given name, price and stock |
| CrmStore.Store.CreateOrder | crm/schema.py:114-136 | the three checks in order, success exactly when all pass, no order on failure; on success exactly one order, for the customer, linked to the set of requested ids, with total the sum of their prices, which is positive; the date is the supplied one, otherwise the current time |

## Left out

- The graphene and Django bindings (the `DjangoObjectType` classes and the `Arguments` and field declarations) have no logic of their own.
- The second half of crm/schema.py redefines the types and adds `resolve_all_customers`, which returns every customer. Reading the `customers` map covers it.
- The `hello` placeholder schema has no logic.
- `transaction.atomic()` is modelled by each bulk record changing the table only when its insert succeeds. A database `IntegrityError` is modelled as the unique-email violation.
- Every other insert failure is the parameter `fault`. The model assumes it is raised before the email check. The customer model's own constraints are not part of this model.
- `timezone.now()` is the parameter `now`.
- Only the customer insert can fail in the model (through `fault`). `Product.objects.create`, `Order.objects.create` and `order.products.set` are assumed to succeed once the resolver's checks pass.
- Id allocation is a counter per table, so the model gives each new row an id above every stored one. The source relies on database auto-increment, which promises only fresh ids, not increasing ones.
- PhoneFormat.PhoneError: `\d` is taken as an ASCII digit. Python's Unicode-aware `\d`, which also accepts other scripts' digits, is not modelled.
- CrmStore.Store.CreateProduct: an explicit null `stock` is not modelled. In the source it fails when compared with 0.
- Python `Decimal` scale (the "0.00" start value), the 28-digit context precision, NaN and infinities are not modelled: prices are exact reals, so the total at crm/schema.py:127 is exact even where Python would round it.
- GraphQL's 32-bit `Int` range for stock is not modelled.
- CrmStore.Store.CreateOrder: ids are naturals, so a non-numeric or negative GraphQL id is not modelled. In the source a negative id matches no row and fails like any unknown id: "Invalid customer ID", or the count check. The order row and its product links are written in one step rather than the source's two.
- Null list elements are not modelled. A `null` item in the bulk input makes the source log an `AttributeError` line for that record, which `seq<CustomerInput>` cannot express. A `null` entry in `productIds` is dropped by the id filter, so that order fails the count check.
