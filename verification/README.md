# Stock-Master inventory core in Dafny

This project models the core of Stock-Master, a warehouse inventory tracker:

- **Products** carry a cached `currentStock` scalar.
- **Stock operations** are receipts, deliveries, internal transfers and adjustments. Each is created as a draft and edited only while it is a draft. Validation turns it into stock changes.
- **The stock-move ledger** is append-only: one move per validated line, each with a balance snapshot.

Around that engine the model covers:

- the reference generator run by the operation schema's pre-save hook (`WH/IN/0001`, …);
- the product registry rules: create, read, update, delete;
- the dashboard aggregates;
- the client-side role and permission table;
- the signup checks, the public view of a user record, and the one-time-code password reset.

Modules follow the source's files:

| module | file | models |
|---|---|---|
| `Results` | results.dfy | `Option` and `Result` |
| `StockOperation` | stock_operation.dfy | the operation record, its type and status enumerations, schema defaults |
| `Reference` | reference.dfy | the pre-save hook: prefixes, trailing-number parsing, `padStart` rendering |
| `Products` | products.dfy | the product record and the product controller |
| `Ledger` | ledger.dfy | stock moves; the stock re-derived from the ledger |
| `Operations` | operations.dfy | the operation controller: create, update, validate |
| `Validation` | validation.dfy | per-type properties of validation |
| `Reconciliation` | reconciliation.dfy | the ledger agrees with cached stock across every controller action |
| `Dashboard` | dashboard.dfy | the dashboard statistics |
| `Permissions` | permissions.dfy | the frontend role table |
| `Auth` | auth.dfy | signup, `sanitizeUser`, forgot/reset password |
| `Scenarios` | scenarios.dfy | concrete runs: numbering across types, emptying a product, a stock count |

## How the model reads the source

- **Stores.** The three stores are values:
  - Products are a `map` from identifier to record.
  - Operations are a `seq` in creation order. An operation's identifier is its position, and "the newest of a type" is the last one of that type. The controller never deletes operations.
  - The ledger is a `seq` of moves, oldest first.
- **Absent fields.** JavaScript truthiness is explicit:
  - An absent or empty string is `""`.
  - Where the handler distinguishes `undefined` from a value, as the product update does with `price !== undefined`, the field is an `Option`.
- **Validation.** Validation returns the stores it leaves behind together with the reply. A failing line throws after the earlier lines have already saved their stock and appended their moves. Nothing is rolled back. The operation stays as stored.
- **The ledger invariant.** The ledger's stock is the sum of the quantities of every move that is not an internal transfer. A transfer's move records the moved quantity but leaves stock alone. Transfer moves are recognised by their description label `Internal Transfer `. Under this reading, cached stock equals ledger stock and the newest move of a product snapshots its stock. Both facts are proved to survive every controller action, including a validation that fails half-way.
- **Parameters.** Hashing, hash comparison and the clock are parameters. So is the product identifier the database generates.

The model follows the code as written; in particular:

- A line may name a product that does not exist. Such a line is stored, and fails at validation time.
- Line quantities are stored and applied with whatever sign they carry.
- The creation handler never sets locations, so a delivery stores the schema's receipt defaults, `Vendor` and `WH/Stock`. Its moves therefore run from `Vendor` to `WH/Stock`, and the `WH/Stock`/`Customer` fallbacks never apply (`Scenarios.CreatedDeliveryLocations`).
- Validation is guarded by `status == done` only. A waiting, ready or canceled operation can be validated.
- A second validation answers with an error and changes nothing.
- A failed validation keeps the effects of the lines before the failing one.
- An internal transfer's move records the line's quantity as sent, but the transfer does not change stock. So the plain sum of all ledger quantities is not the stock; the sum over non-transfer moves is.
- References come from the pre-save hook alone.

## Model

| member | source | states |
|---|---|---|
| StockOperation.ParseType | backend/models/StockOperation.js:10-14 | the type enum accepts exactly the four spellings, and each parses to the type spelled that way |
| StockOperation.ParseTypeName | backend/models/StockOperation.js:10-14 | spelling a type and parsing it back gives the same type; no two types share a spelling |
| Reference.Decimal | backend/models/StockOperation.js:116 | `String(n)` is a non-empty digit string without leading zero whose value is `n` |
| Reference.PadStart | backend/models/StockOperation.js:116 | `padStart(width, '0')` keeps the string as its suffix, fills the left with zeros, and never truncates |
| Reference.ZerosPrefixValue | backend/models/StockOperation.js:109-111 | leading zeros do not change the value `parseInt` reads from a digit string |
| Reference.Render | backend/models/StockOperation.js:116 | the rendered number has at least four digits, exactly four unless the number needs more, and reads back as the number |
| Reference.PrefixShape | backend/models/StockOperation.js:83-99 | every prefix is `WH/`, a word without slash or digit, and a closing slash |
| Reference.PrefixTable | backend/models/StockOperation.js:83-99 | IN/OUT/INT/ADJ for the four types; `WH/OP/` exactly for strings that are not a type |
| Reference.PrefixesDistinct | backend/models/StockOperation.js:83-99 | distinct types get distinct prefixes |
| Reference.TrailingNumberMatches | backend/models/StockOperation.js:109 | the parser succeeds iff `\/(\d+)$` matches somewhere, and then returns the value of the digits after that slash |
| Reference.NextNumber | backend/models/StockOperation.js:106-113 | the next number is the parsed number plus one, or 1 when there is no previous reference or it does not parse |
| Reference.LastReferenceOfType | backend/models/StockOperation.js:102-104 | none iff no operation has the type; otherwise the reference of an operation of that type with none of that type after it |
| Reference.PreSave | backend/models/StockOperation.js:76-117 | an old document or one with a reference is unchanged; otherwise only the reference changes, to the type's prefix followed by digits reading as the next number, zero-padded to exactly four digits unless the number needs more |
| Reference.RoundTrip | backend/models/StockOperation.js:109-116 | parsing a rendered reference gives back the number rendered |
| Reference.SlashThenDigits | backend/models/StockOperation.js:109-111 | digits after a string ending in a slash are what the expression captures |
| Reference.GeneratedNumber | backend/models/StockOperation.js:83-116 | a generated reference is the prefix followed by the next number's digits, padded with zeros to exactly four when shorter, and parses back to that number |
| Reference.NoTruncation | backend/models/StockOperation.js:116 | numbers of five or more digits are rendered whole and read back exactly |
| Reference.SuccessiveIncrease | backend/models/StockOperation.js:102-116 | after storing an operation numbered `n`, the next reference of its type is numbered `n + 1` |
| Reference.NextAfter | backend/models/StockOperation.js:102-116 | after an operation whose reference is prefix plus `Render(n)`, the next one of its type is prefix plus `Render(n + 1)` |
| Reference.OtherTypesIgnored | backend/models/StockOperation.js:102-104 | creating an operation of another type leaves a type's next reference unchanged |
| Reference.FirstReference | backend/models/StockOperation.js:106-116 | with no earlier operation of the type, or an unparsable newest reference, numbering restarts at `0001` |
| Products.CreateProduct | backend/controllers/productController.js:34-59 | `SkuExists` iff a SKU is sent and another product has it; else `MissingRequired` iff a required field is falsy; success iff neither and the id is fresh; the new record has stock 0, the body's fields, and defaults for the rest; other records untouched |
| Products.GetProduct | backend/controllers/productController.js:18-29 | the stored record iff present, else `NotFound` |
| Products.GetAfterCreate | backend/controllers/productController.js:34-59 | reading a just-created product gives the body's fields, the defaults and stock 0; every other id reads as before |
| Products.GetAfterDelete | backend/controllers/productController.js:92-105 | a deleted product reads as `NotFound`; every other id reads as before |
| Products.UpdateProduct | backend/controllers/productController.js:64-87 | `NotFound` iff absent; `DuplicateKey` iff the merged SKU belongs to another product; success iff present and no other product has the merged SKU; on success strings are replaced only by truthy values and numbers unless undefined, stock is kept, and other records are untouched |
| Products.GetAfterUpdate | backend/controllers/productController.js:64-87 | an updated product reads back with the merged SKU and its old stock; every other id reads as before |
| Products.DeleteProduct | backend/controllers/productController.js:92-105 | removes exactly the product iff present, else `NotFound` |
| Products.ZeroOverwrites | backend/controllers/productController.js:76-77 | a zero price or threshold overwrites the stored value |
| Products.UpdateIgnoresOtherFields | backend/controllers/productController.js:65 | a `currentStock` in the update body has no effect |
| Products.UniqueSkusPreserved | backend/models/Product.js:10-16 | create, update and delete keep SKUs unique |
| Operations.BuildItems | backend/controllers/operationController.js:62-66 | lines are stored iff every line has a product and a quantity; the stored lines carry them, with `doneQuantity` 0 on creation |
| Operations.CreateOperation | backend/controllers/operationController.js:43-72 | missing type or lines iff `MissingTypeOrItems`; then a receipt or delivery without partner iff `PartnerRequired`; then, with the type enum and line schema passed, `DuplicateReference` iff the generated reference is already stored; success iff none of these; the new draft is appended with the generated reference, the schema's default locations and the sent lines; products and ledger untouched |
| Operations.UpdateOperation | backend/controllers/operationController.js:77-96 | `NotFound` iff no such operation; `NotDraft` iff not a draft; success iff a draft whose sent lines are well-formed; only partner (when non-empty) and lines (when sent) change |
| Operations.ApplyItem | backend/controllers/operationController.js:115-197 | a line fails iff its product is gone or a delivery/transfer asks for more than the stock; otherwise only its product's stock moves, by +q, -q, 0 or +q by type |
| Operations.ApplyItemFailure | backend/controllers/operationController.js:137-166 | the failure is the missing product, or the shortfall carrying name, available and requested |
| Operations.ApplyItemMove | backend/controllers/operationController.js:122-194 | the appended move records the line (label plus reference, quantity negated for a delivery, the type's locations) and snapshots the product's new stock, never negative after a delivery and unchanged after a transfer |
| Operations.ProcessItems | backend/controllers/operationController.js:116-197 | the loop stops at the first failing line, appending one move per completed line, naming that line's product and the operation's reference |
| Operations.ProcessItemsStock | backend/controllers/operationController.js:116-197 | after the loop each product's stock moved by the summed effect of the lines completed |
| Operations.ProcessItemsRecords | backend/controllers/operationController.js:116-197 | the `i`-th appended move records the `i`-th line: product, reference, label, signed quantity and the type's locations |
| Operations.ProcessItemsBalances | backend/controllers/operationController.js:116-197 | the `i`-th appended move snapshots its product's stock after lines `0..i` |
| Operations.ProcessItemsSnapshots | backend/controllers/operationController.js:116-197 | the newest appended move of each product snapshots that product's stock when the loop ends |
| Operations.ValidateOperation | backend/controllers/operationController.js:101-205 | unknown id and done operation change nothing; the ledger only grows; on success the operation is done with every line completed, one move per line, and stock moved by the summed effect; on failure operations are unchanged |
| Operations.ReferencesStayUnique | backend/models/StockOperation.js:5-9 | creating, editing and validating operations keep every stored reference distinct |
| Operations.ValidateMoves | backend/controllers/operationController.js:101-205 | whatever the outcome, the `i`-th move validation appends records the operation's `i`-th line with the running stock after it, and each product's newest appended move snapshots its stock as validation left it |
| Validation.SumEffectByType | backend/controllers/operationController.js:116-197 | summed effect is +, -, 0, + the summed quantities for the four types |
| Validation.UncheckedLoopCompletes | backend/controllers/operationController.js:116-133 | receipts and adjustments whose products exist always complete |
| Validation.ValidateTwice | backend/controllers/operationController.js:109-113 | validating a validated operation again is refused and changes nothing |
| Validation.GuardAdmitsEveryOtherStatus | backend/controllers/operationController.js:109-113 | a non-done receipt or adjustment, canceled included, is validated |
| Validation.ReceiptRaisesStock | backend/controllers/operationController.js:116-133 | a receipt raises each product by the sum of its line quantities and appends one move per line |
| Validation.DeliveryLowersStock | backend/controllers/operationController.js:135-157 | a completed delivery lowers each product by the sum of its line quantities |
| Validation.InternalKeepsStock | backend/controllers/operationController.js:159-178 | a transfer never changes any product, whether it completes or fails |
| Validation.FailureKeepsEarlierLines | backend/controllers/operationController.js:136-204 | a failing line leaves the operation as stored, while the lines before it keep their stock changes and moves |
| Validation.DeliveryShortfall | backend/controllers/operationController.js:138-142 | a delivery whose first line exceeds stock fails at once with name, available and requested, and changes nothing |
| Validation.AdjustmentLandsOnCount | frontend/src/features/operations/AdjustmentForm.jsx:77-79 | the counted-minus-theoretical difference the count form submits lands stock on the count |
| Reconciliation.LabelMarksTransfers | backend/controllers/operationController.js:169 | only transfer moves carry the transfer label |
| Reconciliation.ApplyItemConsistent | backend/controllers/operationController.js:116-197 | one completed line keeps cached stock equal to ledger stock and the newest snapshot equal to stock |
| Reconciliation.ProcessItemsConsistent | backend/controllers/operationController.js:116-197 | the loop keeps both facts wherever it stops |
| Reconciliation.ValidateConsistent | backend/controllers/operationController.js:101-205 | validation keeps both facts, whatever its outcome |
| Reconciliation.EditingConsistent | backend/controllers/operationController.js:43-96 | creating and editing operations keep both facts |
| Reconciliation.ProductActionsConsistent | backend/controllers/productController.js:34-105 | product create (under an identifier no move names), update and delete keep both facts |
| Dashboard.LowStockIds | backend/controllers/dashboardController.js:31-33 | a product counts as low iff its stock is at or below its threshold |
| Dashboard.CountLowStock | backend/controllers/dashboardController.js:31-33 | the counting loop returns the number of low-stock products, at most the number of products |
| Dashboard.LowStockBound | backend/controllers/dashboardController.js:29-33 | low-stock products never outnumber products |
| Dashboard.Newest | backend/controllers/dashboardController.js:36-38 | the newest `k` moves, newest first, fewer when the ledger is shorter |
| Dashboard.DashboardStats | backend/controllers/dashboardController.js:7-46 | the product count, the low-stock count and the five newest moves |
| Dashboard.NewestMoveFirst | backend/controllers/dashboardController.js:36-38 | a move just appended heads the recent activity |
| Permissions.RolePermissions | frontend/src/utils/permissions.js:69-72 | a role outside the table gets the empty list |
| Permissions.SpaceUnderscores | frontend/src/utils/permissions.js:90-93 | every underscore becomes a space, nothing else changes |
| Permissions.PermissionErrorMessage | frontend/src/utils/permissions.js:89-94 | the fixed prefix, the action with spaces for underscores, the fixed suffix |
| Permissions.UnknownRoleHasNothing | frontend/src/utils/permissions.js:69-72 | an unknown role holds no permission |
| Permissions.AdminHoldsAll | frontend/src/utils/permissions.js:60 | the admin holds exactly the declared permissions |
| Permissions.OnlyDeclaredPermissions | frontend/src/utils/permissions.js:39-61 | no role holds an undeclared permission |
| Permissions.HierarchyMonotone | frontend/src/utils/permissions.js:5-61 | a permission held at one level is held at every higher level |
| Permissions.StaffCannotEditProducts | frontend/src/utils/permissions.js:40-46 | staff may not create, update or delete products |
| Permissions.NoDeletionBelowAdmin | frontend/src/utils/permissions.js:39-59 | staff and managers hold no deletion permission and cannot manage users |
| Permissions.DeletionPermissions | frontend/src/utils/permissions.js:13-36 | the declared deletion permissions are exactly the three `delete_` ones |
| Permissions.CanPerformActionAgrees | frontend/src/utils/permissions.js:80-82 | `canPerformAction` answers as `hasPermission` |
| Auth.CheckPassword | backend/controllers/authController.js:54-60 | the scan accepts iff the password has 8+ allowed characters with a lowercase, an uppercase and a special character |
| Auth.DigitNotRequired | backend/controllers/authController.js:54 | every digit is allowed but none counts as the special character; a password without digit passes, one whose only non-letter is a digit fails |
| Auth.Signup | backend/controllers/authController.js:27-91 | each of the seven errors iff its check fails and all earlier ones pass; on success one user is appended with the hashed password and role defaulting to staff |
| Auth.SignupKeepsIdentitiesUnique | backend/controllers/authController.js:43-51 | signup never stores a second user with a taken login id or email |
| Auth.Sanitize | backend/controllers/authController.js:17-22 | the record minus `passwordHash` and `__v`, other fields unchanged |
| Auth.SanitizeIdempotent | backend/controllers/authController.js:17-22 | sanitising a sanitised record changes nothing |
| Auth.SignupViewHidesHash | backend/controllers/authController.js:75-86 | the view returned for a freshly signed-up user holds its login id, name, email and role and never its password hash |
| Auth.FindByEmail | backend/controllers/authController.js:134 | the first user with the email, none iff no user has it |
| Auth.ForgotPassword | backend/controllers/authController.js:131-160 | a known email gets a fresh unused code expiring ten minutes later; an unknown email changes nothing |
| Auth.NewestUnused | backend/controllers/authController.js:180-183 | the newest unused code of the user, none iff the user has no unused code |
| Auth.ResetPassword | backend/controllers/authController.js:165-210 | missing fields, unknown email, then success iff the newest unused code has not expired and matches; success replaces only that user's hash and spends only that code |
| Auth.ResetSpendsCode | backend/controllers/authController.js:180-203 | a spent code is never checked again: the user's newest unused code is now strictly older |
| Auth.ForgotThenReset | backend/controllers/authController.js:143-196 | a just-issued matching code resets until its expiry instant and fails after it |
| Scenarios.Created | backend/controllers/operationController.js:58-68 | a created operation is appended with the generated reference and its type, other stores untouched |
| Scenarios.ReceiptNumbering | backend/models/StockOperation.js:76-117 | three receipts get numbers 1, 2, 3; a delivery between them starts its own count at 1 |
| Scenarios.Spelled | backend/models/StockOperation.js:83-116 | those references are `WH/IN/0001`, `WH/IN/0002`, `WH/IN/0003`, `WH/OUT/0001` |
| Scenarios.EmptyThenShort | backend/controllers/operationController.js:135-157 | stock 10: delivering 10 leaves 0; a second delivery of 1 is created under the next reference and then fails with available 0, requested 1 |
| Scenarios.SecondDeliveryFresh | backend/models/StockOperation.js:102-116 | after one delivery numbered 1, the next delivery reference is not yet stored |
| Scenarios.ShortDelivery | backend/controllers/operationController.js:138-142 | on an empty product, a new delivery of 1 under a free reference fails on its first line and changes nothing |
| Scenarios.CountDown | backend/controllers/operationController.js:180-197 | an adjustment of -5 on stock 20 leaves 15 and one move from `WH/Stock` to `Virtual/Adjustment` |
| Scenarios.LegacyReferenceCollides | backend/models/StockOperation.js:5-9 | after `WH/IN/0001` and a newest receipt `WH/IN/legacy`, numbering restarts at 1 and the new receipt is refused with `DuplicateReference` |
| Scenarios.CreatedDeliveryLocations | backend/models/StockOperation.js:44-51 | a created delivery's moves run from `Vendor` to `WH/Stock` |

## Left out

- `getOperations`, `getOperation`, `getProducts`, `getCategories`, `getUnits`, `login` and `getProfile`: plain reads or token issuing with no rule beyond what is modelled.
- The dashboard's `totalValue`: a floating-point sum of price times stock.
- JWT issuing, bcrypt, the mailer and `Math.random`: hashing and comparison are function parameters, and the code's hash is a parameter of `ForgotPassword`. The clock is an integer parameter in milliseconds.
- Mongoose mechanics: `populate`, timestamps, `createdAt` ordering (creation order is sequence order), and whether validation of the required `reference` runs before the pre-save hook. The hook is modelled as running before the record is stored.
- Concurrency: two creations of one type racing for the same number, and two validations racing on one product. The model is sequential.
- Products.CreateProduct: compares SKUs as sent. The schema's `trim` and `uppercase` normalisation and the trimming of the other string fields are not modelled. An undefined `sku` in the duplicate query is taken to match nothing: the driver sends it as `null`, and every stored product has a SKU.
- JavaScript numbers: quantities, `doneQuantity`, `currentStock` and `minStockLevel` are integers, and `price` is a real. The schemas also accept fractional quantities such as 2.5, which the model cannot express.
- Operations.CreateOperation: the partner is stored as sent. The schema trims it, so `"  "` passes the partner checks of the create and update handlers yet is stored as `""`.
- Products.UpdateProduct: `null` and non-numeric values are not modelled. A body field is either undefined or a value of the field's type. The schema's `trim` on every string field and `uppercase` on the SKU are not modelled either. So a whitespace-only `name`, `sku`, `category` or `unitOfMeasure` replaces the stored value here, where the source trims it to `""` and fails `required` on save with a 400. And a SKU that differs from another product's only in letter case is accepted here, where the source's unique index rejects it after uppercasing.
- Auth.Signup: login ids, names and emails are stored and compared as sent, and lengths are counted in characters, not UTF-16 code units. The schema trims `loginId`, `name` and `email`, lowercases `email`, and checks `minlength: 6` on the trimmed login id; none of this is modelled. So a body whose login id is six or more characters only with its surrounding spaces (`"  abcd  "`), or whose name is only spaces, passes the handler's checks but fails in `User.create` with a 500, where the model answers `Ok`.
- Auth.ForgotPassword: the email is always a string. An undefined email would be sent to the lookup as `null`, which matches no stored user because the field is required; it therefore behaves as an unknown email, which the model covers.
- Reference.TrailingNumber: `parseInt` of more digits than a double holds exactly is modelled as exact integer arithmetic.
- Permissions.RolePermissions: role names that are inherited object properties (`"constructor"`, …) are not modelled.
- The admin role: it exists only in the frontend table. The backend user schema admits `manager` and `staff`.
- The schema's other operation fields (`scheduleDate`, `responsible`, `deliveryAddress`, `availableDate`, `destinationType`) and the product timestamps: no rule reads them.
- Warehouse and location controllers, the promotion script, the routes, the auth middleware and the React views are not part of this model.
