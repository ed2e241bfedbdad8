# inventory-manager-api, modelled in Dafny

This is a model of the business core of an inventory and payments API, with proofs about it.
Sellers list inventory items. Buyers start a Paystack payment for an item. Paystack later
calls a webhook. The webhook is authenticated by its HMAC signature and re-verified with the
gateway, and then a reconciliation job is enqueued. The worker checks the job against the
recorded payments and the item, records the payment and decrements the item's stock in one
transaction.

Around that pipeline sit:

- the user account flows: registration with an emailed one-time code, verification, a
  rate-limited resend, login, and the forgotten-password and change-password flows;
- the error middleware, which turns thrown errors into JSON responses and flattens
  validation errors;
- regex escaping for the search filter;
- the per-request DI scope;
- the configuration service and the start-up check of the environment.

Files (one Dafny module per source file, plus shared modules):

| file | module | models |
|---|---|---|
| common.dfy | Common | `Option`, `Result`, routing-controllers' `HttpError` (BadRequest 400, Unauthorized 401, NotFound 404), and plain errors |
| strings.dfy | Strings | ASCII `toLowerCase`/`toUpperCase`, `join`, printing and reading back decimal numbers |
| models.dfy | Models | the mongoose documents (Inventory, Payment, User) and their enums; lookup by id and by email |
| store.dfy | Store | the Mongo collections (`Database`) and the redis client (`KeyValueStore`: `setex`, `get`, `del`) as classes |
| config.dfy | Config | `configMapping`, `ConfigService.get/getRequired/isDebugMode`, `validateRequiredEnvVars` |
| utils.dfy | SharedUtils | `escapeRegExp`, `createDiScopedContainer`, `runInScope` |
| error_handler.dfy | ErrorHandler | `AppErrorHandler.error`, `handleHttpError`, `handleValidationErrors`, `formatValidationErrors`, `hasValidationErrors` |
| worker.dfy | ReconcilePayment | `ReconcilePaymentWorker` (`trigger`, `run`, `handleInventoryPayment`, `assertPaymentDoesNotExist`) |
| webhook.dfy | PaystackWebhook | `PaystackWebhookHandler` (`requestWebhook`, `onChargeSuccess`, `createHmac`), and the error mapping of the gateway's verify call |
| inventory.dfy | InventoryService | `InventoryService` (`create`, `findAll`, `findOne`, `update`, `remove`, `initiatePayment`, `generateSKU`) |
| password_hasher.dfy | PasswordHasher | `PasswordHasher.hash/compare` (`salt:digest`), with the key derivation left abstract |
| users.dfy | UserService | `UserService` (`register`, `verifyEmail`, `resendVerifyEmail`, `login`, `forgotPassword`, `resetPassword`, `getUser`, `changePassword`) |

## How the model is built

Each service is a class. Its state is the `Database` and `KeyValueStore` objects it holds.
Every method that writes ensures that its result and the new state equal a pure step function
applied to the old state. Examples are `Reconcile`, `CreateStep`, `RegisterStep` and
`ResetPasswordStep`. Each step function's own contract states the guards, in the order the
code checks them. It also states the error each guard raises, and says that every error
leaves the state unchanged. The properties that span several calls are lemmas about the step
functions. Examples: a replayed job is a duplicate; a one-time code and a reset link work
once; at most three resends per window; stock plus sales is conserved.

The following are parameters, because the model cannot compute them:

- the HMAC, `JSON.parse`, `JSON.stringify`, the gateway's verify and initialize calls, and
  PBKDF2 are function-typed values;
- the random values (OTPs, cuids, salts, new document ids) are method parameters, and their
  ranges are stated in `requires`.

## Model

| member | source | states |
|---|---|---|
| Strings.Lower | src/modules/users/users.service.ts:28 | lower-casing keeps the length and maps each character through ASCII lower case |
| Strings.Upper | src/modules/inventory/inventory.service.ts:168 | upper-casing keeps the length and maps each character through ASCII upper case |
| Strings.DecimalString | src/modules/users/users.service.ts:41 | a number prints as a non-empty string of decimal digits |
| Strings.ParseDecimal | src/modules/users/users.service.ts:99 | `Number(s)` is a number exactly when `s` is a non-empty run of digits, NaN otherwise |
| Strings.ParseDecimalString | src/modules/users/users.service.ts:99-103 | reading back a printed counter gives the counter |
| Strings.SixDigits | src/modules/users/users.service.ts:40-41 | an OTP drawn from 100000..999999 prints as exactly six digits |
| Models.UserIndexById | src/modules/users/users.service.ts:81-86 | `findById` finds the first user with that id, and finds none exactly when no user has it |
| Models.UserIndexByEmail | src/modules/users/users.service.ts:121-126 | `findOne({email})` finds the first user with that email, and finds none exactly when no user has it |
| Store.KeyValueStore.SetEx | src/modules/users/users.service.ts:42 | `setex` stores the value under the key, replacing any old one; no other key changes |
| Store.KeyValueStore.Get | src/modules/users/users.service.ts:60 | `get` answers the stored value, or null exactly when the key holds nothing |
| Store.KeyValueStore.Del | src/modules/users/users.service.ts:65 | `del` removes the key and nothing else |
| Config.Get | src/configuration/config.service.ts:13-15 | the env value when non-empty, else a non-empty default, else nothing; a result is never empty |
| Config.GetRequired | src/configuration/config.service.ts:17-29 | succeeds exactly when the variable is set and non-empty; otherwise a ConfigNotFoundError naming the key, with the message "Missing required environment variable: <key>" |
| Config.IsDebugModeOn | src/configuration/config.service.ts:31-33 | true exactly when DEBUG is set and its lower-cased value is "true" |
| Config.MissingEntries | src/configuration/index.ts:8-10 | a row is in the result exactly when it is a table row whose variable is unset or empty; the result is no longer than the table |
| Config.EnvNames | src/configuration/index.ts:14-18 | the names of the entries, in order |
| Config.RequiredOnlyMembers | src/configuration/index.ts:15 | the required filter keeps exactly the required rows |
| Config.MissingNonEmpty | src/configuration/index.ts:12 | the missing list (and its required part) is non-empty exactly when some (required) row's variable is unset |
| Config.MissingIff | src/configuration/mapping.ts:6-63 | the same, over the whole configuration table |
| Config.ValidateRequiredEnvVars | src/configuration/index.ts:7-28 | throws exactly when a required variable is missing, with the required missing names in table order joined by ", "; otherwise warns exactly when an optional one is missing, listing all missing names; passes exactly when nothing is missing |
| SharedUtils.EscapeRegExp | src/modules/shared/utils.ts:80-82 | the output is the input's length plus the number of metacharacters, and every metacharacter in it is escaped |
| SharedUtils.UnescapeEscape | src/modules/shared/utils.ts:80-82 | dropping the backslash before each escaped metacharacter gives back the input |
| SharedUtils.EscapeWithoutMeta | src/modules/shared/utils.ts:80-82 | text without metacharacters is returned unchanged |
| SharedUtils.EscapeIsIdentityIff | src/modules/shared/utils.ts:80-82 | escaping changes nothing exactly when the text has no metacharacter |
| SharedUtils.CountMetaPositive | src/modules/shared/utils.ts:81 | a text with a metacharacter has a positive metacharacter count |
| SharedUtils.ScopeRegistry.CreateDiScopedContainer | src/modules/shared/utils.ts:8-14 | the scope afterwards has "logger" and "container" registered; no other scope changes |
| SharedUtils.ScopeRegistry.Reset | src/modules/shared/utils.ts:58-62 | the scope is emptied and the reset is logged |
| SharedUtils.ScopeRegistry.RunInScope | src/modules/shared/utils.ts:52-78 | the scope id is the caller's, else a fresh one; the function runs once; the container is reset exactly once after it, and only when no scope id was supplied; a throw or rejection propagates |
| ErrorHandler.Put | src/modules/shared/middlewares/error-handler.middleware.ts:78 | assigning a key keeps the dictionary well formed |
| ErrorHandler.Values | src/modules/shared/middlewares/error-handler.middleware.ts:53 | `Object.values` has one value per key, and the i-th value is the one stored under the i-th key |
| ErrorHandler.ApplyForm | src/modules/shared/middlewares/error-handler.middleware.ts:78 | after a sequence of writes, the keys are the old keys followed by the new ones in order of first write, and the values are those of the writes in order |
| ErrorHandler.AssignKeysIsApply | src/modules/shared/middlewares/error-handler.middleware.ts:83-86 | `Object.assign` is the sequence of writes of the source's entries in key order |
| ErrorHandler.AssignCollapsed | src/modules/shared/middlewares/error-handler.middleware.ts:82-87 | merging the dictionary a list of writes builds gives the same dictionary as doing those writes directly |
| ErrorHandler.ApplyValsLookup | src/modules/shared/middlewares/error-handler.middleware.ts:78 | a key's value after a sequence of writes is its last write, or the old value when it was not written |
| ErrorHandler.ApplyValid | src/modules/shared/middlewares/error-handler.middleware.ts:69-79 | writes keep a dictionary well formed |
| ErrorHandler.EntryStep | src/modules/shared/middlewares/error-handler.middleware.ts:71-88 | one turn of the loop (the entry's own message, then its children's dictionary merged in) performs the entry's writes |
| ErrorHandler.FormatValidationErrors | src/modules/shared/middlewares/error-handler.middleware.ts:65-91 | the loop returns the well-formed dictionary that the tree's writes build, in order |
| ErrorHandler.FormatEntry | src/modules/shared/middlewares/error-handler.middleware.ts:71-88 | one entry: key `parent.property` (or the bare property at top level), all constraint messages joined by ", " when constraints exist, then the children flattened under that key |
| ErrorHandler.WritesEmptyIff | src/modules/shared/middlewares/error-handler.middleware.ts:76-87 | nothing is written exactly when no error in the tree has constraints |
| ErrorHandler.FlattenLookup | src/modules/shared/middlewares/error-handler.middleware.ts:82-87 | a key is in the result exactly when some error writes it, and it holds the last such write: later writes override |
| ErrorHandler.FirstKey | src/modules/shared/middlewares/error-handler.middleware.ts:53 | the first value belongs to the first key written; when the first error has constraints, that key is its own path |
| ErrorHandler.HandleValidationErrors | src/modules/shared/middlewares/error-handler.middleware.ts:51-63 | status "failed", the flattened errors, and "Invalid request body sent. " followed by the first flattened message, or by "please check and try again" when there is none |
| ErrorHandler.HandleHttpError | src/modules/shared/middlewares/error-handler.middleware.ts:34-49 | the error's own status code; when `errors` is an array whose first element is a ValidationError, the whole body `handleValidationErrors` builds (flattened errors, prefix and first message or fallback); otherwise the error's own message |
| ErrorHandler.HandleError | src/modules/shared/middlewares/error-handler.middleware.ts:15-31 | an HttpError answers with its own status and its message, or with the whole validation body when it carries validation errors; anything else gives 500 "Something went wrong, please try again" |
| ReconcilePayment.ErrorMessage | src/modules/jobs/reconcile-payment/worker.ts:57 | every worker error carries a non-empty message |
| ReconcilePayment.NewPayment | src/modules/jobs/reconcile-payment/worker.ts:90-107 | the inserted record is Successful and of scope InventoryItemPayment; it carries the job's amount, currency, user, references, processor and metadata; the fee is not stored |
| ReconcilePayment.Reconcile | src/modules/jobs/reconcile-payment/worker.ts:40-118 | guards in order, each outcome exactly when the earlier guards pass and its own fails: "Invalid intent", not successful at the processor, "duplicate payment", "inventory not found", "invalid inventory payment received", then the Payment schema's validation of the inserted record (currency NGN or USD, non-empty reference), which aborts the transaction; success exactly when all pass; every other outcome leaves both collections unchanged; success appends one payment and decrements only that item's quantity by one |
| ReconcilePayment.JobQueue.Add | src/modules/jobs/reconcile-payment/worker.ts:37 | the job is appended to the queue |
| ReconcilePayment.ReconcilePaymentWorker.Trigger | src/modules/jobs/reconcile-payment/worker.ts:36-38 | exactly one job is appended, under the worker's job name |
| ReconcilePayment.ReconcilePaymentWorker.Run | src/modules/jobs/reconcile-payment/worker.ts:40-59 | the result and the collections are those of `Reconcile`; users are untouched |
| ReconcilePayment.ReconcilePaymentWorker.HandleInventoryPayment | src/modules/jobs/reconcile-payment/worker.ts:61-118 | the same, with the payment insert and the decrement committed together, or neither when the record fails validation |
| ReconcilePayment.ReconcilePaymentWorker.AssertPaymentDoesNotExist | src/modules/jobs/reconcile-payment/worker.ts:120-131 | fails with "duplicate payment" exactly when some payment has the job's reference, or its processor reference at the same processor |
| ReconcilePayment.ReplayIsDuplicate | src/modules/jobs/reconcile-payment/worker.ts:67-112 | running a reconciled job again is a duplicate and changes nothing |
| ReconcilePayment.ReconcileKeepsUnique | src/modules/jobs/reconcile-payment/worker.ts:120-131 | no two payments share a reference or a (processor reference, processor) pair, before and after a job |
| ReconcilePayment.RunAllKeepsUnique | src/modules/jobs/reconcile-payment/worker.ts:120-131 | the same over any sequence of jobs |
| ReconcilePayment.Sold | src/modules/jobs/reconcile-payment/worker.ts:98 | an item's recorded sales are at most the number of payments |
| ReconcilePayment.ReconcileConservesStock | src/modules/jobs/reconcile-payment/worker.ts:89-115 | an item's quantity plus its recorded payments is the same before and after a job |
| ReconcilePayment.RunAllConservesStock | src/modules/jobs/reconcile-payment/worker.ts:89-115 | the same over any sequence of jobs |
| ReconcilePayment.AcceptanceIgnoresStock | src/modules/jobs/reconcile-payment/worker.ts:69-87 | the outcome of a job does not depend on the item's quantity or status |
| ReconcilePayment.OversellsEmptyItem | src/modules/jobs/reconcile-payment/worker.ts:109-112 | an accepted payment for an item at quantity 0 leaves it at -1 |
| PaystackWebhook.VerifyFailure | src/modules/shared/http/paystack.service.ts:44-56 | a 400 from the gateway is NotFound "Payment not found"; every other failure is 503 "Unable to verify payment" |
| PaystackWebhook.BuildJob | src/modules/public/webhook/paystack-webhook.handler.ts:61-71 | the job takes amount, currency, fee and metadata from the gateway's data; reference and processor reference are the data's reference; status "successful"; processor Paystack |
| PaystackWebhook.CreateHmac | src/modules/public/webhook/paystack-webhook.handler.ts:76-79 | the MAC of the body under the configured Paystack secret; without the secret, the missing-variable error |
| PaystackWebhook.HandleWebhook | src/modules/public/webhook/paystack-webhook.handler.ts:24-74 | without the Paystack secret, the missing-variable error; a wrong signature is Unauthorized "Invalid webhook"; an unparsable body is a plain error; other events give "webhook_logged"; for `charge.success`, a gateway failure propagates, and a verified charge gives "webhook handled" with exactly the job built from the gateway's data; a job only in that last case |
| PaystackWebhook.PaystackWebhookHandler.RequestWebhook | src/modules/public/webhook/paystack-webhook.handler.ts:24-54 | the response is that of `HandleWebhook`, and the queue grows by exactly its job, if any |
| PaystackWebhook.PaystackWebhookHandler.OnChargeSuccess | src/modules/public/webhook/paystack-webhook.handler.ts:56-74 | the gateway is asked about the body's reference; on success exactly one job is enqueued, on failure the mapped error and nothing is enqueued |
| PaystackWebhook.RedeliveryIsDuplicate | src/modules/public/webhook/paystack-webhook.handler.ts:56-74 | a redelivered webhook produces the same job, which the worker refuses as a duplicate without changes |
| PaystackWebhook.WebhookJobsConflictIffSameReference | src/modules/public/webhook/paystack-webhook.handler.ts:68-70 | two webhook jobs collide in the duplicate check exactly when their gateway references are equal |
| InventoryService.GenerateSku | src/modules/inventory/inventory.service.ts:167-171 | the first (up to) three characters of the category in upper case, a dash, the 6-character id |
| InventoryService.CreateStep | src/modules/inventory/inventory.service.ts:21-32 | a supplied sku is replaced by a generated one; the item is created by the caller with the schema defaults; it fails without changes on a missing required field, a currency outside NGN and USD (the schema's enum), or a taken sku |
| InventoryService.BuildFilter | src/modules/inventory/inventory.service.ts:45-53 | name and category patterns are literal (escaped); price bounds of 0 are never set |
| InventoryService.QuerySelects | src/modules/inventory/inventory.service.ts:45-53 | an item matches exactly when: it has the requested status, or it is not Discontinued when none was given; the given name and category occur in it ignoring case, metacharacters included; and its price is within the truthy bounds |
| InventoryService.ApplyUpdate | src/modules/inventory/inventory.service.ts:89-91 | each supplied field replaces the stored one; the creator and images are kept |
| InventoryService.UpdateStep | src/modules/inventory/inventory.service.ts:75-92 | NotFound for a missing item, then BadRequest for a caller who is not the creator; on success the item is replaced by its update; failures change nothing |
| InventoryService.RemoveStep | src/modules/inventory/inventory.service.ts:94-109 | the same guards; on success only the status changes, to Discontinued, and the item stays |
| InventoryService.PaymentRefusal | src/modules/inventory/inventory.service.ts:111-154 | refusals in order, each exactly when the earlier checks pass and its own fails: NotFound "Item not found", BadRequest "User not found", BadRequest "Inventory is not available" (not Available or no quantity), BadRequest "You can not pay for your own inventory item", NotFound "Invalid payment method" (processor not Paystack); none exactly when all pass |
| InventoryService.ChargeFor | src/modules/inventory/inventory.service.ts:131-144 | the charge is for the item's price and currency to the buyer's email, reference "inv_" + cuid, metadata {intent, inventory, user} |
| InventoryService.PaidChargeIsReconciled | src/modules/inventory/inventory.service.ts:131-144 | a gateway job that reports this charge (its amount, currency, reference and metadata) paid is reconciled by the worker, if the item has not changed and its currency is one the Payment schema admits |
| InventoryService.CreateKeepsSkusUnique | src/modules/inventory/inventory.service.ts:21-32 | creation keeps SKUs unique |
| InventoryService.UpdateKeepsSkusUnique | src/modules/inventory/inventory.service.ts:75-92 | updates keep SKUs unique |
| InventoryService.RemovedItemIsHidden | src/modules/inventory/inventory.service.ts:45 | a discontinued item is not listed by any query whose status the DTO admits (`QueryInventoryStatus`: available or out_of_stock) |
| InventoryService.RemovedItemCannotBePaid | src/modules/inventory/inventory.service.ts:123-125 | a discontinued item is refused as not available |
| InventoryService.InventoryService.Create | src/modules/inventory/inventory.service.ts:21-32 | result and collection are those of `CreateStep`; payments and users untouched |
| InventoryService.InventoryService.FindAll | src/modules/inventory/inventory.service.ts:34-64 | the filter is `BuildFilter`; page 1 and limit 10 by default; sorted "-createdAt"; the list fields are selected; exactly the matching items are selected |
| InventoryService.InventoryService.FindOne | src/modules/inventory/inventory.service.ts:66-73 | the stored item, or NotFound "Inventory not found" exactly when it is missing |
| InventoryService.InventoryService.Update | src/modules/inventory/inventory.service.ts:75-92 | result and collection are those of `UpdateStep` |
| InventoryService.InventoryService.Remove | src/modules/inventory/inventory.service.ts:94-109 | result and collection are those of `RemoveStep` |
| InventoryService.InventoryService.InitiatePayment | src/modules/inventory/inventory.service.ts:111-155 | the first refusal, if any; otherwise the gateway is sent `ChargeFor`, and a pending response carries its reference and checkout URL; a gateway failure is 503 |
| PasswordHasher.ColonIndex | src/modules/shared/password-hasher.ts:49 | the first colon, and none exactly when there is no colon |
| PasswordHasher.Hash | src/modules/shared/password-hasher.ts:24-31 | the stored value is the salt, a colon, then the digest of the password under that salt |
| PasswordHasher.Compare | src/modules/shared/password-hasher.ts:39-58 | false for an empty password or stored value; a throw when there is no colon |
| PasswordHasher.HashThenCompare | src/modules/shared/password-hasher.ts:24-58 | a stored hash accepts exactly the passwords whose digest under its salt equals that of the hashed password |
| PasswordHasher.ColonAt | src/modules/shared/password-hasher.ts:49 | the first colon of a string is found where it is |
| PasswordHasher.HashAcceptsItsPassword | src/modules/shared/password-hasher.ts:24-58 | a hash accepts the password it was made from |
| UserService.LowerTwice | src/database/models/user.model.ts:16 | lower-casing is idempotent |
| UserService.RegisterStep | src/modules/users/users.service.ts:26-55 | "User already exists with same email" exactly when the lower-cased email is taken; otherwise the user is stored unverified, with the lower-cased email and the hashed password, and a six-digit OTP is stored under `verify-email:<id>`; failures change nothing |
| UserService.VerifyEmailStep | src/modules/users/users.service.ts:57-78 | "Invalid or expired verification otp" exactly when no OTP is stored or it differs, with no change; otherwise the OTP is deleted; success exactly when the OTP matches and the user exists, marking that user verified; NotFound "User not found" exactly when the OTP matches and the user is missing |
| UserService.ResendStep | src/modules/users/users.service.ts:80-118 | refusals in order, each exactly when the earlier checks pass and its own fails: "User not found", "Email already verified.", "Exceeded resend limit" (window count at least 3); otherwise the window goes up by one and a new OTP is stored; failures change nothing |
| UserService.LoginOutcome | src/modules/users/users.service.ts:120-142 | the same "Invalid credentials" for an unknown email and for a wrong password; success exactly when the password matches and both JWT secrets are configured |
| UserService.ForgotPasswordStep | src/modules/users/users.service.ts:144-168 | the same message whether or not the account exists; a reset key holding the user's id is written only when it does |
| UserService.ResetPasswordStep | src/modules/users/users.service.ts:170-192 | "Invalid or expired link" exactly when no link is stored, with no change; otherwise the link is deleted first; success exactly when the link's user exists, replacing that user's password by the new hash; NotFound exactly when the user is missing |
| UserService.ChangePasswordStep | src/modules/users/users.service.ts:203-219 | NotFound exactly when the user is missing; success exactly when the old password matches; BadRequest "Password is invalid." when it does not; a throw from the hasher propagates; only that user's password changes; failures change nothing |
| UserService.RegisterKeepsAccountsWellFormed | src/modules/users/users.service.ts:26-38 | registration keeps ids and emails unique and emails lower-cased |
| UserService.RegisterThenVerify | src/modules/users/users.service.ts:41-77 | the OTP registration stores verifies the new account |
| UserService.VerificationCodeIsSingleUse | src/modules/users/users.service.ts:57-65 | a verified OTP is refused the second time |
| UserService.ResendAdvancesWindow | src/modules/users/users.service.ts:99-103 | a successful resend raises a numeric window by exactly one, from below 3 |
| UserService.ResendIsCapped | src/modules/users/users.service.ts:92-103 | within one window, any number of requests sends at most 3 minus the current count codes |
| UserService.ResetLinkIsSingleUse | src/modules/users/users.service.ts:170-177 | a used reset link is refused the second time |
| UserService.LoginFindsAccount | src/modules/users/users.service.ts:121-123 | with unique lower-cased emails, a login with an account's email finds that account |
| UserService.LoginAfterReset | src/modules/users/users.service.ts:120-130 | after a reset, login accepts exactly the passwords whose digest matches the new password's |
| UserService.LoginAfterChange | src/modules/users/users.service.ts:203-219 | after a change, login accepts exactly the passwords whose digest matches the new password's |
| UserService.UserService.Register | src/modules/users/users.service.ts:26-55 | result and state are those of `RegisterStep`; inventories and payments untouched |
| UserService.UserService.VerifyEmail | src/modules/users/users.service.ts:57-78 | result and state are those of `VerifyEmailStep` |
| UserService.UserService.ResendVerifyEmail | src/modules/users/users.service.ts:80-118 | result and state are those of `ResendStep` |
| UserService.UserService.Login | src/modules/users/users.service.ts:120-142 | the result is `LoginOutcome`; nothing is written |
| UserService.UserService.ForgotPassword | src/modules/users/users.service.ts:144-168 | message and state are those of `ForgotPasswordStep` |
| UserService.UserService.ResetPassword | src/modules/users/users.service.ts:170-192 | result and state are those of `ResetPasswordStep` |
| UserService.UserService.GetUser | src/modules/users/users.service.ts:194-201 | the user with that id, or BadRequest "User not found" exactly when there is none |
| UserService.UserService.ChangePassword | src/modules/users/users.service.ts:203-219 | result and users are those of `ChangePasswordStep` |

## Behaviour of the code worth knowing

- The worker never looks at an item's status or quantity. See `AcceptanceIgnoresStock`.
- The worker only decrements, so an item at quantity 0 can be sold and goes to -1. See
  `OversellsEmptyItem`.
- Nothing sets OutOfStock when the quantity reaches 0: the worker never changes the status.
  Only an item's owner can set it, through create or update.
- The worker sends no purchase notification.
- The webhook signature is checked with plain string inequality, not a constant-time
  comparison.
- The worker checks the processor status before the duplicate check.
- `update` can set any status, so a Discontinued item can be made Available again.

## Left out

- The TTL of redis entries (one hour) is not modelled: nothing expires. The window of the
  resend limit is therefore "until the key expires".
- HMAC-SHA512, PBKDF2-SHA512, `JSON.parse`/`JSON.stringify`, the Paystack HTTP client and
  cuid/random generation are parameters, not computed. Only the gateway's error
  classification (400 is NotFound, anything else is 503) is modelled.
- The JWTs that login returns are not modelled. Only the secrets' presence is checked, in
  code order.
- Mail sending, logging (pino) and the HTTP, Express, Mongo and Redis wiring are not modelled.
- Concurrency is not modelled. Jobs run one after another, so the check-then-insert race
  between the duplicate check and the insert, and BullMQ retries and concurrency, are absent.
- `getInventoryPayments` (paginated listing of a user's payments) is not modelled, because it
  is a single pass-through query.
- Pagination, sorting and field selection are not executed. `FindAll` returns the options and
  the set of matching ids.
- `InventoryService.PatternMatches`: the RegExp engine is reduced to case-insensitive
  substring search of the unescaped pattern. This is exact for the literal patterns that
  `escapeRegExp` produces. Case mapping is ASCII only.
- `Strings.ParseDecimal`: `Number()` is modelled only on non-empty digit strings. Signs,
  whitespace, hexadecimal, decimals and exponents are treated as NaN.
- `PasswordHasher.Compare`: `timingSafeEqual` on hex-decoded buffers is modelled as equality of
  the hex text. A digest whose length differs from the derived one stands for the throw.
  Invalid hex characters are not decoded.
- `ErrorHandler.Values`: `Object.values` order is insertion order. JavaScript's
  integer-like-key-first ordering is not modelled.
- The mongoose schema's handling of `undefined` fields in an update is not modelled. Each DTO
  field is either present or absent.
- The `emailVerified` update on a user who was deleted after the OTP was stored deletes the
  OTP and then reports NotFound. This is modelled as written.
- The job's fee is never stored on the payment record. This is modelled as written: see
  `NewPayment`.
- The "Invalid payment method" branch of `initiatePayment` is modelled. The DTO's enum
  validation makes it unreachable in practice.
- `Strings.Lower`, `Strings.Upper`: case mapping is ASCII only, while JavaScript's
  `toLowerCase`/`toUpperCase` map all of Unicode. Two emails that differ only in a non-ASCII
  letter's case (such as "Äb@x.io" and "äb@x.io") are one account in the source and two in
  the model; SKU prefixes are upper-cased only on ASCII letters.
- The numeric fields (an item's `price` and `quantity`, the listing's `minPrice` and
  `maxPrice`, a job's `amount` and `fee`) are integers, while the DTOs accept any number of
  at least 0. Fractional values are not modelled: a quantity of 0.5 passes the
  "not available" check and the worker leaves it at -0.5 in the source.
- `InventoryService.InventoryService.FindOne`, `InventoryService.UpdateStep`,
  `InventoryService.RemoveStep`, `InventoryService.PaymentRefusal`: ids are assumed to be
  well-formed ObjectIds. An id route parameter that is not one makes mongoose throw a CastError,
  which the error middleware answers with 500; the model answers NotFound for it like for any
  other unknown id.
- `InventoryService.BuildFilter`, `InventoryService.InventoryService.FindAll`: the query's
  status may be any `InventoryStatus`, Discontinued included, while the query DTO admits only
  available and out_of_stock; `RemovedItemIsHidden` assumes the DTO's restriction.
