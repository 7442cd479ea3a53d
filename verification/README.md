# Meu Bambu services, modelled in Dafny

This project models the business rules behind the Meu Bambu shop:

- **Abandoned-cart leads** (`src/services/leads.ts`). A lead is upserted by lower-cased email when someone starts checkout. It moves from `abandoned` to `recovered` or `converted`. The reminder query selects only abandoned leads at least an hour old with fewer than three reminders and none in the last day; sending a reminder to a lead id does not re-check those limits.
- **Accounts and authentication** (`src/services/auth.ts`). This covers customer registration and login, admin login and creation, password reset by single-use token, the `Bearer` header, and customer profile reads and updates.
- **The lead-capture endpoint** (`src/pages/api/leads/capture.ts`). It validates the checkout form, applies defaults, captures the lead and chooses the HTTP status.
- **The mock branch of the storefront API** (`src/services/api.ts`). This covers:
  - customer orders, with cancellation and refund requests;
  - stored payment methods and the customer profile;
  - catalogue lookups and the cart payload;
  - the admin order and customer lists, with their filters and paging;
  - the dashboard's "recent" and "top" lists;
  - admin sessions, both live (signed token) and mock (`admin_mock_token_<id>_<time>`).
- **Breakpoint helpers** (`src/utils/constants.ts`).

How the model is built:

- The database is `Schema.Database`, a class with one `seq` field per table. Its `Valid()` invariant holds the schema's uniqueness constraints and the lead service's "one open lead per email" rule.
- Every service operation that writes a table is a method on that class. Each method is proved equal to a pure transition function, which gives the reply and the new table. The lemmas state what the service promises about those functions.
- The mock API keeps orders, payment methods and the profile in module-level variables that it updates in place. They are the fields of `AccountApi.MockAccount`.
- Several things are parameters rather than code:
  - time is `now`, in milliseconds;
  - `passwordMatches` stands for bcrypt comparison, and hashes are given values;
  - `sign` and `verify` stand for JWT signing and checking;
  - fresh ids and reset tokens are given, and required to be unused;
  - the outcome of sending an email is `mailSent` / `mailError`.
- Money is in integer cents.
- JavaScript semantics are written out where the code depends on them:
  - `slice` with negative or out-of-range bounds (`Common.JsSlice`);
  - `split` (`Common.Split`) and `includes` (`Common.Includes`);
  - `toLowerCase`, over ASCII and Latin-1;
  - `||` defaults, which also replace `0` and `""`, as opposed to default parameters, which replace only a missing value;
  - `Math.ceil`.

Files: `common.dfy`, `schema.dfy`, `constants.dfy`, `leads.dfy`, `auth.dfy`, `capture.dfy`, `api_account.dfy`, `api_catalog.dfy`, `api_admin.dfy`.

## Model

| member | source | states |
|---|---|---|
| Constants.SpeedMultiplier | src/utils/constants.ts:106-110 | 0.25 exactly below 480 px, 0.5 exactly from 480 up to 992, 1 exactly from 992 on |
| Constants.SpeedMultiplierMonotone | src/utils/constants.ts:106-110 | a wider viewport never gets a smaller multiplier |
| Constants.ShouldEnableImageTrail | src/utils/constants.ts:115-117 | the trail is on only with a window, and then exactly when the width is at least 992 |
| Constants.TrailOnExactlyAtFullSpeed | src/utils/constants.ts:115-117 | in a browser the trail is on exactly when the marquee runs at full speed |
| Constants.BreakpointsOrdered | src/utils/constants.ts:9-14 | breakpoints strictly increase, and the trail's minimum width is the laptop breakpoint |
| Schema.Database.constructor | src/db/schema.ts:12-97 | an empty store satisfies every key constraint and the one-open-lead rule |
| Leads.Refresh | src/services/leads.ts:64-76 | a refresh keeps the lead's id, email, status, reminder history, conversion and creation time; it writes the new name, cart, total and update time; a missing phone keeps the stored one, `null` clears it, and a string replaces it |
| Leads.NewLead | src/services/leads.ts:80-92 | a new lead is `abandoned` with the given id and email, no reminders and no conversion, the submitted name, cart and total, created and updated now, and a phone exactly when one was given |
| Leads.CaptureOfCustomer | src/services/leads.ts:41-51 | an email that belongs to a customer (after lower-casing) returns that customer's id, not as a new lead, and the lead table is untouched |
| Leads.CaptureRefreshesOpenLead | src/services/leads.ts:54-78 | an open lead for the email is refreshed in place: same row count, the reply carries its id, and no other row changes |
| Leads.CaptureInsertsNewLead | src/services/leads.ts:80-93 | otherwise exactly one row is appended, `abandoned`, with the lower-cased email, zero reminders and the new id, and the reply says it is new |
| Leads.CaptureNewIffGrows | src/services/leads.ts:39-94 | a capture reports a new lead exactly when the table grows by one row, and otherwise the row count is unchanged |
| Leads.CaptureKeepsInvariants | src/services/leads.ts:53-93 | the upsert keeps at most one open lead per email, and keeps lead ids unique |
| Leads.CaptureCheckoutLead | src/services/leads.ts:39-94 | on an unavailable database it fails and changes nothing; otherwise the reply and the new table are those of the capture, and `Valid()` is kept |
| Leads.MarkLeadsFrame | src/services/leads.ts:102-114 | a lead that is not open for the lower-cased email is unchanged; an open one gets the new status and update time, and the given customer id (or keeps its own when none is given), every other field unchanged |
| Leads.MarkLeadsClosesEmail | src/services/leads.ts:102-114 | afterwards no open lead with that email is left |
| Leads.MarkLeadsTwiceIsNoOp | src/services/leads.ts:123-134 | a second mark of the same email changes nothing |
| Leads.MarkLeadsKeepsInvariants | src/services/leads.ts:102-114 | marking keeps lead ids unique and keeps the one-open-lead rule |
| Leads.MarkLeadAsConverted | src/services/leads.ts:99-115 | fails on an unavailable database and changes nothing; otherwise the table becomes the mark with status `converted` and the given customer id, so (by the lemmas above) exactly the open leads of the email become `converted` and no other row changes, and `Valid()` is kept |
| Leads.MarkLeadAsRecovered | src/services/leads.ts:120-135 | fails on an unavailable database and changes nothing; otherwise the table becomes the mark with status `recovered` and no customer id, and `Valid()` is kept |
| Leads.LeadsForReminderAreDue | src/services/leads.ts:148-172 | the query followed by the filter equals one filter by "abandoned, at least 1 h old, fewer than 3 reminders, no reminder in the last 24 h", in table order |
| Leads.LeadsForReminderExactly | src/services/leads.ts:157-172 | every lead returned is in the table and due, and every due lead is returned |
| Leads.GetLeadsForReminder | src/services/leads.ts:145-173 | fails on an unavailable database, and otherwise returns exactly the due leads in table order |
| Leads.RemindFailureChangesNothing | src/services/leads.ts:185-187 | a missing lead, a lead that is not abandoned, or a failed email gives false and leaves the table unchanged |
| Leads.RemindCountsOne | src/services/leads.ts:203-216 | a sent reminder adds exactly one to that lead's count and stamps `lastReminderAt`; all other rows are unchanged |
| Leads.RemindThrottles | src/services/leads.ts:203-216 | a lead just reminded is not due again for 24 hours |
| Leads.RemindNeverLowersCounts | src/services/leads.ts:203-216 | no row's reminder count ever goes down |
| Leads.RemindDueKeepsLimits | src/services/leads.ts:157-216 | reminding a lead the reminder query would select leaves it with at most three reminders and at least an hour old, and a sent reminder adds exactly one |
| Leads.SendLeadReminder | src/services/leads.ts:178-217 | fails on an unavailable database; otherwise its answer and the new table are those of the reminder transition, and `Valid()` is kept |
| Leads.StatusCountsPartition | src/services/leads.ts:233-236 | the abandoned, recovered and converted counts add up to the number of leads |
| Leads.StatsConsistent | src/services/leads.ts:233-237 | the counts add up to the total; the conversion rate lies in [0, 100] and is 0 for an empty table |
| Leads.GetLeadStats | src/services/leads.ts:222-246 | fails on an unavailable database; otherwise returns exactly the statistics of the lead table: the row count, the count per status (which add up to it) and the conversion percentage |
| Auth.RegisterOutcome | src/services/auth.ts:56-76 | fails with "already registered" exactly when the lower-cased email is stored; otherwise it appends one customer with that lower-cased email and the given hash, and returns its session |
| Auth.RegisterTwiceFails | src/services/auth.ts:56-62 | after a registration, registering the same email in any letter case fails |
| Auth.RegisterKeepsKeys | src/services/auth.ts:68-76 | registration keeps customer ids and emails unique |
| Auth.RegisterCustomer | src/services/auth.ts:47-101 | fails on an unavailable database; otherwise the reply and the table are those of the registration |
| Auth.CustomerLoginOutcome | src/services/auth.ts:110-122 | login succeeds exactly for a stored lower-cased email whose hash matches; an unknown email and a wrong password both give "E-mail ou senha inválidos" |
| Auth.RegisterThenLogin | src/services/auth.ts:103-141 | a customer who has just registered can log in with that password, in any letter case of the email |
| Auth.LoginCustomer | src/services/auth.ts:103-141 | fails on an unavailable database; otherwise returns the login reply |
| Auth.AdminLoginRefusesInactive | src/services/auth.ts:158-168 | a missing or inactive admin is refused even with the right password, with the wrong-password message |
| Auth.AdminLoginSuccess | src/services/auth.ts:170-181 | a successful login belongs to an active admin with a matching hash, changes only that admin's `lastLogin`, and signs a token carrying the admin's role |
| Auth.LoginAdmin | src/services/auth.ts:147-193 | fails on an unavailable database; otherwise the reply and the admin table are those of the admin login |
| Auth.CreateAdminDefaults | src/services/auth.ts:351-356 | appends one active admin with the lower-cased email and the role given, or `admin` when none is given |
| Auth.CreateAdminThenLogin | src/services/auth.ts:342-357 | an admin just created can log in in any letter case of the email, and the session carries its role |
| Auth.CreateAdminUser | src/services/auth.ts:342-357 | fails on an unavailable database or a repeated email; otherwise the table is that of the creation |
| Auth.ResetRequestOutcome | src/services/auth.ts:207-221 | an unknown email adds no record; a known one adds exactly one unused record for the lower-cased email that expires an hour later |
| Auth.RequestPasswordReset | src/services/auth.ts:199-231 | the reset table is that of the request; a failed reset email is reported after the record is stored |
| Auth.ResetCheckOrder | src/services/auth.ts:241-260 | the errors come in this order: unknown token, already used, expired, no customer; a token passing all four is accepted |
| Auth.ResetChangesOnlyThatCustomer | src/services/auth.ts:263-273 | a reset changes exactly one customer, the one whose email is that of the token's record, in its hash and update time only, and marks exactly that record used; every other row is unchanged |
| Auth.ResetIsSingleUse | src/services/auth.ts:263-273 | a second reset with the same token fails as already used |
| Auth.ResetPassword | src/services/auth.ts:233-274 | fails on an unavailable database; otherwise the reply and both tables are those of the reset, and an error changes nothing |
| Auth.GetTokenFromHeader | src/services/auth.ts:292-297 | a token is returned exactly for a header starting with `Bearer `, and the header is that prefix followed by the token |
| Auth.BearerRoundTrip | src/services/auth.ts:292-297 | reading back `Bearer ` + t gives t |
| Auth.CustomerProfile | src/services/auth.ts:306-315 | "Usuário não encontrado" exactly when no customer has the id; otherwise that customer's fields without the password hash |
| Auth.GetCustomerProfile | src/services/auth.ts:303-316 | fails on an unavailable database; otherwise the profile lookup |
| Auth.UpdateProfileOutcome | src/services/auth.ts:318-336 | only the given fields of that customer change, with id, email, hash and creation time kept and other customers unchanged; repeating the update changes only the update time |
| Auth.UpdateCustomerProfile | src/services/auth.ts:318-336 | fails on an unavailable database; otherwise the reply and the table are those of the update |
| LeadCapture.EmailRegexShape | src/pages/api/leads/capture.ts:28-29 | the pattern accepts exactly the strings with no whitespace, exactly one `@` (not first), and a `.` after it with a character on each side |
| LeadCapture.EmailRegexAccepts | src/pages/api/leads/capture.ts:28-29 | `ana@loja.com` is accepted |
| LeadCapture.EmailRegexNeedsDot | src/pages/api/leads/capture.ts:28-29 | `ana@lojacom`, with no dot after the `@`, is rejected |
| LeadCapture.EmailRegexSingleAt | src/pages/api/leads/capture.ts:28-29 | `ana@@loja.com`, with two `@`, is rejected |
| LeadCapture.EmailRegexNoSpace | src/pages/api/leads/capture.ts:28-29 | `ana @loja.com`, with a space, is rejected |
| LeadCapture.ValidateOutcome | src/pages/api/leads/capture.ts:20-43 | missing fields are reported first, then a malformed email; a valid body passes unchanged (the phone as it came: missing, `null` or a string) with the cart defaulting to `[]` and the total to 0 |
| LeadCapture.ServerError | src/pages/api/leads/capture.ts:53-60 | status 500 with the error's message, or "Erro ao salvar dados" when the message is empty |
| LeadCapture.HandleStatus | src/pages/api/leads/capture.ts:13-61 | the status is always 200, 400 or 500; only a 200 changes the table; 200 exactly for a valid body on an available database; 400 exactly for an invalid body |
| LeadCapture.HandleRejectsMissingFields | src/pages/api/leads/capture.ts:20-25 | a missing or empty email or name gives 400 "Email e nome são obrigatórios" and nothing is captured |
| LeadCapture.HandleRejectsMalformedEmail | src/pages/api/leads/capture.ts:28-34 | an email of the wrong shape gives 400 "Email inválido" and nothing is captured |
| LeadCapture.HandleCapturesValidBody | src/pages/api/leads/capture.ts:37-52 | a valid body is captured with the defaults, and the 200 reply copies the lead id and the new-lead flag |
| LeadCapture.Post | src/pages/api/leads/capture.ts:13-61 | the response and the new lead table are those of the handler, and `Valid()` is kept |
| AccountApi.CancelOutcome | src/services/api.ts:403-409 | "Pedido não encontrado" exactly for an unknown id; a known order can be cancelled exactly when pending or processing |
| AccountApi.CancelChangesOnlyThatOrder | src/services/api.ts:410-411 | a cancellation sets that order's status to cancelled and its `cancelledAt`, and no other order changes |
| AccountApi.CancelTwiceFails | src/services/api.ts:407-411 | cancelling the same order again fails |
| AccountApi.Refund | src/services/api.ts:423-430 | succeeds exactly when the first order with the id is delivered; "not found" exactly for an unknown id; "only delivered orders" exactly when the first order with the id is not delivered; no other answer |
| AccountApi.RemoveMethodOutcome | src/services/api.ts:540-545 | an absent id is an error; otherwise exactly the first method with that id is removed, the rest keeping their order (length one less, same multiset minus it) |
| AccountApi.MergeProfileOutcome | src/services/api.ts:495-499 | the id never changes, given fields overwrite and absent ones are kept; a given address is stored as it is when none is stored, and otherwise each of its eight fields overwrites the stored one when given and keeps it when absent |
| AccountApi.MergeProfileIdempotent | src/services/api.ts:495-499 | applying the same update twice is applying it once |
| AccountApi.MergeKeepsAddressComplete | src/services/api.ts:498 | a complete stored address stays complete after any update |
| AccountApi.MockAccount.constructor | src/services/api.ts:460-476 | the store starts with the given orders, payment methods and profile |
| AccountApi.MockAccount.GetOrder | src/services/api.ts:387-398 | returns the first order with the id, or "Pedido não encontrado" exactly when there is none |
| AccountApi.MockAccount.CancelOrder | src/services/api.ts:400-418 | the orders become those of the cancellation, or stay unchanged on error |
| AccountApi.MockAccount.RequestRefund | src/services/api.ts:420-436 | answers the refund rule, and a success means the order is delivered; no order changes |
| AccountApi.MockAccount.GetPaymentMethods | src/services/api.ts:525-532 | returns the stored methods, unchanged |
| AccountApi.MockAccount.RemovePaymentMethod | src/services/api.ts:534-551 | the methods become those of the removal, or stay unchanged on error |
| AccountApi.MockAccount.GetProfile | src/services/api.ts:469-476 | returns the stored profile |
| AccountApi.MockAccount.UpdateProfile | src/services/api.ts:487-508 | the stored profile becomes the merge of the update, and is returned |
| Catalog.GetProducts | src/services/api.ts:710-717 | exactly the active products of the catalogue |
| Catalog.GetProduct | src/services/api.ts:719-726 | an active product with that slug from the catalogue, or none exactly when no active product has the slug |
| Catalog.SkuLookup | src/services/api.ts:731-737 | the result is the first product in catalogue order holding a variant with the SKU, paired with its first such variant; none is found exactly when no product lists it |
| Catalog.GetProductBySku | src/services/api.ts:728-741 | the loop returns the lookup's answer: the first product in catalogue order holding the SKU and its first variant with it, or nothing when no product lists it |
| Catalog.CreateCartPayload | src/services/api.ts:776-789 | copies the SKU, price and product name; the variant name is thickness, " - ", size; the quantity defaults to 1; the image is the first one, if any |
| Catalog.PayloadSkuRoundTrip | src/services/api.ts:781-788 | with unique SKUs, looking up a payload's SKU finds the same product and variant |
| AdminApi.NumberOr | src/services/api.ts:1187-1188 | a missing or zero number gives the default |
| AdminApi.CeilDivBounds | src/services/api.ts:1190 | `Math.ceil(n / d)` is the least r with n <= r * d for a positive divisor, with the mirrored bounds for a negative one |
| AdminApi.PageStart | src/services/api.ts:1191 | the start of a page is never negative, and the next page starts `limit` items later |
| AdminApi.PaginateDefaults | src/services/api.ts:1187-1189 | a missing or zero page is 1 and a missing or zero limit is 10; the total is the whole filtered length |
| AdminApi.PageFromWindow | src/services/api.ts:1192 | a page from a non-negative start holds the window of at most `limit` items there, in list order |
| AdminApi.PaginateWindow | src/services/api.ts:1187-1193 | for a positive page and limit, the start `(page-1)*limit` is non-negative and the items are the filtered list from there, at most `limit`, in order |
| AdminApi.PageCount | src/services/api.ts:1190 | `totalPages` is the least number of pages holding the list, and is 0 exactly for an empty list |
| AdminApi.PagesUpToPrefix | src/services/api.ts:1187-1193 | pages 1 to n together are the first n*limit items |
| AdminApi.PagesCoverList | src/services/api.ts:1187-1193 | reading pages 1 to `totalPages` gives back the whole filtered list, each item once and in order |
| AdminApi.FilterOrdersExactly | src/services/api.ts:1172-1185 | the two filters keep exactly the orders passing the status filter (skipped for missing or `all`) and the case-insensitive search, in list order |
| AdminApi.FilterOrdersIgnoresCase | src/services/api.ts:1178-1185 | two searches that lower-case alike give the same orders |
| AdminApi.GetAdminOrdersSound | src/services/api.ts:1172-1194 | every order on a page comes from the list and passes the filters, and the total counts every order that passes |
| AdminApi.FilterCustomers | src/services/api.ts:1293-1301 | with no search every customer; otherwise exactly those whose name or email contains the search, ignoring case |
| AdminApi.GetAdminCustomersSound | src/services/api.ts:1293-1310 | every customer on a page comes from the list and matches the search, and the total counts every match |
| AdminApi.Leading | src/services/api.ts:991 | `slice(0, limit)` with limit 5 by default: the first `limit` items, or all but the last `-limit` for a negative limit |
| AdminApi.GetAdminUser | src/services/api.ts:900-915 | "Token inválido" unless the token verifies to an admin; otherwise that admin's id, email and name, and its role, or `admin` when the role is missing or empty |
| AdminApi.AdminLogin | src/services/api.ts:860-873 | the database admin login, reshaped into token and admin |
| AdminApi.LiveSessionRoundTrip | src/services/api.ts:860-915 | a token from a successful admin login resolves to the same admin, and an empty stored role reads as `admin` |
| AdminApi.MockAdminLogin | src/services/api.ts:875-891 | "E-mail ou senha inválidos" exactly when no mock admin has that exact email and password; otherwise the first such admin, with the mock token for its id and `now` |
| AdminApi.MockGetAdminUser | src/services/api.ts:917-933 | "Token inválido" exactly for a token without the mock prefix; for a prefixed token, "Usuário não encontrado" exactly when no mock admin has the token's fourth `_` part as id; otherwise the first admin with that id |
| AdminApi.PrefixedParts | src/services/api.ts:920-924 | a token with the mock prefix splits into `admin`, `mock`, `token` and the parts after the prefix, so its id is the first of those |
| AdminApi.MockPrefixGivesFourParts | src/services/api.ts:920-924 | a token with the mock prefix always has a fourth `_` part |
| AdminApi.MockTokenAdminId | src/services/api.ts:888 | the admin id is read back from a mock token when it holds no `_` |
| AdminApi.MockTokenCutsId | src/services/api.ts:924 | an id containing `_` is read back only up to its first `_` |
| AdminApi.MockTokenUnderscoreExample | src/services/api.ts:924 | admin `a_1` reads back as admin `a` |
| AdminApi.MockSessionRoundTrip | src/services/api.ts:875-933 | with unique, `_`-free ids, a mock login's token resolves back to the admin who logged in |

## Left out

- Every non-mock branch of `src/services/api.ts` (`apiRequest`, `fetch`, shipping, tracking) is left out, because it is network I/O. The artificial `setTimeout` delays of the mock branches are left out too.
- The mock `login`/`register` branches of `src/services/api.ts` are left out. They are unreachable, because real authentication is switched on.
- The mock `adminLogin`/`getAdminUser` branches (`src/services/api.ts:875-891`, `917-933`) are unreachable for the same reason (`USE_REAL_AUTH` is true), but they are modelled, as `AdminApi.MockAdminLogin` and `AdminApi.MockGetAdminUser`.
- Leads.SendLeadReminder: `src/services/leads.ts:8` imports `sendAbandonedCartEmail` from `./email`, which does not export it, so as written the call cannot succeed and every reminder takes the failure path (`RemindFailureChangesNothing`: false, nothing changes). The model takes the email outcome as the parameter `mailSent`, which covers both the code as written (`false`) and the intended sender.
- Each service call is modelled as one atomic step, and calls as running one after another. The source awaits separate queries without a transaction or lock, so two concurrent captures of the same new email could both insert an open lead; `Database.Valid()` (one open lead per email) holds only for serialised calls.
- Several other mock operations are left out because they return fixed data with no rule to state: `getOrders`, `getDashboardStats`, `getLowStockItems`, `getAdminOrder`, `updateOrderStatus`, `addTrackingCode`, `logout` and `refreshToken`. The fixed lists themselves (orders, products, customers, admins) are parameters.
- bcrypt, `jwt.sign`/`jwt.verify`, `crypto.randomBytes`, `Date.now()` and database-generated ids are parameters (`passwordMatches`, `sign`, `verify`, given tokens, ids and `now`). They are not algorithms here.
- Email sending (`src/services/email.ts`) is reduced to an outcome flag. Its templates, and the floating-point `toFixed` formatting, are left out. The welcome email after registration is sent without waiting and its failure is ignored, so it has no effect here.
- Database failures other than the missing connection (which is `Database.available`) are left out, as are the `sessions` and `customer_addresses` tables.
- Leads.StatsConsistent: the conversion rate is the exact percentage. Its `Math.round(x * 10) / 10` rounding to one decimal is not modelled, because it is float arithmetic.
- Leads.Capture: the cart is stored as items and the total as integer cents, rather than as their JSON and `toFixed(2)` text.
- The reminder count is stored as a number rather than as its decimal text (`parseInt`/`String`).
- `toLowerCase` is modelled for ASCII and Latin-1 letters only. Full Unicode case mapping is not part of this model.
- In the request body, the phone is missing, `null` or a string, and the three are told apart (a `null` phone clears the stored one on a refresh). For email, name, cart and total, which the handler only tests or defaults, a missing field and `null` are one case. Bodies whose fields have other JSON types are not modelled.
- Spreading an object whose keys are present but `undefined` is not modelled. An absent `Option` field stands for a missing key.
- AdminApi.Paginate: `page` and `limit` are integers; fractional or non-numeric query values (and the `NaN` they produce) are not modelled.
- AccountApi.MockAccount.GetOrder returns the order as a value. In the source it is the same object that `cancelOrder` later mutates (aliasing). Order display fields (address, tracking, status history) and variant weight/dimensions are not part of the records.
- AdminApi.MockGetAdminUser: the source reads the admin id with `split('_')[3]`, so an id containing `_` is cut short (`MockTokenCutsId`). The round trip is stated only for `_`-free ids, which is what the built-in admin has.
- AdminApi.GetAdminUser: an empty stored role reads back as `admin`, because of the `||` default in the source (`LiveSessionRoundTrip`).
- Auth.CreateAdmin: the duplicate-email refusal stands for the database's unique-constraint error. Its exact message comes from the database driver and is not modelled.
- Constants.ShouldEnableImageTrail: the presence of `window` and its width are parameters.
- The DOM, animation and scroll helpers under `src/utils` and `src/scripts` are left out, because they are browser effects.
