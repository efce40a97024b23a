# tings backend core, modelled in Dafny

This project models the in-memory core of the tings food-ordering backend and its admin
panel. The backend is an Express server that keeps three lists in memory: `products`,
`orders` and `users`. Its route handlers create, merge-update and delete catalog products
and orders, and they turn a client basket into an order at checkout. They also log users in
by e-mail and update their profiles. A public projection hides the cost and stock fields and
adds tax-inclusive prices.

Beside the server sit three smaller pieces:
- the Stripe configuration, with its price/pence conversion;
- the Auth0 configuration, which picks the base and callback URLs and validates the required
  variables;
- the admin panel script, which filters and renders the product table, builds the category
  options and turns its form into a request body.

Layout:
- `common.dfy` (`Common`): optional and JSON-shaped fields, `findIndex` and `filter`, and
  environments.
- `money.dfy` (`Money`): `Math.round` and `toFixed(2)` in exact arithmetic.
- `text.dfy` (`Text`): `trim`, `split`, `join`, `includes`, `toLowerCase`, the default
  `sort` order, `parseInt` and `String(n)`.
- `catalog.dfy` (`Catalog`): products, orders, checkout and users as values, with the pure
  expressions the handlers evaluate.
- `server.dfy` (`Server`): the `Store` class, whose fields are the three lists, with one
  method per route handler.
- `stripe.dfy` (`StripeConfig`), `auth.dfy` (`AuthConfig`): the two configuration modules.
- `admin.dfy` (`AdminPanel`): the panel's pure logic and a `Panel` class holding its module
  state.

Money is Dafny `real`, so `toFixed(2)` and `Math.round` are exact. Fresh ids (`nanoid`),
timestamps (`new Date()`) and the clock reading in a token are parameters.

The model follows the code in these points:
- A checkout quantity below 1 is clamped to 1, not rejected.
- A new order's status is `"new"`.
- No `salePrice < price` rule is enforced.
- There is no payment-intent, payment-confirmation, webhook or order-status-transition code,
  so none is modelled. The admin order update accepts any status.

## Model

| member | source | states |
|---|---|---|
| Common.FindIndex | server/server.js:261 | `findIndex`: -1 exactly when no element matches, otherwise the first matching index |
| Common.Filter | server/server.js:297 | `filter` keeps only passing elements, is no longer than its input, and has the same length exactly when every element passes |
| Common.FilterMembers | server/server.js:297 | every kept element comes from the input and every passing element is kept |
| Common.FilterIsSubsequence | server/server.js:348 | what `filter` keeps is an order-preserving subsequence of the input |
| Common.FilterAppend | server/server.js:348 | filtering distributes over concatenation |
| Common.FilterKeepsAll | server/server.js:297 | filtering with a test every element passes returns the list unchanged |
| Common.FilterSame | server/public/admin.js:41-46 | two tests that agree on every element filter alike |
| Money.RoundHalfUp | server/stripe-config.js:37 | `Math.round`: the integer within (x-1/2, x+1/2] |
| Money.RoundHalfUpUnique | server/stripe-config.js:37 | that integer is unique |
| Money.FromPence | server/stripe-config.js:42 | n/100 is whole pence and times 100 gives n back |
| Money.NearestPenceUnique | server/server.js:320 | at most one whole-pence amount lies within half a penny of x, a half going away from zero |
| Money.ToFixed2 | server/server.js:320 | `+x.toFixed(2)` is whole pence and within half a penny of x, a tie going to the candidate away from zero, and it keeps the sign |
| Money.ToFixed2Only | server/server.js:320 | any amount meeting that rule is the result of `toFixed(2)` |
| Money.ToFixed2OfWholePence | server/server.js:189 | an amount already in whole pence is unchanged |
| Money.ToFixed2Idempotent | server/server.js:189 | rounding twice is rounding once |
| Money.ToFixed2Ties | server/server.js:201 | every tie goes away from zero: k + 1/2 pence becomes k + 1 pence, and -(k + 1/2) becomes -(k + 1) |
| Text.TrimStart | server/server.js:366 | drops exactly the leading whitespace and leaves a suffix |
| Text.TrimEnd | server/public/admin.js:135 | drops exactly the trailing whitespace and leaves a prefix |
| Text.Trim | server/public/admin.js:135 | the result has no whitespace at either end, is the prefix of what `trimStart` leaves, and only whitespace follows it there; with `TrimStart` this makes it the slice of the input between its leading and trailing whitespace |
| Text.TrimOfTrimmed | server/public/admin.js:135 | a trimmed string is left alone |
| Text.TrimSkipsLeading | server/public/admin.js:135 | leading whitespace makes no difference to `trim` |
| Text.Split | server/public/admin.js:135 | `split(',')` gives at least one piece and no piece holds the separator |
| Text.SplitNoSeparator | server/public/admin.js:135 | a string without the separator is one piece |
| Text.SplitAppend | server/public/admin.js:135 | splitting `a + sep + b` gives the pieces of `a` followed by those of `b` |
| Text.JoinSplit | server/public/admin.js:135 | joining the pieces with the same separator gives the string back |
| Text.IncludesAt | server/auth-config.js:45 | `includes` holds when the query occurs at some position |
| Text.IncludesWhere | server/auth-config.js:45 | conversely, when `includes` holds, the query is the slice of the text at some position |
| Text.IncludesAppend | server/public/admin.js:42 | a hit stays a hit when text is appended |
| Text.Lower | server/public/admin.js:37 | `toLowerCase` maps each upper-case ASCII letter to the lower-case letter 32 code points above it and keeps every other character |
| Text.LowerStr | server/public/admin.js:42 | lower-casing a string lower-cases each character and keeps the length |
| Text.IncludesLower | server/public/admin.js:42 | lower-casing both sides keeps a hit |
| Text.LessIrreflexive | server/public/admin.js:197 | the default `sort` order is irreflexive |
| Text.LessTransitive | server/public/admin.js:197 | the default `sort` order is transitive |
| Text.LessTotal | server/public/admin.js:197 | the default `sort` order is total on distinct strings |
| Text.DigitValue | server/public/admin.js:143 | a digit's value lies in -1..15 |
| Text.DigitPrefix | server/public/admin.js:143 | `parseInt` reads the longest run of digits: a prefix of digits followed by a non-digit |
| Text.DigitChar | server/public/admin.js:109 | the character written for a decimal digit reads back as that digit |
| Text.NatToString | server/public/admin.js:109 | `String(n)` writes at least one decimal digit, with no leading zero |
| Text.NatToStringValue | server/public/admin.js:109 | the digits written for n denote n |
| Text.DigitPrefixAll | server/public/admin.js:143 | a string of digits is read whole |
| Text.ParseUnsignedNatToString | server/public/admin.js:143 | the digits of n are parsed back as n |
| Text.ParseIntDigits | server/public/admin.js:143 | `parseInt` of text starting with a digit is the number those digits denote |
| Text.ParseIntMinusDigits | server/public/admin.js:143 | after a minus sign, it is that number negated |
| Text.ParseIntToString | server/public/admin.js:143-147 | `parseInt(String(n)) == n` for every integer |
| Catalog.NormalizeProduct | server/server.js:112-134 | load-time normalisation: the id is kept or fresh, `createdAt` is kept or now, `updatedAt` is now, and `active` defaults to true |
| Catalog.NormalizeProductMembers | server/server.js:113-131 | every other member of a loaded record is kept when present; a missing text member becomes "", a missing number 0, a non-array tags or images [] |
| Catalog.ReloadKeepsProduct | server/server.js:112-134 | normalising a stored product gives it back with only `updatedAt` refreshed |
| Catalog.InitialProducts | server/server.js:71-134 | loaded records give one product each, product i being record i normalised with fresh id i+3; without a file there are three products |
| Catalog.FirstStartProducts | server/server.js:71-105 | on first start the list is exactly the seed products |
| Catalog.WithTax | server/server.js:201-202 | the taxed price is price x (1 + rate/100) to two decimals, a tie going away from zero |
| Catalog.ToPublic | server/server.js:194-210 | `toPublicProduct` passes the id, name, descriptions, category, tags, image URL, images, availability, maximum quantity, sort order, price and sale price through; it has no tax-inclusive sale price exactly when there is no sale price; both taxed prices are the taxed amount to two decimals, a tie going away from zero |
| Catalog.ToPublicUntaxed | server/server.js:201 | with a zero tax rate a whole-pence price is shown unchanged |
| Catalog.NewProduct | server/server.js:228-253 | create fails exactly when the name or price is missing; otherwise it has the given id and name and price, and both timestamps are now |
| Catalog.NewProductDefaults | server/server.js:233-250 | every supplied member is used (a given sale price, an array of tags or images, each text, number and flag); a missing one defaults: no sale price, active, not available, numbers 0, texts "", tags and images [] |
| Catalog.MergeProduct | server/server.js:268-289 | a merge keeps the id and `createdAt` and sets `updatedAt` to now; the member-by-member rules are the three lemmas below |
| Catalog.MergeTextMembers | server/server.js:270-278 | each supplied text member (sku, name, descriptions, category, image URL) replaces the stored one, and each absent one is kept |
| Catalog.MergeNumberMembers | server/server.js:276-287 | each supplied price, cost, tax rate, flag or count replaces the stored one, and each absent one is kept |
| Catalog.MergeOtherMembers | server/server.js:275-279 | the sale price is kept when absent, cleared by `null` and replaced otherwise; tags and images are kept when absent, replaced by an array, and emptied by any other value |
| Catalog.MergeEmptyPayload | server/server.js:268-289 | an empty body changes only `updatedAt` |
| Catalog.MergeIdempotent | server/server.js:268-289 | applying the same update twice equals applying it once |
| Catalog.MergeCompleteIsCreate | server/server.js:231-289 | a complete body merges to the product create would build, under the old id and creation time |
| Catalog.ItemsSumAppend | server/server.js:320 | the `reduce` sum of concatenated lines is the sum of the two sums |
| Catalog.ItemsSumPointwise | server/server.js:388 | lines of equal value give equal sums |
| Catalog.OrderTotal | server/server.js:320 | the total is the sum of qty x price to two decimals, a tie going away from zero |
| Catalog.NormalizeLoadedOrder | server/server.js:187-190 | a positive total is kept and anything else is recomputed; other fields are unchanged |
| Catalog.NormalizeLoadedOrderStable | server/server.js:187-190 | load normalisation is idempotent and keeps consistent totals consistent |
| Catalog.InitialOrders | server/server.js:165-190 | without a file, the one seed order with its total normalised; otherwise order i is loaded order i with its total normalised |
| Catalog.FirstStartOrderTotal | server/server.js:165-190 | the seed order's total is recomputed to 17.49 (8.99 + 2 x 4.25) |
| Catalog.AdminOrder | server/server.js:308-320 | an admin-created order is "new", has the given id, the customer and address or their blank defaults, the notes, the items array or [], and a consistent total |
| Catalog.PatchOrder | server/server.js:330-339 | fails exactly when `items` is present but not an array (the reduce throws); otherwise a supplied status, customer, address, notes or items array replaces the stored one and an absent one is kept, the id and `createdAt` are kept, and the total is consistent |
| Catalog.RawQtyOfText | server/server.js:366 | a text quantity is falsy exactly when empty, otherwise what `parseInt` reads |
| Catalog.TextQtyRoundTrip | server/server.js:366 | a positive count sent as text is recorded as that count |
| Catalog.FindProduct | server/server.js:362 | `find`: none exactly when no product has the id, otherwise the first catalog product with that id |
| Catalog.NormalizeLineRules | server/server.js:361-369 | line price, name and quantity rules: catalog price, then client price, then 0; catalog name, then client name, then "Item"; quantity the parsed value when at least 1, 1 when below 1 or falsy, NaN when unparsable |
| Catalog.NormalizeLines | server/server.js:361 | one normalised line per basket line, in order |
| Catalog.CheckoutOrder | server/server.js:355-396 | 400 exactly when items is not a non-empty array; 500 exactly when it holds a null line; accepted otherwise, as a "new" order created now with the normalised lines, the request's customer, address and notes (or empty ones), and a consistent total |
| Catalog.CheckoutIgnoresClientPrices | server/server.js:361-369 | baskets with the same known ids and quantities give the same total whatever prices the client sent |
| Catalog.CheckoutTwoMargheritas | server/server.js:355-391 | two Margheritas at 8.99 give a new order totalling 17.98 |
| Catalog.NewUser | server/server.js:432-441 | a first login creates a user with the request's fields, the provider id or a fresh one, no image, and both timestamps now |
| Catalog.PatchUser | server/server.js:492-494 | a non-empty name or e-mail replaces the stored one; a supplied image URL, or null, replaces the image; nothing else changes |
| Catalog.PatchUserIdempotent | server/server.js:492-494 | sending the same profile update twice equals sending it once |
| Catalog.Token | server/server.js:508-510 | the token starts with "token_" and the user id |
| Server.ProductIndex | server/server.js:261 | the first product with the id, or -1 exactly when none has it |
| Server.OrderIndex | server/server.js:328 | the first order with the id, or -1 exactly when none has it |
| Server.UserIndexByEmail | server/server.js:428 | the first user with the e-mail, or -1 exactly when none has it |
| Server.UserIndexById | server/server.js:465 | the first user with the id, or -1 exactly when none has it |
| Server.WithoutProduct | server/server.js:297 | no product with the id remains, every other product stays in order, and the length is unchanged exactly when the id was absent |
| Server.WithoutOrder | server/server.js:348 | the same for orders |
| Server.CreateThenDeleteRestores | server/server.js:254-297 | appending a product under a new id and then deleting that id gives the list back |
| Server.DeleteProductTwice | server/server.js:294-301 | a second delete of the same id finds nothing (404) |
| Server.DeleteOrderSplits | server/server.js:345-352 | deleting an order keeps the orders before and after it, in order |
| Server.InitialOrdersSound | server/server.js:187-190 | after start-up every order has a positive total or a consistent one |
| Server.SameEmailsSameIndex | server/server.js:428 | lists with the same e-mails give the same lookup index |
| Server.AfterLogin | server/server.js:428-448 | an unknown e-mail appends exactly the new user built from the request; a known one keeps the number of users |
| Server.LoggedIn | server/server.js:428-448 | the user a login answers with has the request's e-mail and logged in now |
| Server.LoginFindsAnsweredUser | server/server.js:428 | after a login, looking up the e-mail finds the answered user; for a known e-mail that is the stored user with only `lastLoginAt` changed, and no other user changes |
| Server.LoginTwiceOneUser | server/server.js:420-448 | two logins with one e-mail leave a single user for it |
| Server.LoginKeepsEmailsUnique | server/server.js:428-442 | login keeps e-mails unique |
| Server.Store.constructor | server/server.js:71-190 | the store starts with the normalised products, orders and loaded users, and every order total is sound |
| Server.Store.PublicProducts | server/server.js:213-215 | the public list is `toPublicProduct` of each product, in order |
| Server.Store.CreateProduct | server/server.js:222-257 | 400 and no change on an invalid body, otherwise 201 and exactly one product appended |
| Server.Store.UpdateProduct | server/server.js:259-292 | 404 and no change on an unknown id, otherwise only that product is replaced by the merge |
| Server.Store.DeleteProduct | server/server.js:294-301 | the list is filtered by id, and the reply is 404 exactly when nothing was removed, else 204 |
| Server.Store.AdminOrders | server/server.js:304-306 | the admin order list is the stored list, and every total in it that is not positive agrees with the order's lines |
| Server.Store.CreateOrder | server/server.js:308-324 | the new order goes first and the others follow unchanged |
| Server.Store.UpdateOrder | server/server.js:326-343 | 404 on an unknown id; an exception and no change when items is not an array; otherwise only that order is replaced |
| Server.Store.DeleteOrder | server/server.js:345-352 | the list is filtered by id, and the reply is 404 exactly when nothing was removed, else 204 |
| Server.Store.Checkout | server/server.js:355-396 | a rejected checkout leaves the orders unchanged; an accepted one puts exactly one order first and replies 201 with its id |
| Server.Store.Login | server/server.js:420-460 | 400 without an e-mail, name and provider; otherwise users becomes `AfterLogin` and the answer is that user's summary and token |
| Server.Store.GetProfile | server/server.js:463-480 | 404 on an unknown id, otherwise the first matching user's profile |
| Server.Store.UpdateProfile | server/server.js:483-505 | 404 and no change on an unknown id, otherwise only that user is patched |
| StripeConfig.StripeSettingsOf | server/stripe-config.js:17-33 | the currency is "gbp", methods are ["card"], the webhook secret is null exactly when unset or empty, the publishable key and both redirect URLs are the environment's value when set and their defaults otherwise, and none is empty |
| StripeConfig.PriceToPence | server/stripe-config.js:36-38 | `priceToPence` is within half a penny of 100 x price, a half rounding up |
| StripeConfig.PenceToPrice | server/stripe-config.js:41-43 | `penceToPrice` is n/100, in whole pence |
| StripeConfig.PenceRoundTrip | server/stripe-config.js:36-43 | `priceToPence(penceToPrice(n)) == n` |
| StripeConfig.PriceRoundTrip | server/stripe-config.js:36-43 | a whole-pence price survives the trip through pence |
| StripeConfig.PriceRoundTripError | server/stripe-config.js:36-43 | any price moves by at most half a penny on the trip |
| StripeConfig.PriceToPenceMonotone | server/stripe-config.js:36-38 | `priceToPence` is monotone |
| StripeConfig.OrderTotalChargedExactly | server/stripe-config.js:36-43 | every order total converts to pence and back unchanged |
| StripeConfig.TwoMargheritasCharge | server/stripe-config.js:36-43 | 17.98 is charged as 1798 pence and back |
| AuthConfig.BaseUrl | server/auth-config.js:2-8 | `BASE_URL` when set and starting with "http", else the default; it always starts with "http" |
| AuthConfig.CallbackUrl | server/auth-config.js:11-16 | `AUTH0_CALLBACK_URL` when set and starting with "http", else base URL + "/callback"; it always starts with "http" |
| AuthConfig.Auth0SettingsOf | server/auth-config.js:18-25 | the credentials are passed through, the session secret is `SESSION_SECRET` when set and the placeholder otherwise, and the URLs are `BaseUrl` and `CallbackUrl` |
| AuthConfig.ValidSettingsHaveCredentials | server/auth-config.js:18-37 | when validation passes, the settings carry three non-empty credentials |
| AuthConfig.EmptyEnvironmentDefaults | server/auth-config.js:2-37 | with nothing configured, the credentials are absent, the URLs and session secret take their defaults, and all three keys are reported missing |
| AuthConfig.MissingKeys | server/auth-config.js:29-30 | exactly the unset or empty required keys, in the listed order |
| AuthConfig.ValidateAuth0Config | server/auth-config.js:28-51 | valid exactly when all three keys are set; the missing list is empty exactly then; the domain warning only logs |
| AuthConfig.RegionalDomainAccepted | server/auth-config.js:44-50 | a regional `*.auth0.com` domain validates without a warning |
| AuthConfig.StrategySettingsOf | server/auth-config.js:54-60 | the strategy copies the credentials and callback URL, with the fixed scope "openid email profile" |
| AdminPanel.VisibleProducts | server/public/admin.js:41-46 | the listed products are a subsequence of all products, each passes the filters, and every passing product is listed |
| AdminPanel.NoFiltersShowAll | server/public/admin.js:41-46 | an empty search with both filters on "all" lists every product |
| AdminPanel.FilterRules | server/public/admin.js:43-44 | a listed product matches the category filter and the availability filter ("in" means available, any other value unavailable) |
| AdminPanel.ListedWithoutSearch | server/public/admin.js:41-46 | with an empty search, every product that passes the category and availability filters is listed |
| AdminPanel.IsSubsequenceMembers | server/public/admin.js:41 | elements of a subsequence are elements of the list |
| AdminPanel.LowerStrAppend | server/public/admin.js:42 | lower-casing distributes over concatenation |
| AdminPanel.NameMatchIsFound | server/public/admin.js:42 | a query found in the name is found in the search text |
| AdminPanel.SearchIgnoresCase | server/public/admin.js:37-42 | the query's case does not change the listed products |
| AdminPanel.InsertSorted | server/public/admin.js:197 | inserting keeps the list strictly sorted and adds exactly that element |
| AdminPanel.Categories | server/public/admin.js:197 | the category of each product, in order |
| AdminPanel.SortedDistinct | server/public/admin.js:197 | `Array.from(new Set(..filter(Boolean))).sort()`: strictly sorted, holding exactly the non-empty inputs |
| AdminPanel.CategoryOptions | server/public/admin.js:197 | the options are strictly sorted (so distinct) and are exactly the non-empty categories |
| AdminPanel.StrictlySortedUnique | server/public/admin.js:197 | two strictly sorted lists with the same elements are equal |
| AdminPanel.SameElementsBothEmpty | server/public/admin.js:197 | lists with the same elements are empty together |
| AdminPanel.CategoryOptionsDependOnSet | server/public/admin.js:197 | the options depend only on the set of categories |
| AdminPanel.KeptSelection | server/public/admin.js:199 | the selection is kept exactly when it is "" or still an option, otherwise it resets to "" |
| AdminPanel.CleanPieces | server/public/admin.js:135 | each kept tag is non-empty, trimmed and has no comma |
| AdminPanel.CleanPiecesIsTrimThenFilter | server/public/admin.js:135 | cleaning the pieces is trimming each one, then keeping the non-empty ones in order |
| AdminPanel.ParseTags | server/public/admin.js:135 | every parsed tag is non-empty, trimmed and comma-free |
| AdminPanel.ParseTagsIsTrimThenFilter | server/public/admin.js:135 | the tags are `split(',')`, then `map(trim)`, then `filter(Boolean)` |
| AdminPanel.ParseTagsPiece | server/public/admin.js:135 | text without a comma gives its trimmed self as one tag, or no tag when that is empty |
| AdminPanel.CleanPiecesAppend | server/public/admin.js:135 | cleaning distributes over concatenated pieces |
| AdminPanel.ParseTagsAppend | server/public/admin.js:135 | the tags on either side of a comma are parsed independently, in input order |
| AdminPanel.ParseTagsSkipsSpace | server/public/admin.js:135 | a space after a comma makes no difference |
| AdminPanel.ParseTagsEmpty | server/public/admin.js:135 | an empty box gives no tags |
| AdminPanel.ParseTagsSingle | server/public/admin.js:135 | a clean tag alone parses to itself |
| AdminPanel.JoinCommaSpace | server/public/admin.js:101 | joining with ", " puts a comma and a space before every later tag |
| AdminPanel.ParseTagsAfterTag | server/public/admin.js:101-135 | a clean tag followed by ", " adds exactly that tag |
| AdminPanel.ParseTagsJoin | server/public/admin.js:101-135 | the tags the edit form shows parse back to the same tags |
| AdminPanel.IntField | server/public/admin.js:143-147 | an integer field is what `parseInt` reads, and 0 when it is empty or unreadable |
| AdminPanel.IntFieldRoundTrip | server/public/admin.js:109-147 | an integer shown in the form is read back unchanged |
| AdminPanel.BuildPayload | server/public/admin.js:125-148 | alerts exactly when the name is empty or the price is not a number; otherwise the body is complete, with the name and price, the tags parsed, no images, and a null sale price exactly when it is not a number, the number otherwise |
| AdminPanel.PayloadMembers | server/public/admin.js:129-148 | the body carries the text boxes and check boxes as they are, cost price and tax rate as read or 0, and the four integer boxes as `IntField` reads them |
| AdminPanel.Submit | server/public/admin.js:127-159 | alert, create or update: update exactly when a non-empty edit id is set, with the built body |
| AdminPanel.AcceptedFormCreates | server/public/admin.js:125-152 | a body the form accepts is accepted by the server's create, with the form's name, price, tags, numbers and flags |
| AdminPanel.EditForm | server/public/admin.js:97-113 | the edit form shows the product's name, price, sale price (if any) and flags |
| AdminPanel.EditFormPayload | server/public/admin.js:97-148 | the edit form of a product with clean tags sends every member back unchanged, except for the images |
| AdminPanel.EditFormSubmits | server/public/admin.js:90-159 | saving the edit form sends an update of that product |
| AdminPanel.MergeEditPayload | server/public/admin.js:139 | merging that body changes only the images and `updatedAt` |
| AdminPanel.EditSaveRoundTrip | server/public/admin.js:90-159 | opening a product and saving without changes leaves it unchanged, except that its images are cleared and `updatedAt` moves |
| AdminPanel.RowOf | server/public/admin.js:50-73 | a row shows the id, name, price, category, tags, stock count and both check boxes of the product, "No SKU" for an empty SKU, and the product's sale price exactly when it is set and non-zero |
| AdminPanel.FindById | server/public/admin.js:91 | `find` by id: none exactly when no product has it, otherwise the first product with it |
| AdminPanel.BuildRows | server/public/admin.js:48-75 | one row per listed product, in order |
| AdminPanel.Panel.constructor | server/public/admin.js:1-3 | the panel starts with no products, no edit id and an empty form |
| AdminPanel.Panel.Render | server/public/admin.js:34-76 | the rows are those of the visible products, and nothing else changes |
| AdminPanel.Panel.Refresh | server/public/admin.js:5-17 | stores the list, rebuilds the options keeping the selection when possible, and renders |
| AdminPanel.Panel.OpenCreate | server/public/admin.js:80-88 | clears the edit id and resets the form with both boxes ticked |
| AdminPanel.Panel.OpenEdit | server/public/admin.js:90-115 | nothing happens for an unknown id; otherwise it sets the edit id and fills the form from that product |
| AdminPanel.Panel.SubmitForm | server/public/admin.js:121-159 | what submitting sends: an alert exactly for a missing name or price, an update exactly for a set edit id |

## Left out

- Persistence: the JSON files (`ensureDataDir`, `load*`/`save*`) are not modelled. Saves are no-ops on the in-memory lists; loaded files are constructor parameters.
- Express plumbing is not modelled: routing, CORS, static files, the admin HTML routes, `/health`, the admin product list route (which returns the list as it is), `getLocalLANAddresses` and `listen`.
- The database modules, the Passport/session middleware and the Stripe test script are not part of this model.
- The admin panel's DOM, `fetch`, `toast`, the theme, the timer, `updateStats`, and the `update`/`del` helpers are not modelled. Those helpers only send requests that the server model already covers.
- IEEE doubles are not modelled. Amounts are exact reals, so `toFixed(2)` and `Math.round` carry no binary rounding error.
- `parseFloat` is not modelled: the form's decimal fields hold an already parsed `FloatInput`.
- `toLowerCase` is modelled for ASCII letters only.
- The default `sort` order is modelled as character-code order, not UTF-16 code-unit order.
- JSON values of the wrong type are not modelled. An `Option` member that is absent also stands for a value that fails the source's `typeof` test.
- In an admin order body, `items` elements are assumed to be well-formed lines. A `null` element there (which would throw) is not modelled.
- Quantities and integer fields are integers. A fractional JSON quantity is not modelled.
- Fresh ids, timestamps and the token clock are parameters. The model does not assume that fresh ids are distinct, and lookups take the first match.
- The Stripe client object and the console warning about a missing `STRIPE_SECRET_KEY` are not modelled.
- All console output is not modelled.
- Server.Store.UpdateProfile: the model does not prove that e-mails stay unique. The source lets a profile update set an e-mail another user already has, and login keeps the first such user.
- AdminPanel.Panel.OpenCreate: `form.reset()` is taken to blank every field.
- AdminPanel.Panel.SubmitForm: the request is not sent, so the modal close, `form.reset()` and the reload that follow a successful save are not modelled.
- AdminPanel.EditSaveRoundTrip: only products whose tags are non-empty, trimmed and comma-free round-trip. The form always sends an empty image list, so saving clears the images.
