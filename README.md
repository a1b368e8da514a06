# Teranga Market core, modelled in Dafny

Teranga Market is a Senegalese marketplace. Its REST API is built with Express and Mongoose. This project models the business rules that run inside the route handlers.

- **Orders.** Placing an order checks each line against the product store, takes a snapshot of the prices, sums the totals and applies the flat delivery fee. As written, the save that follows is always rejected by the schema's validation (see "## Findings"). The intended route saves the order and then decrements the stock once per line. A status change is gated on the merchant who sells one of the order's products. Cancelling puts the stock back.
- **Order document.** An order is a Mongoose document with two pre-save hooks:
  - the order-number generator, `TM` + YY + MM + DD + a zero-padded sequence;
  - the final-amount hook.
- **Categories.** The flat list of active categories is assembled into a tree of roots and children. A category can be created by an admin only, under a name check and a parent check.
- **Products.**
  - The listing builds a filter, a sort key and pagination values.
  - Creation, update and deletion are gated on ownership and keep the shop's product counter in step.
  - The `commercantAuth` role gate guards these routes.
- **Profile.** A profile update copies an allow-listed set of fields from the request onto the user. A password change first confirms the old password.

## How the model is built

- **State.** The database is a class, `Store.Database`, holding one map per collection, from id to stored record. Route handlers are methods with `modifies db`.
  - Stored records are datatypes, defined in `Schemas`.
  - A loaded order is an object, `OrderModel.OrderDocument`. Its fields are assigned in place. `Save` validates the document against the schema first, then runs both hooks.
- **Outcome functions.** Each handler is specified by a pure outcome function that gives the answer the route returns:
  - `Orders.CreateOutcome` (as written), `Orders.IntendedCreateOutcome`, `Orders.StatusOutcome`, `Orders.CancelOutcome`;
  - `Categories.CategoryOutcome`;
  - `Products.CreateOutcome`, `Products.UpdateOutcome`, `Products.DeleteOutcome`;
  - `Users.ProfileOutcome`, `Users.PasswordOutcome`.

  Each handler method ensures that its result equals the outcome of the old state, and states the new state of every collection. The lemmas state the properties of the routes about the outcome functions.
- **Loops.** The loops of the source stay loops:
  - pricing the lines;
  - moving the stock for each line;
  - the two passes that build the category tree;
  - the allow-listed field assignment.

  Each loop is proved against a recursive function on the prefix processed so far.
- **Things outside the handler are parameters.** These are:
  - the clock (`Clock`: a timestamp and the local calendar date);
  - the number of orders already created today;
  - fresh ids;
  - the list of shops that match a `ville`, or `None` when `ville` is not a valid regular expression;
  - bcrypt's `compare` and `hash`.
- **Errors.** An error answer is a `Failure` constructor. Each carries its HTTP status (400, 403, 404 or 500) in a comment. A 500 is modelled in each case where the handler's own code throws:
  - a `null` from `populate` that is dereferenced;
  - a schema validator that fails on `save()`, with lengths counted in characters (the UTF-16 limits are under "## Left out");
  - `new RegExp(ville, 'i')` on a `ville` that is not a valid pattern.

## Model

| member | source | states |
|---|---|---|
| Text.TrimStartSpec | routes/orders.js:15 | the part that trimming the start keeps is a suffix of the input that does not start with white space, and everything removed is white space |
| Text.TrimEndSpec | routes/orders.js:17 | the part that trimming the end keeps is a prefix of the input that does not end with white space, and everything removed is white space |
| Text.TrimSpec | routes/users.js:36 | `trim()` never lengthens its input and leaves no white space at either end |
| Text.TrimIdempotent | models/User.js:8 | trimming an already trimmed value changes nothing, so the sanitiser and the schema's `trim` setter together trim once |
| Text.NatToString | models/Order.js:104 | `toString()` of a natural number is a non-empty string of digits with no leading zero |
| Text.ParseNatToString | models/Order.js:104 | reading back the decimal rendering of `n` gives `n` |
| Text.NatToStringLength | models/Order.js:104 | the rendering of `n` has at most `k` digits exactly when `n < 10^k` |
| Text.PadStart | models/Order.js:93-94 | `padStart(w, '0')` is as long as the larger of `w` and the length of `s`, ends with `s` and puts only zeros before it: it never truncates |
| Text.ParseLeadingZeros | models/Order.js:104 | leading zeros do not change the value of a digit string |
| Text.ZerosParseToZero | models/Order.js:104 | a string of zeros reads as 0 |
| Text.PadStartRoundTrip | models/Order.js:104 | a zero-padded rendering of `n` is all digits and reads back as `n` |
| Schemas.PhonePrefix | models/User.js:30 | a telephone number that matches the pattern is an empty, `+221` or `00221` prefix followed by exactly nine digits |
| Schemas.PhoneAccepts | routes/orders.js:16 | any allowed prefix followed by nine digits matches the pattern |
| Schemas.UpperAscii | models/Category.js:22 | ASCII upper-casing maps `a`-`z` to `A`-`Z` and leaves every other character alone |
| Schemas.HexColourIgnoresCase | models/Category.js:22 | the colour pattern with the `i` flag accepts a string exactly when it accepts its upper-cased form |
| Schemas.DefaultCouleurIsHex | models/Category.js:21-22 | the default colour `#FF9800` satisfies the colour pattern |
| RoleGate.CommercantAuth | middleware/commercantAuth.js:1-9 | the request goes on exactly when the caller is a `commercant` or an `admin`, and is refused with 403 exactly when the caller is a `client` |
| RoleGate.DecisionDependsOnlyOnRole | middleware/commercantAuth.js:2 | two callers with the same role get the same decision |
| OrderModel.ParseStatut | models/Order.js:51 | a status that is accepted is one of the seven enumerated names |
| OrderModel.ParseStatutName | routes/orders.js:200 | every one of the seven status names is accepted as that status |
| OrderModel.ParseModePaiement | models/Order.js:65 | a payment mode that is accepted is one of the five enumerated names |
| OrderModel.ParseModePaiementName | routes/orders.js:18 | every one of the five payment-mode names is accepted as that mode |
| OrderModel.NewOrder | models/Order.js:40-83 | a new document has status and payment status `en-attente`, `fraisLivraison` 0 unless given, no number, no final amount and an empty history |
| OrderModel.YearDigits | models/Order.js:92 | the year part is made of digits only |
| OrderModel.DatePrefix | models/Order.js:92-94 | the date prefix starts with `TM` |
| OrderModel.SequencePart | models/Order.js:104 | the sequence part is made of digits only |
| OrderModel.OrderNumber | models/Order.js:104 | an order number is never empty |
| OrderModel.DatePrefixLength | models/Order.js:92-95 | for a valid date in a year of at least two digits, `TM`+YY+MM+DD is 8 characters |
| OrderModel.OrderNumberLength | models/Order.js:104 | with `count + 1 <= 9999` the number is exactly 12 characters |
| OrderModel.OrderNumberNotTruncated | models/Order.js:104 | above 9999 the number grows past 12 characters and ends with the whole sequence number |
| OrderModel.OrderNumberSequence | models/Order.js:91-104 | the number is the date prefix followed by digits that read as `count + 1` |
| OrderModel.OrderNumberInjective | models/Order.js:104 | on the same date, two different day counts give two different numbers |
| OrderModel.SequencePartParses | models/Order.js:104 | the padded sequence part reads back as `count + 1` |
| OrderModel.SequencePartInjective | models/Order.js:104 | two different day counts give two different sequence parts |
| OrderModel.NewOrderFailsValidation | models/Order.js:4-48 | a new document has neither `numeroCommande` nor `montantFinal`, both required, so it fails the schema's validation |
| OrderModel.NewOrderPassesAfterHooks | models/Order.js:20-113 | after both hooks, a new document with a non-negative total and fee and well-formed lines is a valid stored order |
| OrderModel.AfterSave | models/Order.js:89-113 | the two hooks give a document with a non-empty number (a new one only when there was none), with `montantFinal = montantTotal + fraisLivraison`, and with nothing else changed |
| OrderModel.SaveIdempotent | models/Order.js:90 | saving a saved document again changes nothing, whatever the date and count at the second save |
| OrderModel.SaveKeepsStored | models/Order.js:110-113 | saving a valid stored order leaves it unchanged |
| OrderModel.OrderDocument.Save | models/Order.js:3-113 | `save()` validates the document as it stands. It succeeds exactly when the document satisfies the schema, and only then runs the two pre-save hooks in place. A rejected document is left unchanged |
| OrderModel.OrderDocument.RunHooks | models/Order.js:89-113 | the two pre-save hooks, in registration order, update the document in place to `AfterSave` of its old value |
| OrderModel.OrderDocument.SaveHooksFirst | models/Order.js:89-113 | the intended save runs both hooks first and succeeds exactly when the hooked document satisfies the schema |
| Store.PutOrderKeepsValid | models/Order.js:20-47 | storing an order that satisfies the order invariants keeps the order collection valid |
| Store.PutProductKeepsPrices | models/Product.js:15-19 | storing a product whose price is at least 0 keeps the price bound of the product collection |
| Orders.TrimOpt | routes/orders.js:201 | a value that is trimmed is present exactly when it was given |
| Orders.CheckLine | routes/orders.js:36-67 | a line is refused for a missing product, then for an unavailable one, then for short stock, with that error. Otherwise it is accepted, priced at the stored price with `sousTotal = prix × quantite`. Acceptance holds exactly when none of the three applies |
| Orders.CheckLines | routes/orders.js:36-68 | a list of lines is accepted exactly when every line is. Its articles are then the lines' articles, pointwise |
| Orders.PrefixErrorPersists | routes/orders.js:36-57 | once a prefix of the lines fails, the whole request fails with that error: later lines are never looked at |
| Orders.FirstFailingLineDecides | routes/orders.js:36-57 | the error answered is the error of the first failing line in input order |
| Orders.SumSousTotalNonNegative | models/Order.js:35-39 | a total of non-negative subtotals is non-negative |
| Orders.PriceLines | routes/orders.js:33-68 | the pricing loop fails exactly when the line check fails, with the same error. Otherwise it returns the checked articles and `montantTotal` = the sum of their subtotals |
| Orders.ShippingFee | routes/orders.js:71 | the fee is 0 exactly when the total is above 10000, and 1000 exactly when it is at most 10000 |
| Orders.PlacedOrder | routes/orders.js:74-84 | (intended route) the saved order belongs to the caller and carries the checked articles, the summed total, the fee rule, `montantFinal` = total + fee, the day's number, status `en-attente`, an empty history and the trimmed address |
| Orders.CheckedLinesWellFormed | models/Order.js:20-29 | articles accepted from a valid store have quantity at least 1 and a non-negative price |
| Orders.PlacedOrderValid | models/Order.js:20-47 | a placed order satisfies the schema bounds and the final-amount invariant |
| Orders.ApplyStockEffect | routes/orders.js:87-91 | one `$inc` per line changes, for each product, only its stock, by the sign times the sum of the quantities of the lines naming it, and keeps the set of products |
| Orders.CheckedQuantities | routes/orders.js:62-67 | the quantities stored for a product sum to the quantities the request asked for it |
| Orders.StockAfterCreation | routes/orders.js:87-91 | (intended route) after creation each product's stock has dropped by the total quantity it was requested for, and products not requested are unchanged |
| Orders.CreateThenCancelRestoresStock | routes/orders.js:299-303 | (intended route) cancelling an order restores every product's stock to its value before the order |
| Orders.CancelTwiceRestoresTwice | routes/orders.js:283-303 | restoring an order's stock twice adds the quantities back twice |
| Orders.RepeatedLinesCanOversell | routes/orders.js:52 | (intended route) two lines of one unit on a product holding one unit are both accepted, and the stock ends at -1 |
| Orders.WorkedExample | routes/orders.js:59-91 | (intended route) `A × 2 at 1500` plus `B × 1 at 800` gives total 3800, fee 1000 and final 4800, takes A's stock from 50 to 48, and a cancel puts it back |
| Orders.ApplyStockKeepsPrices | routes/orders.js:88-90 | moving stock never touches prices |
| Orders.CreateOutcome | routes/orders.js:11-106 | as written, the creation route answers 400 for a failed validator, then the first failing line's error. Once every check passes, it answers 500 because `save()` rejects the new document. It never succeeds |
| Orders.IntendedCreateOutcome | routes/orders.js:11-91 | as intended, the creation route answers 400 for a failed validator, then the first failing line's error. It succeeds exactly when neither applies, with the placed order |
| Orders.CreationAlwaysRejected | routes/orders.js:84-106 | the route as written never succeeds. It answers 500 exactly where the intended route places the order, and gives the intended route's error everywhere else |
| Orders.WorkedExampleAnswers500 | routes/orders.js:74-106 | on the worked example's two lines, with valid request fields, the route as written answers 500 where the intended route places the order |
| Orders.IntendedCreateOutcomeValid | routes/orders.js:59-84 | (intended route) a created order is valid, belongs to the caller, has one article per requested line with the requested product and quantity, and is priced at the stored prices |
| Orders.MoveStock | routes/orders.js:87-91 | the per-line `$inc` loop leaves the products equal to the stock applied with the given sign, and changes no other collection |
| Orders.CreateOrder | routes/orders.js:11-106 | as written, the handler answers the creation outcome for the store and changes nothing |
| Orders.PriceAndSave | routes/orders.js:33-84 | as written, once the validators pass, the pricing loop and the rejected save answer the first failing line's error, or else 500 |
| Orders.IntendedCreateOrder | routes/orders.js:11-91 | as intended, the handler answers the intended creation outcome of the old store. On success it stores the order and decrements stock. On failure it changes nothing. The store invariants are kept |
| Orders.PriceAndPlace | routes/orders.js:33-91 | (intended route) once the validators pass, the route answers the first failing line's error with nothing changed, or stores the placed order and decrements stock, keeping the store valid |
| Orders.PlaceOrder | routes/orders.js:74-91 | (intended route) building, saving and storing the order, then decrementing stock, gives the placed order and keeps the store valid |
| Orders.SaveNewOrder | routes/orders.js:71-84 | (intended route) the fee, the new document and its hooks-first save give the placed order, which is a valid stored order |
| Orders.MerchantIds | routes/orders.js:228 | the merchant list has one entry per article: the merchant of that article's product |
| Orders.MerchantIdsMatch | routes/orders.js:228-229 | the caller is in the merchant list exactly when one of the order's products is sold by the caller |
| Orders.WithStatus | routes/orders.js:238-251 | a status change sets any of the seven statuses and appends exactly one history entry. Delivery, and only delivery, also sets the delivery date and the paid status. Nothing else changes |
| Orders.WithStatusKeepsValid | routes/orders.js:238-253 | a status change keeps a valid order valid and grows the history by one |
| Orders.StatusOutcome | routes/orders.js:199-253 | the status route answers 400 for a bad status or comment, 404 for a missing order, 500 when a merchant's order names a deleted product, and 403 when the merchant sells none of its products. It succeeds exactly otherwise, with the changed order; clients and admins are not restricted |
| Orders.UpdateStatus | routes/orders.js:199-253 | the handler answers the status outcome of the old store, stores the changed order on success, changes nothing on failure and keeps the store valid |
| Orders.RecordStatus | routes/orders.js:238-251 | the in-place assignments and history push on the loaded document give the status change |
| Orders.Cancelled | routes/orders.js:305-310 | cancelling sets status `annulee` and appends one `annulee` entry with the fixed comment, and nothing else changes |
| Orders.CancelledKeepsValid | routes/orders.js:305-312 | a cancelled valid order is still valid |
| Orders.CancelOutcome | routes/orders.js:271-312 | the cancel route answers 404 for a missing order, 403 when a client does not own it, and 400 when it is `en-livraison` or `livree`. It succeeds exactly otherwise, with the cancelled order |
| Orders.CancelledStaysCancellable | routes/orders.js:291 | an order already cancelled can be cancelled again |
| Orders.CancelOrder | routes/orders.js:271-312 | the handler answers the cancel outcome of the old store. On success it restores every line's stock and stores the cancelled order. On failure it changes nothing. The store stays valid |
| Orders.RecordCancel | routes/orders.js:305-310 | the in-place assignments and history push on the loaded document give the cancelled order |
| Orders.ViewOrder | routes/orders.js:157-182 | the order is found exactly when it exists and, for a client, belongs to the client. Otherwise the answer is 404 |
| Orders.ClientSeesOnlyOwnOrders | routes/orders.js:162-163 | a client sees an order exactly when it is the client's own |
| Categories.PopulatedParent | routes/categories.js:12 | `populate('parent')` gives the parent exactly when it is set and still exists |
| Categories.Fetch | routes/categories.js:11-13 | given the ids of active categories, as `find({ estActive: true })` returns them, the fetched list has one entry per category, with its populated parent |
| Categories.BuildTree | routes/categories.js:16-39 | the two `forEach` passes produce the roots in input order, one children list per fetched category with its children in input order, and `total` = the number fetched |
| Categories.RootsExactlyOnce | routes/categories.js:26-31 | with distinct ids, a category with no parent appears among the roots exactly once, and any other category not at all |
| Categories.ChildrenExactlyOnce | routes/categories.js:26-28 | with distinct ids, a category appears in a parent's children exactly once when that is its parent, and otherwise not at all |
| Categories.OrphanDropped | routes/categories.js:27 | a category whose parent is not among those fetched appears neither among the roots nor in any children list |
| Categories.RootsSplit | routes/categories.js:25-33 | the roots of a concatenation are the roots of each part, in order |
| Categories.ChildrenSplit | routes/categories.js:25-33 | the children of a concatenation are the children found in each part, in order |
| Categories.DanglingParentIsRoot | routes/categories.js:12-31 | a category whose parent has been deleted populates to `null` and is listed as a root |
| Categories.NewCategory | routes/categories.js:133 | a new category has the trimmed name, the given colour or `#FF9800`, the given parent, order 0 unless given, and is active unless told otherwise |
| Categories.CategoryOutcome | routes/categories.js:89-134 | category creation answers 403 for a non-admin before looking at the input, then 400 for a failed validator, then 400 for a name in use, then 400 for a missing parent, and succeeds exactly otherwise |
| Categories.CreatedCategorySchemaValid | models/Category.js:4-23 | a created category has a name of 2 to 50 characters, a description of at most 200 characters and a colour matching the pattern. Lengths are counted in characters, not UTF-16 code units |
| Categories.CreationKeepsNamesUnique | routes/categories.js:114-120 | when stored names are unique, they stay unique after a creation |
| Categories.CreateCategory | routes/categories.js:89-134 | the handler answers the creation outcome, stores the category only on success, and changes no other collection |
| Products.NumOr | routes/products.js:28-29 | `parseInt(x) \|\| d` gives the number when it is present and non-zero, and `d` otherwise |
| Products.BuildFilters | routes/products.js:33-62 | the successive assignments produce the filter described field by field: always `estDisponible`; `categorie`, `commercant` and `boutique` when truthy; the `ville` shops replacing `boutique`; the price bounds; the text term. A truthy `ville` that is not a valid pattern gives 500 |
| Products.FiltersForUnique | routes/products.js:33-62 | a query determines its filter |
| Products.PriceBoundsInclusive | routes/products.js:54-58 | the price filter admits a price exactly when it is at least `prix_min` and at most `prix_max`, each applied only when given |
| Products.SortFor | routes/products.js:65-84 | the five sort names map to their key and direction, and anything else sorts by `createdAt` descending |
| Products.PagesBounds | routes/products.js:104 | `pages = ceil(total/limit)`: the pages cover the results, the last page is not empty, and there are no pages only when there are no results |
| Products.PageWithinResults | routes/products.js:30 | page `p` starts inside the results exactly when `p <= pages` |
| Products.PlanListing | routes/products.js:12-104 | the listing is refused with 400 when a query parameter fails validation. It is refused with 500 when `ville` is truthy and not a valid pattern, and succeeds exactly when neither applies. Otherwise `page` and `limit` are the given values or 1 and 10, `limit` is at most 50, `skip = (page-1)*limit`, with the filter and sort above |
| Products.BumpCountEffect | routes/products.js:193-195 | `$inc` on a shop's counter changes only that shop's counter, by the given amount, and is a no-op for a missing shop |
| Products.BumpCountInverse | routes/products.js:277-279 | raising a counter and lowering it by the same amount restores the shops |
| Products.NewProduct | routes/products.js:185-188 | a new product has the trimmed name and description, the given fields, the requester as `commercant` (whatever the body says), and is available unless told otherwise. `devise` defaults to `FCFA`, `certification` to none and `note.moyenne` to 0 (models/Product.js:20-24, 82-92) |
| Products.NewProductSchemaValid | models/Product.js:3-97 | a product built from a body that passes the creation validators passes the product schema exactly when its `devise`, each `certification` entry and `note.moyenne` are within the schema's enums and bounds, which no validator checks |
| Products.CreateOutcome | routes/products.js:148-190 | creation answers 403 for a client, then 400 for a failed validator, then 400 for a missing category, then 403 for a shop the requester does not own, then 500 when `save()` rejects an out-of-schema `devise`, `certification` or `note.moyenne`. It succeeds exactly otherwise, with the new product, which passes the schema |
| Products.CheckCreate | routes/products.js:156-190 | the checks and the save's validation, in the route's order, answer the creation outcome |
| Products.CreateProduct | routes/products.js:148-195 | the handler answers the creation outcome. On success it stores the product and raises its shop's counter by 1. On failure it changes nothing |
| Products.Assigned | routes/products.js:241 | `Object.assign` overwrites exactly the fields present in the body (trimming the name and description), `devise`, `certification` and `note.moyenne` included, and keeps the others |
| Products.AssignNothing | routes/products.js:241 | an empty body leaves the product unchanged |
| Products.UpdateOutcome | routes/products.js:217-242 | update answers 403 for a client, then 400 for a failed validator, then 404 when the product is missing or not the requester's, then 500 when the assigned document fails the schema (an unlisted `devise` or `certification`, a `note.moyenne` outside 0..5, or a stock the order routes drove below 0). It succeeds exactly otherwise |
| Products.UpdateProduct | routes/products.js:217-242 | the handler answers the update outcome, stores the product only on success, changes no counter, and keeps the price bound |
| Products.DeleteOutcome | routes/products.js:264-274 | deletion answers 403 for a client and 404 when the product is missing or not the requester's, and otherwise succeeds with the product |
| Products.DeleteProduct | routes/products.js:264-279 | the handler answers the deletion outcome. On success it removes the product and lowers the counter of the product's shop by 1. On failure it changes nothing |
| Products.CreateThenDeleteRestores | routes/products.js:190-195 | deleting a just-created product as its creator succeeds and restores both the products and the shop counters |
| Products.OnlyOwnerChangesProduct | routes/products.js:233-240 | an update or deletion succeeds only for the product's own merchant, and never for a client |
| Products.UpdateMovesShopWithoutCounters | routes/products.js:241 | an update may move a product to another shop without touching counters, so a later deletion lowers the new shop's counter and not the old one |
| Products.UpdateCanGiveAwayProduct | routes/products.js:241 | an update may name another merchant, after which the requester can no longer update or delete the product |
| Products.UpdateKeepsPricesValid | routes/products.js:220 | a successful update keeps every stored price non-negative |
| Users.AssignFieldsKeepsProtected | routes/users.js:60-65 | assigning allow-listed fields, in any number and order, never changes `email`, `motDePasse`, `typeUtilisateur` or `estActif` |
| Users.AllowedFieldsPatch | routes/users.js:60-65 | assigning the four allowed fields in turn gives the declarative patch |
| Users.PatchedFields | routes/users.js:61-64 | each of `nom`, `telephone`, `adresse` and `avatar` is replaced exactly when the body gives it (`nom` trimmed by the schema setter), and everything else is the stored value |
| Users.OnlyAllowedFieldsMatter | routes/users.js:60-65 | a body that gives none of the allowed fields leaves the user unchanged, whatever else it sends |
| Users.PatchIdempotent | routes/users.js:35-65 | applying the same sanitised profile update twice changes nothing the second time |
| Users.ProfileResendChangesNothing | routes/users.js:35-67 | re-sending a successful profile update against the stored result succeeds again with the same user |
| Users.ApplyAllowedFields | routes/users.js:60-65 | the `forEach` over the allow-list gives the declarative patch |
| Users.PreSave | models/User.js:59-69 | the pre-save hook replaces a modified password by its hash, leaves an unmodified one alone, and changes nothing else |
| Users.ProfileSaveSkipsHash | models/User.js:60 | a profile update does not modify the password, so the hook hashes nothing |
| Users.ProfileOutcome | routes/users.js:35-67 | the profile route answers 400 exactly when a validator fails, then 404 exactly when the user is gone. On success it gives the patched user, which passes the schema (an empty stored telephone passes it, models/User.js:28-31) |
| Users.ProfileSaveSucceeds | routes/users.js:36-67 | a valid body on a valid stored user never fails on save |
| Users.ProfileKeepsUsersValid | models/User.js:5-31 | a successful profile update keeps every stored user valid |
| Users.ProfileKeepsProtected | routes/users.js:60-65 | a profile update never changes the email, the password, the role or the active flag |
| Users.ProfileStoresTrimmedNom | routes/users.js:36 | a `nom` that is sent is stored trimmed |
| Users.UpdateProfile | routes/users.js:35-67 | the handler answers the profile outcome, stores the patched user only on success, and changes no other collection |
| Users.PasswordOutcome | routes/users.js:85-121 | the password route answers 400 exactly when the old password is missing or empty or the new one is missing or shorter than 6 characters, then 404 exactly when the user is gone, then 400 exactly when the old password does not match the stored one. A success changes nothing but `motDePasse`, which becomes the hash of the new password whenever that differs from the stored value |
| Users.PasswordSaveSucceeds | routes/users.js:85-121 | for a valid stored user the only refusals are the three the route names |
| Users.PasswordChangeChains | routes/users.js:111-121 | after a change, the new password, whose hash it matches, opens the next change |
| Users.PasswordKeepsUsersValid | models/User.js:5-31 | a successful password change keeps every stored user valid |
| Users.ChangePassword | routes/users.js:85-121 | the handler answers the password outcome, stores the changed user only on success, and changes no other collection |

## Left out

- Authentication (routes/auth.js, middleware/auth.js). JWT signing and verification are foreign library calls. The caller is an `Actor` parameter: a user id and a role.
- bcrypt. `compare` is the parameter `matches` and `hash` is the parameter `hash`. Salting makes `hash` a fresh function at every call, so the parameter stands for the one call made.
- scripts/seed.js. It is a reset-and-insert script of fixed data, only database I/O.
- routes/shops.js and its duplicate shop name check per owner. The model covers only the shop counter that the product routes move.
- Mongo query evaluation:
  - `populate` projections;
  - the `$text` search and the case-insensitive regex search on `ville`;
  - the execution of `sort`, `skip` and `limit`;
  - `countDocuments`.

  The model builds the filter, sort and paging values. Whether `ville` compiles as a regular expression, the shops that match it, and the category list already sorted by `ordre` and `nom` are parameters (`Products.BuildFilters`, `Categories.Fetch`).
- Concurrency. Two requests racing on stock, or on the same-day count behind `numeroCommande`, are outside the model. The count is a parameter. Uniqueness of the number across the whole store rests on the database index and is not part of the model.
- The wall clock. `new Date()`, `Date.now`, `createdAt` and `updatedAt` are not modelled. The clock is a parameter, and the timestamps that no rule reads are absent.
- HTTP and JSON shaping. Messages, the `errors` array, populated response documents and `toJSON` are absent. A 500 from a database failure is not modelled: only the 500s caused by the handler's own code are.
- Read-only routes:
  - GET `/mes-commandes`, GET `/:id` of products and categories, and GET `/profil` are left out. They are lookups with no rule beyond existence.
  - The client-only filter of GET `/orders/:id` is modelled (`Orders.ViewOrder`).
- Schema fields with no validator and no rule that reads them are absent:
  - for products, `images`, `caracteristiques`, `motsCles`, `estPromu`, `dateExpiration`, `poids`, `dimensions`, `origine` and `note.nombreAvis`;
  - the category's `icone`;
  - the user's timestamps.
- A body's `note` object is modelled by its `moyenne` alone. For a `note` sent without `moyenne` the model keeps the stored average, and how Mongoose assigns such a partial nested object is not modelled.
- Numbers. JavaScript numbers are modelled as `int`, except `note.moyenne`, a `real`. Fractional prices and floating-point rounding are out of scope. Query strings are modelled as already parsed numbers or malformed values (`NumParam`), not as text.
- JSON `null` is not told apart from an absent field, though `!== undefined` would assign a `null`.
- String length is counted in characters (code points). The source counts it in two other ways, so the model differs from each on some strings:
  - The route validators' `isLength` counts a surrogate pair as one character, as the model does, but does not count U+FE0E and U+FE0F at all. The model differs from them inside the Basic Multilingual Plane, on those two characters.
  - Mongoose's `minlength` and `maxlength` count UTF-16 code units. These are the User `nom` limit of 50, the Product `nom` and `description` limits of 100 and 1000, and the Category `nom` and `description` limits of 50 and 200. The model differs from them outside the Basic Multilingual Plane.
- Categories.CategoryOutcome answers success where `category.save()` rejects the document. This happens when the trimmed `nom` is over 50 UTF-16 code units or the `description` is over 200 (models/Category.js:9, models/Category.js:13). This can only occur outside the Basic Multilingual Plane, since the route validators already bound both in characters. `Categories.CreateCategory` then stores the category.
- Email lower-casing and the email pattern of models/User.js are not modelled. No route in the model changes an email.
- Users.UserSchemaValid checks only `nom` (required, at most 50 characters) and `telephone` (the pattern, skipped for the empty string exactly as Mongoose's `match` does). The password minimum length is enforced by the route's validator; the stored value is a hash.
- Store.Valid holds only the price bound (`Store.PricesValid`) for products, not the whole `Products.ProductSchemaValid`. The stock `$inc` of the order routes bypasses validation and can leave `quantiteDisponible` below 0. `Products.ProductSchemaValid` does check `quantiteDisponible >= 0`, so a later update of such a product answers 500.

## Findings

| source | as written | input that shows it | evidently intended | confidence | as-written member | corrected member |
|---|---|---|---|---|---|---|
| models/Order.js:3-113 | `numeroCommande` (lines 4-8) and `montantFinal` (lines 45-48) are required, but they are filled by the `pre('save')` hooks (lines 89-113). Mongoose validates before those hooks, so the document built at routes/orders.js:74-84 is always rejected: the route answers 500, stores nothing and moves no stock | any request that passes every validator and line check, e.g. two valid lines `A × 2` and `B × 1` on products in stock (`Orders.WorkedExampleAnswers500`) | the hooks run before validation (as `pre('validate')` hooks), the order is stored with its number and final amount, and the stock is decremented | high, not executed | Orders.CreateOrder, Orders.CreateOutcome, Orders.CreationAlwaysRejected, OrderModel.NewOrderFailsValidation | Orders.IntendedCreateOrder, Orders.IntendedCreateOutcome, Orders.IntendedCreateOutcomeValid, OrderModel.OrderDocument.SaveHooksFirst |

The lemmas about a created order describe the intended route: `Orders.PlacedOrder`, `Orders.IntendedCreateOutcomeValid`, `Orders.StockAfterCreation`, `Orders.CreateThenCancelRestoresStock`, `Orders.RepeatedLinesCanOversell` and `Orders.WorkedExample`. The status and cancellation routes load stored orders, which already pass validation, so the same `save()` succeeds there (`OrderModel.SaveKeepsStored`).
