# Request-decision logic of the mobile-shop backend

This project models the six resource controllers of a REST backend for a mobile shop: users,
mobiles, accessories, services, products and categories. Each handler runs a fixed sequence
of early-return checks: id format, existence, required fields, enum membership, numeric
ranges, dates and uniqueness. The first check that fails picks the response status. When all
checks pass, the handler makes exactly one change to the store.

## Structure

- `values.dfy` (module `Values`) holds the pieces every handler shares:
  - JavaScript values as request bodies carry them, with JavaScript truthiness and the
    `v || fallback` idiom;
  - `parseInt`, `parseFloat` and `new Date(v).toISOString()` as abstract functions in
    `Env.parse` (`None` stands for NaN or an Invalid Date);
  - the schema's enum value sets in `Env.enums`;
  - the upload adapter's outcome (`Upload`);
  - the `Result` of a handler step;
  - the `Reply`, which is a status code plus either the record or the request field whose
    check failed. Carrying the field makes "first violation wins" observable among several
    422s.
- `search.dfy` (module `Search`) is the store's case-insensitive `contains` filter.
- `paging.dfy` (module `Paging`) covers the `page`/`limit` defaults, `skip`, `take` and
  `totalPages`, and the enumeration of matching rows (`Collect`, a loop).
- `categories.dfy`, `products.dfy`, `users.dfy`, `accessories.dfy`, `services.dfy` and
  `mobiles.dfy` model one controller file each. Each contains:
  - the record datatype;
  - the pure validators and record builders;
  - a table class (`rows: map<int, R>`, `nextId`) whose methods are the handlers. A handler
    returns the `Reply` and makes its one change to `rows`.

  Every handler's `ensures` gives the reply as the same if-chain the source runs, over the
  old table. It also says that any error reply leaves the table as it was.
- `scenarios.dfy` (module `Scenarios`) runs request sequences through the handlers: delete
  twice, create twice, rename to self, keep one's own contact number or name, and a
  completed service.

## Rules adopted where the source leans on the store

- A value handed to the store as NaN makes the store call throw, and the handler's catch
  answers 500. This covers:
  - an unchecked `parseInt` of a route id (users, products, categories, getSingleMobile);
  - a contact number that is not a number;
  - an optional selling price, purchase price, sold count or user id that is not a number.
- A page number that is not a number or is below 1 gives a NaN or negative `skip`, which the
  store refuses (500).
- The store's answer to `findFirst` on a unique column is the one row with that value. The
  table invariants (`Valid`) keep user contact numbers, accessory names and category names
  unique.
- A write of a falsy non-null value (such as `""`) into the nullable enum columns brand and
  status of a mobile is refused by the store (500). Only updateMobile can make such a write,
  because it passes body fields on as sent.

## Behaviour worth knowing

- updateCategories does not leave the category itself out of its name lookup, so renaming a
  category to its current name is a 409 (controllers/categoryControllers.js:68-74). The user
  and accessory updates do leave the record itself out.
- getUsers compares the contact number only for equality with `parseInt(search)`
  (controllers/userControllers.js:111-115). A search for `99` therefore does not find contact
  9900 unless another field contains `99`.
- createMobile answers 200, where every other create answers 201
  (controllers/mobilesControllers.js:120).
- The update handlers differ in which optional text fields they drop:
  - updateMobile drops a text field only when it is `undefined`, so `null` and `""` are
    written. Its selling price, user id and dates are parsed only when truthy, and a falsy
    one is dropped.
  - updateService and updateAccessory drop every falsy optional text field.
  - updateService also drops a falsy `completed`, so `completed` can never go back to false.
  - updateService still parses a date or user id that is neither `undefined` nor `null`
    (controllers/serviceControllers.js:162-177). An empty date is a 422, and a user id of
    `0` is written.
  - updateUser overwrites every field, and a request without a photo clears the profile
    photo.
- Not every handler refuses a malformed id with 400. Users, products, categories and
  getSingleMobile hand `NaN` to the store, which answers 500.

## Model

| member | source | states |
|---|---|---|
| Search.LowerAll | controllers/userControllers.js:108-110 | the case-folded text has the same length and folds each character on its own |
| Search.Contains | controllers/userControllers.js:108-110 | the substring scan is true exactly when the needle occurs at some index of the text |
| Search.CaseOfNeedleIrrelevant | controllers/accessoriesControllers.js:83-86 | with `mode: 'insensitive'`, search terms that differ only in letter case match the same rows |
| Search.WholeValueMatches | controllers/serviceControllers.js:77-82 | a column equal to the search term, in any case, matches |
| Search.InfixMatches | controllers/mobilesControllers.js:144-149 | a column that contains the term anywhere matches |
| Paging.PageNumber | controllers/mobilesControllers.js:137-138 | an absent `page` is 1 |
| Paging.LimitNumber | controllers/mobilesControllers.js:137-139 | an absent `limit` is 10 |
| Paging.Skip | controllers/mobilesControllers.js:140 | `skip` is not negative exactly when the page is at least 1, and is then `(page - 1) * limit` |
| Paging.TotalPages | controllers/mobilesControllers.js:172 | `Math.ceil(total / limit)`: the fewest pages of `limit` rows holding `total` rows |
| Paging.Window | controllers/mobilesControllers.js:154-159 | `skip`/`take` gives the rows at positions `skip ..` of the matches, at most `take` of them |
| Paging.RowOnPage | controllers/userControllers.js:121-128 | every matching row is on some page between 1 and `totalPages` |
| Paging.PagesArePrefix | controllers/accessoriesControllers.js:90-98 | pages 1 to k, read in order, are the first `k * limit` matching rows |
| Paging.PagesCoverAll | controllers/serviceControllers.js:86-105 | pages 1 to `totalPages` together yield every matching row exactly once |
| Paging.Collect | controllers/accessoriesControllers.js:91-97 | the loop lists, each once, exactly the rows the filter keeps |
| Paging.RowsOf | controllers/mobilesControllers.js:154-159 | the listed records are the table's rows at the listed ids, in that order |
| Paging.CountIndependentOfOrder | controllers/mobilesControllers.js:160 | `count` does not depend on the order the store lists the matches in |
| Paging.ListPage | controllers/userControllers.js:98-148 | a NaN or sub-1 page is 500; otherwise the page window of the matches, their total, page, limit and `totalPages` |
| Paging.ListAll | controllers/productControllers.js:49 | `findMany()` with no arguments returns every row once |
| Categories.CategoryTable.Create | controllers/categoryControllers.js:4-37 | missing name 422, name in use 409, else a new category with only that name under a fresh id, 201; errors change nothing |
| Categories.CategoryTable.List | controllers/categoryControllers.js:40-53 | every category, unpaginated |
| Categories.CategoryTable.Get | controllers/categoryControllers.js:120-145 | NaN id 500, unknown id 404, else the category |
| Categories.CategoryTable.Update | controllers/categoryControllers.js:56-96 | 404 before 422; a name held by any category, itself included, is 409; else the name is replaced |
| Categories.CategoryTable.Delete | controllers/categoryControllers.js:99-117 | NaN id 500, unknown id 404, else removed with 204 |
| Products.CheckProduct | controllers/productControllers.js:7-25 | accepted exactly when there is a name, a positive JSON-number price and a category id that parses to an existing category, and yields that id; otherwise the first failing check decides: no name 422 "name", then a bad price 422 "price", no category id 422, a NaN category id 500, an unknown category 404 |
| Products.PriceMustBePositiveNumber | controllers/productControllers.js:11-17 | a price of 0, or a price sent as a string, is refused with 422 |
| Products.UnknownCategoryRefused | controllers/productControllers.js:19-25 | a body naming no existing category is never accepted |
| Products.UnknownCategoryNotFound | controllers/productControllers.js:19-25 | a body with a name and a valid price whose category id names no category is refused with 404 on the category id |
| Products.ProductTable.Create | controllers/productControllers.js:4-45 | after the checks, the body is stored verbatim under a fresh id and 201 is sent with its category |
| Products.ProductTable.List | controllers/productControllers.js:47-59 | every product, with no filter and no pagination |
| Products.ProductTable.Get | controllers/productControllers.js:61-74 | NaN id 500, unknown id 404, else the product |
| Products.ProductTable.Update | controllers/productControllers.js:94-135 | 404 before the body checks; then the body's fields overwrite the stored ones |
| Products.ProductTable.Delete | controllers/productControllers.js:76-92 | NaN id 500, unknown id 404, else removed with 204 |
| Users.CheckUser | controllers/userControllers.js:24-33 | name or contact number missing is 422 (naming both); a contact number that is not a number is 500; else the parsed number |
| Users.UserRecord | controllers/userControllers.js:61-67 | the stored contact is the parsed number; email and place are null when falsy and as sent otherwise; the photo is the uploaded URL when a file was uploaded and null otherwise |
| Users.UserMatches | controllers/userControllers.js:106-117 | an empty search matches every user, and a contact equal to `parseInt(search)` matches; a user with no name, email or place and another number does not match a non-empty search |
| Users.ContactMatchedOnlyByEquality | controllers/userControllers.js:106-117 | when no text field contains the term, a user is found exactly when `parseInt(search)` equals their contact number |
| Users.UserTable.Create | controllers/userControllers.js:19-93 | 422, then 409 if the parsed number is in use, then 500 if the upload fails; else 201 |
| Users.UserTable.List | controllers/userControllers.js:95-155 | the page of users matching the search |
| Users.UserTable.Get | controllers/userControllers.js:263-292 | NaN id 500, unknown id 404, else the user |
| Users.UserTable.Update | controllers/userControllers.js:157-241 | 404, then 422, then 409 only for a number held by another user, then the upload; every field is overwritten |
| Users.UserTable.Delete | controllers/userControllers.js:243-261 | NaN id 500, unknown id 404, else removed with 204 |
| Accessories.CheckFields | controllers/accessoriesControllers.js:11-31 | accepted exactly when name, type, selling price and stock are present, the type is in `AccessoryType` and the status is absent or in `ItemStatus`; otherwise the first failing check in that order names the field (422); stock must be truthy on create and only not undefined/null on update |
| Accessories.CheckNumbers | controllers/accessoriesControllers.js:40-47 | accepted exactly when the selling price parses as a float at least 0 and the stock as an integer at least 0, and yields both numbers; a bad selling price is 422 on the selling price, checked before the stock count, and only then is a bad stock count 422 on the stock count |
| Accessories.OptionalNumbers | controllers/accessoriesControllers.js:55-59 | purchase price and sold count are parsed only when truthy (else none); a truthy one that is not a number is 500 naming it, the purchase price first |
| Accessories.ZeroStockOnlyOnUpdate | controllers/accessoriesControllers.js:164 | a stock count of 0 is refused as missing on create and accepted on update |
| Accessories.NewAccessory | controllers/accessoriesControllers.js:50-62 | brand and description null when falsy and as sent otherwise; status "IN_STOCK" unless truthy; sold count 0 unless given, else the given count; the checked and parsed numbers |
| Accessories.AccessoryPatchOf | controllers/accessoriesControllers.js:193-203 | brand, description and status are written exactly when truthy, as sent; name, type and the numbers always |
| Accessories.Patched | controllers/accessoriesControllers.js:193-211 | dropped fields keep their stored values, sent ones replace them, the id never changes |
| Accessories.AccessoryMatches | controllers/accessoriesControllers.js:81-88 | an empty search matches every accessory; a non-empty one never matches an accessory whose searched columns are all null |
| Accessories.AccessoryTable.Create | controllers/accessoriesControllers.js:8-72 | 422 field checks, then 409 for a name in use before the numeric 422s, then 201 |
| Accessories.AccessoryTable.List | controllers/accessoriesControllers.js:74-116 | the page of accessories whose name, brand, type or description contains the term |
| Accessories.AccessoryTable.Get | controllers/accessoriesControllers.js:118-138 | NaN id 400, unknown id 404, else the accessory |
| Accessories.AccessoryTable.Update | controllers/accessoriesControllers.js:140-221 | 400, 404, field checks, 409 only when another accessory has the name, numeric checks, then the patch |
| Accessories.AccessoryTable.Delete | controllers/accessoriesControllers.js:223-239 | NaN id 400, unknown id 404, else removed with 204 |
| Services.CheckService | controllers/serviceControllers.js:11-40 | accepted exactly when the model is present, the type is absent or in `ServiceType`, a sent date is valid and a given user id is numeric; otherwise the first failing check in that order names the field (422); yields the ISO date and the user id exactly when sent |
| Services.EmptyDateRefusedOnlyOnUpdate | controllers/serviceControllers.js:160-168 | an empty date is ignored on create but refused with 422 on update |
| Services.NewService | controllers/serviceControllers.js:43-55 | completed is false unless truthy; imei, type, cost, charge and warranty are null when falsy and stored as sent otherwise; the checked date and user id are stored |
| Services.ServicePatchOf | controllers/serviceControllers.js:180-190 | each optional text field and `completed` is written exactly when truthy, as sent; the model, the checked date and user id always |
| Services.Patched | controllers/serviceControllers.js:180-198 | dropped fields keep their stored values, sent ones replace them, the id never changes |
| Services.ServiceMatches | controllers/serviceControllers.js:75-84 | an empty search matches every service; a non-empty one never matches a service whose searched columns are all null |
| Services.CompletedAndUserNeverCleared | controllers/serviceControllers.js:180-190 | no update makes a completed service not completed, or removes its user link or date |
| Services.ServiceTable.Create | controllers/serviceControllers.js:7-66 | the checks (422), then the record with its defaults, 201 |
| Services.ServiceTable.List | controllers/serviceControllers.js:68-112 | the page of services whose model, imei, type, cost, charge or warranty contains the term |
| Services.ServiceTable.Get | controllers/serviceControllers.js:114-134 | NaN id 400, unknown id 404, else the service |
| Services.ServiceTable.Update | controllers/serviceControllers.js:136-209 | 400, 404, the checks (422), then only the truthy fields and the sent date and user id are written |
| Services.ServiceTable.Delete | controllers/serviceControllers.js:211-227 | NaN id 400, unknown id 404, else removed with 204 |
| Mobiles.CheckMobile | controllers/mobilesControllers.js:28-48 | accepted exactly when the model name is present, the purchase price is present, parses and is at least 0, and brand and status are absent or in their enums; otherwise the first failing check in that order names the field (422) |
| Mobiles.CheckDate | controllers/mobilesControllers.js:75-82 | a truthy date must parse (else 422) and is stored as its ISO string; a falsy one is not stored |
| Mobiles.Settle | controllers/mobilesControllers.js:74-98 | succeeds exactly when each truthy date is valid and each truthy selling price and user id parses; each is set exactly when truthy, to its parsed value; otherwise the first failure names its field, in the order purchase date (422), selling date (422), selling price (500), user id (500) |
| Mobiles.InvalidDateBeforeBadPrice | controllers/mobilesControllers.js:74-98 | an invalid purchase date is a 422 whatever the selling price and user id are |
| Mobiles.NewMobile | controllers/mobilesControllers.js:94-113 | each of the nine optional text fields is null when falsy and stored as sent otherwise; selling price, dates and user id as settled; the photo URLs exactly when uploaded |
| Mobiles.MobilePatchOf | controllers/mobilesControllers.js:309-328 | each optional text field is dropped exactly when undefined and otherwise written as sent; the photo URLs exactly when uploaded; the settled numbers and dates |
| Mobiles.CheckStorable | controllers/mobilesControllers.js:314-322 | an update's brand and status are written only when dropped, null or in their enums; otherwise the store refuses (500) |
| Mobiles.EmptyBrandRefusedOnlyOnUpdate | controllers/mobilesControllers.js:256-314 | an empty brand passes the handler's check; update writes it and is refused, while create stores null |
| Mobiles.Patched | controllers/mobilesControllers.js:309-336 | for each of the 14 optional columns, a dropped field keeps its stored value and a sent one replaces it; the model name and purchase price are always replaced; the id never changes |
| Mobiles.UpdateClearsOnlyWhatIsSent | controllers/mobilesControllers.js:310-333 | every optional text column takes the value sent for it, null and empty string included, and keeps its stored value when the field is left out; photos change only when files are sent |
| Mobiles.MobileMatches | controllers/mobilesControllers.js:142-151 | an empty search matches every mobile; a non-empty one never matches a mobile whose searched columns are all null |
| Mobiles.MobileId | controllers/mobilesControllers.js:229-236 | an empty or non-numeric id is 400; else the parsed id |
| Mobiles.MobileTable.Create | controllers/mobilesControllers.js:23-133 | checks (422), upload (500), dates (422), selling price and user id (500), then the new mobile with 200 |
| Mobiles.MobileTable.List | controllers/mobilesControllers.js:135-180 | the page of mobiles whose model name, imei, country, colour, variant or brand contains the term |
| Mobiles.MobileTable.Get | controllers/mobilesControllers.js:182-195 | the id is not checked: NaN is 500, unknown is 404, else the mobile |
| Mobiles.MobileTable.Update | controllers/mobilesControllers.js:225-351 | 400, 404 before the body checks, then upload, dates, numbers, the enum write and the patch |
| Mobiles.MobileTable.Delete | controllers/mobilesControllers.js:197-223 | empty or NaN id 400, unknown id 404, else removed with 204 |
| Scenarios.DeleteMobileTwice | controllers/mobilesControllers.js:208-217 | after a successful delete, deleting the same id again is 404 |
| Scenarios.CreateAccessoryTwice | controllers/accessoriesControllers.js:34-37 | creating the same accessory twice makes the second a 409 |
| Scenarios.RenameCategoryToItself | controllers/categoryControllers.js:68-74 | sending a category its own name is 409 and changes nothing |
| Scenarios.UserKeepsOwnNumber | controllers/userControllers.js:175-185 | updating a user with their own contact number succeeds |
| Scenarios.AccessoryKeepsOwnName | controllers/accessoriesControllers.js:177-180 | updating an accessory under its own name is no conflict |
| Scenarios.ServiceStaysCompleted | controllers/serviceControllers.js:186 | a completed service stays completed after any update |

## Left out

- The image store and the multipart middleware. An upload is an input (`Upload`) that says
  whether a file was sent and whether the upload threw. The URLs are opaque strings.
- The concrete semantics of `parseInt`, `parseFloat` and `new Date(...)`. They are abstract
  functions, so prices are exact reals, not floating point.
- The store's type validation of written values. Not modelled:
  - a product body written verbatim with a non-integer or string `categoryId`, or with extra
    keys;
  - a non-text value in a text column;
  - the `contains` filter applied to the enum columns, which the three List lines below
    cover.
- The store's unique-constraint and foreign-key errors beyond the handlers' own pre-checks:
  connecting a mobile or a service to a user that does not exist, deleting a category that
  still has products, and two concurrent creates that both pass the pre-check.
- The `createdAt` order of list results. Each listing enumerates the matching rows in an
  unspecified order, and the contracts hold for any order.
- Paging.ListPage: a limit that is 0, negative or not a number is excluded by its requires
  (`LimitUsable`). It is not modelled as the store's answer.
- Response shaping: messages, the `status`/`message` wrapper, BigInt-to-string conversion of
  contact numbers, the `date` key of listProducts' response, and the category attached to a
  created product being looked up again by the raw `categoryId`.
- Case folding beyond the ASCII letters.
- JSON arrays and objects as body values.
- Mobiles.MobileTable.Create: a request with a nonzero user id sends both the scalar
  `m02_m01_user_id` and the relation `m02_user: { connect }` in one write
  (controllers/mobilesControllers.js:111-112). The store's input types most likely refuse
  that combination, which would make the request a 500. The model stores the user id and
  answers 200, because the store schema and its input rules are not part of this model.
- Mobiles.MobileTable.Update: the same scalar-plus-relation write
  (controllers/mobilesControllers.js:326-327) is modelled as accepted, for the same reason.
- Mobiles.MobileTable.List: the model reads brand as an enum column (see
  `Mobiles.CheckStorable`). An enum column has no `contains` filter, so the store most likely
  refuses every non-empty search (controllers/mobilesControllers.js:149) with a 500. The model
  returns the matching rows instead, because the store schema is not part of this model.
- Accessories.AccessoryTable.List: the same holds for the type column, an `AccessoryType`
  (controllers/accessoriesControllers.js:85). A non-empty search most likely answers 500; the
  model returns the matches.
- Services.ServiceTable.List: the same holds for the type column, a `ServiceType`
  (controllers/serviceControllers.js:79). A non-empty search most likely answers 500; the
  model returns the matches.
- Users.UserMatches: the contract states only the empty-search, contact and all-null cases.
  The full filter is the predicate's definition, which the List handlers use.
- Accessories.AccessoryMatches: likewise, only the empty-search and all-null cases.
- Services.ServiceMatches: likewise, only the empty-search and all-null cases.
- Mobiles.MobileMatches: likewise, only the empty-search and all-null cases.
- Express routing, and the fact that only the category and product routers are mounted.
