# Login throttling, list queries and request rules of a small shop backend

This project models, in Dafny, the decision logic of a small Express/Mongoose
backend for users, products and purchases:

- **Login throttling** (`authentication.dfy`, `login_runs.dfy`,
  `user_model.dfy`). `checkLoginCredentials` looks a user up by email,
  compares the password, and either issues a token or refuses. The code aims
  to lock a user out for 30 minutes after 5 failed attempts. As written, the
  lockout is permanent: nothing ever lowers the count. Once it reaches 5, a
  correct password gets the reset notice when the last attempt is at least 30
  minutes old, and the lockout notice within the 30 minutes after that, and
  never a token. The login call is one pure
  function. Its inputs are the user document (or none), the password, the
  current time in milliseconds, and the outside `passwordMatched` and
  `generateToken` functions. It returns a tagged outcome, an optional write of
  `(attempts, lastAttempt)` and the list of password comparisons it made.
  `Login` applies the write to a store (a map from email to user document).
  `Run` chains logins, and the lemmas about runs hold across any sequence of
  calls.
- **List queries** (`segments.dfy`, `list_query.dfy` and the three
  `*_service.dfy` files). `getUsers`, `getPurchases` and `getProducts` parse a
  `"field:direction"` sort string and a `"key:pattern"` search string. They
  default the page number and page size, compute the page count and the
  previous/next flags, and project each row onto the fields they expose. The
  three services and their `hasPreviousPage`/`hasNextPage` helpers are
  identical apart from the search keys and the projection. The shared part is
  modelled once, in `ListQuery`. `Segments.Split` is JavaScript's
  `split(":")`.
- **Purchase arithmetic** (`products_controller.dfy`). `addToPurchase` checks
  that the product exists, then checks the stock, then computes the total
  price and the stock left.
- **Request-body rules** (`joi_rules.dfy`, `products_validator.dfy`,
  `purchases_validator.dfy`). The Joi schemas are decidable predicates over a
  body map.

The model follows the code as written. Where the code and its comments
disagree, the code wins:

- `resetLoginAttempt` only rebinds its own parameters. The "reset" branch
  therefore writes back the **unchanged** attempt count with the current
  time, not 0.
- Once an account reaches 5 attempts, no later login returns a token
  (`LoginRuns.NoTokenOnceThrottled`).
- `user.attempts` is read before any test for a missing user. An unknown
  email therefore ends with a `TypeError` (`TypeErrorThrown`). No password is
  compared and nothing is written. The stand-in hash for unknown emails is
  never used. The comment at authentication-service.js:36-39 promises an
  always-compare path for unknown emails; the code never reaches it.
- `lastAttempt` is wrapped in a `Date` object, which is always truthy. The
  reset branch therefore fires whenever the last attempt is at least 30
  minutes old. A new user's last attempt is the epoch, so their first correct
  login gets the reset notice, not a token
  (`LoginRuns.NewUserFirstLoginIsResetNotice`).
- `NaN` page parameters and a page count with no finite value are `None`.

## Model

| member | source | states |
|---|---|---|
| `Authentication.LoginTimeoutCheck` | src/api/components/authentication/authentication-service.js:12-17 | throttled iff attempts ≥ 5 and the last attempt is less than 30 minutes ago; the extra truthiness test on `attempts` changes nothing |
| `Authentication.CheckLoginCredentials` | src/api/components/authentication/authentication-service.js:25-79 | unknown email: TypeError, no comparison, no write. Known email: exactly one comparison, against its stored hash. Right password and window over: reset notice, writes (unchanged attempts, now). Right password and ≥ 5 attempts: lockout notice, no write. Otherwise: email, name, id and token, no write. Wrong password: writes (attempts+1, now); limit notice iff the new count is 5, else lockout notice iff throttled before the call, else failure with the new count. A token needs pre-call attempts < 5 and a last attempt under 30 minutes ago. No write lowers the count |
| `Authentication.ExpiryExcludesThrottling` | src/api/components/authentication/authentication-service.js:48-55 | the window-expiry test and the throttling test never both hold |
| `Authentication.PlaceholderNeverCompared` | src/api/components/authentication/authentication-service.js:27-41 | the stand-in hash `<RANDOM_PASSWORD_FILLER>` is never passed to the comparison (unless it is a real user's stored hash) |
| `Authentication.ThrottledRefusesEveryPassword` | src/api/components/authentication/authentication-service.js:46-78 | with ≥ 5 attempts and the last one under 30 minutes ago, right and wrong passwords both get the lockout notice |
| `Authentication.ExpiredWindowKeepsOldCount` | src/api/components/authentication/authentication-service.js:65-77 | after the window, a wrong password adds one to the old count (≥ 5) and reports a plain failure |
| `Authentication.Login` | src/api/components/authentication/authentication-service.js:27-67 | a login against the store changes only the looked-up user's attempts and last attempt, never lowers the count, and keeps documents filed under their email. A token implies fewer than 5 stored attempts. A limit notice moves the count from 4 to 5. A wrong password adds exactly one and stamps now |
| `UserModel.UpdateLoginAttempt` | src/api/components/authentication/authentication-repository.js:13-16 | sets only `attempts` and `lastAttempt` of the user with that email. Other users and other fields are unchanged, and an unknown email changes nothing |
| `UserModel.NewAccount` | src/models/users-schema.js:1-7 | a new user has 0 attempts and a last attempt at the epoch |
| `LoginRuns.AttemptsNeverDecrease` | src/api/components/authentication/authentication-service.js:48-67 | across any sequence of logins, an account's attempt count never decreases and its id, email and password hash never change |
| `LoginRuns.NoTokenOnceThrottled` | src/api/components/authentication/authentication-service.js:46-64 | once an account has ≥ 5 attempts, no later login to it returns a token |
| `LoginRuns.NoLimitNoticeOnceReached` | src/api/components/authentication/authentication-service.js:66-71 | an account already at ≥ 5 attempts never gets the limit-reached notice again |
| `LoginRuns.LimitNoticeAtMostOnce` | src/api/components/authentication/authentication-service.js:65-71 | in any sequence of logins each account gets the limit-reached notice at most once |
| `LoginRuns.WrongPasswordsAccumulate` | src/api/components/authentication/authentication-service.js:65-67 | n wrong passwords raise the count by exactly n and stamp the time of the last one |
| `LoginRuns.NewUserFirstLoginIsResetNotice` | src/api/components/authentication/authentication-service.js:48-64 | a new user's first correct login gets the reset notice. A second one within 30 minutes gets the token. The count stays 0 |
| `Segments.Split` | src/api/components/users/users-service.js:18 | `split(":")` yields at least one piece, and no piece contains `:` |
| `Segments.JoinSplit` | src/api/components/users/users-service.js:34 | the pieces of a split, joined with `:`, give back the string |
| `Segments.SplitJoin` | src/api/components/users/users-service.js:18 | splitting a `:`-join of colon-free pieces gives back the pieces |
| `Segments.SplitHead` | src/api/components/users/users-service.js:18 | the first piece is the text before the first `:`; the later pieces are the split of the text after it |
| `ListQuery.ParseSort` | src/api/components/users/users-service.js:16-29 | the sort key is the text before the first `:`. The direction is the next piece when that is non-empty, otherwise `"asc"`. The key `__proto__` gives an empty sort, because assigning a string to an object's `__proto__` is ignored. A falsy sort string becomes the key itself (`"undefined"` or `""`) with `"asc"` |
| `ListQuery.ParseSortFieldDirection` | src/api/components/users/users-service.js:17-26 | `"f:o"` followed by any further pieces sorts `{f: o}`, with `o` unvalidated and `f` possibly empty. For `f` = `__proto__` the sort is empty |
| `ListQuery.ParseSortDefaultsToAscending` | src/api/components/users/users-service.js:25-29 | `"f"` and `"f:"` both sort `{f: "asc"}`, `f` possibly empty. For `f` = `__proto__` the sort is empty |
| `ListQuery.SearchTerms` | src/api/components/users/users-service.js:34-38 | the search key is the text before the first `:`. The pattern is the next piece, and is absent when there is no `:` |
| `ListQuery.SearchOfKeyAndPattern` | src/api/components/users/users-service.js:34-36 | `"k:p"` reads as key `k` and pattern `p` |
| `ListQuery.ResolvePageSize` | src/api/components/users/users-service.js:46-48 | a NaN or zero page size becomes the row count; any other value is kept |
| `ListQuery.ResolvePageNumber` | src/api/components/users/users-service.js:49-51 | a NaN or zero page number becomes 1; any other value is kept |
| `ListQuery.TotalPages` | src/api/components/users/users-service.js:54 | the page count is the ceiling of count / page size, characterised by bounds on both signs of page size. There is no finite value when the page size is 0 |
| `ListQuery.HasPreviousPage` | src/api/components/users/users-service.js:230-238 | true iff the page number exceeds 1 |
| `ListQuery.HasNextPage` | src/api/components/users/users-service.js:246-251 | false iff the page number equals the page count, so it is true past the last page and when there is no finite count |
| `ListQuery.ProjectAll` | src/api/components/users/users-service.js:62-70 | one projected row per input row, in order |
| `ListQuery.Paginate` | src/api/components/users/users-service.js:46-80 | count = number of rows = length of data. Data is the rows projected in order. The page number and size are resolved after the query. The page count and flags are computed from the resolved values |
| `ListQuery.DefaultPagingIsOnePage` | src/api/components/users/users-service.js:46-59 | with rows and no page parameters: page 1 of 1, no previous page, no next page |
| `ListQuery.EmptyDefaultPagingClaimsNextPage` | src/api/components/users/users-service.js:46-59 | with no rows and no usable page size, the page count has no finite value and a next page is claimed |
| `UsersService.UserFilter` | src/api/components/users/users-service.js:33-39 | a regex filter exactly when the key is `name` or `email`, on that field with the pattern; otherwise `{}` |
| `UsersService.UserSearchByKey` | src/api/components/users/users-service.js:35-38 | `"name:p"`/`"email:p"` filter that field with `p`; any other key, `""` included, filters nothing |
| `UsersService.GetUsers` | src/api/components/users/users-service.js:13-83 | the filter and sort handed to the store, then pagination as in `Paginate`. Each row shows exactly id, name and email of the matching user, in order |
| `UsersService.GetUser` | src/api/components/users/users-service.js:90-103 | an unknown user gives nothing; otherwise exactly the id, name and email |
| `UsersService.ListingHidesSecrets` | src/api/components/users/users-service.js:62-70 | users that agree on id, name and email give identical listings, so password hash and attempt state are not observable |
| `PurchasesService.PurchaseFilter` | src/api/components/purchases/purchases-service.js:31-43 | a regex filter on the same-named field exactly for keys `product`, `shipping_address`, `date_purchased`, `price`, `quantity`; otherwise `{}` |
| `PurchasesService.PurchaseSearchByKey` | src/api/components/purchases/purchases-service.js:32-43 | `"k:p"` filters field `k` with `p` when `k` is one of the five keys, otherwise nothing |
| `PurchasesService.GetPurchases` | src/api/components/purchases/purchases-service.js:12-89 | as for users. Each row shows exactly product, price, quantity, shipping address and purchase date, in order. The flags follow `hasPreviousPage`/`hasNextPage` |
| `PurchasesService.GetPurchase` | src/api/components/purchases/purchases-service.js:96-111 | an unknown purchase gives nothing; otherwise the same five fields, without the id |
| `PurchasesService.ListingHidesId` | src/api/components/purchases/purchases-service.js:66-76 | purchases differing only in id are listed identically |
| `ProductsService.ProductFilter` | src/api/components/products/products-service.js:36-44 | `product_name` filters `product_name`, `price` filters `price`, and `stock` filters `shipping_address`. Any other key gives `{}` |
| `ProductsService.NoSearchFiltersStock` | src/api/components/products/products-service.js:40-41 | no product search filters the `stock` field |
| `ProductsService.GetProducts` | src/api/components/products/products-service.js:17-89 | as for users. Each row shows exactly id, product name, stock and price, in order. The flags follow `hasPreviousPage`/`hasNextPage` |
| `ProductsController.ListProducts` | src/api/components/products/products-controller.js:12-25 | a missing or empty search gives the `{}` filter. A missing or empty sort gives an ascending sort on `product_name`. The page does not depend on either |
| `ProductsController.AddToPurchase` | src/api/components/products/products-controller.js:141-161 | a missing product fails first. Otherwise it fails iff stock < quantity. On success, total = price × quantity, the stock left is ≥ 0, stock left + quantity = stock, and the product name in the response is `undefined` |
| `ProductsController.BuyingWholeStockLeavesNone` | src/api/components/products/products-controller.js:153-159 | quantity equal to the stock succeeds and leaves 0 |
| `ProductsValidator.PurchaseQuantityBounds` | src/api/components/products/products-validator.js:4-8 | a whole quantity is accepted iff it lies in 1..99999 |
| `ProductsValidator.FractionalQuantityRefused` | src/api/components/products/products-validator.js:6 | a non-integer quantity is refused |
| `ProductsValidator.ZeroStockOrPriceRefused` | src/api/components/products/products-validator.js:21-22 | zero stock or zero price is refused |
| `ProductsValidator.CreateProductBounds` | src/api/components/products/products-validator.js:18-24 | accepted iff the name has 1..100 UTF-16 code units and stock and price are whole numbers in 1..99999 |
| `ProductsValidator.SixtyEmojiNameRefused` | src/api/components/products/products-validator.js:20 | a name of 60 emoji (120 UTF-16 units) is too long |
| `ProductsValidator.CreatePurchase` | src/api/components/products/products-validator.js:4-8 | accepted iff the quantity is a whole number in 1..99999 |
| `ProductsValidator.CreateProduct` | src/api/components/products/products-validator.js:18-24 | acceptance requires a name string of 1..100 UTF-16 units and stock and price that are whole numbers in 1..99999 |
| `ProductsValidator.FractionalStockOrPriceRefused` | src/api/components/products/products-validator.js:21-22 | a fractional stock or price (2.5) is refused |
| `ProductsValidator.UpdateProduct` | src/api/components/products/products-validator.js:10-16 | update accepts exactly the bodies create accepts |
| `PurchasesValidator.CreatePurchase` | src/api/components/purchases/purchases-validator.js:4-12 | acceptance requires product and shipping address strings of 1..100 UTF-16 units, price and quantity that are whole numbers in 1..99999, and a purchase date, when present, that is a date |
| `PurchasesValidator.FractionalPriceOrQuantityRefused` | src/api/components/purchases/purchases-validator.js:7-8 | a fractional price or quantity (2.5) is refused by creation |
| `PurchasesValidator.CreatePurchaseBounds` | src/api/components/purchases/purchases-validator.js:4-12 | a dateless body is accepted iff product and address have 1..100 UTF-16 units and price and quantity are whole numbers in 1..99999 |
| `PurchasesValidator.UpdatePurchase` | src/api/components/purchases/purchases-validator.js:14-21 | acceptance requires a customer name of 1..20 UTF-16 units, a product that creation accepts, and price and quantity in 1..20, hence within creation's 1..99999 |
| `PurchasesValidator.UpdatePurchaseBounds` | src/api/components/purchases/purchases-validator.js:14-21 | accepted iff the customer name has 1..20 UTF-16 units, the product 1..100, and price and quantity are whole numbers in 1..20 |
| `JoiRules.Utf16Length` | src/api/components/purchases/purchases-validator.js:6 | the length Joi's `min`/`max` count: between the number of characters and twice it, equal to it for text in the Basic Multilingual Plane and twice it for text above it |
| `JoiRules.StringIn` | src/api/components/purchases/purchases-validator.js:6 | acceptance requires a string whose UTF-16 length lies in the range, so non-empty when the minimum is positive. For text in the Basic Multilingual Plane it is exactly the character-count range; for text above it, exactly the range on twice the character count |
| `JoiRules.IntegerIn` | src/api/components/products/products-validator.js:6 | acceptance requires a whole positive number in the range. With a minimum of at least 1, every whole number in the range is accepted |
| `JoiRules.OptionalDate` | src/api/components/purchases/purchases-validator.js:10 | an absent field is accepted; a present one iff it is a date |
| `PurchasesValidator.PurchaseDateIsOptional` | src/api/components/purchases/purchases-validator.js:4-12 | a body that passes the other four rules is accepted without a date, or with a date value, and refused with a date field of another kind |
| `PurchasesValidator.PriceQuantityBounds` | src/api/components/purchases/purchases-validator.js:4-21 | whole price and quantity pass creation iff in 1..99999, and pass update iff in 1..20 |
| `PurchasesValidator.UpdateNumbersWithinCreate` | src/api/components/purchases/purchases-validator.js:7-19 | every update-valid price or quantity is create-valid; 21 shows the converse fails |

## Left out

- The store queries (`find`, `limit`, `skip`, `sort`, regex matching) are not modelled. The rows a list query returns are an input, and the filter and sort are plain data.
- Concurrency is not modelled. Two logins racing between the read at authentication-service.js:27 and the write at :67 can lose an increment. The list services also assign implicit globals (`total_pages`, `count`). The model covers one call at a time.
- `passwordMatched`, `hashPassword` and `generateToken` are outside code. They are function parameters here. Whether the comparison takes constant time cannot be stated.
- `getDate` reads the wall clock and formats it (with the weekday `getDay`). Outcomes are tags, without the time-stamped Indonesian messages. The current time is a parameter.
- `resetLoginAttempt` is not a separate member. Its effect on the caller is nothing, and the reset branch of `CheckLoginCredentials` states that.
- Throttling uses plain integers. A `lastAttempt` that is not a valid date (`NaN`) is not modelled, and neither is a non-numeric `attempts`.
- Float and NaN behaviour is reduced to integers. `Math.ceil` is integer ceiling division. A `NaN` or infinite value is `None`. `parseInt` is not modelled: page parameters arrive as integers or `None`.
- A `sort` or `search` that is not a string (e.g. a repeated query parameter) is not modelled. A non-string `search` would throw at `split`. `search` is always a string here; the products controller guarantees that.
- Joi and celebrate behaviour is library code: type coercion of strings to numbers and dates, the rejection of unknown keys, and error messages and labels. The predicates check only the declared fields. A date is a distinct `DateValue`, and date strings are not parsed.
- Routing, `src/api/index.js` and the controller handlers other than the list defaults and `addToPurchase` are Express glue. The products routes are not mounted at all.
- `addToPurchase` calls `updateProductPostPurchase` without importing it (products-controller.js:160). As written, the success path throws a `ReferenceError` before responding. The failure paths return a plain object instead of sending a response. The model states the decision, the arithmetic and the name in the response.
- `getProduct` (products-service.js:96-109) calls the repository's `getProducts(id)`, which ignores its argument and returns the array of all products (products-repository.js:7-9). An array is always truthy, so `getProduct` never returns `null`, and it reads `stock` and `price` off the array, so both are `undefined`. As wired, the refusal at products-controller.js:149 is unreachable, and so is the one at :153, since `undefined < quantity` is false. `totalPrice` and `stockLeft` are then `NaN`, and every call ends in the `ReferenceError` at :160. `AddToPurchase` models the handler as if it were given a real product document.
- `AddToPurchase`: the response's `productname` is read as `product.product_name` (products-controller.js:157) from `getProduct`'s result, which only ever has `product`, `stock` and `price` (products-service.js:104-108). The name is therefore always `undefined`, modelled as `None`, and the model does not promise that the product's name reaches the response.
- Other broken wiring is not modelled: the undefined `id` at products-controller.js:95 and purchases-controller.js:96, `product := body.price` at purchases-controller.js:92, and the unguarded `user.password` in `checkPassword` (users-service.js:193-194).
- Users are stored in a map keyed by email, so emails are unique. The schema does not enforce this; `findOne` would return the first match.
- Purchase dates are integers (milliseconds). Product documents are assumed to have exactly id, name, stock and price, since the product schema is not part of this model.
