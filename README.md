# Commerce request dispatcher, modelled in Dafny

This project models `InterviewQuestion.java`, an in-process request
dispatcher for a small shop. A caller sends `queryServer` a context ID (a
session token), a function name and a content map. The dispatcher checks
the request, routes it to one of six handlers, and answers with a response
envelope. Between calls it keeps three pieces of state:

- the live **sessions**, a map from token to user, never more than three;
- the **carts**, a map from user to the ordered list of products they added;
- the **gst** flag, which adds 10% tax to every cart total.

The catalogue is fixed: four users and two products. Each user has a name,
an admin flag and a personal discount. Each product has a name and a unit
cost.

Files:

- `optional.dfy`: `Option`, standing for Java's nullable references.
- `directory.dfy` (module `Directory`): the `User` and `Product` enums with
  their constant tables, and the last-match-wins lookups `getUser` and
  `getProduct`. Each lookup is a loop method proved equal to a recursive
  specification function.
- `pricing.dfy` (module `Pricing`): the cart total as exact rationals. It
  sums (cost - discount) over the items and multiplies by 1.1 when gst is
  set. Lemmas show the discount is taken per item, the total does not
  depend on item order, it adds up over concatenation, and it stays within
  bounds (never negative with this catalogue). A lemma also checks the
  worked example: 43.70, or 48.07 with tax.
- `dispatcher.dfy` (module `Dispatcher`): the request and response
  datatypes and the `Server` class. `Server` holds `sessions`, `carts` and
  `gst` as fields. Its methods are `QueryServer`, the handlers `Login`,
  `AdminSettings`, `AddProductToCart` and `GetCartDetails`, and a
  constructor for the start-up state. `Valid()` is the invariant: at most
  `MaxLogins` sessions, and every logged-in user has a cart. Every method
  preserves it.
- `scenarios.dfy` (module `Scenarios`): one client method per kind of
  request, each proved from `QueryServer`'s contract. Request sequences on a
  fresh server are built from them: the session limit, a cart surviving
  logout, two sessions sharing one cart, the taxed total, the admin and
  boolean checks, and clearing a cart.

Modelling choices:

- Money is Dafny `real`, which is an exact rational, so `BigDecimal`'s exact
  sums and the x1.1 step are exact. `1.1` is exactly eleven tenths.
- A missing context ID, function name or content is `None`.
- A content value is a string, a boolean or another object given by its
  `String.valueOf` text. A key mapped to Java's `null` acts like a missing
  key: it prints as `"null"` and is not a Boolean.
- The `switch` on the function name is `RouteOf`, from a name to a `Route`.
  Every name other than the six case labels maps to `UnknownRoute`.
- A Java exception is an `ErrorKind` (`NullPointer`, `IllegalArgument` or
  `IllegalState`) plus the exception's message. Handlers return
  `Result<T>`, either `Returned(value)` or `Threw(kind, message)`.
  `QueryServer` turns that into the envelope `Response`: `NoOp` (no
  function named), `Ok(fields)` or `Err(kind, message)`.
- The random UUID of a login is the `newToken` argument. It is required not
  to be a live token already.

Error cases, as the code has them:

- "User doesn't exist!" is an `IllegalArgumentException`
  (InterviewQuestion.java:153), so its kind is `IllegalArgument`.
- Only a null function name makes `queryServer` a no-op
  (InterviewQuestion.java:90). The empty string is an ordinary unknown name:
  it fails the content check or the context check, or else fails with
  "Unknown function provided.".
- `errorType` is the exception's class name (InterviewQuestion.java:131).

## Model

| member | source | states |
|---|---|---|
| `Directory.FindProduct` | InterviewQuestion.java:27-35 | A found product is in the table and has the name searched for; no product is found only when no table entry has that name |
| `Directory.GetProduct` | InterviewQuestion.java:27-35 | The loop (last match wins) returns exactly the table lookup; it finds a product iff some product has that name, and the product found has it |
| `Directory.ProductLookupInverse` | InterviewQuestion.java:12-14 | Looking up a product by its own name returns that product, so product names are unique identities |
| `Directory.FindUser` | InterviewQuestion.java:61-69 | A found user is in the table and has the name searched for; no user is found only when no table entry has that name |
| `Directory.GetUser` | InterviewQuestion.java:61-69 | The loop (last match wins) returns exactly the table lookup; it finds a user iff some user has that name, and the user found has it |
| `Directory.UserLookupInverse` | InterviewQuestion.java:38-42 | Looking up a user by their own name returns that user, so user names are unique identities |
| `Pricing.DiscountPerItem` | InterviewQuestion.java:193-196 | The subtotal is the list price minus one discount per item (duplicates included), not one discount per cart |
| `Pricing.ListPriceByCounts` | InterviewQuestion.java:193-196 | The list price of a cart is (copies of A) x 10 + (copies of B) x 35.7 |
| `Pricing.OrderIndependent` | InterviewQuestion.java:193-200 | Two carts holding the same products in any order have the same total, with or without tax |
| `Pricing.SubtotalAppend` | InterviewQuestion.java:193-196 | The subtotal of two item lists joined is the sum of their subtotals |
| `Pricing.SubtotalBounds` | InterviewQuestion.java:193-196 | An untaxed subtotal lies between n x (10 - discount) and n x (35.7 - discount) for n items, and is never negative with this catalogue |
| `Pricing.LauraPays` | InterviewQuestion.java:193-200 | Laura's cart of one of each product costs 43.70 untaxed and 48.07 taxed, in either order |
| `Dispatcher.ExemptNames` | InterviewQuestion.java:75-81 | The content-exempt names are exactly those routed to logout, clear-cart and cart-details; every other name, known or not, needs content |
| `Dispatcher.Server.constructor` | InterviewQuestion.java:72-81 | The process starts with no sessions, no carts and gst off, and the invariant holds |
| `Dispatcher.Server.Login` | InterviewQuestion.java:139-157 | An unknown name fails with "User doesn't exist!" before the limit is checked. At MaxLogins sessions, login fails with "Max logins reached...". Both failures change nothing. Otherwise exactly the fresh token is added for the user, an empty cart is created only if the user has none, and the token is returned |
| `Dispatcher.Server.AdminSettings` | InterviewQuestion.java:159-173 | A non-Boolean value fails first, then a non-admin session fails; neither changes gst. Otherwise gst becomes the given Boolean |
| `Dispatcher.Server.AddProductToCart` | InterviewQuestion.java:175-182 | An unknown product name fails and leaves the carts unchanged. Otherwise the session user's cart becomes old cart ++ [product] and every other cart is unchanged |
| `Dispatcher.Server.GetCartDetails` | InterviewQuestion.java:184-205 | Read-only. Reports the session user's cart as it is, totalQty = its length, and totalCost = the cart total of that user with the current gst flag |
| `Dispatcher.Server.QueryServer` | InterviewQuestion.java:87-137 | A null function is a no-op. Then, in order: missing content for a non-exempt name fails, a non-login without a live context ID fails, an unknown name fails. Each handler's outcome is stated with the full new state. Every failure changes nothing, and the invariant (at most 3 sessions, every session's user has a cart) is preserved |
| `Scenarios.RequestLogin` | InterviewQuestion.java:106-108 | A login request naming a catalogue user succeeds with the fresh token while fewer than 3 sessions are live, and fails with "Max logins reached..." otherwise |
| `Scenarios.RequestLogout` | InterviewQuestion.java:103-105 | Logout removes exactly the given token; other sessions, all carts and gst are unchanged |
| `Scenarios.RequestSettings` | InterviewQuestion.java:109-111 | A settings request with a non-Boolean value fails; a Boolean from a non-admin fails; a Boolean from the admin sets gst. Sessions and carts never change |
| `Scenarios.RequestAdd` | InterviewQuestion.java:112-114 | Adding a catalogue product by name appends it to the session user's cart only |
| `Scenarios.RequestClear` | InterviewQuestion.java:115-117 | clearCart empties the session user's cart and changes nothing else |
| `Scenarios.RequestDetails` | InterviewQuestion.java:118-120 | getCartDetails changes nothing and reports the cart, its length and its total |
| `Scenarios.SessionLimit` | InterviewQuestion.java:143-147 | After three logins the fourth fails with "Max logins reached..."; after one logout the next login succeeds |
| `Scenarios.CartSurvivesLogout` | InterviewQuestion.java:148-150 | Products added before a logout are still in the user's cart after logging in again |
| `Scenarios.SharedCart` | InterviewQuestion.java:146-150 | Two logins of one user yield two tokens that share one cart |
| `Scenarios.TaxedTotal` | InterviewQuestion.java:198-200 | After the admin enables gst, Laura's cart of one of each product reports totalQty 2 and totalCost 48.07 |
| `Scenarios.TaxNeedsAdminAndBoolean` | InterviewQuestion.java:160-171 | A non-admin's Boolean fails with "This user is not an Admin!"; the admin's string "true" fails with "Boolean GST value has not been provided."; gst stays off |
| `Scenarios.ClearedCart` | InterviewQuestion.java:116 | After clearCart, getCartDetails reports no products, totalQty 0 and totalCost 0 |

## Left out

- Token generation with `UUID.randomUUID()` (InterviewQuestion.java:146) is a parameter: the caller supplies a token that is not live. Randomness and global uniqueness are not modelled.
- `errorType` is the exception's class name in the source (`ex.getClass().toString()`). Here it is an `ErrorKind` value; the class-name strings are not modelled.
- The untyped `Map<String, Object>` request and response are datatypes. The response's `success`, `errorMessage` and `errorType` keys are the `Response` constructors.
- `BigDecimal` scale (for example `43.700` against `43.70`) is not modelled, only the numeric value.
- The static fields are fields of one `Server` object. Thread safety and the missing locking are not modelled: callers are sequential.
- `getCartDetails` puts the live cart list into the response, so later changes to the cart show through an earlier response. The model returns the cart as a value, so this aliasing is not captured.
- Implicit `NullPointerException`s (a session whose user has no cart, say) are not modelled. They cannot happen from the start-up state, because `Valid()` holds there and every request preserves it.
