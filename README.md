# GrubDash controllers in Dafny

A model of the two resource controllers of the GrubDash REST API, orders
(`src/orders/orders.controller.js`) and dishes
(`src/dishes/dishes.controller.js`). Each controller keeps an in-memory table
of records and exports, per route, an ordered chain of middleware checks
ending in a terminal handler. The first check that does not call plain
`next()` ends the chain. Only when every check passes does the handler read
or change the table.

Layout:

- `wrappers.dfy` (`Wrappers`): the `Option` type.
- `json.dfy` (`Json`): the JSON values a payload holds, with `undefined` for a missing member.
  It also gives the JavaScript operations the checks use: truthiness, member access (a TypeError on
  `undefined`/`null`), `.length`, `Number.isInteger`, and template-literal rendering.
- `chain.dfy` (`Chain`): the error object `{status, message}` and the three things a check can do:
  pass, reject, or throw. `RunChain` is the first-failure chain; `Reply` is what a route sends.
- `tables.dfy` (`Tables`): `findIndex`, `filter` by id and `splice` on a table of records.
  It also defines uniqueness of ids.
- `orders.dfy` (`Orders`) and `dishes.dfy` (`Dishes`): one module per controller.
  Each module holds the checks as functions and the middleware names as a `Check` datatype.
  The exported chains are constant sequences of `Check`s, and `Dispatch` runs a chain.
  The terminal handlers are functions on records plus a `Store` class.
  `Store` holds the module's array as a `seq` field and has methods that change it.
  Its `Serve…` methods run a whole route: the chain, then the handler.

A check that throws (reading a member of `null` or `undefined`) has the
verdict `Crash`, and the route replies `Faulted`. The application's generic
error handler answers those requests; it is not part of this model.

Notes on how the code behaves:

- A differing payload `id` is answered 400 only when the route id names a record. For orders, an
  unknown route id is answered 404 once the payload checks pass (`Orders.UnknownOrderUpdate`). For
  dishes, an unknown route id is always answered 404 (`Dishes.UnknownDishUpdate`).
- `dishes: []` on create is rejected by `bodyDataHas("dishes")` with "Order must include a dishes",
  not by `dishesIsValid` (`Orders.EmptyDishesRejectedAsMissing`). The "Order must include a dish"
  branch of `dishesIsValid` can never answer in either chain (`Orders.NoDishMessageUnreachable`).
- The presence check `bodyDataHas` accepts exactly the non-empty strings and the non-empty arrays.
  Numbers, booleans and objects always fail it.

## Model

| member | source | states |
|---|---|---|
| `Chain.RunChain` | src/orders/orders.controller.js:127-150 | a chain passes iff every check passes; otherwise its verdict is that of some check all of whose predecessors passed |
| `Chain.RunChainStopsAt` | src/orders/orders.controller.js:127-150 | the chain's verdict is exactly that of the first check that does not pass |
| `Chain.RunChainAppend` | src/orders/orders.controller.js:137-148 | running two chains in sequence is running their concatenation; the second runs only if the first passes |
| `Chain.RunChainAllPass` | src/orders/orders.controller.js:137-148 | a chain every one of whose checks passes hands the request to the handler |
| `Tables.FindIndex` | src/orders/orders.controller.js:98 | `findIndex` yields the first position holding the id, and nothing iff no record holds it |
| `Tables.Select` | src/orders/orders.controller.js:7 | the id filter keeps exactly the records carrying the id, and never more records than the table has |
| `Tables.SelectAppend` | src/orders/orders.controller.js:7 | the filter keeps table order: it distributes over concatenation |
| `Tables.SelectUnique` | src/dishes/dishes.controller.js:7 | with unique ids, filtering by the id held at position i yields exactly that record |
| `Tables.RemoveAt` | src/orders/orders.controller.js:99 | `splice(i, 1)` shortens the table by one, keeps the records before i and shifts those after it down by one |
| `Tables.RemoveAtUnique` | src/orders/orders.controller.js:96-101 | removing a record keeps ids unique and leaves no record with the removed id |
| `Tables.AppendUnique` | src/orders/orders.controller.js:32 | pushing a record with a fresh id keeps ids unique |
| `Tables.FindIndexSameKeys` | src/orders/orders.controller.js:57 | tables holding the same ids at the same positions answer the lookup alike |
| `Orders.BodyDataHas` | src/orders/orders.controller.js:10-21 | passes iff the member is a non-empty string or a non-empty array; otherwise 400 "Order must include a <property>"; throws iff `data` is null |
| `Orders.DishesIsValid` | src/orders/orders.controller.js:45-53 | passes iff `dishes` is a non-empty array; a falsy `dishes` gives "Order must include a dish", anything else "Order must include at least one dish" |
| `Orders.FirstBadDish` | src/orders/orders.controller.js:36-44 | the smallest index whose quantity test fails, and none iff every dish passes it |
| `Orders.ScanQuantities` | src/orders/orders.controller.js:38-42 | the indexed loop with early return stops exactly at that smallest failing index |
| `Orders.DishesMissingQuantity` | src/orders/orders.controller.js:36-44 | on an array, passes iff every quantity is a positive integer (0 fails); otherwise the loop stops at the first failing dish and the check answers 400 "Dish i must have a quantity…" with that index, throwing only when that dish is `undefined`/`null` or `dishes` has no readable length |
| `Json.NatToStringValue` | src/orders/orders.controller.js:40 | the index printed in "Dish ${index} …" reads back as the index itself |
| `Orders.StatusIsValid` | src/orders/orders.controller.js:103-113 | passes iff status is exactly "pending", "preparing", "out-for-delivery" or "delivered"; otherwise the fixed 400 message |
| `Orders.OrderExists` | src/orders/orders.controller.js:55-66 | passes iff some order has the route's id; otherwise 404 "Order id not found: <id>"; never throws |
| `Orders.DataIdIsValid` | src/orders/orders.controller.js:82-94 | a falsy body id or one equal to the route id passes; any other gives 400 naming both ids; throws iff `data` is missing or null |
| `Orders.ValidateDelete` | src/orders/orders.controller.js:115-125 | passes iff the found order's status is "pending", otherwise 400 "An order cannot be deleted unless it is pending"; throws iff no order matches |
| `Orders.List` | src/orders/orders.controller.js:5-8 | with no (or an empty) route id, the whole table; otherwise exactly the orders carrying the id |
| `Orders.Store.constructor` | src/orders/orders.controller.js:2 | the table starts as the seed data, whose ids are unique |
| `Orders.Store.Create` | src/orders/orders.controller.js:23-34 | appends exactly one record with the fresh id and the payload's four members; earlier records unchanged; ids stay unique |
| `Orders.Store.Update` | src/orders/orders.controller.js:72-80 | overwrites exactly deliverTo, mobileNumber, status and dishes of the order at i; its id, the other orders and the length unchanged |
| `Orders.Store.Destroy` | src/orders/orders.controller.js:96-101 | the table loses exactly the element at i and the rest keep their order; ids stay unique |
| `Orders.Store.ServeCreate` | src/orders/orders.controller.js:128-135 | if the create chain passes, 201 with the new record appended; otherwise the chain's refusal and the table untouched |
| `Orders.Store.ServeRead` | src/orders/orders.controller.js:149 | 200 with the order carrying the id iff one exists; otherwise 404 "Order id not found: <id>" |
| `Orders.Store.ServeUpdate` | src/orders/orders.controller.js:137-148 | if the update chain passes, the found order is overwritten and returned with 200; otherwise the refusal and the table untouched |
| `Orders.Store.ServeDelete` | src/orders/orders.controller.js:150 | unknown id: 404 and table unchanged; non-pending order: 400 and table unchanged; pending order: 204 and that element removed |
| `Orders.CreateAccepts` | src/orders/orders.controller.js:128-135 | the create chain passes iff deliverTo and mobileNumber are non-empty and dishes is a non-empty array of dishes with positive integer quantities |
| `Orders.EmptyDishesRejectedAsMissing` | src/orders/orders.controller.js:128-132 | with `dishes: []` the create chain answers 400 "Order must include a dishes", before `dishesIsValid` runs |
| `Orders.NoDishMessageUnreachable` | src/orders/orders.controller.js:45-53 | neither the create nor the update chain ever answers "Order must include a dish" |
| `Orders.UnknownOrderUpdate` | src/orders/orders.controller.js:137-148 | on an unknown id the update chain answers with the payload checks' failure if there is one, and 404 only if the payload passes |
| `Orders.PayloadChecksStatus` | src/orders/orders.controller.js:138-143 | the payload checks of the update chain reject only with status 400 |
| `Orders.EvalStatus` | src/orders/orders.controller.js:55-66 | every check rejects with 400 except `orderExists`, which rejects with 404 |
| `Orders.UpdateAccepts` | src/orders/orders.controller.js:137-148 | the update chain passes iff the order exists, the payload is an object with valid fields and one of the four statuses, and its id is falsy or equals the route id |
| `Orders.MissingDataRejectedFirst` | src/orders/orders.controller.js:84 | a request without `data` is rejected by the first presence check, so `dataIdIsValid`'s throw on it is never reached |
| `Orders.MismatchedIdRejected` | src/orders/orders.controller.js:82-94 | on an existing order, a truthy body id different from the route id always ends in a 400 (or a throw from the payload) |
| `Orders.UpdateIdempotent` | src/orders/orders.controller.js:72-80 | after a successful update the same request passes again, finds the same order and leaves the table unchanged |
| `Orders.DeleteVerdict` | src/orders/orders.controller.js:150 | the delete chain answers 404 for an unknown id, 400 for a non-pending order and passes for a pending one; `validateDelete` never throws in it |
| `Orders.ReadVerdict` | src/orders/orders.controller.js:149 | the read chain passes iff the order exists, otherwise 404 "Order id not found: <id>" |
| `Orders.CreatedOrderIsFound` | src/orders/orders.controller.js:23-34 | a created order is found at the end of the table, and listing by its id yields it alone |
| `Orders.DeletedOrderIsGone` | src/orders/orders.controller.js:96-101 | after removal no order carries the id, and listing by it yields nothing |
| `Dishes.BodyDataHas` | src/dishes/dishes.controller.js:10-21 | passes iff the member is a non-empty string or a non-empty array; otherwise 400 "Dish must include a <property>"; throws iff `data` is null |
| `Dishes.PriceBodyDataHas` | src/dishes/dishes.controller.js:23-33 | passes iff the price is a positive integer; a falsy price (0 included) gives "Dish must include a price", any other the integer-greater-than-0 message |
| `Dishes.DishExists` | src/dishes/dishes.controller.js:49-60 | passes iff some dish has the route's id; otherwise 404 "Dish does not exist: <id>"; never throws |
| `Dishes.DataIdIsValid` | src/dishes/dishes.controller.js:78-90 | a falsy body id or one equal to the route id passes; any other gives 400 naming both ids; a missing `data` passes |
| `Dishes.List` | src/dishes/dishes.controller.js:5-8 | with no (or an empty) route id, every dish; otherwise exactly the dishes carrying the id |
| `Dishes.Store.constructor` | src/dishes/dishes.controller.js:2 | the table starts as the seed data, whose ids are unique |
| `Dishes.Store.Create` | src/dishes/dishes.controller.js:36-47 | appends one dish with the fresh id and name, description, price and image_url from the payload; earlier dishes unchanged |
| `Dishes.Store.Update` | src/dishes/dishes.controller.js:66-76 | overwrites exactly the four mutable members of the dish at i; its id, the other dishes and the length unchanged |
| `Dishes.Store.ServeCreate` | src/dishes/dishes.controller.js:92-98 | if the create chain passes, 201 with the new dish appended; otherwise the refusal and the table untouched; no earlier dish changes |
| `Dishes.Store.ServeRead` | src/dishes/dishes.controller.js:100 | 200 with the dish carrying the id iff one exists; otherwise 404 "Dish does not exist: <id>" |
| `Dishes.Store.ServeUpdate` | src/dishes/dishes.controller.js:101-107 | if the update chain passes, the found dish is overwritten and returned; otherwise the refusal and the table untouched; the length and every id are kept |
| `Dishes.CreateAccepts` | src/dishes/dishes.controller.js:92-98 | the create chain passes iff name, description and image_url are non-empty and price is a positive integer |
| `Dishes.BadPriceRejected` | src/dishes/dishes.controller.js:92-98 | a present price that is not a positive integer (negative, fractional, a string) gets the price message once name and description are present |
| `Dishes.UnknownDishUpdate` | src/dishes/dishes.controller.js:101-107 | on an unknown id the update chain answers 404 whatever the payload |
| `Dishes.UpdateAccepts` | src/dishes/dishes.controller.js:101-107 | the update chain passes iff the dish exists, the payload is well formed, and its id is falsy or equals the route id |
| `Dishes.MismatchedIdRejected` | src/dishes/dishes.controller.js:78-90 | on an existing dish, a truthy body id different from the route id always ends in 400 |
| `Dishes.UpdateIdempotent` | src/dishes/dishes.controller.js:66-76 | after a successful update the same request passes again, finds the same dish and leaves the table unchanged |
| `Dishes.CreatedDishIsFound` | src/dishes/dishes.controller.js:36-47 | a created dish is found at the end of the table, and listing by its id yields it alone |

## Left out

- Express itself is not modelled: `req`, `res`, `res.locals`, `next`, `res.json`, `sendStatus` and routing.
  A check's outcome is a returned `Verdict` and a route's response a returned `Reply`.
  The record `orderExists`/`dishExists` attaches to `res.locals` is found again by the same lookup.
- The generic error handler is not modelled. A request that makes a check throw gets the reply `Faulted`,
  with no status or message.
- The id generator (`src/utils/nextId`) is not part of this model. The fresh id is a parameter of
  `Create`/`ServeCreate`, required not to be in use.
- The seed data under `src/data/` is not part of this model. The initial table is the `Store`
  constructor's argument.
- `dataIdIsValid` (both controllers) calls a second, plain `next()` after rejecting. How Express
  dispatches that second call is framework behaviour; the model takes the rejection.
- In-place update of a shared object is modelled as replacing the table element. The identity the
  updated object shares with the reply and `res.locals` is not modelled.
- An object-valued member that carries its own `length` member is treated as having no `.length`.
  `bodyDataHas` therefore always rejects objects; JavaScript would compare that member with 0.
- Numbers are not modelled as floating point. An integral JSON number is an unbounded `Int`, so
  precision loss beyond 2^53 is not captured. Any other number is `NonIntNum`, carrying the text
  JavaScript prints for it.
- Member access on strings, numbers, booleans and arrays yields `undefined`. This is exact for the
  member names the controllers read, but not for index names or `length`.
- `list` compares ids with `==` and the lookups with `===`. Ids are strings, so both are string
  equality here.
- Concurrent requests, JSON serialisation and the HTTP transport are not modelled.
