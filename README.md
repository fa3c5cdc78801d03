# Grubdash controllers in Dafny

This project models the two request-handling controllers of the Grubdash
restaurant backend: the dishes controller and the orders controller. Each
route runs a chain of middleware steps. A step either calls `next()` or halts
the chain with `{status, message}`. The last step reads or changes an
in-memory collection. The collections are the module-level `dishes` and
`orders` arrays.

Files:

- `json.dfy` (module `Json`) models the parsed request payload as a
  JavaScript value: `Undefined | Null | Bool | Num | Str | Arr | Obj`. It
  also covers the JavaScript semantics the validators depend on: truthiness,
  property reads, conversion to text (`String(v)`, `Array.prototype.join`)
  and loose equality `==` against a string.
- `middleware.dfy` (module `Middleware`) models how a step ends: a `Halt` with
  status and message, or a TypeError the step throws (`Thrown`). It also
  models the verdicts of steps and chains. `FirstFailure` runs a chain and
  stops at its first failing step. `FindIndex` models
  `Array.prototype.find` and `findIndex`.
- `dishes.dfy` (module `Dishes`) models `bodyDataHas`, `isPriceValid`,
  `doValuesMatch` and `dishExists` as functions. The `dishes` array is the
  class `DishStore`, with `Create`, `Update` and `List`. The `POST`, `GET`
  and `PUT` chains are the `Handle…` methods.
- `orders.dfy` (module `Orders`) models `bodyDataIsValid`, `statusIsValid`,
  `doValuesMatch` and `orderExists` as functions. `dishesIsValid` is a
  method with the `find` scan as a loop that updates `foundIndex`. The
  `orders` array is the class `OrderStore`, with `Create`, `Update`,
  `Destroy` and `List` and the `POST`, `GET`, `PUT` and `DELETE` chains.

Each chain method is proved against a function: the chain's steps as a
sequence of verdicts, run by `FirstFailure`. The method's contract says three
things. On a failing step, the response is that step's failure. On a failing
step, the collection is unchanged. When every step passes, the new collection
equals the old one plus the single change.

Each store keeps `Valid()`: no two records share an id. The seed data and the
id generator are meant to guarantee this. Creating with a fresh id, updating
(which never touches `id`) and deleting all preserve it.

Some behaviours of the code that are easy to miss, which the model keeps:

- `dishesIsValid` accepts an empty `dishes` array, but the create and update
  chains never get that far with one. `bodyDataIsValid("dishes")` runs first
  and tests `data.dishes != ""`, and in JavaScript `[] == ""` is true, so an
  empty array fails with `Must include a dishes`
  (`Orders.EmptyDishesIsMissingDishes`).
- The quantity message says "integer", but `checkQuantity` only tests for a
  number above 0, so a quantity of `1.5` passes.
- `statusIsValid` refuses a submitted `delivered`, whatever the stored status.
  The chain never reads the stored status (`Orders.UpdateIgnoresStoredStatus`).
- `doValuesMatch` tests `id.length > 0`, and `>` converts `length` to a
  number first. An object id whose own `length` is `true` or `"5"` gets past
  that test and is then compared as `[object Object]`
  (`Orders.ObjectIdIsMismatch`).
- `bodyDataIsValid` also tests `data[field] != {}`. That test fails only for
  the string `[object Object]`, which is loosely equal to a new object.
- A JSON object may have its own `toString` key. Converting such an object
  (or an array holding one) to a primitive throws a TypeError, so the
  comparisons `!= ""`, `==` and `>` in the validators throw for it
  (`Json.ConversionThrows`).

## Model

| member | source | states |
|---|---|---|
| `Middleware.FirstFailure` | src/orders/orders.controller.js:175-196 | a chain passes iff every step passes; otherwise its verdict is the failure of a step that every earlier step passed |
| `Middleware.FirstFailureIs` | src/dishes/dishes.controller.js:111-131 | short-circuit: when step k is the first to fail, the chain answers with exactly step k's failure, whatever the later steps would say |
| `Middleware.FirstFailureAppend` | src/orders/orders.controller.js:184-193 | running two chains one after the other equals running their concatenation |
| `Middleware.FindIndex` | src/orders/orders.controller.js:161 | none iff no element satisfies the test; otherwise the first index whose element does (`find` in `dishExists`, `orderExists` and `dishesIsValid`, `findIndex` in `destroy`) |
| `Json.ArrayTextIsEmpty` | src/orders/orders.controller.js:12-13 | an array prints as "" (and so is loosely equal to "") iff it is empty or holds a single element that prints as nothing |
| `Json.TruthyLooselyEmptyIsArray` | src/orders/orders.controller.js:12-13 | a truthy value is loosely equal to "" only if it is an array that prints as "" |
| `Json.NatTextInjective` | src/orders/orders.controller.js:46-49 | different indices have different decimal texts |
| `Json.GreaterThan` | src/orders/orders.controller.js:67 | JavaScript's `x > c`: `x` converted to a number (null 0, booleans 0 and 1, strings read as numerals, arrays and objects through their text, undefined NaN) |
| `Json.ConversionThrows` | src/orders/orders.controller.js:13 | converting a value to a primitive throws exactly for an object with its own `toString` key, or an array holding such a value |
| `Dishes.BodyDataHas` | src/dishes/dishes.controller.js:8-16 | passes iff `data[field]` is truthy; a missing payload reads as `{}`, a null one throws; fails with 400 `Must include a <field>`; passing implies the payload is an object that has the field |
| `Dishes.IsPriceValid` | src/dishes/dishes.controller.js:35-48 | passes iff `price` is a number above 0; otherwise 400 `price must be valid` |
| `Dishes.DoValuesMatch` | src/dishes/dishes.controller.js:50-67 | passes iff the body `id` is falsy, or converts without a throw and loosely equals the route `dishId`; a string id passes iff it is empty or equal to the route id; converting an object with its own `toString` throws; otherwise 400 with both ids in the message |
| `Dishes.DishExists` | src/dishes/dishes.controller.js:18-33 | resolves iff some dish has the id, to the first such dish; otherwise 404 `dish id not found: <id>` |
| `Dishes.CreateAccepts` | src/dishes/dishes.controller.js:111-119 | the create chain passes iff the payload is an object with truthy name, description and image_url and a price that is a number above 0 |
| `Dishes.ZeroPriceIsMissingPrice` | src/dishes/dishes.controller.js:113-117 | a price of 0 halts the create chain at the presence check, with `Must include a price`, before `isPriceValid` runs |
| `Dishes.BadPriceIsInvalidPrice` | src/dishes/dishes.controller.js:111-119 | with all four fields present, a truthy price that is not a positive number fails with `price must be valid` |
| `Dishes.UnknownDishIsNotFound` | src/dishes/dishes.controller.js:121-130 | `dishExists` runs first in the update chain: an unknown id gives 404 whatever the payload |
| `Dishes.UpdateAccepts` | src/dishes/dishes.controller.js:121-130 | the update chain passes iff the dish exists, the payload is well-formed and a truthy body id converts without a throw and loosely equals the route id |
| `Dishes.CreateChecks` | src/dishes/dishes.controller.js:111-119 | the steps of `POST /dishes` in the order the exported chain lists them |
| `Dishes.UpdateChecks` | src/dishes/dishes.controller.js:121-130 | the steps of `PUT /dishes/:dishId` in the order the exported chain lists them, the lookup first |
| `Dishes.DishStore.constructor` | src/dishes/dishes.controller.js:4 | the collection starts as the seed data, with unique ids |
| `Dishes.DishStore.Create` | src/dishes/dishes.controller.js:73-87 | appends exactly one dish built from the payload under the fresh id; earlier dishes unchanged; ids stay unique |
| `Dishes.DishStore.Update` | src/dishes/dishes.controller.js:95-105 | replaces name, description, price and image_url of dish k with the payload's values; its id and every other dish are unchanged |
| `Dishes.DishStore.List` | src/dishes/dishes.controller.js:107-109 | answers 200 with the collection as it is, and changes nothing |
| `Dishes.DishStore.HandleCreate` | src/dishes/dishes.controller.js:111-119 | a failing step gives that step's failure and no change; otherwise 201 with the new dish appended, and that dish has a truthy name, description and image_url and a positive numeric price |
| `Dishes.DishStore.HandleRead` | src/dishes/dishes.controller.js:89-93 | 404 for an unknown id; otherwise 200 with the first dish carrying the id, the one `dishExists` resolved |
| `Dishes.DishStore.HandleUpdate` | src/dishes/dishes.controller.js:121-130 | 404 for an unknown id; a failing step leaves the collection untouched; otherwise 200, only the first dish with the id is overwritten, and it is left well-formed (positive numeric price) |
| `Orders.BodyDataIsValid` | src/orders/orders.controller.js:8-20 | passes iff `data[field]` is truthy, converts without a throw, is not an array that prints as "" (the `!= ""` test) and is not the string `[object Object]` (the `!= {}` test); a field whose conversion throws makes the step throw; otherwise 400 `Must include a <field>`, or a throw for a null payload |
| `Orders.DishesVerdict` | src/orders/orders.controller.js:22-53 | passes iff `dishes` is an array whose every line has a numeric quantity above 0; a non-array fails with 400 `Must include a dishes array` |
| `Orders.CheckQuantity` | src/orders/orders.controller.js:32-41 | `checkQuantity` (with `HasValidQuantity`): a line is reported unless it is an object whose own `quantity` is a number above 0 |
| `Orders.DishesIsValid` | src/orders/orders.controller.js:22-53 | the `find` scan with its `foundIndex` variable gives exactly the verdict `DishesVerdict` describes |
| `Orders.DishesReportFirstOffender` | src/orders/orders.controller.js:32-49 | when line k is the first without a valid quantity, the failure is 400 `Dish k must have a quantity that is an integer greater than 0` if it is an object, and a thrown TypeError (`"quantity" in line`) if it is not |
| `Orders.QuantityMessageInjective` | src/orders/orders.controller.js:46-49 | different line indices give different quantity messages |
| `Orders.ReportedIndexIsFirstOffender` | src/orders/orders.controller.js:22-53 | conversely, a quantity message for index k means that line k is the first offending line |
| `Orders.EmptyDishesPassDishesIsValid` | src/orders/orders.controller.js:22-53 | an empty `dishes` array passes `dishesIsValid` |
| `Orders.EmptyDishesIsMissingDishes` | src/orders/orders.controller.js:176-182 | in the create chain an empty `dishes` array fails earlier, at `bodyDataIsValid("dishes")`, with `Must include a dishes` |
| `Orders.StatusIsValid` | src/orders/orders.controller.js:55-83 | passes iff status is `pending`, `preparing` or `out-for-delivery`; a submitted `delivered` fails with `A delivered order cannot be changed`; a status whose `length` or whose own conversion throws makes the step throw; anything else fails with the must-have-a-status message |
| `Orders.StatusGate` | src/orders/orders.controller.js:65-69 | truthy, longer than one, and loosely equal to an accepted status holds exactly for the four accepted strings |
| `Orders.DoValuesMatch` | src/orders/orders.controller.js:85-102 | passes iff the body id is falsy, or its `length` converts to no number above 0, or it loosely equals the route `orderId`; a string id passes iff it is empty or equals the route id; a `length` or id whose conversion throws makes the step throw; otherwise 400 with both ids |
| `Orders.ObjectIdIsMismatch` | src/orders/orders.controller.js:90-97 | an object id whose `length` converts to a number above 0 (`true`, `"5"`) fails with `Order: [object Object]` for every other route id, or throws when it has its own `toString` |
| `Orders.OrderExists` | src/orders/orders.controller.js:104-118 | resolves iff some order has the id, to the first such order; otherwise 404 `order id not found: <id>` |
| `Orders.UpdateChecksInSteps` | src/orders/orders.controller.js:184-193 | the update chain consults each step (lookup, payload checks, `dishesIsValid`, `statusIsValid`) only when every step before it has passed |
| `Orders.DeliveredIsNeverAccepted` | src/orders/orders.controller.js:184-193 | a submitted `delivered` makes every update fail; when every other step passes, the failure is the delivered message |
| `Orders.UpdateIgnoresStoredStatus` | src/orders/orders.controller.js:184-193 | changing the stored status of any order changes no verdict of the update chain |
| `Orders.UnknownOrderIsNotFound` | src/orders/orders.controller.js:183-194 | an unknown id gives 404 in the update and delete chains, whatever the payload |
| `Orders.DeleteAccepts` | src/orders/orders.controller.js:159-170 | the delete chain passes iff the first order with the id exists and its stored status is the string `pending` |
| `Orders.CreateChecks` | src/orders/orders.controller.js:176-182 | the steps of `POST /orders` in the order the exported chain lists them |
| `Orders.UpdateChecks` | src/orders/orders.controller.js:184-193 | the steps of `PUT /orders/:orderId` in the order the exported chain lists them, the lookup first |
| `Orders.DeleteChecks` | src/orders/orders.controller.js:159-167 | the lookup, then `destroy`'s refusal of an order whose status is not the string `pending` |
| `Orders.WellFormedSteps` | src/orders/orders.controller.js:8-53 | a payload is well-formed (`deliverTo` and `mobileNumber` present, `dishes` a non-empty array of lines with a positive numeric quantity) iff the four payload steps of the create chain pass |
| `Orders.LinesArePresent` | src/orders/orders.controller.js:12-14 | a non-empty array of order lines whose conversion does not throw passes the presence test |
| `Orders.CreateAccepts` | src/orders/orders.controller.js:176-182 | the create chain passes iff the payload is well-formed |
| `Orders.UpdateAccepts` | src/orders/orders.controller.js:184-193 | the update chain passes iff the order exists, the payload is well-formed, its `id` passes `doValuesMatch` and its status is `pending`, `preparing` or `out-for-delivery` |
| `Orders.RemoveKeepsIdsUnique` | src/orders/orders.controller.js:168 | splicing one order out keeps ids unique and leaves its id unused |
| `Orders.OrderStore.constructor` | src/orders/orders.controller.js:4 | the collection starts as the seed data, with unique ids |
| `Orders.OrderStore.Create` | src/orders/orders.controller.js:125-139 | appends exactly one order {id, deliverTo, mobileNumber, status, dishes} at the end; earlier orders unchanged |
| `Orders.OrderStore.Update` | src/orders/orders.controller.js:145-157 | overwrites exactly deliverTo, mobileNumber, status and dishes of order k; its id and every other order are unchanged |
| `Orders.OrderStore.Destroy` | src/orders/orders.controller.js:159-170 | for an existing order: 400 and no change unless its status is `pending`; otherwise 204, exactly that element is removed, the others keep their order, and the id is gone |
| `Orders.OrderStore.List` | src/orders/orders.controller.js:171-173 | answers 200 with the collection as it is, and changes nothing |
| `Orders.OrderStore.HandleCreate` | src/orders/orders.controller.js:176-182 | a failing step gives that step's failure and no change; otherwise 201 with the new order appended, and its `dishes` is a non-empty array of lines with a positive numeric quantity |
| `Orders.OrderStore.HandleRead` | src/orders/orders.controller.js:141-143 | 404 for an unknown id; otherwise 200 with the first order carrying the id, the one `orderExists` resolved |
| `Orders.OrderStore.HandleUpdate` | src/orders/orders.controller.js:184-193 | 404 for an unknown id; a failing step leaves the collection untouched; otherwise 200, only the resolved order is overwritten, its `dishes` is a non-empty array of valid lines and its status is `pending`, `preparing` or `out-for-delivery` |
| `Orders.OrderStore.HandleDelete` | src/orders/orders.controller.js:194 | 404 for an unknown id, 400 and no change for a non-pending order; otherwise 204 and the order is removed |

## Left out

- Express plumbing is not modelled: `req`, `res`, `next`, `res.locals`, `res.status().json()` and `sendStatus`. Each step is a function returning a verdict. A resolved record is an index into the collection. A response is a status with a body.
- The status code that the error handler gives a thrown TypeError is not modelled. The error handler is not part of this model, so such a failure is only recorded as `Thrown`.
- `req.body` is assumed to be an object, as the JSON body parser provides. The payload is its `data` property.
- Stored ids are assumed to be strings (the seed data and the id generator are not part of this model), so the lookups `dish.id == dishId` and `order.id == orderId` are modelled as exact string equality. A stored numeric id, for which `1 == "01"` would hold, is not modelled.
- The id generator `../utils/nextId` is not part of this model. Each create takes the new id as a parameter and requires that no stored record uses it.
- The seed data files are not part of this model. Each store's constructor takes the seed and requires unique ids.
- Records are modelled as values. `update` replaces the element at the resolved index, so aliasing is not modelled: `res.locals` holds a reference to the stored object, and a created order shares the payload's `dishes` array.
- Orders.OrderStore.Destroy: it requires that the order exists, so `splice(-1, 1)` on a missing order is not modelled. `orderExists` always runs first, so that path is unreachable.
- Conversion of a string to a number is approximate. `Number(s)` reads only `""` (as 0) and plain decimal digits. Signs, fractions, whitespace, exponents and hex forms read as NaN. This matters for a non-string body `id` compared with the route id (`==`), and for a `length` property given in the payload as a string, array or object (`>` in `doValuesMatch` and `statusIsValid`).
- Number-to-text conversion is approximate. Only integers print exactly, and JavaScript's exponent form from 1e21 up is not modelled. A non-integer prints as its floor followed by a stand-in. This affects the mismatch message for such a body `id`. It also affects the comparison of an array `id` holding such a number with the route id: `[1.5] == "1.5"` is true in JavaScript, and the model answers 400 for it.
- Property reads cover only an object's own properties and the `length` of strings and arrays. The only inherited members that matter are `valueOf` and `toString`, used when a value is converted; a JSON payload can shadow them only with values that cannot be called, which `ConversionThrows` covers. String `length` counts characters, not UTF-16 code units.
- Concurrency and persistence are not modelled. The code has neither.
