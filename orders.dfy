/** The orders controller: the validators of an order payload, the lookup of
    an order by its route id, the in-memory collection of orders with its
    `create`, `update`, `destroy` and `list` operations, and the `create`,
    `read`, `update` and `delete` chains that run them. */
module Orders {
  import opened Json
  import opened Middleware

  /** A stored order. Every field but `id` holds whatever the payload carried;
      `status` is not checked when an order is created. */
  datatype Order = Order(id: string, deliverTo: Value, mobileNumber: Value, status: Value, dishes: Value)

  /** No two orders share an id. */
  predicate UniqueIds(orders: seq<Order>) {
    forall i, j :: 0 <= i < j < |orders| ==> orders[i].id != orders[j].id
  }

  /** No order carries `id`: what the id generator promises of a new id,
      what makes a route id unknown, and what holds of a deleted one. */
  predicate Unused(orders: seq<Order>, id: string) {
    forall i :: 0 <= i < |orders| ==> orders[i].id != id
  }

  const DishesArrayMessage := "Must include a dishes array"
  const QuantitySuffix := " must have a quantity that is an integer greater than 0"
  const DeliveredMessage := "A delivered order cannot be changed"
  const StatusMessage := "Order must have a status of pending, preparing, out-for-delivery, delivered"
  const NotPendingMessage := "An order cannot be deleted unless it is pending."
  const AcceptedStatuses := ["pending", "preparing", "out-for-delivery", "delivered"]

  /** The message of `doValuesMatch`, built from the text of the body id. */
  function MismatchMessage(idText: string, orderId: string): string {
    "order id does not match route id. Order: " + idText + ", Route: " + orderId
  }

  function QuantityMessage(index: nat): string {
    "Dish " + NatText(index) + QuantitySuffix
  }

  // ---------------------------------------------------------------------
  // Validators
  // ---------------------------------------------------------------------

  /** A payload field that `bodyDataIsValid` lets through: truthy, converting
      without a throw, not an array that prints as nothing (`[]` among them)
      and not the string `[object Object]`. */
  predicate Present(v: Value) {
    && Truthy(v)
    && !ConversionThrows(v)
    && !(v.Arr? && Text(v) == "")
    && v != Str("[object Object]")
  }

  /** `bodyDataIsValid(field)`: `data[field]` must be truthy, not loosely
      equal to `""` and not loosely equal to a new object `{}`. A truthy value
      is loosely equal to `""` only when it is an array that prints as
      nothing, and loosely equal to `{}` only when it is the string
      `[object Object]`. Comparing an array or object with `""` converts it,
      which throws for an object with its own `toString` (or an array holding
      one); the comparison with `{}` converts nothing that is not a string. */
  function BodyDataIsValid(data: Value, field: string): (r: Check)
    ensures r.Pass? <==> !data.Null? && Present(Get(data, field))
    ensures r.Fail? ==>
      r.failure == if data.Null? || ConversionThrows(Get(data, field)) then Thrown else Halt(400, "Must include a " + field)
  {
    if data.Null? then Fail(Thrown)
    else
      var v := Get(data, field);
      if !Truthy(v) then Fail(Halt(400, "Must include a " + field))
      else if ConversionThrows(v) then Fail(Thrown)
      else if !LooselyEquals(v, "") && !LooselyEqualsNewObject(v) then Pass
      else Fail(Halt(400, "Must include a " + field))
  }

  /** A line of `dishes` that `checkQuantity` accepts: an object whose own
      `quantity` is a number above zero. */
  predicate HasValidQuantity(line: Value) {
    line.Obj? && "quantity" in line.fields && IsPositiveNumber(line.fields["quantity"])
  }

  /** `"quantity" in line` can be asked of arrays and objects; of anything else
      it throws. */
  predicate IsObject(line: Value) {
    line.Obj? || line.Arr?
  }

  /** `checkQuantity` as the test `find` applies: true for a line to report. */
  function CheckQuantity(line: Value): bool {
    !HasValidQuantity(line)
  }

  /** What `dishesIsValid` decides: `dishes` must be an array, and the first
      line without a positive numeric `quantity` is reported by its index (a
      line that is not an object makes the `in` test throw first). */
  function DishesVerdict(data: Value): (r: Check)
    ensures r.Pass? <==>
      && !Nullish(data)
      && Get(data, "dishes").Arr?
      && forall i :: 0 <= i < |Get(data, "dishes").items| ==> HasValidQuantity(Get(data, "dishes").items[i])
    ensures !Nullish(data) && !Get(data, "dishes").Arr? ==> r == Fail(Halt(400, DishesArrayMessage))
  {
    if Nullish(data) then Fail(Thrown)
    else
      var dishes := Get(data, "dishes");
      if !dishes.Arr? then Fail(Halt(400, DishesArrayMessage))
      else match FindIndex(dishes.items, CheckQuantity)
        case None => Pass
        case Some(k) => if IsObject(dishes.items[k]) then Fail(Halt(400, QuantityMessage(k))) else Fail(Thrown)
  }

  /** `dishesIsValid`: scans the lines with `find`, recording each index it
      visits in `foundIndex`, and stops at the first line `checkQuantity`
      rejects. */
  method DishesIsValid(data: Value) returns (r: Check)
    ensures r == DishesVerdict(data)
  {
    if Nullish(data) {
      return Fail(Thrown);
    }
    var dishes := Get(data, "dishes");
    var foundIndex := -1;
    if !dishes.Arr? {
      return Fail(Halt(400, DishesArrayMessage));
    }
    var lines := dishes.items;
    var i := 0;
    while i < |lines|
      invariant 0 <= i <= |lines|
      invariant foundIndex == i - 1
      invariant forall j :: 0 <= j < i ==> HasValidQuantity(lines[j])
    {
      foundIndex := i;
      if !IsObject(lines[i]) {
        return Fail(Thrown);
      }
      if !HasValidQuantity(lines[i]) {
        return Fail(Halt(400, QuantityMessage(foundIndex)));
      }
      i := i + 1;
    }
    r := Pass;
  }

  /** The test `v && v.length > c && <v compared loosely with a string>`
      throws: converting `length` for `>` throws, or `length` passes and
      converting `v` itself for `==` throws. */
  predicate LengthTestThrows(v: Value, c: int) {
    && Truthy(v)
    && (|| ConversionThrows(Get(v, "length"))
        || (GreaterThan(Get(v, "length"), c) && ConversionThrows(v)))
  }

  /** `statusIsValid`: `status` must be truthy, longer than one character and
      loosely equal to an accepted status; a submitted `delivered` is then
      refused outright. */
  function StatusIsValid(data: Value): (r: Check)
    ensures r.Pass? <==>
      !Nullish(data) && Get(data, "status").Str? && Get(data, "status").s in {"pending", "preparing", "out-for-delivery"}
    ensures !Nullish(data) && Get(data, "status") == Str("delivered") ==> r == Fail(Halt(400, DeliveredMessage))
    ensures !Nullish(data) && r.Fail? && Get(data, "status") != Str("delivered") ==>
      r == Fail(if LengthTestThrows(Get(data, "status"), 1) then Thrown else Halt(400, StatusMessage))
    ensures Nullish(data) ==> r == Fail(Thrown)
  {
    if Nullish(data) then Fail(Thrown)
    else
      var status := Get(data, "status");
      StatusGate(status);
      if !Truthy(status) then Fail(Halt(400, StatusMessage))
      else if ConversionThrows(Get(status, "length")) then Fail(Thrown)
      else if !GreaterThan(Get(status, "length"), 1) then Fail(Halt(400, StatusMessage))
      else if ConversionThrows(status) then Fail(Thrown)
      else if exists i :: 0 <= i < |AcceptedStatuses| && LooselyEquals(status, AcceptedStatuses[i]) then
        if LooselyEquals(status, "delivered") then Fail(Halt(400, DeliveredMessage)) else Pass
      else
        Fail(Halt(400, StatusMessage))
  }

  /** The first test of `statusIsValid` (truthy, longer than one character,
      loosely equal to an accepted status) holds exactly of the accepted
      strings: numbers and booleans have no `length`, an array long enough
      prints with a comma that no accepted status has, and an object prints
      as `[object Object]`. */
  lemma StatusGate(status: Value)
    ensures (&& Truthy(status)
             && GreaterThan(Get(status, "length"), 1)
             && exists i :: 0 <= i < |AcceptedStatuses| && LooselyEquals(status, AcceptedStatuses[i]))
            <==> status.Str? && status.s in AcceptedStatuses
  {
    if status.Str? && status.s in AcceptedStatuses {
      assert |status.s| > 1;
      var i :| 0 <= i < |AcceptedStatuses| && status.s == AcceptedStatuses[i];
      assert LooselyEquals(status, AcceptedStatuses[i]);
    }
    if status.Arr? && |status.items| >= 2 {
      LongArrayTextHasComma(status.items);
      assert forall i :: 0 <= i < |AcceptedStatuses| ==> ',' !in AcceptedStatuses[i];
    }
  }

  /** A body `id` that `doValuesMatch` accepts: falsy, or with a `length`
      that converts without a throw, and that is either not above 0 or
      belongs to an id that converts without a throw and loosely equals the
      route id. */
  predicate IdMatches(id: Value, orderId: string) {
    Truthy(id) ==>
      && !ConversionThrows(Get(id, "length"))
      && (GreaterThan(Get(id, "length"), 0) ==> !ConversionThrows(id) && LooselyEquals(id, orderId))
  }

  /** `doValuesMatch`: a body `id` that is truthy and has a positive `length`
      must loosely equal the route id; anything else is accepted. */
  function DoValuesMatch(data: Value, orderId: string): (r: Check)
    ensures r.Pass? <==> !Nullish(data) && IdMatches(Get(data, "id"), orderId)
    ensures !Nullish(data) && Get(data, "id").Str? ==>
      (r.Pass? <==> Get(data, "id").s == "" || Get(data, "id").s == orderId)
    ensures !Nullish(data) && !Truthy(Get(data, "id")) ==> r == Pass
    ensures r.Fail? && !Nullish(data) ==>
      r.failure == if LengthTestThrows(Get(data, "id"), 0) then Thrown
                   else Halt(400, MismatchMessage(Text(Get(data, "id")), orderId))
    ensures Nullish(data) ==> r == Fail(Thrown)
  {
    if Nullish(data) then Fail(Thrown)
    else
      var id := Get(data, "id");
      if !Truthy(id) then Pass
      else if ConversionThrows(Get(id, "length")) then Fail(Thrown)
      else if !GreaterThan(Get(id, "length"), 0) then Pass
      else if ConversionThrows(id) then Fail(Thrown)
      else if LooselyEquals(id, orderId) then Pass
      else Fail(Halt(400, MismatchMessage(Text(id), orderId)))
  }

  /** `id.length > 0` converts `length` to a number, so an object id gets
      past it whenever its own `length` converts to a positive number (`true`,
      `"5"`, `[3]`); such an id prints as `[object Object]` and then matches
      no other route id. Converting it throws instead when it has its own
      `toString`, or when its `length` does. */
  lemma ObjectIdIsMismatch(data: Value, orderId: string)
    requires Get(data, "id").Obj? && GreaterThan(Get(Get(data, "id"), "length"), 0)
    requires orderId != "[object Object]"
    ensures DoValuesMatch(data, orderId) ==
      if "toString" in Get(data, "id").fields || ConversionThrows(Get(Get(data, "id"), "length")) then Fail(Thrown)
      else Fail(Halt(400, MismatchMessage("[object Object]", orderId)))
  {
    var id := Get(data, "id");
    assert Text(id) == "[object Object]";
    assert !LooselyEquals(id, orderId);
    assert Truthy(id) && GreaterThan(Get(id, "length"), 0);
  }

  // ---------------------------------------------------------------------
  // Lookup
  // ---------------------------------------------------------------------

  /** The test `order => order.id == orderId` of `orderExists` and `destroy`. */
  function HasId(orderId: string): Order -> bool {
    (order: Order) => order.id == orderId
  }

  /** `orderExists`: resolves the route id to the first order carrying it, or
      halts with 404. */
  function OrderExists(orders: seq<Order>, orderId: string): (r: Outcome<nat>)
    ensures r.Ok? <==> exists i :: 0 <= i < |orders| && orders[i].id == orderId
    ensures r.Ok? ==>
      r.value < |orders| && orders[r.value].id == orderId &&
      forall j :: 0 <= j < r.value ==> orders[j].id != orderId
    ensures r.Stop? ==> r.failure == Halt(404, "order id not found: " + orderId)
  {
    match FindIndex(orders, HasId(orderId))
    case Some(k) => Ok(k)
    case None => Stop(Halt(404, "order id not found: " + orderId))
  }

  // ---------------------------------------------------------------------
  // The chains, as the sequence of verdicts of their validation steps
  // ---------------------------------------------------------------------

  /** The validation steps of `POST /orders`, in order. */
  function CreateChecks(data: Value): Check {
    FirstFailure([
      BodyDataIsValid(data, "deliverTo"),
      BodyDataIsValid(data, "mobileNumber"),
      BodyDataIsValid(data, "dishes"),
      DishesVerdict(data)
    ])
  }

  /** The validation steps of `PUT /orders/:orderId`, in order: the lookup first. */
  function UpdateChecks(orders: seq<Order>, orderId: string, data: Value): Check {
    FirstFailure([
      OrderExists(orders, orderId).ToCheck(),
      BodyDataIsValid(data, "deliverTo"),
      BodyDataIsValid(data, "mobileNumber"),
      BodyDataIsValid(data, "dishes"),
      DoValuesMatch(data, orderId),
      DishesVerdict(data),
      StatusIsValid(data)
    ])
  }

  /** The steps of `DELETE /orders/:orderId`: the lookup, then the refusal of
      `destroy` to remove an order that is not pending. */
  function DeleteChecks(orders: seq<Order>, orderId: string): Check {
    match OrderExists(orders, orderId)
    case Stop(f) => Fail(f)
    case Ok(k) => if orders[k].status != Str("pending") then Fail(Halt(400, NotPendingMessage)) else Pass
  }

  /** The order lines every stored order the chains write carries: a
      non-empty array whose every line is an object with a positive numeric
      `quantity`. */
  predicate ValidLines(v: Value) {
    && v.Arr?
    && |v.items| > 0
    && (forall i :: 0 <= i < |v.items| ==> HasValidQuantity(v.items[i]))
  }

  /** What every order the chains write satisfies, whatever its status. */
  predicate WellFormedOrder(order: Order) {
    && Present(order.deliverTo)
    && Present(order.mobileNumber)
    && ValidLines(order.dishes)
    && !ConversionThrows(order.dishes)
  }

  /** A payload `POST /orders` accepts. */
  predicate WellFormed(data: Value) {
    && !Nullish(data)
    && Present(Get(data, "deliverTo"))
    && Present(Get(data, "mobileNumber"))
    && ValidLines(Get(data, "dishes"))
    && !ConversionThrows(Get(data, "dishes"))
  }

  // ---------------------------------------------------------------------
  // Properties of the validators and the chains
  // ---------------------------------------------------------------------

  /** A non-empty array of objects prints as something. */
  lemma LinesArePresent(v: Value)
    requires ValidLines(v) && !ConversionThrows(v)
    ensures Present(v)
  {
    ArrayTextIsEmpty(v.items);
    if |v.items| == 1 {
      assert v.items[0].Obj?;
    }
  }

  /** A payload is well-formed exactly when the four payload steps of
      `POST /orders` each pass. */
  lemma WellFormedSteps(data: Value)
    ensures WellFormed(data) <==>
      && BodyDataIsValid(data, "deliverTo").Pass?
      && BodyDataIsValid(data, "mobileNumber").Pass?
      && BodyDataIsValid(data, "dishes").Pass?
      && DishesVerdict(data).Pass?
  {
    if BodyDataIsValid(data, "dishes").Pass? && DishesVerdict(data).Pass? {
      ArrayTextIsEmpty(Get(data, "dishes").items);
    }
    if WellFormed(data) {
      LinesArePresent(Get(data, "dishes"));
    }
  }

  /** `POST /orders` gets past its validators exactly for a well-formed
      payload: `deliverTo` and `mobileNumber` present, and `dishes` a
      non-empty array of lines with a positive numeric `quantity`. */
  lemma CreateAccepts(data: Value)
    ensures CreateChecks(data).Pass? <==> WellFormed(data)
  {
    var checks := [
      BodyDataIsValid(data, "deliverTo"),
      BodyDataIsValid(data, "mobileNumber"),
      BodyDataIsValid(data, "dishes"),
      DishesVerdict(data)
    ];
    WellFormedSteps(data);
    if CreateChecks(data).Pass? {
      assert checks[0].Pass? && checks[1].Pass? && checks[2].Pass? && checks[3].Pass?;
    }
  }

  /** `PUT /orders/:orderId` gets past its validators exactly when the order
      exists, the payload is well-formed, its `id` passes `doValuesMatch` and
      its status is one that may be set. */
  lemma UpdateAccepts(orders: seq<Order>, orderId: string, data: Value)
    ensures UpdateChecks(orders, orderId, data).Pass? <==>
      && !Unused(orders, orderId)
      && WellFormed(data)
      && IdMatches(Get(data, "id"), orderId)
      && Get(data, "status").Str? && Get(data, "status").s in {"pending", "preparing", "out-for-delivery"}
  {
    var checks := [
      OrderExists(orders, orderId).ToCheck(),
      BodyDataIsValid(data, "deliverTo"),
      BodyDataIsValid(data, "mobileNumber"),
      BodyDataIsValid(data, "dishes"),
      DoValuesMatch(data, orderId),
      DishesVerdict(data),
      StatusIsValid(data)
    ];
    WellFormedSteps(data);
    if UpdateChecks(orders, orderId, data).Pass? {
      assert checks[0].Pass? && checks[1].Pass? && checks[2].Pass? && checks[3].Pass?;
      assert checks[4].Pass? && checks[5].Pass? && checks[6].Pass?;
    }
  }

  /** `bodyDataIsValid("dishes")` refuses an empty array: `[] != ""` is false. */
  lemma EmptyDishesIsMissingDishes(data: Value)
    requires data.Obj? && Present(Get(data, "deliverTo")) && Present(Get(data, "mobileNumber"))
    requires Get(data, "dishes") == Arr([])
    ensures CreateChecks(data) == Fail(Halt(400, "Must include a dishes"))
  {
    FirstFailureIs([
      BodyDataIsValid(data, "deliverTo"),
      BodyDataIsValid(data, "mobileNumber"),
      BodyDataIsValid(data, "dishes"),
      DishesVerdict(data)
    ], 2);
  }

  /** When line `k` is the first without a positive numeric `quantity`,
      `dishesIsValid` names it by its index; if that line is not even an
      object, `"quantity" in line` throws first. */
  lemma DishesReportFirstOffender(data: Value, k: nat)
    requires !Nullish(data) && Get(data, "dishes").Arr?
    requires k < |Get(data, "dishes").items|
    requires !HasValidQuantity(Get(data, "dishes").items[k])
    requires forall j :: 0 <= j < k ==> HasValidQuantity(Get(data, "dishes").items[j])
    ensures IsObject(Get(data, "dishes").items[k]) ==> DishesVerdict(data) == Fail(Halt(400, QuantityMessage(k)))
    ensures !IsObject(Get(data, "dishes").items[k]) ==> DishesVerdict(data) == Fail(Thrown)
  {
    var lines := Get(data, "dishes").items;
    var first := FindIndex(lines, CheckQuantity);
    assert first.Some?;
  }

  /** Different indices give different messages. */
  lemma QuantityMessageInjective(j: nat, k: nat)
    requires QuantityMessage(j) == QuantityMessage(k)
    ensures j == k
  {
    var mj, mk := QuantityMessage(j), QuantityMessage(k);
    assert |NatText(j)| == |NatText(k)|;
    assert mj[5..5 + |NatText(j)|] == NatText(j);
    assert mk[5..5 + |NatText(k)|] == NatText(k);
    NatTextInjective(j, k);
  }

  /** Conversely, a quantity message names the first offending line: the line
      at that index is an object without a valid quantity, and every line
      before it is valid. */
  lemma ReportedIndexIsFirstOffender(data: Value, k: nat)
    requires DishesVerdict(data) == Fail(Halt(400, QuantityMessage(k)))
    ensures !Nullish(data) && Get(data, "dishes").Arr?
    ensures k < |Get(data, "dishes").items|
    ensures IsObject(Get(data, "dishes").items[k]) && !HasValidQuantity(Get(data, "dishes").items[k])
    ensures forall j :: 0 <= j < k ==> HasValidQuantity(Get(data, "dishes").items[j])
  {
    var lines := Get(data, "dishes").items;
    var first := FindIndex(lines, CheckQuantity);
    QuantityMessageInjective(first.value, k);
  }

  /** An empty `dishes` array gets through `dishesIsValid` (it is the
      presence check before it that refuses it). */
  lemma EmptyDishesPassDishesIsValid(data: Value)
    requires !Nullish(data) && Get(data, "dishes") == Arr([])
    ensures DishesVerdict(data) == Pass
  {
  }

  /** A submitted status of `delivered` makes every `PUT /orders/:orderId`
      fail, whatever is stored; once every other step passes, the failure is
      the delivered message. */
  lemma DeliveredIsNeverAccepted(orders: seq<Order>, orderId: string, data: Value)
    requires Get(data, "status") == Str("delivered")
    ensures UpdateChecks(orders, orderId, data).Fail?
    ensures
      && OrderExists(orders, orderId).Ok?
      && BodyDataIsValid(data, "deliverTo").Pass?
      && BodyDataIsValid(data, "mobileNumber").Pass?
      && BodyDataIsValid(data, "dishes").Pass?
      && DoValuesMatch(data, orderId).Pass?
      && DishesVerdict(data).Pass?
      ==> UpdateChecks(orders, orderId, data) == Fail(Halt(400, DeliveredMessage))
  {
    var checks := [
      OrderExists(orders, orderId).ToCheck(),
      BodyDataIsValid(data, "deliverTo"),
      BodyDataIsValid(data, "mobileNumber"),
      BodyDataIsValid(data, "dishes"),
      DoValuesMatch(data, orderId),
      DishesVerdict(data),
      StatusIsValid(data)
    ];
    assert checks[6].Fail?;
    if forall j :: 0 <= j < 6 ==> checks[j].Pass? {
      FirstFailureIs(checks, 6);
    }
  }

  /** The update chain never looks at the stored status: changing the status
      of any stored order changes none of its verdicts. */
  lemma UpdateIgnoresStoredStatus(orders: seq<Order>, k: nat, status: Value, orderId: string, data: Value)
    requires k < |orders|
    ensures UpdateChecks(orders[k := orders[k].(status := status)], orderId, data) == UpdateChecks(orders, orderId, data)
  {
    var changed := orders[k := orders[k].(status := status)];
    assert forall i :: 0 <= i < |orders| ==> changed[i].id == orders[i].id;
  }

  /** The payload checks of `PUT /orders/:orderId` that run before
      `dishesIsValid`. */
  function UpdateFieldChecks(data: Value, orderId: string): seq<Check> {
    [
      BodyDataIsValid(data, "deliverTo"),
      BodyDataIsValid(data, "mobileNumber"),
      BodyDataIsValid(data, "dishes"),
      DoValuesMatch(data, orderId)
    ]
  }

  /** The update chain, run one step after another: the lookup, the payload
      checks, `dishesIsValid`, then `statusIsValid`, each consulted only when
      every step before it has passed. */
  lemma UpdateChecksInSteps(orders: seq<Order>, orderId: string, data: Value)
    ensures UpdateChecks(orders, orderId, data) ==
      if OrderExists(orders, orderId).Stop? then OrderExists(orders, orderId).ToCheck()
      else if FirstFailure(UpdateFieldChecks(data, orderId)).Fail? then FirstFailure(UpdateFieldChecks(data, orderId))
      else if DishesVerdict(data).Fail? then DishesVerdict(data)
      else StatusIsValid(data)
  {
    var head := [OrderExists(orders, orderId).ToCheck()];
    var fields := UpdateFieldChecks(data, orderId);
    var tail := [DishesVerdict(data), StatusIsValid(data)];
    assert head + (fields + tail) == [
      OrderExists(orders, orderId).ToCheck(),
      BodyDataIsValid(data, "deliverTo"),
      BodyDataIsValid(data, "mobileNumber"),
      BodyDataIsValid(data, "dishes"),
      DoValuesMatch(data, orderId),
      DishesVerdict(data),
      StatusIsValid(data)
    ];
    FirstFailureAppend(head, fields + tail);
    FirstFailureAppend(fields, tail);
    assert tail == [DishesVerdict(data)] + [StatusIsValid(data)];
    FirstFailureAppend([DishesVerdict(data)], [StatusIsValid(data)]);
  }

  /** An unknown id is a 404 in `PUT /orders/:orderId` and in
      `DELETE /orders/:orderId`, whatever the payload holds. */
  lemma UnknownOrderIsNotFound(orders: seq<Order>, orderId: string, data: Value)
    requires Unused(orders, orderId)
    ensures UpdateChecks(orders, orderId, data) == Fail(Halt(404, "order id not found: " + orderId))
    ensures DeleteChecks(orders, orderId) == Fail(Halt(404, "order id not found: " + orderId))
  {
  }

  /** `DELETE /orders/:orderId` passes exactly for an existing order whose
      stored status is the string `pending`. */
  lemma DeleteAccepts(orders: seq<Order>, orderId: string)
    ensures DeleteChecks(orders, orderId).Pass? <==>
      exists k :: 0 <= k < |orders| && orders[k].id == orderId && orders[k].status == Str("pending") &&
        forall j :: 0 <= j < k ==> orders[j].id != orderId
  {
    if exists k :: 0 <= k < |orders| && orders[k].id == orderId && orders[k].status == Str("pending") &&
                   forall j :: 0 <= j < k ==> orders[j].id != orderId {
      var k :| 0 <= k < |orders| && orders[k].id == orderId && orders[k].status == Str("pending") &&
               forall j :: 0 <= j < k ==> orders[j].id != orderId;
      var found := OrderExists(orders, orderId);
    }
  }

  /** Removing one order from a collection with unique ids keeps the ids
      unique and leaves its id unused. */
  lemma {:induction false} RemoveKeepsIdsUnique(orders: seq<Order>, k: nat)
    requires UniqueIds(orders) && k < |orders|
    ensures UniqueIds(orders[..k] + orders[k + 1..])
    ensures Unused(orders[..k] + orders[k + 1..], orders[k].id)
  {
    var rest := orders[..k] + orders[k + 1..];
    forall i | 0 <= i < |rest|
      ensures rest[i] == orders[if i < k then i else i + 1]
    {
    }
  }

  // ---------------------------------------------------------------------
  // The collection
  // ---------------------------------------------------------------------

  /** The order `create` builds from a payload under a newly generated id. */
  function NewOrder(id: string, data: Value): Order {
    Order(id, Get(data, "deliverTo"), Get(data, "mobileNumber"), Get(data, "status"), Get(data, "dishes"))
  }

  /** What `update` makes of an order: every field but the id from the payload. */
  function Overwritten(order: Order, data: Value): Order {
    order.(deliverTo := Get(data, "deliverTo"), mobileNumber := Get(data, "mobileNumber"),
           status := Get(data, "status"), dishes := Get(data, "dishes"))
  }

  /** The module-level `orders` array. */
  class OrderStore {
    var orders: seq<Order>

    ghost predicate Valid()
      reads this
    {
      UniqueIds(orders)
    }

    /** The collection as seeded from the data file. */
    constructor (seed: seq<Order>)
      requires UniqueIds(seed)
      ensures Valid() && orders == seed
    {
      orders := seed;
    }

    /** `create`: appends one order built from the payload under the new id. */
    method Create(data: Value, newId: string) returns (order: Order)
      requires Valid() && !Nullish(data) && Unused(orders, newId)
      modifies this
      ensures Valid()
      ensures order == NewOrder(newId, data)
      ensures orders == old(orders) + [order]
    {
      order := NewOrder(newId, data);
      orders := orders + [order];
    }

    /** `update`: overwrites `deliverTo`, `mobileNumber`, `status` and
        `dishes` of the resolved order; fields missing from the payload
        become `undefined`. */
    method Update(k: nat, data: Value) returns (order: Order)
      requires Valid() && k < |orders| && !data.Null?
      modifies this
      ensures Valid()
      ensures order == Overwritten(old(orders)[k], data) && order.id == old(orders)[k].id
      ensures orders == old(orders)[k := order]
    {
      order := Overwritten(orders[k], data);
      orders := orders[k := order];
    }

    /** `destroy`, reached only after `orderExists` has resolved the id: it
        refuses an order that is not pending, and otherwise splices it out. */
    method Destroy(orderId: string) returns (r: Response<()>)
      requires Valid() && !Unused(orders, orderId)
      modifies this
      ensures Valid()
      ensures FindIndex(old(orders), HasId(orderId)).Some?
      ensures var k := FindIndex(old(orders), HasId(orderId)).value;
        if old(orders)[k].status != Str("pending") then
          r == Error(Halt(400, NotPendingMessage)) && orders == old(orders)
        else
          r == Success(204, ()) && orders == old(orders)[..k] + old(orders)[k + 1..] && Unused(orders, orderId)
    {
      var index := FindIndex(orders, HasId(orderId)).value;
      if orders[index].status != Str("pending") {
        return Error(Halt(400, NotPendingMessage));
      }
      RemoveKeepsIdsUnique(orders, index);
      orders := orders[..index] + orders[index + 1..];
      r := Success(204, ());
    }

    /** `list`: the whole collection, as it is. */
    method List() returns (r: Response<seq<Order>>)
      ensures r == Success(200, orders)
    {
      r := Success(200, orders);
    }

    /** `POST /orders`. */
    method HandleCreate(data: Value, newId: string) returns (r: Response<Order>)
      requires Valid() && Unused(orders, newId)
      modifies this
      ensures Valid()
      ensures CreateChecks(data).Fail? ==> r == Error(CreateChecks(data).failure) && orders == old(orders)
      ensures CreateChecks(data).Pass? ==>
        r == Success(201, NewOrder(newId, data)) && WellFormedOrder(r.body) && orders == old(orders) + [r.body]
    {
      var fields := [
        BodyDataIsValid(data, "deliverTo"),
        BodyDataIsValid(data, "mobileNumber"),
        BodyDataIsValid(data, "dishes")
      ];
      var dishesVerdict := DishesIsValid(data);
      FirstFailureAppend(fields, [dishesVerdict]);
      assert fields + [dishesVerdict] == [fields[0], fields[1], fields[2], DishesVerdict(data)];
      var verdict := FirstFailure(fields);
      if verdict.Fail? {
        return Error(verdict.failure);
      }
      if dishesVerdict.Fail? {
        return Error(dishesVerdict.failure);
      }
      CreateAccepts(data);
      var order := Create(data, newId);
      r := Success(201, order);
    }

    /** `GET /orders/:orderId`. */
    method HandleRead(orderId: string) returns (r: Response<Order>)
      ensures Unused(orders, orderId) ==> r == Error(Halt(404, "order id not found: " + orderId))
      ensures !Unused(orders, orderId) ==>
        r == Success(200, orders[OrderExists(orders, orderId).value]) && r.body.id == orderId
    {
      var found := OrderExists(orders, orderId);
      if found.Stop? {
        return Error(found.failure);
      }
      r := Success(200, orders[found.value]);
    }

    /** `PUT /orders/:orderId`: nothing changes unless every step passes. */
    method HandleUpdate(orderId: string, data: Value) returns (r: Response<Order>)
      requires Valid()
      modifies this
      ensures Valid()
      ensures Unused(old(orders), orderId) ==> r == Error(Halt(404, "order id not found: " + orderId))
      ensures UpdateChecks(old(orders), orderId, data).Fail? ==>
        r == Error(UpdateChecks(old(orders), orderId, data).failure) && orders == old(orders)
      ensures UpdateChecks(old(orders), orderId, data).Pass? ==>
        var k := OrderExists(old(orders), orderId).value;
        && r == Success(200, Overwritten(old(orders)[k], data))
        && r.body.id == orderId
        && WellFormedOrder(r.body)
        && r.body.status.Str? && r.body.status.s in {"pending", "preparing", "out-for-delivery"}
        && orders == old(orders)[k := r.body]
    {
      UpdateChecksInSteps(orders, orderId, data);
      var found := OrderExists(orders, orderId);
      if found.Stop? {
        return Error(found.failure);
      }
      var verdict := FirstFailure(UpdateFieldChecks(data, orderId));
      if verdict.Fail? {
        return Error(verdict.failure);
      }
      var dishesVerdict := DishesIsValid(data);
      if dishesVerdict.Fail? {
        return Error(dishesVerdict.failure);
      }
      var statusVerdict := StatusIsValid(data);
      if statusVerdict.Fail? {
        return Error(statusVerdict.failure);
      }
      assert !data.Null?;
      UpdateAccepts(old(orders), orderId, data);
      var order := Update(found.value, data);
      r := Success(200, order);
    }

    /** `DELETE /orders/:orderId`. */
    method HandleDelete(orderId: string) returns (r: Response<()>)
      requires Valid()
      modifies this
      ensures Valid()
      ensures DeleteChecks(old(orders), orderId).Fail? ==>
        r == Error(DeleteChecks(old(orders), orderId).failure) && orders == old(orders)
      ensures DeleteChecks(old(orders), orderId).Pass? ==>
        var k := OrderExists(old(orders), orderId).value;
        r == Success(204, ()) && orders == old(orders)[..k] + old(orders)[k + 1..] && Unused(orders, orderId)
    {
      var found := OrderExists(orders, orderId);
      if found.Stop? {
        return Error(found.failure);
      }
      r := Destroy(orderId);
    }
  }
}
