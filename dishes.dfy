/** The dishes controller: the validators of a dish payload, the lookup of a
    dish by its route id, the in-memory collection of dishes with its
    `create`, `update` and `list` operations, and the `create`, `read` and
    `update` chains that run them. */
module Dishes {
  import opened Json
  import opened Middleware

  /** A stored dish. Every field but `id` holds whatever the payload carried. */
  datatype Dish = Dish(id: string, name: Value, description: Value, price: Value, image_url: Value)

  /** No two dishes share an id. */
  predicate UniqueIds(dishes: seq<Dish>) {
    forall i, j :: 0 <= i < j < |dishes| ==> dishes[i].id != dishes[j].id
  }

  /** No dish carries `id`: what the id generator promises of a new id, and
      what makes a route id unknown. */
  predicate Unused(dishes: seq<Dish>, id: string) {
    forall i :: 0 <= i < |dishes| ==> dishes[i].id != id
  }

  const PriceMessage := "price must be valid"

  // ---------------------------------------------------------------------
  // Validators
  // ---------------------------------------------------------------------

  /** `bodyDataHas(field)`: the payload must carry a truthy `field`. A missing
      payload reads as `{}`; a `null` one makes the read throw. */
  function BodyDataHas(data: Value, field: string): (r: Check)
    ensures r.Pass? <==> !data.Null? && Truthy(Get(data, field))
    ensures r.Fail? ==> r.failure == (if data.Null? then Thrown else Halt(400, "Must include a " + field))
    ensures r.Pass? && field != "length" ==> data.Obj? && field in data.fields
  {
    if data.Null? then Fail(Thrown)
    else if Truthy(Get(data, field)) then Pass
    else Fail(Halt(400, "Must include a " + field))
  }

  /** `isPriceValid`: the price must be of type number and above zero. */
  function IsPriceValid(data: Value): (r: Check)
    ensures r.Pass? <==> !Nullish(data) && IsPositiveNumber(Get(data, "price"))
    ensures r.Fail? && !Nullish(data) ==> r.failure == Halt(400, PriceMessage)
    ensures Nullish(data) ==> r == Fail(Thrown)
  {
    if Nullish(data) then Fail(Thrown)
    else
      var price := Get(data, "price");
      if price.Num? && price.n > 0.0 then Pass else Fail(Halt(400, PriceMessage))
  }

  /** `doValuesMatch`: a truthy body `id` must loosely equal the route id;
      an absent or falsy one is accepted. Comparing an object with its own
      `toString` (or an array holding one) throws. */
  function DoValuesMatch(data: Value, dishId: string): (r: Check)
    ensures r.Pass? <==>
      !Nullish(data) && (Truthy(Get(data, "id")) ==> !ConversionThrows(Get(data, "id")) && LooselyEquals(Get(data, "id"), dishId))
    ensures Nullish(data) ==> r == Fail(Thrown)
    ensures !Nullish(data) && !Truthy(Get(data, "id")) ==> r == Pass
    ensures !Nullish(data) && Get(data, "id").Str? ==>
      (r.Pass? <==> Get(data, "id").s == "" || Get(data, "id").s == dishId)
    ensures r.Fail? && !Nullish(data) ==>
      r.failure == if ConversionThrows(Get(data, "id")) then Thrown
                   else Halt(400, "Dish id does not match route id. Dish: " + Text(Get(data, "id")) + ", Route: " + dishId)
  {
    if Nullish(data) then Fail(Thrown)
    else
      var id := Get(data, "id");
      if !Truthy(id) then Pass
      else if ConversionThrows(id) then Fail(Thrown)
      else if LooselyEquals(id, dishId) then Pass
      else Fail(Halt(400, "Dish id does not match route id. Dish: " + Text(id) + ", Route: " + dishId))
  }

  // ---------------------------------------------------------------------
  // Lookup
  // ---------------------------------------------------------------------

  /** The test `dish => dish.id == dishId` of `dishExists`. */
  function HasId(dishId: string): Dish -> bool {
    (dish: Dish) => dish.id == dishId
  }

  /** `dishExists`: resolves the route id to the first dish carrying it, or
      halts with 404. */
  function DishExists(dishes: seq<Dish>, dishId: string): (r: Outcome<nat>)
    ensures r.Ok? <==> exists i :: 0 <= i < |dishes| && dishes[i].id == dishId
    ensures r.Ok? ==>
      r.value < |dishes| && dishes[r.value].id == dishId &&
      forall j :: 0 <= j < r.value ==> dishes[j].id != dishId
    ensures r.Stop? ==> r.failure == Halt(404, "dish id not found: " + dishId)
  {
    match FindIndex(dishes, HasId(dishId))
    case Some(k) => Ok(k)
    case None => Stop(Halt(404, "dish id not found: " + dishId))
  }

  // ---------------------------------------------------------------------
  // The chains, as the sequence of verdicts of their validation steps
  // ---------------------------------------------------------------------

  /** The validation steps of `POST /dishes`, in order. */
  function CreateChecks(data: Value): Check {
    FirstFailure([
      BodyDataHas(data, "name"),
      BodyDataHas(data, "description"),
      BodyDataHas(data, "price"),
      BodyDataHas(data, "image_url"),
      IsPriceValid(data)
    ])
  }

  /** The validation steps of `PUT /dishes/:dishId`, in order: the lookup first. */
  function UpdateChecks(dishes: seq<Dish>, dishId: string, data: Value): Check {
    FirstFailure([
      DishExists(dishes, dishId).ToCheck(),
      BodyDataHas(data, "name"),
      BodyDataHas(data, "description"),
      BodyDataHas(data, "price"),
      BodyDataHas(data, "image_url"),
      IsPriceValid(data),
      DoValuesMatch(data, dishId)
    ])
  }

  /** The payload fields a dish is built from, all present and the price a
      positive number. */
  predicate WellFormed(data: Value) {
    && data.Obj?
    && Truthy(Get(data, "name"))
    && Truthy(Get(data, "description"))
    && Truthy(Get(data, "image_url"))
    && IsPositiveNumber(Get(data, "price"))
  }

  /** `POST /dishes` gets past its validators exactly for a well-formed payload. */
  lemma CreateAccepts(data: Value)
    ensures CreateChecks(data).Pass? <==> WellFormed(data)
  {
    var checks := [
      BodyDataHas(data, "name"),
      BodyDataHas(data, "description"),
      BodyDataHas(data, "price"),
      BodyDataHas(data, "image_url"),
      IsPriceValid(data)
    ];
    if CreateChecks(data).Pass? {
      assert checks[0].Pass? && checks[1].Pass? && checks[3].Pass? && checks[4].Pass?;
      assert "name"[0] != "length"[0];
    }
  }

  /** A price of `0` is falsy, so the presence check on `price` halts the
      chain with "Must include a price" before `isPriceValid` runs. */
  lemma ZeroPriceIsMissingPrice(data: Value)
    requires data.Obj? && Truthy(Get(data, "name")) && Truthy(Get(data, "description"))
    requires Get(data, "price") == Num(0.0)
    ensures CreateChecks(data) == Fail(Halt(400, "Must include a price"))
  {
    FirstFailureIs([
      BodyDataHas(data, "name"),
      BodyDataHas(data, "description"),
      BodyDataHas(data, "price"),
      BodyDataHas(data, "image_url"),
      IsPriceValid(data)
    ], 2);
  }

  /** A payload that is present and has every field but a non-positive or
      non-numeric price fails on `isPriceValid`. */
  lemma BadPriceIsInvalidPrice(data: Value)
    requires data.Obj? && Truthy(Get(data, "name")) && Truthy(Get(data, "description"))
    requires Truthy(Get(data, "price")) && Truthy(Get(data, "image_url"))
    requires !IsPositiveNumber(Get(data, "price"))
    ensures CreateChecks(data) == Fail(Halt(400, PriceMessage))
  {
    FirstFailureIs([
      BodyDataHas(data, "name"),
      BodyDataHas(data, "description"),
      BodyDataHas(data, "price"),
      BodyDataHas(data, "image_url"),
      IsPriceValid(data)
    ], 4);
  }

  /** `dishExists` runs first in `PUT /dishes/:dishId`: an unknown id is a 404
      whatever the payload holds. */
  lemma UnknownDishIsNotFound(dishes: seq<Dish>, dishId: string, data: Value)
    requires Unused(dishes, dishId)
    ensures UpdateChecks(dishes, dishId, data) == Fail(Halt(404, "dish id not found: " + dishId))
  {
  }

  /** `PUT /dishes/:dishId` gets past its validators exactly when the dish
      exists, the payload is well-formed and its `id`, if truthy, matches. */
  lemma UpdateAccepts(dishes: seq<Dish>, dishId: string, data: Value)
    ensures UpdateChecks(dishes, dishId, data).Pass? <==>
      && !Unused(dishes, dishId)
      && WellFormed(data)
      && (Truthy(Get(data, "id")) ==> !ConversionThrows(Get(data, "id")) && LooselyEquals(Get(data, "id"), dishId))
  {
    var checks := [
      DishExists(dishes, dishId).ToCheck(),
      BodyDataHas(data, "name"),
      BodyDataHas(data, "description"),
      BodyDataHas(data, "price"),
      BodyDataHas(data, "image_url"),
      IsPriceValid(data),
      DoValuesMatch(data, dishId)
    ];
    if UpdateChecks(dishes, dishId, data).Pass? {
      assert checks[0].Pass? && checks[1].Pass? && checks[2].Pass?;
      assert checks[4].Pass? && checks[5].Pass? && checks[6].Pass?;
      assert "name"[0] != "length"[0];
    }
  }

  // ---------------------------------------------------------------------
  // The collection
  // ---------------------------------------------------------------------

  /** What every dish the chains write satisfies: a truthy name, description
      and image_url, and a price that is a number above zero. */
  predicate WellFormedDish(dish: Dish) {
    && Truthy(dish.name)
    && Truthy(dish.description)
    && Truthy(dish.image_url)
    && IsPositiveNumber(dish.price)
  }

  /** The dish `create` builds from a payload under a newly generated id. */
  function NewDish(id: string, data: Value): Dish {
    Dish(id, Get(data, "name"), Get(data, "description"), Get(data, "price"), Get(data, "image_url"))
  }

  /** The module-level `dishes` array. */
  class DishStore {
    var dishes: seq<Dish>

    ghost predicate Valid()
      reads this
    {
      UniqueIds(dishes)
    }

    /** The collection as seeded from the data file. */
    constructor (seed: seq<Dish>)
      requires UniqueIds(seed)
      ensures Valid() && dishes == seed
    {
      dishes := seed;
    }

    /** `create`: appends one dish built from the payload under the new id. */
    method Create(data: Value, newId: string) returns (dish: Dish)
      requires Valid() && !Nullish(data) && Unused(dishes, newId)
      modifies this
      ensures Valid()
      ensures dish == NewDish(newId, data)
      ensures dishes == old(dishes) + [dish]
    {
      dish := NewDish(newId, data);
      dishes := dishes + [dish];
    }

    /** `update`: overwrites every field of the resolved dish but its id;
        fields missing from the payload become `undefined`. */
    method Update(k: nat, data: Value) returns (dish: Dish)
      requires Valid() && k < |dishes| && !data.Null?
      modifies this
      ensures Valid()
      ensures dish == old(dishes)[k].(name := Get(data, "name"), description := Get(data, "description"),
                                       price := Get(data, "price"), image_url := Get(data, "image_url"))
      ensures dishes == old(dishes)[k := dish]
    {
      dish := dishes[k].(name := Get(data, "name"), description := Get(data, "description"),
                         price := Get(data, "price"), image_url := Get(data, "image_url"));
      dishes := dishes[k := dish];
    }

    /** `list`: the whole collection, as it is. */
    method List() returns (r: Response<seq<Dish>>)
      ensures r == Success(200, dishes)
    {
      r := Success(200, dishes);
    }

    /** `POST /dishes`. */
    method HandleCreate(data: Value, newId: string) returns (r: Response<Dish>)
      requires Valid() && Unused(dishes, newId)
      modifies this
      ensures Valid()
      ensures CreateChecks(data).Fail? ==> r == Error(CreateChecks(data).failure) && dishes == old(dishes)
      ensures CreateChecks(data).Pass? ==>
        r == Success(201, NewDish(newId, data)) && WellFormedDish(r.body) && dishes == old(dishes) + [r.body]
    {
      var verdict := CreateChecks(data);
      if verdict.Fail? {
        return Error(verdict.failure);
      }
      CreateAccepts(data);
      var dish := Create(data, newId);
      r := Success(201, dish);
    }

    /** `GET /dishes/:dishId`. */
    method HandleRead(dishId: string) returns (r: Response<Dish>)
      ensures Unused(dishes, dishId) ==> r == Error(Halt(404, "dish id not found: " + dishId))
      ensures !Unused(dishes, dishId) ==>
        r == Success(200, dishes[DishExists(dishes, dishId).value]) && r.body.id == dishId
    {
      var found := DishExists(dishes, dishId);
      if found.Stop? {
        return Error(found.failure);
      }
      r := Success(200, dishes[found.value]);
    }

    /** `PUT /dishes/:dishId`: nothing changes unless every step passes. */
    method HandleUpdate(dishId: string, data: Value) returns (r: Response<Dish>)
      requires Valid()
      modifies this
      ensures Valid()
      ensures Unused(old(dishes), dishId) ==> r == Error(Halt(404, "dish id not found: " + dishId))
      ensures UpdateChecks(old(dishes), dishId, data).Fail? ==>
        r == Error(UpdateChecks(old(dishes), dishId, data).failure) && dishes == old(dishes)
      ensures UpdateChecks(old(dishes), dishId, data).Pass? ==>
        var k := DishExists(old(dishes), dishId).value;
        && r.Success? && r.status == 200
        && r.body.id == dishId
        && WellFormedDish(r.body)
        && r.body == old(dishes)[k].(name := Get(data, "name"), description := Get(data, "description"),
                                     price := Get(data, "price"), image_url := Get(data, "image_url"))
        && dishes == old(dishes)[k := r.body]
    {
      var verdict := UpdateChecks(dishes, dishId, data);
      if verdict.Fail? {
        return Error(verdict.failure);
      }
      UpdateAccepts(dishes, dishId, data);
      var k := DishExists(dishes, dishId).value;
      var dish := Update(k, data);
      r := Success(200, dish);
    }
  }
}
