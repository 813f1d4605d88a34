/** The dishes controller (src/dishes/dishes.controller.js): the in-memory
    table of dishes, the checks its routes chain together, and the terminal
    handlers `list`, `create`, `read` and `update`. There is no delete. */
module Dishes {
  import opened Wrappers
  import opened Json
  import opened Chain
  import opened Tables

  /** A stored dish: the generated `id` and the four members copied from the
      payload as they are. */
  datatype Dish = Dish(id: string, name: Value, description: Value, price: Value, imageUrl: Value)

  function DishId(d: Dish): string {
    d.id
  }

  /** What the middleware reads of a request: `req.params.dishId` (None on a
      route without that parameter) and `req.body.data`. */
  datatype Request = Request(dishId: Option<string>, data: Value)

  /** `${dishId}` for a route parameter. */
  function RouteText(dishId: Option<string>): string {
    if dishId.Some? then dishId.value else "undefined"
  }

  // ---------------------------------------------------------------------
  // The checks

  /** `bodyDataHas(property)`: the member must be truthy with a positive
      `.length`, which leaves exactly the non-empty strings and arrays. */
  function BodyDataHas(data: Value, property: string): (v: Verdict)
    ensures v == Crash <==> data == Null
    ensures v == Pass <==> data != Null && NonEmpty(Member(data, property))
    ensures v.Fail? ==> v.error == Error(400, "Dish must include a " + property)
  {
    match BodyField(data, property)
    case None => Crash
    case Some(x) =>
      if HasLength(x) then Pass
      else Fail(Error(400, "Dish must include a " + property))
  }

  const PriceMessage := "Dish must have a price that is an integer greater than 0"

  /** `priceBodyDataHas(property)`: a falsy price (0 included) is missing;
      any other price must be a positive integer. */
  function PriceBodyDataHas(data: Value, property: string): (v: Verdict)
    ensures v == Crash <==> data == Null
    ensures v == Pass <==> (data != Null && Member(data, property).Int? && Member(data, property).n > 0)
    ensures v.Fail? && !Truthy(Member(data, property)) ==>
      v.error == Error(400, "Dish must include a " + property)
    ensures v.Fail? && Truthy(Member(data, property)) ==> v.error == Error(400, PriceMessage)
  {
    match BodyField(data, property)
    case None => Crash
    case Some(price) =>
      if !Truthy(price) then Fail(Error(400, "Dish must include a " + property))
      else if NotPositiveInteger(price) then Fail(Error(400, PriceMessage))
      else Pass
  }

  /** `dishes.find(dish => dish.id === dishId)`, as a position. */
  function FindDish(dishes: seq<Dish>, dishId: Option<string>): Option<nat> {
    if dishId.None? then None else FindIndex(dishes, DishId, dishId.value)
  }

  /** `dishExists`: the route's id must name a dish; the dish found is the
      one the handler then reads or updates. */
  function DishExists(dishId: Option<string>, dishes: seq<Dish>): (v: Verdict)
    ensures v != Crash
    ensures v == Pass <==> dishId.Some? && HasId(dishes, DishId, dishId.value)
    ensures v.Fail? ==> v.error == Error(404, "Dish does not exist: " + RouteText(dishId))
  {
    if FindDish(dishes, dishId).Some? then Pass
    else Fail(Error(404, "Dish does not exist: " + RouteText(dishId)))
  }

  function IdMessage(id: Value, dishId: Option<string>): string {
    "Dish id does not match route id. Dish: " + Display(id) + ", Route: " + RouteText(dishId)
  }

  /** `dataIdIsValid`: a truthy `id` in the payload must be the route's id.
      The source does not return after `next(error)`, so a second, plain
      `next()` follows the rejection; how Express dispatches that second call
      is framework behaviour outside the model, which takes the check's
      verdict: the rejection. */
  function DataIdIsValid(dishId: Option<string>, data: Value): (v: Verdict)
    ensures v == Crash <==> data == Null
    ensures v == Pass <==> (data != Null &&
      (!Truthy(Member(data, "id")) || (dishId.Some? && Member(data, "id") == Str(dishId.value))))
    ensures v.Fail? ==> v.error == Error(400, IdMessage(Member(data, "id"), dishId))
  {
    match BodyField(data, "id")
    case None => Crash
    case Some(id) =>
      if Truthy(id) && !(dishId.Some? && id == Str(dishId.value)) then
        Fail(Error(400, IdMessage(id, dishId)))
      else Pass
  }

  // ---------------------------------------------------------------------
  // The exported chains

  /** One middleware function of the controller. */
  datatype Check =
    | RequireField(property: string)   // bodyDataHas(property)
    | RequirePrice(property: string)   // priceBodyDataHas(property)
    | RequireDish                      // dishExists
    | RequireMatchingId                // dataIdIsValid

  function Eval(c: Check, req: Request, dishes: seq<Dish>): Verdict {
    match c
    case RequireField(p) => BodyDataHas(req.data, p)
    case RequirePrice(p) => PriceBodyDataHas(req.data, p)
    case RequireDish => DishExists(req.dishId, dishes)
    case RequireMatchingId => DataIdIsValid(req.dishId, req.data)
  }

  const CreateChain: seq<Check> :=
    [RequireField("name"), RequireField("description"), RequirePrice("price"), RequireField("image_url")]

  const ReadChain: seq<Check> := [RequireDish]

  /** The update chain looks the dish up first, then runs the create chain's
      payload checks and the id check. */
  const UpdateChain: seq<Check> := [RequireDish] + CreateChain + [RequireMatchingId]

  /** The update chain, check by check. */
  lemma UpdateChainShape()
    ensures |UpdateChain| == 6
    ensures UpdateChain[0] == RequireDish && UpdateChain[1] == RequireField("name")
    ensures UpdateChain[2] == RequireField("description") && UpdateChain[3] == RequirePrice("price")
    ensures UpdateChain[4] == RequireField("image_url") && UpdateChain[5] == RequireMatchingId
  {
  }

  /** Each check applied to one request against the table as it stands. */
  function Evaluator(req: Request, dishes: seq<Dish>): Check -> Verdict {
    (c: Check) => Eval(c, req, dishes)
  }

  /** Runs a chain on a request against the table as it stands. */
  function Dispatch(chain: seq<Check>, req: Request, dishes: seq<Dish>): Verdict {
    RunChain(chain, Evaluator(req, dishes))
  }

  // ---------------------------------------------------------------------
  // The terminal handlers, on values

  /** `list`: every dish, or with a truthy route id the dishes carrying it. */
  function List(dishes: seq<Dish>, dishId: Option<string>): (r: seq<Dish>)
    ensures dishId.None? || dishId.value == "" ==> r == dishes
    ensures dishId.Some? && dishId.value != "" ==>
      (forall k :: 0 <= k < |r| ==> r[k] in dishes && r[k].id == dishId.value) &&
      (forall k :: 0 <= k < |dishes| && dishes[k].id == dishId.value ==> dishes[k] in r)
  {
    if dishId.Some? && dishId.value != "" then Select(dishes, DishId, dishId.value) else dishes
  }

  /** The record `create` builds from the payload. */
  function NewDish(id: string, data: Value): Dish {
    Dish(id, Member(data, "name"), Member(data, "description"), Member(data, "price"),
         Member(data, "image_url"))
  }

  /** The record `update` leaves: the four mutable members taken from the
      payload, the id kept. */
  function Overwrite(dish: Dish, data: Value): Dish {
    dish.(name := Member(data, "name"), description := Member(data, "description"),
          price := Member(data, "price"), imageUrl := Member(data, "image_url"))
  }

  /** The module's `dishes` array and the routes that use it. No route
      removes a dish: every method keeps each earlier id at its position. */
  class Store {
    var dishes: seq<Dish>

    /** The id generator never hands out an id already in use. */
    ghost predicate Valid()
      reads this
    {
      Unique(dishes, DishId)
    }

    /** The table as the seed data provides it. */
    constructor (seed: seq<Dish>)
      requires Unique(seed, DishId)
      ensures Valid() && dishes == seed
    {
      dishes := seed;
    }

    /** `create`: `dishes.push(newDish)`. */
    method Create(id: string, data: Value) returns (dish: Dish)
      requires Valid() && !HasId(dishes, DishId, id)
      modifies this
      ensures Valid()
      ensures dish == NewDish(id, data) && dishes == old(dishes) + [dish]
    {
      dish := NewDish(id, data);
      AppendUnique(dishes, DishId, dish);
      dishes := dishes + [dish];
    }

    /** `update`: assigns the four members of the dish at `i` in place. */
    method Update(i: nat, data: Value) returns (dish: Dish)
      requires Valid() && i < |dishes|
      modifies this
      ensures Valid()
      ensures dish == Overwrite(old(dishes)[i], data) && dishes == old(dishes)[i := dish]
    {
      dish := Overwrite(dishes[i], data);
      ReplaceUnique(dishes, DishId, i, dish);
      dishes := dishes[i := dish];
    }

    /** POST /dishes: the create chain, then `create` with the generator's id. */
    method ServeCreate(data: Value, freshId: string) returns (reply: Reply<Dish>)
      requires Valid() && !HasId(dishes, DishId, freshId)
      modifies this
      ensures Valid()
      ensures |dishes| >= |old(dishes)| && forall j :: 0 <= j < |old(dishes)| ==> dishes[j] == old(dishes)[j]
      ensures var v := Dispatch(CreateChain, Request(None, data), old(dishes));
        if v.Pass? then reply == Json(201, NewDish(freshId, data)) && dishes == old(dishes) + [NewDish(freshId, data)]
        else reply == Refusal(v) && dishes == old(dishes)
    {
      var v := Dispatch(CreateChain, Request(None, data), dishes);
      if v.Pass? {
        var dish := Create(freshId, data);
        reply := Json(201, dish);
      } else {
        reply := Refusal(v);
      }
    }

    /** GET /dishes/:dishId: `dishExists`, then `read`. */
    method ServeRead(dishId: string) returns (reply: Reply<Dish>)
      requires Valid()
      ensures reply.Json? <==> HasId(dishes, DishId, dishId)
      ensures reply.Json? ==> reply.status == 200 && reply.data in dishes && reply.data.id == dishId
      ensures !reply.Json? ==> reply == Rejected(Error(404, "Dish does not exist: " + dishId))
    {
      var req := Request(Some(dishId), Absent);
      var v := Dispatch(ReadChain, req, dishes);
      assert Evaluator(req, dishes)(ReadChain[0]) == DishExists(Some(dishId), dishes);
      if v.Pass? {
        reply := Json(200, dishes[FindDish(dishes, Some(dishId)).value]);
      } else {
        reply := Refusal(v);
      }
    }

    /** PUT /dishes/:dishId: the update chain, then `update` on the dish
        `dishExists` found. */
    method ServeUpdate(dishId: string, data: Value) returns (reply: Reply<Dish>)
      requires Valid()
      modifies this
      ensures Valid()
      ensures |dishes| == |old(dishes)| && forall j :: 0 <= j < |dishes| ==> dishes[j].id == old(dishes)[j].id
      ensures var v := Dispatch(UpdateChain, Request(Some(dishId), data), old(dishes));
        if v.Pass? then
          FindDish(old(dishes), Some(dishId)).Some? &&
          var i := FindDish(old(dishes), Some(dishId)).value;
          reply == Json(200, Overwrite(old(dishes)[i], data)) &&
          dishes == old(dishes)[i := Overwrite(old(dishes)[i], data)]
        else reply == Refusal(v) && dishes == old(dishes)
    {
      var req := Request(Some(dishId), data);
      var v := Dispatch(UpdateChain, req, dishes);
      if v.Pass? {
        UpdateAccepts(req, dishes);
        var i := FindDish(dishes, Some(dishId)).value;
        var dish := Update(i, data);
        reply := Json(200, dish);
      } else {
        reply := Refusal(v);
      }
    }
  }

  // ---------------------------------------------------------------------
  // What the chains guarantee

  /** A payload the create chain accepts. */
  predicate CreatePayloadOk(data: Value) {
    data != Null &&
    NonEmpty(Member(data, "name")) && NonEmpty(Member(data, "description")) &&
    Member(data, "price").Int? && Member(data, "price").n > 0 &&
    NonEmpty(Member(data, "image_url"))
  }

  /** The create chain lets exactly the well-formed payloads through. */
  lemma CreateAccepts(req: Request, dishes: seq<Dish>)
    ensures Dispatch(CreateChain, req, dishes) == Pass <==> CreatePayloadOk(req.data)
  {
    var eval := Evaluator(req, dishes);
    assert eval(CreateChain[0]) == BodyDataHas(req.data, "name");
    assert eval(CreateChain[1]) == BodyDataHas(req.data, "description");
    assert eval(CreateChain[2]) == PriceBodyDataHas(req.data, "price");
    assert eval(CreateChain[3]) == BodyDataHas(req.data, "image_url");
  }

  /** A price that is there but is not a positive integer (a negative number,
      a fraction, a string) is answered with the price message once name and
      description are present. */
  lemma BadPriceRejected(req: Request, dishes: seq<Dish>)
    requires NonEmpty(Member(req.data, "name")) && NonEmpty(Member(req.data, "description"))
    requires Truthy(Member(req.data, "price"))
    requires !(Member(req.data, "price").Int? && Member(req.data, "price").n > 0)
    ensures Dispatch(CreateChain, req, dishes) == Fail(Error(400, PriceMessage))
  {
    var eval := Evaluator(req, dishes);
    assert eval(CreateChain[0]) == Pass;
    assert eval(CreateChain[1]) == Pass;
    assert eval(CreateChain[2]) == Fail(Error(400, PriceMessage));
    RunChainStopsAt(CreateChain, eval, 2);
  }

  /** On an unknown dish the update chain answers 404 whatever the payload. */
  lemma UnknownDishUpdate(req: Request, dishes: seq<Dish>)
    requires FindDish(dishes, req.dishId).None?
    ensures Dispatch(UpdateChain, req, dishes) ==
      Fail(Error(404, "Dish does not exist: " + RouteText(req.dishId)))
  {
    var eval := Evaluator(req, dishes);
    assert UpdateChain[0] == RequireDish;
    RunChainStopsAt(UpdateChain, eval, 0);
  }

  /** An update request the chain should accept: the dish exists, the
      payload is well formed, and its id, if any, is the route's. */
  predicate UpdateRequestOk(req: Request, dishes: seq<Dish>) {
    FindDish(dishes, req.dishId).Some? && CreatePayloadOk(req.data) &&
    (!Truthy(Member(req.data, "id")) || Member(req.data, "id") == Str(req.dishId.value))
  }

  /** The update chain passes exactly for the well-formed requests on an
      existing dish. */
  lemma UpdateAccepts(req: Request, dishes: seq<Dish>)
    ensures Dispatch(UpdateChain, req, dishes) == Pass <==> UpdateRequestOk(req, dishes)
  {
    if Dispatch(UpdateChain, req, dishes) == Pass {
      UpdateChecksPassed(req, dishes);
    }
    if UpdateRequestOk(req, dishes) {
      UpdateChecksPass(req, dishes);
    }
  }

  /** Every check of a passing update chain has passed. */
  lemma UpdateChecksPassed(req: Request, dishes: seq<Dish>)
    requires Dispatch(UpdateChain, req, dishes) == Pass
    ensures DishExists(req.dishId, dishes) == Pass
    ensures BodyDataHas(req.data, "name") == Pass && BodyDataHas(req.data, "description") == Pass
    ensures PriceBodyDataHas(req.data, "price") == Pass && BodyDataHas(req.data, "image_url") == Pass
    ensures DataIdIsValid(req.dishId, req.data) == Pass
  {
    var eval := Evaluator(req, dishes);
    UpdateChainShape();
    PassedAt(UpdateChain, eval, 0);
    PassedAt(UpdateChain, eval, 1);
    PassedAt(UpdateChain, eval, 2);
    PassedAt(UpdateChain, eval, 3);
    PassedAt(UpdateChain, eval, 4);
    PassedAt(UpdateChain, eval, 5);
  }

  /** A well-formed request on an existing dish passes every check of the
      update chain. */
  lemma UpdateChecksPass(req: Request, dishes: seq<Dish>)
    requires UpdateRequestOk(req, dishes)
    ensures Dispatch(UpdateChain, req, dishes) == Pass
  {
    var eval := Evaluator(req, dishes);
    forall c | c in UpdateChain ensures eval(c) == Pass {
    }
    RunChainAllPass(UpdateChain, eval);
  }

  /** A different, truthy payload id on an existing dish is always rejected
      with 400, whatever else the payload holds. */
  lemma MismatchedIdRejected(req: Request, dishes: seq<Dish>)
    requires FindDish(dishes, req.dishId).Some?
    requires Truthy(Member(req.data, "id")) && Member(req.data, "id") != Str(req.dishId.value)
    ensures var v := Dispatch(UpdateChain, req, dishes);
      v.Fail? && v.error.status == 400
  {
    var eval := Evaluator(req, dishes);
    var v := RunChain(UpdateChain, eval);
    UpdateChainShape();
    assert !eval(UpdateChain[5]).Pass?;
    var k :| 0 <= k < |UpdateChain| && eval(UpdateChain[k]) == v &&
      forall j :: 0 <= j < k ==> eval(UpdateChain[j]).Pass?;
    assert UpdateChain[k] in UpdateChain;
  }

  /** Repeating a successful update finds the same dish, passes again and
      leaves the table as the first one did. */
  lemma UpdateIdempotent(req: Request, dishes: seq<Dish>)
    requires Unique(dishes, DishId)
    requires Dispatch(UpdateChain, req, dishes) == Pass
    ensures FindDish(dishes, req.dishId).Some?
    ensures var i := FindDish(dishes, req.dishId).value;
      var after := dishes[i := Overwrite(dishes[i], req.data)];
      Dispatch(UpdateChain, req, after) == Pass &&
      FindDish(after, req.dishId) == Some(i) &&
      after[i := Overwrite(after[i], req.data)] == after
  {
    UpdateAccepts(req, dishes);
    var i := FindDish(dishes, req.dishId).value;
    var after := dishes[i := Overwrite(dishes[i], req.data)];
    ReplaceUnique(dishes, DishId, i, Overwrite(dishes[i], req.data));
    FindIndexSameKeys(dishes, after, DishId, req.dishId.value);
    var eval := Evaluator(req, dishes);
    var eval' := Evaluator(req, after);
    forall k | 0 <= k < |UpdateChain| ensures eval'(UpdateChain[k]) == eval(UpdateChain[k]) {
    }
  }

  /** A created dish is found by its id afterwards, and listing by that id
      yields it alone. */
  lemma CreatedDishIsFound(dishes: seq<Dish>, id: string, data: Value)
    requires Unique(dishes, DishId) && !HasId(dishes, DishId, id)
    ensures FindDish(dishes + [NewDish(id, data)], Some(id)) == Some(|dishes|)
    ensures id != "" ==> List(dishes + [NewDish(id, data)], Some(id)) == [NewDish(id, data)]
  {
    var after := dishes + [NewDish(id, data)];
    AppendUnique(dishes, DishId, NewDish(id, data));
    assert DishId(after[|dishes|]) == id;
    SelectUnique(after, DishId, |dishes|);
  }
}
