/** The orders controller (src/orders/orders.controller.js): the in-memory
    table of orders, the checks its routes chain together, and the terminal
    handlers `list`, `create`, `read`, `update` and `destroy`. */
module Orders {
  import opened Wrappers
  import opened Json
  import opened Chain
  import opened Tables

  /** A stored order. `create` and `update` copy the payload's members as they
      are, so every member but the generated `id` is whatever JSON value was
      sent (`status` is not checked on create and may be `undefined`). */
  datatype Order = Order(id: string, deliverTo: Value, mobileNumber: Value, status: Value, dishes: Value)

  function OrderId(o: Order): string {
    o.id
  }

  /** What the middleware reads of a request: `req.params.orderId` (None on a
      route without that parameter) and `req.body.data` (`Absent` when the
      body has no `data`). */
  datatype Request = Request(orderId: Option<string>, data: Value)

  /** `${orderId}` for a route parameter. */
  function RouteText(orderId: Option<string>): string {
    if orderId.Some? then orderId.value else "undefined"
  }

  // ---------------------------------------------------------------------
  // The checks

  /** `bodyDataHas(property)`: the member must be truthy with a positive
      `.length`, which leaves exactly the non-empty strings and arrays. */
  function BodyDataHas(data: Value, property: string): (v: Verdict)
    ensures v == Crash <==> data == Null
    ensures v == Pass <==> data != Null && NonEmpty(Member(data, property))
    ensures v.Fail? ==> v.error == Error(400, "Order must include a " + property)
  {
    match BodyField(data, property)
    case None => Crash
    case Some(x) =>
      if HasLength(x) then Pass
      else Fail(Error(400, "Order must include a " + property))
  }

  const NoDishMessage := "Order must include a dish"
  const NoDishesMessage := "Order must include at least one dish"

  /** `dishesIsValid`: a falsy `dishes` is missing; anything else that is not
      a non-empty array is rejected with a second message. */
  function DishesIsValid(data: Value): (v: Verdict)
    ensures v == Crash <==> data == Null
    ensures v == Pass <==>
      data != Null && Member(data, "dishes").Arr? && Member(data, "dishes").items != []
    ensures v == Fail(Error(400, NoDishMessage)) <==>
      data != Null && Member(data, "dishes") in {Absent, Null, Bool(false), Int(0), Str("")}
    ensures v.Fail? ==> v.error in {Error(400, NoDishMessage), Error(400, NoDishesMessage)}
  {
    match BodyField(data, "dishes")
    case None => Crash
    case Some(dishes) =>
      if !Truthy(dishes) then Fail(Error(400, NoDishMessage))
      else if !dishes.Arr? || Length(dishes) == Some(0) then Fail(Error(400, NoDishesMessage))
      else Pass
  }

  /** The test inside the loop of `dishesMissingQuantity` passes for the
      dish: reading its `quantity` does not throw and yields a positive
      integer. */
  predicate QuantityOk(dish: Value) {
    Prop(dish, "quantity").Some? && !NotPositiveInteger(Prop(dish, "quantity").value)
  }

  /** The index at which the loop of `dishesMissingQuantity` stops: the first
      dish whose test fails. */
  function FirstBadDish(dishes: seq<Value>): (r: Option<nat>)
    ensures r.Some? ==> r.value < |dishes| && !QuantityOk(dishes[r.value])
    ensures r.Some? ==> forall j :: 0 <= j < r.value ==> QuantityOk(dishes[j])
    ensures r.None? <==> forall j :: 0 <= j < |dishes| ==> QuantityOk(dishes[j])
  {
    if dishes == [] then None
    else if !QuantityOk(dishes[0]) then Some(0)
    else match FirstBadDish(dishes[1..])
      case None => (assert forall j :: 1 <= j < |dishes| ==> dishes[j] == dishes[1..][j - 1]; None)
      case Some(i) => Some(i + 1)
  }

  /** The `for` loop of `dishesMissingQuantity`, which returns at the first
      dish that fails the test. `FirstBadDish` is its specification, and the
      check below, being a function, is written with that specification in
      place of the loop. */
  method ScanQuantities(dishes: seq<Value>) returns (bad: Option<nat>)
    ensures bad == FirstBadDish(dishes)
  {
    for i := 0 to |dishes|
      invariant forall j :: 0 <= j < i ==> QuantityOk(dishes[j])
    {
      var quantity := Prop(dishes[i], "quantity");
      if quantity.None? || NotPositiveInteger(quantity.value) {
        return Some(i);
      }
    }
    return None;
  }

  /** The values the loop visits as `dishes[i]` for `i < dishes.length`, or
      None when reading `dishes.length` throws. A string is visited one
      character at a time; a value without a numeric `length` is not visited
      at all, since `0 < undefined` is false. */
  function Elements(dishes: Value): Option<seq<Value>> {
    match dishes
    case Absent => None
    case Null => None
    case Arr(a) => Some(a)
    case Str(s) => Some(seq(|s|, i requires 0 <= i < |s| => Str([s[i]])))
    case _ => Some([])
  }

  function QuantityMessage(i: nat): string {
    "Dish " + NatToString(i) + " must have a quantity that is an integer greater than 0"
  }

  /** The dishes the loop of `dishesMissingQuantity` visits, or None when
      reading `data.dishes` or its `length` throws. */
  function Visited(data: Value): Option<seq<Value>> {
    if data == Null then None else Elements(Member(data, "dishes"))
  }

  /** The loop stops at a dish that is `undefined` or `null`, so that its own
      test, reading `quantity`, throws. */
  predicate StopsAtMissingDish(dishes: seq<Value>) {
    FirstBadDish(dishes).Some? && dishes[FirstBadDish(dishes).value] in {Absent, Null}
  }

  /** `dishesMissingQuantity`: for an array of dishes it passes exactly when
      every quantity is a positive integer. Otherwise the loop stops at the
      first dish that fails the test, and the check rejects naming that
      dish's index, unless the dish is `undefined` or `null`, on which the
      test itself throws. */
  function DishesMissingQuantity(data: Value): (v: Verdict)
    ensures data != Null && Member(data, "dishes").Arr? ==>
      (v == Pass <==> forall i :: 0 <= i < |Member(data, "dishes").items| ==>
                        QuantityOk(Member(data, "dishes").items[i]))
    ensures v == Crash <==> Visited(data).None? || StopsAtMissingDish(Visited(data).value)
    ensures v.Fail? <==> (Visited(data).Some? && FirstBadDish(Visited(data).value).Some? &&
                          !StopsAtMissingDish(Visited(data).value))
    ensures v.Fail? ==> v.error == Error(400, QuantityMessage(FirstBadDish(Visited(data).value).value))
  {
    match BodyField(data, "dishes")
    case None => Crash
    case Some(dishes) =>
      match Elements(dishes)
      case None => Crash
      case Some(items) =>
        match FirstBadDish(items)
        case None => Pass
        case Some(i) =>
          if items[i].Absent? || items[i].Null? then Crash
          else Fail(Error(400, QuantityMessage(i)))
  }

  const ValidStatuses: seq<string> := ["pending", "preparing", "out-for-delivery", "delivered"]
  const StatusMessage := "Order must have a status of pending, preparing, out-for-delivery, delivered"

  /** `statusIsValid`: the status must be one of four strings exactly. */
  function StatusIsValid(data: Value): (v: Verdict)
    ensures v == Crash <==> data == Null
    ensures v == Pass <==> (data != Null &&
      Member(data, "status") in {Str("pending"), Str("preparing"), Str("out-for-delivery"), Str("delivered")})
    ensures v.Fail? ==> v.error == Error(400, StatusMessage)
  {
    match BodyField(data, "status")
    case None => Crash
    case Some(status) =>
      if status.Str? && status.s in ValidStatuses then Pass else Fail(Error(400, StatusMessage))
  }

  /** `orders.find(order => order.id === orderId)`, as a position. */
  function FindOrder(orders: seq<Order>, orderId: Option<string>): Option<nat> {
    if orderId.None? then None else FindIndex(orders, OrderId, orderId.value)
  }

  /** `orderExists`: the route's id must name an order. */
  function OrderExists(orderId: Option<string>, orders: seq<Order>): (v: Verdict)
    ensures v != Crash
    ensures v == Pass <==> orderId.Some? && HasId(orders, OrderId, orderId.value)
    ensures v.Fail? ==> v.error == Error(404, "Order id not found: " + RouteText(orderId))
  {
    if FindOrder(orders, orderId).Some? then Pass
    else Fail(Error(404, "Order id not found: " + RouteText(orderId)))
  }

  function IdMessage(id: Value, orderId: Option<string>): string {
    "Order id does not match route id. Order: " + Display(id) + ", Route: " + RouteText(orderId)
  }

  /** `dataIdIsValid`: a truthy `id` in the payload must be the route's id.
      It destructures `data` without a default, so a request without `data`
      throws. The source does not return after `next(error)`, so a second,
      plain `next()` follows the rejection; how Express dispatches that second
      call is framework behaviour outside the model, which takes the check's
      verdict: the rejection. */
  function DataIdIsValid(orderId: Option<string>, data: Value): (v: Verdict)
    ensures v == Crash <==> data == Absent || data == Null
    ensures v == Pass <==> (data != Absent && data != Null &&
      (!Truthy(Member(data, "id")) || (orderId.Some? && Member(data, "id") == Str(orderId.value))))
    ensures v.Fail? ==> v.error == Error(400, IdMessage(Member(data, "id"), orderId))
  {
    match Prop(data, "id")
    case None => Crash
    case Some(id) =>
      if Truthy(id) && !(orderId.Some? && id == Str(orderId.value)) then
        Fail(Error(400, IdMessage(id, orderId)))
      else Pass
  }

  const NotPendingMessage := "An order cannot be deleted unless it is pending"

  /** `validateDelete`: the order must still be pending. With no such order
      `orders[-1].status` throws. */
  function ValidateDelete(orderId: Option<string>, orders: seq<Order>): (v: Verdict)
    ensures v == Crash <==> FindOrder(orders, orderId).None?
    ensures v == Pass <==> (FindOrder(orders, orderId).Some? &&
      orders[FindOrder(orders, orderId).value].status == Str("pending"))
    ensures v.Fail? ==> v.error == Error(400, NotPendingMessage)
  {
    match FindOrder(orders, orderId)
    case None => Crash
    case Some(i) =>
      if orders[i].status != Str("pending") then Fail(Error(400, NotPendingMessage)) else Pass
  }

  // ---------------------------------------------------------------------
  // The exported chains

  /** One middleware function of the controller. */
  datatype Check =
    | RequireField(property: string)   // bodyDataHas(property)
    | RequireDishes                    // dishesIsValid
    | RequireQuantities                // dishesMissingQuantity
    | RequireOrder                     // orderExists
    | RequireMatchingId                // dataIdIsValid
    | RequireStatus                    // statusIsValid
    | RequirePending                   // validateDelete

  function Eval(c: Check, req: Request, orders: seq<Order>): Verdict {
    match c
    case RequireField(p) => BodyDataHas(req.data, p)
    case RequireDishes => DishesIsValid(req.data)
    case RequireQuantities => DishesMissingQuantity(req.data)
    case RequireOrder => OrderExists(req.orderId, orders)
    case RequireMatchingId => DataIdIsValid(req.orderId, req.data)
    case RequireStatus => StatusIsValid(req.data)
    case RequirePending => ValidateDelete(req.orderId, orders)
  }

  const CreateChain: seq<Check> :=
    [RequireField("deliverTo"), RequireField("mobileNumber"), RequireField("dishes"),
     RequireDishes, RequireQuantities]

  /** The first six checks of the update chain, which read only the payload. */
  const UpdateBodyChecks: seq<Check> :=
    [RequireField("deliverTo"), RequireField("mobileNumber"), RequireField("dishes"),
     RequireField("status"), RequireDishes, RequireQuantities]

  const UpdateChain: seq<Check> :=
    UpdateBodyChecks + [RequireOrder, RequireMatchingId, RequireStatus]

  /** The update chain, check by check. */
  lemma UpdateChainShape()
    ensures |UpdateChain| == 9
    ensures UpdateChain[0] == RequireField("deliverTo") && UpdateChain[1] == RequireField("mobileNumber")
    ensures UpdateChain[2] == RequireField("dishes") && UpdateChain[3] == RequireField("status")
    ensures UpdateChain[4] == RequireDishes && UpdateChain[5] == RequireQuantities
    ensures UpdateChain[6] == RequireOrder && UpdateChain[7] == RequireMatchingId
    ensures UpdateChain[8] == RequireStatus
  {
  }

  const ReadChain: seq<Check> := [RequireOrder]

  const DeleteChain: seq<Check> := [RequireOrder, RequirePending]

  /** Each check applied to one request against the table as it stands. */
  function Evaluator(req: Request, orders: seq<Order>): Check -> Verdict {
    (c: Check) => Eval(c, req, orders)
  }

  /** Runs a chain on a request against the table as it stands. */
  function Dispatch(chain: seq<Check>, req: Request, orders: seq<Order>): Verdict {
    RunChain(chain, Evaluator(req, orders))
  }

  // ---------------------------------------------------------------------
  // The terminal handlers, on values

  /** `list`: every order, or with a truthy route id the orders carrying it. */
  function List(orders: seq<Order>, orderId: Option<string>): (r: seq<Order>)
    ensures orderId.None? || orderId.value == "" ==> r == orders
    ensures orderId.Some? && orderId.value != "" ==>
      (forall k :: 0 <= k < |r| ==> r[k] in orders && r[k].id == orderId.value) &&
      (forall k :: 0 <= k < |orders| && orders[k].id == orderId.value ==> orders[k] in r)
  {
    if orderId.Some? && orderId.value != "" then Select(orders, OrderId, orderId.value) else orders
  }

  /** The record `create` builds from the payload. */
  function NewOrder(id: string, data: Value): Order {
    Order(id, Member(data, "deliverTo"), Member(data, "mobileNumber"),
          Member(data, "status"), Member(data, "dishes"))
  }

  /** The record `update` leaves: the four mutable members taken from the
      payload, the id kept. */
  function Overwrite(order: Order, data: Value): Order {
    order.(deliverTo := Member(data, "deliverTo"), mobileNumber := Member(data, "mobileNumber"),
           status := Member(data, "status"), dishes := Member(data, "dishes"))
  }

  /** The module's `orders` array and the routes that use it. */
  class Store {
    var orders: seq<Order>

    /** The id generator never hands out an id already in use. */
    ghost predicate Valid()
      reads this
    {
      Unique(orders, OrderId)
    }

    /** The table as the seed data provides it. */
    constructor (seed: seq<Order>)
      requires Unique(seed, OrderId)
      ensures Valid() && orders == seed
    {
      orders := seed;
    }

    /** `create`: `orders.push(newOrder)`. */
    method Create(id: string, data: Value) returns (order: Order)
      requires Valid() && !HasId(orders, OrderId, id)
      modifies this
      ensures Valid()
      ensures order == NewOrder(id, data) && orders == old(orders) + [order]
    {
      order := NewOrder(id, data);
      AppendUnique(orders, OrderId, order);
      orders := orders + [order];
    }

    /** `update`: assigns the four members of the order at `i` in place. */
    method Update(i: nat, data: Value) returns (order: Order)
      requires Valid() && i < |orders|
      modifies this
      ensures Valid()
      ensures order == Overwrite(old(orders)[i], data) && orders == old(orders)[i := order]
    {
      order := Overwrite(orders[i], data);
      ReplaceUnique(orders, OrderId, i, order);
      orders := orders[i := order];
    }

    /** `destroy`: `orders.splice(index, 1)`. */
    method Destroy(i: nat)
      requires Valid() && i < |orders|
      modifies this
      ensures Valid() && orders == RemoveAt(old(orders), i)
    {
      RemoveAtUnique(orders, OrderId, i);
      orders := RemoveAt(orders, i);
    }

    /** POST /orders: the create chain, then `create` with the generator's id. */
    method ServeCreate(data: Value, freshId: string) returns (reply: Reply<Order>)
      requires Valid() && !HasId(orders, OrderId, freshId)
      modifies this
      ensures Valid()
      ensures var v := Dispatch(CreateChain, Request(None, data), old(orders));
        if v.Pass? then reply == Json(201, NewOrder(freshId, data)) && orders == old(orders) + [NewOrder(freshId, data)]
        else reply == Refusal(v) && orders == old(orders)
    {
      var v := Dispatch(CreateChain, Request(None, data), orders);
      if v.Pass? {
        var order := Create(freshId, data);
        reply := Json(201, order);
      } else {
        reply := Refusal(v);
      }
    }

    /** GET /orders/:orderId: `orderExists`, then `read`. */
    method ServeRead(orderId: string) returns (reply: Reply<Order>)
      requires Valid()
      ensures reply.Json? <==> HasId(orders, OrderId, orderId)
      ensures reply.Json? ==> reply.status == 200 && reply.data in orders && reply.data.id == orderId
      ensures !reply.Json? ==> reply == Rejected(Error(404, "Order id not found: " + orderId))
    {
      var req := Request(Some(orderId), Absent);
      var v := Dispatch(ReadChain, req, orders);
      ReadVerdict(req, orders);
      if v.Pass? {
        reply := Json(200, orders[FindOrder(orders, Some(orderId)).value]);
      } else {
        reply := Refusal(v);
      }
    }

    /** PUT /orders/:orderId: the update chain, then `update` on the order
        `orderExists` found. */
    method ServeUpdate(orderId: string, data: Value) returns (reply: Reply<Order>)
      requires Valid()
      modifies this
      ensures Valid()
      ensures var v := Dispatch(UpdateChain, Request(Some(orderId), data), old(orders));
        if v.Pass? then
          FindOrder(old(orders), Some(orderId)).Some? &&
          var i := FindOrder(old(orders), Some(orderId)).value;
          reply == Json(200, Overwrite(old(orders)[i], data)) &&
          orders == old(orders)[i := Overwrite(old(orders)[i], data)]
        else reply == Refusal(v) && orders == old(orders)
    {
      var req := Request(Some(orderId), data);
      var v := Dispatch(UpdateChain, req, orders);
      if v.Pass? {
        UpdateAccepts(req, orders);
        var i := FindOrder(orders, Some(orderId)).value;
        var order := Update(i, data);
        reply := Json(200, order);
      } else {
        reply := Refusal(v);
      }
    }

    /** DELETE /orders/:orderId: `orderExists`, `validateDelete`, then
        `destroy` at the index `findIndex` gives. */
    method ServeDelete(orderId: string) returns (reply: Reply<Order>)
      requires Valid()
      modifies this
      ensures Valid()
      ensures match FindOrder(old(orders), Some(orderId))
        case None =>
          reply == Rejected(Error(404, "Order id not found: " + orderId)) && orders == old(orders)
        case Some(i) =>
          if old(orders)[i].status == Str("pending") then
            reply == NoContent && orders == RemoveAt(old(orders), i)
          else
            reply == Rejected(Error(400, NotPendingMessage)) && orders == old(orders)
    {
      var req := Request(Some(orderId), Absent);
      var v := Dispatch(DeleteChain, req, orders);
      DeleteVerdict(req, orders);
      if v.Pass? {
        var i := FindOrder(orders, Some(orderId)).value;
        Destroy(i);
        reply := NoContent;
      } else {
        reply := Refusal(v);
      }
    }
  }

  // ---------------------------------------------------------------------
  // What the chains guarantee

  /** A payload the create chain accepts. */
  predicate CreatePayloadOk(data: Value) {
    data != Null &&
    NonEmpty(Member(data, "deliverTo")) && NonEmpty(Member(data, "mobileNumber")) &&
    Member(data, "dishes").Arr? && Member(data, "dishes").items != [] &&
    forall i :: 0 <= i < |Member(data, "dishes").items| ==> QuantityOk(Member(data, "dishes").items[i])
  }

  /** The create chain lets exactly the well-formed payloads through; the
      route id and the table play no part. */
  lemma CreateAccepts(req: Request, orders: seq<Order>)
    ensures Dispatch(CreateChain, req, orders) == Pass <==> CreatePayloadOk(req.data)
  {
    var eval := Evaluator(req, orders);
    assert eval(CreateChain[0]) == BodyDataHas(req.data, "deliverTo");
    assert eval(CreateChain[1]) == BodyDataHas(req.data, "mobileNumber");
    assert eval(CreateChain[2]) == BodyDataHas(req.data, "dishes");
    assert eval(CreateChain[3]) == DishesIsValid(req.data);
    assert eval(CreateChain[4]) == DishesMissingQuantity(req.data);
  }

  /** `dishes: []` passes `dishesIsValid`'s own presence test never: the
      earlier `bodyDataHas("dishes")` already rejects it, with its message. */
  lemma EmptyDishesRejectedAsMissing(req: Request, orders: seq<Order>)
    requires req.data.Obj?
    requires NonEmpty(Member(req.data, "deliverTo")) && NonEmpty(Member(req.data, "mobileNumber"))
    requires Member(req.data, "dishes") == Arr([])
    ensures Dispatch(CreateChain, req, orders) == Fail(Error(400, "Order must include a dishes"))
  {
    var eval := Evaluator(req, orders);
    assert CreateChain[0] == RequireField("deliverTo");
    assert eval(CreateChain[0]) == BodyDataHas(req.data, "deliverTo") == Pass;
    assert CreateChain[1] == RequireField("mobileNumber");
    assert eval(CreateChain[1]) == Pass;
    assert CreateChain[2] == RequireField("dishes");
    assert eval(CreateChain[2]) == Fail(Error(400, "Order must include a dishes"));
    RunChainStopsAt(CreateChain, eval, 2);
  }

  /** Only `dishesIsValid`, or a presence check for a member named `dish`,
      can answer with `dishesIsValid`'s first message. */
  lemma NoDishMessageSource(c: Check, req: Request, orders: seq<Order>)
    requires Eval(c, req, orders) == Fail(Error(400, NoDishMessage))
    ensures c == RequireDishes || c == RequireField("dish")
  {
    match c
    case RequireField(p) =>
      var prefix := "Order must include a ";
      assert NoDishMessage == prefix + "dish";
      assert prefix + p == prefix + "dish";
      assert p == (prefix + p)[|prefix|..] == (prefix + "dish")[|prefix|..];
    case _ =>
  }

  /** A chain that runs `bodyDataHas("dishes")` before `dishesIsValid` never
      answers with `dishesIsValid`'s first message. */
  lemma NoDishMessageAfterPresence(chain: seq<Check>, req: Request, orders: seq<Order>, at: nat)
    requires at < |chain| && chain[at] == RequireField("dishes")
    requires RequireField("dish") !in chain && RequireDishes !in chain[..at + 1]
    ensures Dispatch(chain, req, orders) != Fail(Error(400, NoDishMessage))
  {
    var eval := Evaluator(req, orders);
    var v := RunChain(chain, eval);
    if v == Fail(Error(400, NoDishMessage)) {
      var k :| 0 <= k < |chain| && eval(chain[k]) == v &&
        forall j :: 0 <= j < k ==> eval(chain[j]).Pass?;
      NoDishMessageSource(chain[k], req, orders);
      assert false;
    }
  }

  /** `dishesIsValid`'s first message is never sent: both chains run
      `bodyDataHas("dishes")` before it, which rejects every falsy `dishes`. */
  lemma NoDishMessageUnreachable(req: Request, orders: seq<Order>)
    ensures Dispatch(CreateChain, req, orders) != Fail(Error(400, NoDishMessage))
    ensures Dispatch(UpdateChain, req, orders) != Fail(Error(400, NoDishMessage))
  {
    assert CreateChain[..3] == UpdateChain[..3] ==
      [RequireField("deliverTo"), RequireField("mobileNumber"), RequireField("dishes")];
    NoDishMessageAfterPresence(CreateChain, req, orders, 2);
    NoDishMessageAfterPresence(UpdateChain, req, orders, 2);
  }

  /** On an unknown order the update chain still checks the payload first:
      a bad payload is answered 400 (or throws), a good one 404. */
  lemma UnknownOrderUpdate(req: Request, orders: seq<Order>)
    requires FindOrder(orders, req.orderId).None?
    ensures var body := Dispatch(UpdateBodyChecks, req, orders);
      Dispatch(UpdateChain, req, orders) ==
        if body.Pass? then Fail(Error(404, "Order id not found: " + RouteText(req.orderId))) else body
  {
    var eval := Evaluator(req, orders);
    var tail := [RequireOrder, RequireMatchingId, RequireStatus];
    assert UpdateChain == UpdateBodyChecks + tail;
    RunChainAppend(UpdateBodyChecks, tail, eval);
    RunChainStopsAt(tail, eval, 0);
  }

  /** The payload checks of the update chain reject with 400 or throw. */
  lemma PayloadChecksStatus(req: Request, orders: seq<Order>)
    ensures Dispatch(UpdateBodyChecks, req, orders).Fail? ==>
      Dispatch(UpdateBodyChecks, req, orders).error.status == 400
  {
    assert RequireOrder !in UpdateBodyChecks;
    ChainWithoutLookupStatus(UpdateBodyChecks, req, orders);
  }

  /** A chain without `orderExists` rejects with 400 or throws. */
  lemma ChainWithoutLookupStatus(chain: seq<Check>, req: Request, orders: seq<Order>)
    requires RequireOrder !in chain
    ensures Dispatch(chain, req, orders).Fail? ==> Dispatch(chain, req, orders).error.status == 400
  {
    var eval := Evaluator(req, orders);
    var v := RunChain(chain, eval);
    if v.Fail? {
      var k :| 0 <= k < |chain| && eval(chain[k]) == v;
      EvalStatus(chain[k], req, orders);
      assert chain[k] in chain;
    }
  }

  /** The status a check rejects with: 404 for a missing order, 400 for
      everything else. */
  lemma EvalStatus(c: Check, req: Request, orders: seq<Order>)
    ensures Eval(c, req, orders).Fail? ==>
      Eval(c, req, orders).error.status == if c == RequireOrder then 404 else 400
  {
  }

  /** An update request the chain should accept: the order exists, the
      payload is well formed with a valid status, and its id, if any, is the
      route's. */
  predicate UpdateRequestOk(req: Request, orders: seq<Order>) {
    FindOrder(orders, req.orderId).Some? &&
    req.data.Obj? && CreatePayloadOk(req.data) &&
    Member(req.data, "status") in
      {Str("pending"), Str("preparing"), Str("out-for-delivery"), Str("delivered")} &&
    (!Truthy(Member(req.data, "id")) || Member(req.data, "id") == Str(req.orderId.value))
  }

  /** The update chain passes exactly for the well-formed requests on an
      existing order. */
  lemma UpdateAccepts(req: Request, orders: seq<Order>)
    ensures Dispatch(UpdateChain, req, orders) == Pass <==> UpdateRequestOk(req, orders)
  {
    if Dispatch(UpdateChain, req, orders) == Pass {
      UpdateChecksPassed(req, orders);
    }
    if UpdateRequestOk(req, orders) {
      ValidUpdateChecks(req, orders);
      UpdateChecksPass(req, orders);
    }
  }

  /** Every check of a passing update chain has passed. */
  lemma UpdateChecksPassed(req: Request, orders: seq<Order>)
    requires Dispatch(UpdateChain, req, orders) == Pass
    ensures BodyDataHas(req.data, "deliverTo") == Pass && BodyDataHas(req.data, "mobileNumber") == Pass
    ensures DishesIsValid(req.data) == Pass && DishesMissingQuantity(req.data) == Pass
    ensures OrderExists(req.orderId, orders) == Pass && DataIdIsValid(req.orderId, req.data) == Pass
    ensures StatusIsValid(req.data) == Pass
  {
    var eval := Evaluator(req, orders);
    UpdateChainShape();
    PassedAt(UpdateChain, eval, 0);
    PassedAt(UpdateChain, eval, 1);
    PassedAt(UpdateChain, eval, 4);
    PassedAt(UpdateChain, eval, 5);
    PassedAt(UpdateChain, eval, 6);
    PassedAt(UpdateChain, eval, 7);
    PassedAt(UpdateChain, eval, 8);
  }

  /** The update chain passes when each of its checks does. */
  lemma UpdateChecksPass(req: Request, orders: seq<Order>)
    requires BodyDataHas(req.data, "deliverTo") == Pass && BodyDataHas(req.data, "mobileNumber") == Pass
    requires BodyDataHas(req.data, "dishes") == Pass && BodyDataHas(req.data, "status") == Pass
    requires DishesIsValid(req.data) == Pass && DishesMissingQuantity(req.data) == Pass
    requires OrderExists(req.orderId, orders) == Pass && DataIdIsValid(req.orderId, req.data) == Pass
    requires StatusIsValid(req.data) == Pass
    ensures Dispatch(UpdateChain, req, orders) == Pass
  {
    var eval := Evaluator(req, orders);
    forall c | c in UpdateChain ensures eval(c) == Pass {
    }
    RunChainAllPass(UpdateChain, eval);
  }

  /** Each check of the update chain passes a well-formed request. */
  lemma ValidUpdateChecks(req: Request, orders: seq<Order>)
    requires UpdateRequestOk(req, orders)
    ensures BodyDataHas(req.data, "deliverTo") == Pass && BodyDataHas(req.data, "mobileNumber") == Pass
    ensures BodyDataHas(req.data, "dishes") == Pass && BodyDataHas(req.data, "status") == Pass
    ensures DishesIsValid(req.data) == Pass && DishesMissingQuantity(req.data) == Pass
    ensures OrderExists(req.orderId, orders) == Pass && DataIdIsValid(req.orderId, req.data) == Pass
    ensures StatusIsValid(req.data) == Pass
  {
  }

  /** `dataIdIsValid` destructures `data` without a default, but a request
      without `data` never gets that far: the first presence check rejects
      it. */
  lemma MissingDataRejectedFirst(req: Request, orders: seq<Order>)
    requires req.data == Absent
    ensures Dispatch(UpdateChain, req, orders) == Fail(Error(400, "Order must include a deliverTo"))
    ensures DataIdIsValid(req.orderId, req.data) == Crash
  {
    assert UpdateChain[0] == RequireField("deliverTo");
    RunChainStopsAt(UpdateChain, Evaluator(req, orders), 0);
  }

  /** A different, truthy payload id on an existing order is always
      rejected with 400, whatever else the payload holds (unless the payload
      makes a check throw). */
  lemma MismatchedIdRejected(req: Request, orders: seq<Order>)
    requires FindOrder(orders, req.orderId).Some?
    requires Truthy(Member(req.data, "id")) && Member(req.data, "id") != Str(req.orderId.value)
    ensures var v := Dispatch(UpdateChain, req, orders);
      v == Crash || (v.Fail? && v.error.status == 400)
  {
    var eval := Evaluator(req, orders);
    var v := RunChain(UpdateChain, eval);
    UpdateChainShape();
    assert !eval(UpdateChain[7]).Pass?;
    var k :| 0 <= k < |UpdateChain| && eval(UpdateChain[k]) == v;
    EvalStatus(UpdateChain[k], req, orders);
    assert eval(RequireOrder) == Pass;
  }

  /** Repeating a successful update finds the same order, passes again and
      leaves the table as the first one did. */
  lemma UpdateIdempotent(req: Request, orders: seq<Order>)
    requires Unique(orders, OrderId)
    requires Dispatch(UpdateChain, req, orders) == Pass
    ensures FindOrder(orders, req.orderId).Some?
    ensures var i := FindOrder(orders, req.orderId).value;
      var after := orders[i := Overwrite(orders[i], req.data)];
      Dispatch(UpdateChain, req, after) == Pass &&
      FindOrder(after, req.orderId) == Some(i) &&
      after[i := Overwrite(after[i], req.data)] == after
  {
    UpdateAccepts(req, orders);
    var i := FindOrder(orders, req.orderId).value;
    var after := orders[i := Overwrite(orders[i], req.data)];
    ReplaceUnique(orders, OrderId, i, Overwrite(orders[i], req.data));
    FindIndexSameKeys(orders, after, OrderId, req.orderId.value);
    forall k | 0 <= k < |UpdateChain|
      ensures Evaluator(req, after)(UpdateChain[k]) == Evaluator(req, orders)(UpdateChain[k])
    {
      assert UpdateChain[k] in UpdateChain;
      EvalSameLookup(UpdateChain[k], req, orders, after);
    }
    RunChainAgrees(UpdateChain, Evaluator(req, orders), Evaluator(req, after));
  }

  /** A check other than `validateDelete` depends on the table only through
      where the route's id is found. */
  lemma EvalSameLookup(c: Check, req: Request, orders: seq<Order>, after: seq<Order>)
    requires c != RequirePending
    requires FindOrder(orders, req.orderId) == FindOrder(after, req.orderId)
    ensures Eval(c, req, orders) == Eval(c, req, after)
  {
  }

  /** The delete chain never reaches `validateDelete`'s throw: an unknown id
      is answered 404, a non-pending order 400, and a pending one passes. */
  lemma DeleteVerdict(req: Request, orders: seq<Order>)
    requires req.orderId.Some?
    ensures Dispatch(DeleteChain, req, orders) ==
      match FindOrder(orders, req.orderId)
      case None => Fail(Error(404, "Order id not found: " + req.orderId.value))
      case Some(i) =>
        if orders[i].status == Str("pending") then Pass else Fail(Error(400, NotPendingMessage))
  {
    var eval := Evaluator(req, orders);
    assert eval(DeleteChain[0]) == OrderExists(req.orderId, orders);
    assert eval(DeleteChain[1]) == ValidateDelete(req.orderId, orders);
  }

  /** The read chain passes exactly when the order exists. */
  lemma ReadVerdict(req: Request, orders: seq<Order>)
    requires req.orderId.Some?
    ensures Dispatch(ReadChain, req, orders) ==
      if HasId(orders, OrderId, req.orderId.value) then Pass
      else Fail(Error(404, "Order id not found: " + req.orderId.value))
  {
    var eval := Evaluator(req, orders);
    assert eval(ReadChain[0]) == OrderExists(req.orderId, orders);
  }

  /** A created order is found by its id afterwards, and listing by that id
      yields it alone. */
  lemma CreatedOrderIsFound(orders: seq<Order>, id: string, data: Value)
    requires Unique(orders, OrderId) && !HasId(orders, OrderId, id)
    ensures FindOrder(orders + [NewOrder(id, data)], Some(id)) == Some(|orders|)
    ensures id != "" ==> List(orders + [NewOrder(id, data)], Some(id)) == [NewOrder(id, data)]
  {
    var after := orders + [NewOrder(id, data)];
    AppendUnique(orders, OrderId, NewOrder(id, data));
    assert OrderId(after[|orders|]) == id;
    SelectUnique(after, OrderId, |orders|);
  }

  /** A deleted order is gone: no longer found, and listed by its id as
      nothing. */
  lemma DeletedOrderIsGone(orders: seq<Order>, i: nat)
    requires Unique(orders, OrderId) && i < |orders|
    ensures FindOrder(RemoveAt(orders, i), Some(orders[i].id)).None?
    ensures orders[i].id != "" ==> List(RemoveAt(orders, i), Some(orders[i].id)) == []
  {
    RemoveAtUnique(orders, OrderId, i);
    SelectNone(RemoveAt(orders, i), OrderId, orders[i].id);
  }
}
