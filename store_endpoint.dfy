/** StoreEndpoint.java: one request per operation on the `/store` resource.
    Order ids are forwarded without local validation. */
module StoreEndpoints {
  import opened Wrappers
  import opened Primitives
  import opened Models
  import opened Http

  const StorePath: Template := Append(Empty, Fixed("/store"))
  const OrderPath: Template := Append(StorePath, Fixed("/order"))
  const OrderById: Template := Append(Append(OrderPath, Fixed("/")), Placeholder("orderId"))
  const Inventory: Template := Append(StorePath, Fixed("/inventory"))

  /** The path templates, spelled out, and the placeholders each one has. */
  lemma StoreTemplates()
    ensures Render(OrderPath) == "/store/order" && Placeholders(OrderPath) == []
    ensures Render(OrderById) == "/store/order/{orderId}" && Placeholders(OrderById) == ["orderId"]
    ensures Render(Inventory) == "/store/inventory" && Placeholders(Inventory) == []
  {
  }

  datatype StoreEndpoint = StoreEndpoint(requestSpec: RequestSpec)

  /** `new StoreEndpoint()`. */
  function NewStoreEndpoint(spec: RequestSpec): (e: StoreEndpoint)
    ensures e.requestSpec == spec
  {
    StoreEndpoint(spec)
  }

  /** `placeOrder`. */
  function PlaceOrder(e: StoreEndpoint, order: Order): (r: Request)
    ensures r.spec == e.requestSpec && r.verb == Post && Render(r.template) == "/store/order"
    ensures r.pathParams == [] && r.queryParams == [] && r.formParams == [] && r.headers == []
    ensures r.body == Some(OrderBody(order))
    ensures PathParamsBound(r)
  {
    StoreTemplates();
    Send(WithBody(Given(e.requestSpec), OrderBody(order)), Post, OrderPath)
  }

  /** `getOrderById`: any long, negative ones included, goes into the path. */
  function GetOrderById(e: StoreEndpoint, orderId: Long): (r: Request)
    ensures r.spec == e.requestSpec && r.verb == Get && Render(r.template) == "/store/order/{orderId}"
    ensures r.pathParams == [Param("orderId", LongValue(orderId))]
    ensures r.queryParams == [] && r.formParams == [] && r.headers == [] && r.body.None?
    ensures PathParamsBound(r)
  {
    StoreTemplates();
    var r := Send(PathParam(Given(e.requestSpec), "orderId", LongValue(orderId)), Get, OrderById);
    r
  }

  /** `getInventory`. */
  function GetInventory(e: StoreEndpoint): (r: Request)
    ensures r.spec == e.requestSpec && r.verb == Get && Render(r.template) == "/store/inventory"
    ensures r.pathParams == [] && r.queryParams == [] && r.formParams == [] && r.headers == []
    ensures r.body.None?
    ensures PathParamsBound(r)
  {
    StoreTemplates();
    Send(Given(e.requestSpec), Get, Inventory)
  }

  /** `deleteOrder`. */
  function DeleteOrder(e: StoreEndpoint, orderId: Long): (r: Request)
    ensures r.spec == e.requestSpec && r.verb == Delete && Render(r.template) == "/store/order/{orderId}"
    ensures r.pathParams == [Param("orderId", LongValue(orderId))]
    ensures r.queryParams == [] && r.formParams == [] && r.headers == [] && r.body.None?
    ensures PathParamsBound(r)
  {
    StoreTemplates();
    var r := Send(PathParam(Given(e.requestSpec), "orderId", LongValue(orderId)), Delete, OrderById);
    r
  }

  /** Deleting an order targets what reading it targets, with another verb. */
  lemma DeleteIsGetWithDelete(e: StoreEndpoint, orderId: Long)
    ensures DeleteOrder(e, orderId) == GetOrderById(e, orderId).(verb := Delete)
  {
  }

  /** The id is forwarded unchanged, so distinct ids give distinct requests;
      the id -1 of the negative scenario is sent as it is. */
  lemma IdsForwardedUnchanged(e: StoreEndpoint, a: Long, b: Long)
    ensures GetOrderById(e, a) == GetOrderById(e, b) <==> a == b
    ensures GetOrderById(e, -1).pathParams == [Param("orderId", LongValue(-1))]
  {
  }
}
