/**
 * Routing of directives to handlers: NamespaceMux routes on the header's
 * namespace, EndpointMux on the endpoint id. A handler is a total function
 * from request to reply, so a handler that is not applied has no effect
 * and the reply of a failed lookup cannot depend on any handler.
 */
module Home {
  import opened Wrappers
  import opened AlexaTypes

  /** Go's (*Response, error) pair: either, both or neither may be present. */
  datatype Reply = Reply(resp: Option<Response>, err: Option<Error>)

  /** alexa.Handler; a HandlerFunc is the same function. */
  type Handler = Request -> Reply

  /** The reply of a handler that fails with `e` and returns no response. */
  function Failed(e: Error): Reply {
    Reply(None, Some(e))
  }

  /** The handler registered under `key`, if any. */
  function Lookup(routes: map<string, Handler>, key: string): (h: Option<Handler>)
    ensures h.Some? <==> key in routes
    ensures h.Some? ==> h.value == routes[key]
  {
    if key in routes then Some(routes[key]) else None
  }

  /** NamespaceMux.HandleRequest on a registration map. */
  function RouteNamespace(routes: map<string, Handler>, req: Request): (r: Reply)
    ensures req.directive.header.namespace !in routes ==>
      r == Failed(UnhandledNamespace(req.directive.header.namespace))
    ensures req.directive.header.namespace in routes ==>
      r == routes[req.directive.header.namespace](req)
  {
    match Lookup(routes, req.directive.header.namespace)
    case None => Failed(UnhandledNamespace(req.directive.header.namespace))
    case Some(h) => h(req)
  }

  /** EndpointMux.HandleRequest on a registration map. */
  function RouteEndpoint(routes: map<string, Handler>, req: Request): (r: Reply)
    ensures req.directive.endpoint.endpointId !in routes ==>
      r == Failed(UnhandledEndpoint(req.directive.endpoint.endpointId))
    ensures req.directive.endpoint.endpointId in routes ==>
      var inner := routes[req.directive.endpoint.endpointId](req);
      && r.resp == inner.resp
      && (r.err.Some? <==> inner.err.Some?)
      && (inner.err.Some? ==> r.err.value == EndpointFailed(req.directive.endpoint.endpointId, inner.err.value))
  {
    var id := req.directive.endpoint.endpointId;
    match Lookup(routes, id)
    case None => Failed(UnhandledEndpoint(id))
    case Some(h) =>
      var inner := h(req);
      if inner.err.Some? then Reply(inner.resp, Some(EndpointFailed(id, inner.err.value)))
      else Reply(inner.resp, None)
  }

  /**
   * Namespace routing consults the namespace alone, exactly: two requests
   * with one namespace both fail alike or are both answered by the one
   * handler registered under it, whatever else they hold, and a
   * registration under a different string (a prefix, say) never answers.
   */
  lemma NamespaceRoutingIsExact(routes: map<string, Handler>, req: Request, other: Request)
    requires req.directive.header.namespace == other.directive.header.namespace
    ensures req.directive.header.namespace !in routes ==>
      RouteNamespace(routes, req) == RouteNamespace(routes, other) == Failed(UnhandledNamespace(req.directive.header.namespace))
    ensures req.directive.header.namespace in routes ==>
      var h := routes[req.directive.header.namespace];
      RouteNamespace(routes, req) == h(req) && RouteNamespace(routes, other) == h(other)
    ensures forall ns :: ns in routes && ns != req.directive.header.namespace ==>
      RouteNamespace(routes, req) == RouteNamespace(routes - {ns}, req)
  {
  }

  /** NamespaceMux: a registration map that Handle updates in place. */
  class NamespaceMux {
    var handlerMap: map<string, Handler>

    /** NewNamespaceMux: nothing registered, so every dispatch fails. */
    constructor ()
      ensures handlerMap == map[]
      ensures forall req: Request :: HandleRequest(req) == Failed(UnhandledNamespace(req.directive.header.namespace))
    {
      handlerMap := map[];
    }

    /** Delegates to the handler registered for the namespace, or fails. */
    function HandleRequest(req: Request): (r: Reply)
      reads this
      ensures req.directive.header.namespace !in handlerMap ==>
        r == Failed(UnhandledNamespace(req.directive.header.namespace))
      ensures req.directive.header.namespace in handlerMap ==>
        r == handlerMap[req.directive.header.namespace](req)
    {
      RouteNamespace(handlerMap, req)
    }

    /** The mux as a handler, routing on the registrations made so far. */
    function AsHandler(): (h: Handler)
      reads this
      ensures forall req: Request :: h(req) == HandleRequest(req)
    {
      var routes := handlerMap;
      req => RouteNamespace(routes, req)
    }

    /** Registers `handler` for `namespace`, replacing an earlier one. */
    method Handle(namespace: string, handler: Handler)
      modifies this
      ensures handlerMap == old(handlerMap)[namespace := handler]
      ensures forall req: Request ::
        HandleRequest(req) == if req.directive.header.namespace == namespace then handler(req) else old(HandleRequest(req))
    {
      handlerMap := handlerMap[namespace := handler];
    }

    /** Registers a HandlerFunc: the same as Handle. */
    method HandleFunc(namespace: string, handler: Handler)
      modifies this
      ensures handlerMap == old(handlerMap)[namespace := handler]
      ensures forall req: Request ::
        HandleRequest(req) == if req.directive.header.namespace == namespace then handler(req) else old(HandleRequest(req))
    {
      Handle(namespace, handler);
    }
  }

  /** EndpointMux: the same registry, keyed by endpoint id. */
  class EndpointMux {
    var handlerMap: map<string, Handler>

    /** NewEndpointMux: nothing registered, so every dispatch fails. */
    constructor ()
      ensures handlerMap == map[]
      ensures forall req: Request :: HandleRequest(req) == Failed(UnhandledEndpoint(req.directive.endpoint.endpointId))
    {
      handlerMap := map[];
    }

    /** Delegates to the handler registered for the endpoint, wrapping its error but keeping its response. */
    function HandleRequest(req: Request): (r: Reply)
      reads this
      ensures req.directive.endpoint.endpointId !in handlerMap ==>
        r == Failed(UnhandledEndpoint(req.directive.endpoint.endpointId))
      ensures req.directive.endpoint.endpointId in handlerMap ==>
        var inner := handlerMap[req.directive.endpoint.endpointId](req);
        && r.resp == inner.resp
        && (inner.err.None? ==> r.err.None?)
        && (inner.err.Some? ==> r.err == Some(EndpointFailed(req.directive.endpoint.endpointId, inner.err.value)))
    {
      RouteEndpoint(handlerMap, req)
    }

    /** The mux as a handler, routing on the registrations made so far. */
    function AsHandler(): (h: Handler)
      reads this
      ensures forall req: Request :: h(req) == HandleRequest(req)
    {
      var routes := handlerMap;
      req => RouteEndpoint(routes, req)
    }

    /** Registers `handler` for `endpoint`, replacing an earlier one. */
    method Handle(endpoint: string, handler: Handler)
      modifies this
      ensures handlerMap == old(handlerMap)[endpoint := handler]
      ensures forall req: Request :: req.directive.endpoint.endpointId == endpoint ==>
        HandleRequest(req).resp == handler(req).resp && (HandleRequest(req).err.None? <==> handler(req).err.None?)
      ensures forall req: Request :: req.directive.endpoint.endpointId != endpoint ==>
        HandleRequest(req) == old(HandleRequest(req))
    {
      handlerMap := handlerMap[endpoint := handler];
    }

    /** Registers a HandlerFunc: the same as Handle. */
    method HandleFunc(endpoint: string, handler: Handler)
      modifies this
      ensures handlerMap == old(handlerMap)[endpoint := handler]
      ensures forall req: Request :: req.directive.endpoint.endpointId == endpoint ==>
        HandleRequest(req).resp == handler(req).resp && (HandleRequest(req).err.None? <==> handler(req).err.None?)
      ensures forall req: Request :: req.directive.endpoint.endpointId != endpoint ==>
        HandleRequest(req) == old(HandleRequest(req))
    {
      Handle(endpoint, handler);
    }
  }
}
