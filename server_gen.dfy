/**
 * The server stub generator, with its token output abstracted to the names and
 * ordered lists it determines, and the behaviour of the router it generates.
 */
module ServerGen {
  import opened Wrappers
  import opened Primitives
  import opened Proto
  import opened ProstBuild
  import Server
  import Tonic

  /** A method of the generated `{Service}Service` trait. */
  datatype TraitMethod = TraitMethod(name: string, requestType: string, responseType: string)

  /** A match arm of the generated `handle_request`: the URL and the method it calls. */
  datatype RoutingBranch = RoutingBranch(url: string, methodName: string)

  /** What `generate_internal` determines: type names, router name, trait methods and routes. */
  datatype GeneratedServer = GeneratedServer(serviceTrait: string, routerType: string, routerName: string,
                                             traitMethods: seq<TraitMethod>, routes: seq<RoutingBranch>)

  /** The router's `name()`. */
  function RouterName(svc: ServiceDesc): string
  {
    svc.package + "." + svc.name
  }

  /** `format!("/{}.{}/{}", package, service, method)` in `generate_routing_branches`. */
  function RouteUrl(svc: ServiceDesc, m: Method): string
  {
    "/" + svc.package + "." + svc.name + "/" + m.name
  }

  function TraitMethodFor(m: Method): TraitMethod
  {
    TraitMethod(m.name, m.inputType, m.outputType)
  }

  /** One trait method per unary method, in declaration order. */
  ghost predicate TraitMethodsFor(svc: ServiceDesc, ts: seq<TraitMethod>)
  {
    && |ts| == |Unary(svc.methods)|
    && forall k :: 0 <= k < |ts| ==> ts[k] == TraitMethodFor(Unary(svc.methods)[k])
  }

  /** One route per unary method, in declaration order. */
  ghost predicate RoutesFor(svc: ServiceDesc, routes: seq<RoutingBranch>)
  {
    && |routes| == |Unary(svc.methods)|
    && forall k :: 0 <= k < |routes| ==>
         routes[k] == RoutingBranch(RouteUrl(svc, Unary(svc.methods)[k]), Unary(svc.methods)[k].name)
  }

  /** The output of `generate_internal` for svc. */
  ghost predicate Generated(svc: ServiceDesc, g: GeneratedServer)
  {
    && g.serviceTrait == svc.name + "Service"
    && g.routerType == svc.name + "ServiceRouter"
    && g.routerName == RouterName(svc)
    && TraitMethodsFor(svc, g.traitMethods)
    && RoutesFor(svc, g.routes)
  }

  /** `generate_service_trait_methods`. */
  method GenerateServiceTraitMethods(svc: ServiceDesc) returns (stream: seq<TraitMethod>)
    ensures TraitMethodsFor(svc, stream)
  {
    stream := [];
    var i := 0;
    while i < |svc.methods|
      invariant 0 <= i <= |svc.methods|
      invariant |stream| == |Unary(svc.methods[..i])|
      invariant forall k :: 0 <= k < |stream| ==> stream[k] == TraitMethodFor(Unary(svc.methods[..i])[k])
    {
      var m := svc.methods[i];
      UnaryStep(svc.methods, i);
      if IsStreaming(m) {
        i := i + 1;
        continue;
      }
      stream := stream + [TraitMethod(m.name, m.inputType, m.outputType)];
      i := i + 1;
    }
    assert svc.methods[..i] == svc.methods;
  }

  /** `generate_routing_branches`. */
  method GenerateRoutingBranches(svc: ServiceDesc) returns (stream: seq<RoutingBranch>)
    ensures RoutesFor(svc, stream)
  {
    stream := [];
    var i := 0;
    while i < |svc.methods|
      invariant 0 <= i <= |svc.methods|
      invariant |stream| == |Unary(svc.methods[..i])|
      invariant forall k :: 0 <= k < |stream| ==>
                  stream[k] == RoutingBranch(RouteUrl(svc, Unary(svc.methods[..i])[k]), Unary(svc.methods[..i])[k].name)
    {
      var m := svc.methods[i];
      UnaryStep(svc.methods, i);
      if IsStreaming(m) {
        i := i + 1;
        continue;
      }
      var url := "/" + svc.package + "." + svc.name + "/" + m.name;
      stream := stream + [RoutingBranch(url, m.name)];
      i := i + 1;
    }
    assert svc.methods[..i] == svc.methods;
  }

  /** `generate_internal`. */
  method GenerateInternal(svc: ServiceDesc) returns (g: GeneratedServer)
    ensures Generated(svc, g)
  {
    var serviceName := svc.package + "." + svc.name;
    var traitMethods := GenerateServiceTraitMethods(svc);
    var routingCode := GenerateRoutingBranches(svc);
    g := GeneratedServer(svc.name + "Service", svc.name + "ServiceRouter", serviceName, traitMethods, routingCode);
  }

  /**
   * A user implementation of one trait method over the message universe M: its
   * codecs, and the call, which may change the implementation's state S.
   */
  datatype MethodImpl<!M, !S> = MethodImpl(request: ProtoCodec<M>, response: ProtoCodec<M>,
                                           call: (S, M) -> (S, Result<M, Tonic.Status>))

  /**
   * A routing branch's body: parse the request, call the method, encode the
   * response; `?` propagates. A request that does not parse leaves the state alone.
   */
  function Branch<M, S>(impl: MethodImpl<M, S>, state: S, request: bytes): (r: (S, Result<bytes, Tonic.Status>))
    ensures Server.ParseProto(impl.request, request).Err? ==>
              r == (state, Err(Server.ParseProto(impl.request, request).error))
    ensures Server.ParseProto(impl.request, request).Ok? ==>
              var (after, answer) := impl.call(state, Server.ParseProto(impl.request, request).value);
              && r.0 == after
              && (answer.Err? ==> r.1 == Err(answer.error))
              && (answer.Ok? ==> r.1 == Server.EncodeProto(impl.response, answer.value))
  {
    match Server.ParseProto(impl.request, request)
    case Err(st) => (state, Err(st))
    case Ok(req) =>
      var (after, answer) := impl.call(state, req);
      match answer
      case Err(st) => (after, Err(st))
      case Ok(resp) => (after, Server.EncodeProto(impl.response, resp))
  }

  /** The first arm, from index i on, whose URL is the requested one. */
  function MatchFrom(routes: seq<RoutingBranch>, url: string, i: nat): (r: Option<nat>)
    requires i <= |routes|
    decreases |routes| - i
    ensures r.Some? ==> i <= r.value < |routes| && routes[r.value].url == url
    ensures r.Some? ==> forall k :: i <= k < r.value ==> routes[k].url != url
    ensures r.None? ==> forall k :: i <= k < |routes| ==> routes[k].url != url
  {
    if i == |routes| then None
    else if routes[i].url == url then Some(i)
    else MatchFrom(routes, url, i + 1)
  }

  /**
   * The generated `handle_request`: the branch of the first arm whose URL is
   * the requested one, or Unimplemented "url not found" with the state unchanged.
   */
  function HandleRequest<M, S>(routes: seq<RoutingBranch>, impls: string -> MethodImpl<M, S>, state: S,
                               url: string, request: bytes)
    : (r: (S, Result<bytes, Tonic.Status>))
    ensures (forall k :: 0 <= k < |routes| ==> routes[k].url != url) ==>
              r == (state, Err(Tonic.Status(Tonic.Unimplemented, Server.UrlNotFound)))
    ensures forall j :: 0 <= j < |routes| && routes[j].url == url && (forall k :: 0 <= k < j ==> routes[k].url != url) ==>
              r == Branch(impls(routes[j].methodName), state, request)
  {
    match MatchFrom(routes, url, 0)
    case None => (state, Err(Tonic.Status(Tonic.Unimplemented, Server.UrlNotFound)))
    case Some(k) =>
      assert forall j :: 0 <= j < |routes| && routes[j].url == url && (forall k :: 0 <= k < j ==> routes[k].url != url) ==> j == k;
      Branch(impls(routes[k].methodName), state, request)
  }

  /**
   * The generated router, registered as a service: its name, the
   * implementation's state, and its `handle_request`.
   */
  function Router<M, S>(g: GeneratedServer, impls: string -> MethodImpl<M, S>, state: S): (s: Server.Service<S>)
    ensures s.name == g.routerName && s.state == state
  {
    Server.Service(g.routerName, state, (st: S, url: string, request: bytes) => HandleRequest(g.routes, impls, st, url, request))
  }

  /** A URL of this service names exactly one method. */
  lemma RouteUrlInjective(svc: ServiceDesc, m: Method, n: Method)
    requires RouteUrl(svc, m) == RouteUrl(svc, n)
    ensures m.name == n.name
  {
    var prefix := "/" + svc.package + "." + svc.name + "/";
    assert RouteUrl(svc, m) == prefix + m.name;
    assert RouteUrl(svc, n) == prefix + n.name;
    assert m.name == RouteUrl(svc, m)[|prefix|..];
  }

  /**
   * In every state, the generated router answers the URL of each unary method
   * with that method's branch.
   */
  lemma RouterDispatchesMethod<M, S>(svc: ServiceDesc, g: GeneratedServer, impls: string -> MethodImpl<M, S>, init: S,
                                     m: Method, state: S, request: bytes)
    requires Generated(svc, g)
    requires m in svc.methods && !IsStreaming(m)
    ensures Router(g, impls, init).handle(state, RouteUrl(svc, m), request) == Branch(impls(m.name), state, request)
  {
    var u := Unary(svc.methods);
    var url := RouteUrl(svc, m);
    UnaryMembers(svc.methods);
    assert m in u;
    var k :| 0 <= k < |u| && u[k] == m;
    assert g.routes[k].url == url;
    var j := MatchFrom(g.routes, url, 0).value;
    RouteUrlInjective(svc, u[j], m);
    assert HandleRequest(g.routes, impls, state, url, request) == Branch(impls(g.routes[j].methodName), state, request);
  }

  /** In every state, a URL that is no route of the service gets Unimplemented "url not found", and the state stays. */
  lemma RouterRejectsUnknown<M, S>(svc: ServiceDesc, g: GeneratedServer, impls: string -> MethodImpl<M, S>, init: S,
                                   url: string, state: S, request: bytes)
    requires Generated(svc, g)
    requires forall m :: m in svc.methods && !IsStreaming(m) ==> RouteUrl(svc, m) != url
    ensures Router(g, impls, init).handle(state, url, request)
            == (state, Err(Tonic.Status(Tonic.Unimplemented, Server.UrlNotFound)))
  {
    var u := Unary(svc.methods);
    UnaryMembers(svc.methods);
    forall k | 0 <= k < |g.routes|
      ensures g.routes[k].url != url
    {
      assert u[k] in u;
    }
  }
}
