/**
 * How the two generators fit together: a generated client method sends the URL
 * the generated router answers, and a call through a server holding that
 * router returns what the user's method implementation returned.
 */
module Agreement {
  import opened Wrappers
  import opened Primitives
  import opened Proto
  import opened ProstBuild
  import Tonic
  import Server
  import Client
  import ServerGen
  import ClientGen

  /** Both generators derive the same URL for a method. */
  lemma SameUrl(svc: ServiceDesc, m: Method)
    ensures ClientGen.MethodUrl(svc, m) == ServerGen.RouteUrl(svc, m)
  {
  }

  /**
   * The generated client's methods, the trait's methods and the router's arms
   * correspond one to one, in order, by name, message types and URL.
   */
  lemma GeneratedSidesAlign(svc: ServiceDesc, gs: ServerGen.GeneratedServer, gc: ClientGen.GeneratedClient)
    requires ServerGen.Generated(svc, gs) && ClientGen.Generated(svc, gc)
    ensures |gc.methods| == |gs.routes| == |gs.traitMethods|
    ensures forall k :: 0 <= k < |gc.methods| ==>
              && gc.methods[k].url == gs.routes[k].url
              && gc.methods[k].name == gs.routes[k].methodName == gs.traitMethods[k].name
              && gc.methods[k].requestType == gs.traitMethods[k].requestType
              && gc.methods[k].responseType == gs.traitMethods[k].responseType
  {
  }

  /** Every routed URL is well formed and, after its '/', starts with the router's name. */
  lemma RoutesUnderRouterName(svc: ServiceDesc, g: ServerGen.GeneratedServer)
    requires ServerGen.Generated(svc, g)
    ensures forall k :: 0 <= k < |g.routes| ==>
              Server.ValidUrl(g.routes[k].url) && g.routerName <= g.routes[k].url[1..]
  {
    forall k | 0 <= k < |g.routes|
      ensures Server.ValidUrl(g.routes[k].url) && g.routerName <= g.routes[k].url[1..]
    {
      RouteUnderRouterName(svc, Unary(svc.methods)[k]);
    }
  }

  lemma RouteUnderRouterName(svc: ServiceDesc, m: Method)
    ensures Server.ValidUrl(ServerGen.RouteUrl(svc, m))
    ensures ServerGen.RouterName(svc) <= ServerGen.RouteUrl(svc, m)[1..]
  {
    var url := ServerGen.RouteUrl(svc, m);
    var name := ServerGen.RouterName(svc);
    assert url == "/" + name + ("/" + m.name);
    assert url[1..] == name + ("/" + m.name);
  }

  /**
   * A server whose routers before j do not claim the URL hands each unary
   * method's URL to router j, which runs that method's branch on its state;
   * only router j's state changes.
   */
  lemma ServerReachesMethod<M, S>(svcs: seq<Server.Service<S>>, j: nat, svc: ServiceDesc, g: ServerGen.GeneratedServer,
                                  impls: string -> ServerGen.MethodImpl<M, S>, st: S, m: Method, body: bytes)
    requires ServerGen.Generated(svc, g)
    requires j < |svcs| && svcs[j] == ServerGen.Router(g, impls, st)
    requires m in svc.methods && !IsStreaming(m)
    requires forall i :: 0 <= i < j ==> !(svcs[i].name <= ServerGen.RouteUrl(svc, m)[1..])
    ensures var b := ServerGen.Branch(impls(m.name), st, body);
            Server.Route(svcs, ServerGen.RouteUrl(svc, m), body) == (svcs[j := svcs[j].(state := b.0)], b.1)
  {
    var url := ServerGen.RouteUrl(svc, m);
    RouteUnderRouterName(svc, m);
    assert Server.FirstMatch(svcs, url[1..], j);
    ServerGen.RouterDispatchesMethod(svc, g, impls, st, m, st, body);
  }

  /**
   * End to end for generated code: the k-th generated client method, sent over a
   * transport delivering to a server that reaches the generated router, returns
   * exactly what the implementation of the k-th method returned in the router's
   * current state, unless that was a response that does not encode or an error
   * carrying code Ok.
   */
  lemma {:induction false} GeneratedCallReturnsImplResult<M(!new), S>(
    client: Client.Client2, svcs: seq<Server.Service<S>>, j: nat, codecs: HeaderCodecs,
    svc: ServiceDesc, gs: ServerGen.GeneratedServer, gc: ClientGen.GeneratedClient,
    impls: string -> ServerGen.MethodImpl<M, S>, st: S, k: nat, request: M, timeout: u32)
    requires ServerGen.Generated(svc, gs) && ClientGen.Generated(svc, gc)
    requires k < |gc.methods|
    requires j < |svcs| && svcs[j] == ServerGen.Router(gs, impls, st)
    requires forall i :: 0 <= i < j ==> !(svcs[i].name <= gc.methods[k].url[1..])
    requires RoundTrips(codecs.request) && RoundTrips(codecs.reply) && EncodesAll(codecs.reply)
    requires RoundTrips(impls(gc.methods[k].name).request) && RoundTrips(impls(gc.methods[k].name).response)
    requires Client.DeliversTo(client.transport, svcs, codecs)
    requires codecs.request.encode(RequestHeader(gc.methods[k].url)).Ok?
    requires impls(gc.methods[k].name).request.encode(request).Ok?
    requires Client.Outgoing(codecs, impls(gc.methods[k].name).request, gc.methods[k].url, request).Fits()
    requires Server.ServeStep(svcs, codecs, Client.Outgoing(codecs, impls(gc.methods[k].name).request, gc.methods[k].url, request)).1.Fits()
    ensures var impl := impls(gc.methods[k].name);
            var r := ClientGen.Call(client, codecs, impl.request, impl.response, gc.methods[k], timeout, request);
            var answer := impl.call(st, request).1;
            && (answer.Ok? && impl.response.encode(answer.value).Ok? ==> r == answer)
            && (answer.Ok? && impl.response.encode(answer.value).Err? ==>
                  r == Err(Tonic.Status(Tonic.Internal, Server.EncodeFailed + impl.response.encode(answer.value).error.description)))
            && (answer.Err? && answer.error.code != Tonic.Ok ==> r == answer)
  {
    var cm := gc.methods[k];
    var m := Unary(svc.methods)[k];
    UnaryMembers(svc.methods);
    assert m in svc.methods && !IsStreaming(m);
    assert cm.name == m.name && cm.url == ServerGen.RouteUrl(svc, m);
    var impl := impls(m.name);
    var body := impl.request.encode(request).value;
    Client.RequestThroughServer(client, svcs, codecs, impl.request, impl.response, cm.url, request, timeout);
    ServerReachesMethod(svcs, j, svc, gs, impls, st, m, body);
    Server.ParseEncoded(impl.request, request);
    var payload := ServerGen.Branch(impl, st, body).1;
    assert Server.Route(svcs, cm.url, body).1 == payload;
    match impl.call(st, request).1
    case Ok(resp) =>
      if impl.response.encode(resp).Ok? {
        assert payload == Ok(impl.response.encode(resp).value);
        assert impl.response.decode(impl.response.encode(resp).value) == Ok(resp);
      }
    case Err(e) =>
  }

  /** The character after a route URL's router name is the '/' before the method name. */
  lemma SlashAfterRouterName(svc: ServiceDesc, m: Method)
    ensures |ServerGen.RouteUrl(svc, m)| > |ServerGen.RouterName(svc)| + 1
    ensures ServerGen.RouteUrl(svc, m)[|ServerGen.RouterName(svc)| + 1] == '/'
    ensures ServerGen.RouteUrl(svc, m)[1..|ServerGen.RouterName(svc)| + 1] == ServerGen.RouterName(svc)
  {
    var name := ServerGen.RouterName(svc);
    assert ServerGen.RouteUrl(svc, m) == "/" + name + "/" + m.name;
  }

  /**
   * Routing looks at name prefixes, not at the '/' after the name: when router
   * A's name is a proper prefix of service B's name, not followed there by a
   * '/', and A comes first among the routers that claim the URL, every method
   * URL of B reaches A, which answers Unimplemented "url not found" and keeps
   * its state, although a later router may serve that URL.
   */
  lemma ShadowedRouter<M, S>(svcs: seq<Server.Service<S>>, i: nat, a: ServiceDesc, ga: ServerGen.GeneratedServer,
                             implsA: string -> ServerGen.MethodImpl<M, S>, st: S, b: ServiceDesc, m: Method, body: bytes)
    requires ServerGen.Generated(a, ga)
    requires i < |svcs| && svcs[i] == ServerGen.Router(ga, implsA, st)
    requires forall k :: 0 <= k < i ==> !(svcs[k].name <= ServerGen.RouteUrl(b, m)[1..])
    requires ServerGen.RouterName(a) < ServerGen.RouterName(b)
    requires ServerGen.RouterName(b)[|ServerGen.RouterName(a)|] != '/'
    ensures Server.Route(svcs, ServerGen.RouteUrl(b, m), body)
            == (svcs, Err(Tonic.Status(Tonic.Unimplemented, Server.UrlNotFound)))
  {
    var url := ServerGen.RouteUrl(b, m);
    var nameA := ServerGen.RouterName(a);
    var nameB := ServerGen.RouterName(b);
    SlashAfterRouterName(b, m);
    assert url[1..][..|nameA|] == nameB[..|nameA|] == nameA;
    assert Server.FirstMatch(svcs, url[1..], i);
    forall n | n in a.methods && !IsStreaming(n)
      ensures ServerGen.RouteUrl(a, n) != url
    {
      SlashAfterRouterName(a, n);
      assert url[|nameA| + 1] == nameB[|nameA|];
    }
    ServerGen.RouterRejectsUnknown(a, ga, implsA, st, url, st, body);
    assert svcs[i := svcs[i].(state := st)] == svcs;
  }

  /** Two services of one package, the first name a prefix of the second. */
  const Greeter: ServiceDesc := ServiceDesc("Greeter", "demo", [Method("Hi", "HiRequest", "HiReply", false, false)])
  const GreeterAdmin: ServiceDesc := ServiceDesc("GreeterAdmin", "demo", [Method("Reset", "ResetRequest", "ResetReply", false, false)])

  /**
   * An instance: with the "demo.Greeter" router registered before
   * "demo.GreeterAdmin", GreeterAdmin's Reset URL gets Unimplemented
   * "url not found", although alone the GreeterAdmin router runs Reset's branch.
   */
  lemma GreeterShadowsGreeterAdmin<M, S>(ga: ServerGen.GeneratedServer, gb: ServerGen.GeneratedServer,
                                         implsA: string -> ServerGen.MethodImpl<M, S>, implsB: string -> ServerGen.MethodImpl<M, S>,
                                         stA: S, stB: S, body: bytes)
    requires ServerGen.Generated(Greeter, ga) && ServerGen.Generated(GreeterAdmin, gb)
    ensures var reset := ServerGen.RouteUrl(GreeterAdmin, GreeterAdmin.methods[0]);
            var both := [ServerGen.Router(ga, implsA, stA), ServerGen.Router(gb, implsB, stB)];
            var alone := [ServerGen.Router(gb, implsB, stB)];
            var branch := ServerGen.Branch(implsB("Reset"), stB, body);
            && Server.Route(both, reset, body) == (both, Err(Tonic.Status(Tonic.Unimplemented, Server.UrlNotFound)))
            && Server.Route(alone, reset, body) == ([alone[0].(state := branch.0)], branch.1)
  {
    var reset := ServerGen.RouteUrl(GreeterAdmin, GreeterAdmin.methods[0]);
    var both := [ServerGen.Router(ga, implsA, stA), ServerGen.Router(gb, implsB, stB)];
    assert ServerGen.RouterName(Greeter) == "demo.Greeter";
    assert ServerGen.RouterName(GreeterAdmin) == "demo.Greeter" + "Admin";
    ShadowedRouter(both, 0, Greeter, ga, implsA, stA, GreeterAdmin, GreeterAdmin.methods[0], body);
    var alone := [ServerGen.Router(gb, implsB, stB)];
    var branch := ServerGen.Branch(implsB("Reset"), stB, body);
    ServerReachesMethod(alone, 0, GreeterAdmin, gb, implsB, stB, GreeterAdmin.methods[0], body);
    assert alone[0 := alone[0].(state := branch.0)] == [alone[0].(state := branch.0)];
  }
}
