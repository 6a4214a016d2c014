/**
 * The client stub generator, with its token output abstracted to the client
 * type name and its ordered methods, and the call a generated method makes.
 */
module ClientGen {
  import opened Wrappers
  import opened Primitives
  import opened Proto
  import opened ProstBuild
  import Client
  import Tonic

  /** A method of the generated `{Service}Client`: its name, message types and the URL it sends. */
  datatype ClientMethod = ClientMethod(name: string, requestType: string, responseType: string, url: string)

  /** What `generate_internal` determines: the client type's name and its methods. */
  datatype GeneratedClient = GeneratedClient(clientType: string, methods: seq<ClientMethod>)

  /** `format!("/{}.{}/{}", package, service, method)` in `generate_unary`. */
  function MethodUrl(svc: ServiceDesc, m: Method): string
  {
    "/" + svc.package + "." + svc.name + "/" + m.name
  }

  /** One client method per unary method, in declaration order. */
  ghost predicate MethodsFor(svc: ServiceDesc, ms: seq<ClientMethod>)
  {
    && |ms| == |Unary(svc.methods)|
    && forall k :: 0 <= k < |ms| ==> ms[k] == UnaryMethod(svc, Unary(svc.methods)[k])
  }

  /** The output of `generate_internal` for svc. */
  ghost predicate Generated(svc: ServiceDesc, g: GeneratedClient)
  {
    g.clientType == svc.name + "Client" && MethodsFor(svc, g.methods)
  }

  /** The method `generate_unary` emits for m. */
  function UnaryMethod(svc: ServiceDesc, m: Method): ClientMethod
  {
    ClientMethod(m.name, m.inputType, m.outputType, MethodUrl(svc, m))
  }

  /** `generate_unary`: the emitted method carries m's name and types and sends the URL of m. */
  method GenerateUnary(svc: ServiceDesc, m: Method) returns (cm: ClientMethod)
    ensures cm == UnaryMethod(svc, m)
  {
    var url := "/" + svc.package + "." + svc.name + "/" + m.name;
    cm := ClientMethod(m.name, m.inputType, m.outputType, url);
  }

  /** `generate_methods`. */
  method GenerateMethods(svc: ServiceDesc) returns (stream: seq<ClientMethod>)
    ensures MethodsFor(svc, stream)
  {
    stream := [];
    var i := 0;
    while i < |svc.methods|
      invariant 0 <= i <= |svc.methods|
      invariant |stream| == |Unary(svc.methods[..i])|
      invariant forall k :: 0 <= k < |stream| ==> stream[k] == UnaryMethod(svc, Unary(svc.methods[..i])[k])
    {
      var m := svc.methods[i];
      UnaryStep(svc.methods, i);
      if IsStreaming(m) {
        i := i + 1;
        continue;
      }
      var cm := GenerateUnary(svc, m);
      stream := stream + [cm];
      i := i + 1;
    }
    assert svc.methods[..i] == svc.methods;
  }

  /** `generate_internal`. */
  method GenerateInternal(svc: ServiceDesc) returns (g: GeneratedClient)
    ensures Generated(svc, g)
  {
    var methods := GenerateMethods(svc);
    g := GeneratedClient(svc.name + "Client", methods);
  }

  /**
   * A generated method's body: `self.c.request(url, &request, timeout)` with
   * the URL fixed at generation; a transport failure is Internal.
   */
  function Call<Req, Resp>(client: Client.Client2, codecs: HeaderCodecs, reqCodec: ProtoCodec<Req>, respCodec: ProtoCodec<Resp>,
                           cm: ClientMethod, timeout: u32, request: Req): (r: Result<Resp, Tonic.Status>)
    requires codecs.request.encode(RequestHeader(cm.url)).Ok?
    requires reqCodec.encode(request).Ok?
    requires client.transport(timeout, Client.Outgoing(codecs, reqCodec, cm.url, request)).Ok? ==>
               client.transport(timeout, Client.Outgoing(codecs, reqCodec, cm.url, request)).value.Readable()
    ensures r == Client.Request(client, codecs, reqCodec, respCodec, cm.url, request, timeout)
    ensures client.transport(timeout, Client.Outgoing(codecs, reqCodec, cm.url, request)).Err? ==>
              r == Err(Tonic.Status(Tonic.Internal,
                                    Client.TransportFailure(client.transport(timeout, Client.Outgoing(codecs, reqCodec, cm.url, request)).error)))
  {
    Client.Request(client, codecs, reqCodec, respCodec, cm.url, request, timeout)
  }
}
