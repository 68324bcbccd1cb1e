/**
 The route table the macro emits for a bound service (`generate_methods`):
 one match arm per bound method, in pairing order, keyed by the method's
 route path and carrying the interaction pattern its flags select.
 */
module Routes {
  import opened ServiceModel

  /** The four interaction patterns of a gRPC method. */
  datatype Pattern = Unary | ServerStreaming | ClientStreaming | Bidirectional

  /** The request half of the pattern is a stream. */
  predicate StreamsRequests(p: Pattern) { p == ClientStreaming || p == Bidirectional }

  /** The response half of the pattern is a stream. */
  predicate StreamsResponses(p: Pattern) { p == ServerStreaming || p == Bidirectional }

  /** The `match (client_streaming, server_streaming)` of `generate_methods`.
      It is total, and the pattern it picks streams exactly the halves the
      flags say, so no two flag pairs share a pattern. */
  function Classify(clientStreaming: bool, serverStreaming: bool): (p: Pattern)
    ensures StreamsRequests(p) == clientStreaming
    ensures StreamsResponses(p) == serverStreaming
  {
    match (clientStreaming, serverStreaming)
    case (false, false) => Unary
    case (false, true) => ServerStreaming
    case (true, false) => ClientStreaming
    case (true, true) => Bidirectional
  }

  /** Every pattern is picked by the flags it streams, so classification
      loses nothing. */
  lemma ClassifyRecoversPattern(p: Pattern)
    ensures Classify(StreamsRequests(p), StreamsResponses(p)) == p
  {
    match p
    case Unary =>
    case ServerStreaming =>
    case ClientStreaming =>
    case Bidirectional =>
  }

  /** The entry point of `tonic::server::Grpc` an arm hands its adapter to. */
  datatype GrpcCall = GrpcUnary | GrpcServerStreaming | GrpcClientStreaming | GrpcStreaming

  /** `grpc.unary`, `grpc.server_streaming`, `grpc.client_streaming` or
      `grpc.streaming`, one per pattern. */
  function EntryPoint(p: Pattern): (c: GrpcCall)
    ensures c == GrpcUnary <==> p == Unary
    ensures c == GrpcServerStreaming <==> p == ServerStreaming
    ensures c == GrpcClientStreaming <==> p == ClientStreaming
    ensures c == GrpcStreaming <==> p == Bidirectional
  {
    match p
    case Unary => GrpcUnary
    case ServerStreaming => GrpcServerStreaming
    case ClientStreaming => GrpcClientStreaming
    case Bidirectional => GrpcStreaming
  }

  /** The fixed part of every route path of a service: `/{package}.{service}/`. */
  function RoutePrefix(package: string, service: string): string
  {
    "/" + package + "." + service + "/"
  }

  /** The route path `/{package}.{service}/{rpc}` of `generate_methods`. */
  function RoutePath(package: string, service: string, rpc: string): string
  {
    RoutePrefix(package, service) + rpc
  }

  /** The method name a path addresses within a service, if the path lies
      within that service at all. */
  function MethodOfPath(package: string, service: string, path: string): Option<string>
  {
    var prefix := RoutePrefix(package, service);
    if |prefix| <= |path| && path[..|prefix|] == prefix then Some(path[|prefix|..]) else None
  }

  /** The route path of a method names exactly that method. */
  lemma MethodOfRoutePath(package: string, service: string, rpc: string)
    ensures MethodOfPath(package, service, RoutePath(package, service, rpc)) == Some(rpc)
  {
    var prefix := RoutePrefix(package, service);
    var path := prefix + rpc;
    assert path[..|prefix|] == prefix;
    assert path[|prefix|..] == rpc;
  }

  /** A path that lies within the service is the route path of the method it names. */
  lemma RoutePathOfMethod(package: string, service: string, path: string, rpc: string)
    requires MethodOfPath(package, service, path) == Some(rpc)
    ensures RoutePath(package, service, rpc) == path
  {
    var prefix := RoutePrefix(package, service);
    assert path == path[..|prefix|] + path[|prefix|..];
  }

  /** Within one service, distinct method names give distinct route paths. */
  lemma RoutePathInjective(package: string, service: string, m1: string, m2: string)
    requires RoutePath(package, service, m1) == RoutePath(package, service, m2)
    ensures m1 == m2
  {
    MethodOfRoutePath(package, service, m1);
    MethodOfRoutePath(package, service, m2);
  }

  /** One arm of the generated `match`: its path literal, the pattern its
      body is generated for, the bound method and its handler identifier. */
  datatype Route = Route(path: string, pattern: Pattern, rpc: Method, handler: string)

  /** The arm `generate_methods` emits for one bound pair. */
  function Arm(def: ServiceDef, pair: Pair): Route
  {
    Route(RoutePath(def.package, def.protoName, pair.0.protoName),
          Classify(pair.0.clientStreaming, pair.0.serverStreaming),
          pair.0, pair.1)
  }

  /** The arms of the generated `match`, in the order they are emitted. */
  function RouteTable(def: ServiceDef): seq<Route>
    decreases |def.methods|
  {
    if def.methods == [] then []
    else RouteTable(def.(methods := def.methods[..|def.methods| - 1]))
           + [Arm(def, def.methods[|def.methods| - 1])]
  }

  /** Exactly one arm per bound method, in pairing order, with the route
      path, pattern and handler of that method. */
  lemma {:induction false} RouteTableArms(def: ServiceDef)
    ensures |RouteTable(def)| == |def.methods|
    ensures forall k :: 0 <= k < |def.methods| ==>
              var m := def.methods[k].0;
              RouteTable(def)[k] ==
                Route(RoutePath(def.package, def.protoName, m.protoName),
                      Classify(m.clientStreaming, m.serverStreaming), m, def.methods[k].1)
    decreases |def.methods|
  {
    if def.methods != [] {
      var init := def.(methods := def.methods[..|def.methods| - 1]);
      RouteTableArms(init);
      forall k | 0 <= k < |def.methods| - 1 ensures RouteTable(def)[k] == RouteTable(init)[k] {
      }
    }
  }

  /** `generate_methods`: extends the arm stream once per bound method. */
  method GenerateMethods(def: ServiceDef) returns (table: seq<Route>)
    ensures table == RouteTable(def)
  {
    table := [];
    for k := 0 to |def.methods|
      invariant table == RouteTable(def.(methods := def.methods[..k]))
    {
      var (m, ident) := def.methods[k];
      var path := "/" + def.package + "." + def.protoName + "/" + m.protoName;
      var pattern := match (m.clientStreaming, m.serverStreaming)
        case (false, false) => Unary
        case (false, true) => ServerStreaming
        case (true, false) => ClientStreaming
        case (true, true) => Bidirectional;
      assert def.methods[..k + 1][..k] == def.methods[..k];
      table := table + [Route(path, pattern, m, ident)];
    }
    assert def.methods[..|def.methods|] == def.methods;
    assert def.(methods := def.methods) == def;
  }

  /** The two server types `generate` declares and the arms of the
      `ServerSvc`'s `call`. */
  datatype Server = Server(makeService: string, service: string, implPath: string, routes: seq<Route>)

  /** `generate`: names the make-service `{name}Server` and the per-connection
      service `{name}ServerSvc`, both holding the implementing type, and fills
      the `call` match with the route table. */
  method Generate(def: ServiceDef) returns (server: Server)
    ensures server.makeService == def.nameStr + "Server"
    ensures server.service == def.nameStr + "ServerSvc"
    ensures server.makeService != server.service
    ensures server.implPath == def.name
    ensures server.routes == RouteTable(def)
  {
    var routes := GenerateMethods(def);
    server := Server(def.nameStr + "Server", def.nameStr + "ServerSvc", def.name, routes);
  }
}
