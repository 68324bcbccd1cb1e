/**
 The `call` of the generated `ServerSvc`: a `match` on the request path
 over the emitted arms, falling through to `unimplemented!`, and the
 per-pattern adapters that run the user's handler and shape its result.
 */
module Dispatch {
  import opened ServiceModel
  import opened Routes
  import Pairing

  /** A protobuf message, already decoded; the codec is not modelled. */
  type Message = string

  /** A gRPC status a handler fails with. */
  datatype Status = Status(code: int, message: string)

  /** One item of a response stream, a `Result<Response, Status>`: a
      message, or a status the stream fails with part way through. */
  datatype StreamItem = Item(message: Message) | ItemError(status: Status)

  /** The payload of a response: one message, the stream a streaming
      handler returns, or that stream boxed into a `Pin<Box<dyn Stream>>`. */
  datatype Body = Single(message: Message) | Stream(items: seq<StreamItem>) | BoxedStream(items: seq<StreamItem>)

  /** A `tonic::Response`: metadata and a payload. */
  datatype Response = Response(metadata: seq<(string, string)>, body: Body)

  /** The `Result<Response, Status>` a handler resolves to. */
  datatype Outcome = Success(response: Response) | Failure(status: Status)

  /** An incoming request: its URI path and what the transport decoded. */
  datatype Request = Request(path: string, metadata: seq<(string, string)>, messages: seq<Message>)

  /** The items a payload carries, in order. */
  function Items(b: Body): seq<StreamItem>
  {
    match b
    case Single(m) => [Item(m)]
    case Stream(items) => items
    case BoxedStream(items) => items
  }

  /** `Box::pin(s) as Pin<Box<dyn Stream ..>>`. */
  function BoxStream(b: Body): Body
  {
    match b
    case Stream(items) => BoxedStream(items)
    case _ => b
  }

  /** What the adapter struct's `call` makes of the handler's result: the
      streaming patterns map the `Ok` response to its boxed stream
      (`.map(|r| r.map(|s| Box::pin(s) ..))`); unary and client-streaming
      hand the result on as it is. Errors always pass through untouched. */
  function Adapt(p: Pattern, r: Outcome): (a: Outcome)
    ensures r.Failure? ==> a == r
    ensures a.Success? <==> r.Success?
    ensures !StreamsResponses(p) ==> a == r
    ensures a.Success? ==> a.response.metadata == r.response.metadata
    ensures a.Success? ==> Items(a.response.body) == Items(r.response.body)
    ensures StreamsResponses(p) && r.Success? && r.response.body.Stream? ==> a.response.body.BoxedStream?
  {
    match r
    case Failure(_) => r
    case Success(response) =>
      if StreamsResponses(p) then Success(response.(body := BoxStream(response.body))) else r
  }

  /** The handler result an adapted result came from. */
  function Unadapt(p: Pattern, a: Outcome): Outcome
  {
    match a
    case Success(Response(md, BoxedStream(items))) =>
      if StreamsResponses(p) then Success(Response(md, Stream(items))) else a
    case _ => a
  }

  /** A handler result as user code produces it: nothing in it is boxed yet. */
  predicate Unboxed(r: Outcome)
  {
    r.Success? ==> !r.response.body.BoxedStream?
  }

  /** Adapting loses nothing: the handler's result can be recovered from it. */
  lemma AdaptRoundTrip(p: Pattern, r: Outcome)
    requires Unboxed(r)
    ensures Unadapt(p, Adapt(p, r)) == r
  {
    match r
    case Failure(_) =>
    case Success(Response(md, body)) =>
      match body
      case Single(_) =>
      case Stream(_) =>
  }

  /** The first arm whose path literal equals `path`, as a `match` on a
      string picks it. */
  function Lookup(routes: seq<Route>, path: string): (r: Option<nat>)
    ensures r.Some? ==> r.value < |routes| && routes[r.value].path == path
    ensures r.Some? ==> forall j :: 0 <= j < r.value ==> routes[j].path != path
    ensures r.None? <==> forall j :: 0 <= j < |routes| ==> routes[j].path != path
  {
    FirstMatch(routes, (arm: Route) => arm.path == path)
  }

  /** What one `call` of the generated service does: an arm hands the
      adapted handler result to its `grpc` entry point; when no arm matches,
      `unimplemented!("use grpc unimplemented")` panics. */
  datatype CallResult = Served(entry: GrpcCall, outcome: Outcome) | Panicked(message: string)

  /** `ServerSvc::call`. `handler(ident, req)` stands for
      `inner.#ident(request).await` on the shared service implementation. */
  function Call(routes: seq<Route>, handler: (string, Request) -> Outcome, req: Request): CallResult
  {
    match Lookup(routes, req.path)
    case None => Panicked("not implemented: use grpc unimplemented")
    case Some(i) =>
      var arm := routes[i];
      Served(EntryPoint(arm.pattern), Adapt(arm.pattern, handler(arm.handler, req)))
  }

  /** No two arms share a path. */
  predicate DistinctPaths(routes: seq<Route>)
  {
    forall i, j :: 0 <= i < j < |routes| ==> routes[i].path != routes[j].path
  }

  /** No two bound methods share a wire name. */
  predicate DistinctProtoNames(ps: seq<Pair>)
  {
    forall i, j :: 0 <= i < j < |ps| ==> ps[i].0.protoName != ps[j].0.protoName
  }

  /** When paths are distinct, every arm is reached by its own path. */
  lemma LookupOwnPath(routes: seq<Route>, k: nat)
    requires DistinctPaths(routes) && k < |routes|
    ensures Lookup(routes, routes[k].path) == Some(k)
  {
  }

  /** Distinct wire names give the route table distinct paths. */
  lemma {:induction false} DistinctRoutes(def: ServiceDef)
    requires DistinctProtoNames(def.methods)
    ensures DistinctPaths(RouteTable(def))
  {
    var routes := RouteTable(def);
    RouteTableArms(def);
    forall i, j | 0 <= i < j < |routes| ensures routes[i].path != routes[j].path {
      if routes[i].path == routes[j].path {
        RoutePathInjective(def.package, def.protoName, def.methods[i].0.protoName, def.methods[j].0.protoName);
      }
    }
  }

  /** A request is served exactly when its path lies within the service and
      names a bound method; every other path reaches `unimplemented!`. */
  lemma CallServedIffBound(def: ServiceDef, handler: (string, Request) -> Outcome, req: Request)
    ensures Call(RouteTable(def), handler, req).Served? <==>
            exists k :: 0 <= k < |def.methods| &&
                        MethodOfPath(def.package, def.protoName, req.path) == Some(def.methods[k].0.protoName)
  {
    var routes := RouteTable(def);
    RouteTableArms(def);
    var r := Lookup(routes, req.path);
    if r.Some? {
      var k := r.value;
      MethodOfRoutePath(def.package, def.protoName, def.methods[k].0.protoName);
    } else {
      forall k | 0 <= k < |def.methods|
        ensures MethodOfPath(def.package, def.protoName, req.path) != Some(def.methods[k].0.protoName)
      {
        if MethodOfPath(def.package, def.protoName, req.path) == Some(def.methods[k].0.protoName) {
          RoutePathOfMethod(def.package, def.protoName, req.path, def.methods[k].0.protoName);
        }
      }
    }
  }

  /** End to end: in a service bound from an impl block, with distinct wire
      names, a request to a bound method's route path runs the async
      function of that method's name through the adapter and `grpc` entry
      point of the method's pattern. */
  lemma CallReachesBoundHandler(items: seq<ImplItem>, declared: seq<Method>, def: ServiceDef, k: nat,
                                handler: (string, Request) -> Outcome, req: Request)
    requires def.methods == Pairing.PairAll(items, declared).paired
    requires DistinctProtoNames(def.methods)
    requires k < |def.methods|
    requires req.path == RoutePath(def.package, def.protoName, def.methods[k].0.protoName)
    ensures var m := def.methods[k].0;
            var p := Classify(m.clientStreaming, m.serverStreaming);
            Call(RouteTable(def), handler, req) == Served(EntryPoint(p), Adapt(p, handler(m.name, req)))
  {
    RouteTableArms(def);
    DistinctRoutes(def);
    LookupOwnPath(RouteTable(def), k);
    Pairing.PairedNamesMatch(items, declared);
  }
}
