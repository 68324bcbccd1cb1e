# tonic server macro: binding, route table and dispatch

This project models the core of `tonic-macros/src/service.rs`, the procedural
macro behind `#[tonic::server]`. Under the token templating, the macro does
three things, and the model proves properties of each:

1. **Binding** (`parse_service_impl`). The macro walks the items of the
   user's `impl` block in source order. Each `async` method takes the first
   declared protobuf method with the same name out of the declared list,
   and the pair `(method, ident)` is appended to the service definition.
   Non-async methods and other items are skipped. Declared methods without
   an implementation stay behind. If the implementing type is not a path
   type, the macro panics.
2. **Route table** (`generate_methods`). For every bound pair the macro
   emits one `match` arm, in pairing order. The arm's key is the route path
   `/{package}.{service}/{rpc}`. Its body comes from the interaction
   pattern that `(client_streaming, server_streaming)` selects: unary,
   server-streaming, client-streaming or bidirectional.
3. **Dispatch** (`call` of the generated `{Name}ServerSvc`). This is an
   exact string match on the request path, and the first equal arm wins.
   Any other path reaches `unimplemented!`. The selected arm runs the
   user's handler through the `tonic::server::Grpc` entry point of its
   pattern. The two streaming patterns box the stream inside an `Ok`
   response. The other two patterns pass the handler's result through.
   Errors are never touched.

Files:
- `ServiceModel.dfy`: the generic first-match search and the entities (`Method`, `Service`, `ImplItem`,
  `ItemImpl`, `ServiceDef`), with only the fields the macro reads.
- `Pairing.dfy`: the binding loop, written as an imperative method. It is
  proved equal to the left fold `PairAll`, and the lemmas below are about
  `PairAll`.
- `Routes.dfy`: the classifier, the route path and its inverse, the route
  table, and the `generate_methods` loop.
- `Dispatch.dfy`: first-match lookup, per-pattern result adaptation, and
  `call`, with end-to-end lemmas that join binding, routing and dispatch.

Where the code differs from the intended design of a gRPC binder, the model
follows the code:
- A declared method with no async implementation is silently left out of
  the service. No error is raised (`Pairing.UnimplementedStaysBehind`).
- Bound methods follow the order of the impl items, not the declaration
  order (`Pairing.PairsFollowItemOrder`).
- Nothing checks that method names or wire names are unique. If two bound
  methods share a wire name, both arms get the same path, and only the
  first arm can be reached (`Dispatch.Lookup`).
- An unmatched path panics through `unimplemented!`. It does not return an
  Unimplemented status (`Dispatch.Call`, `Dispatch.CallServedIffBound`).

## Model

| member | source | states |
|---|---|---|
| `ServiceModel.FirstMatch` | tonic-macros/src/service.rs:38-43 | The result is the first index whose element satisfies the predicate; `None` exactly when no element does. Both the name search and the path match use it. |
| `Pairing.FindByName` | tonic-macros/src/service.rs:38-43 | The result is the index of the first declared method with that name; `None` exactly when no method has it. |
| `Pairing.RemoveAt` | tonic-macros/src/service.rs:44 | `Vec::remove` shortens the list by one. Elements before `i` stay in place, and those after it shift left by one, in order. The result plus the removed element is the original multiset. |
| `Pairing.ParseServiceImpl` | tonic-macros/src/service.rs:16-59 | It panics exactly when `self_ty` is not a path type. Otherwise `name`, `name_str`, `package`, `proto_name` and `proto_path` are copied unchanged, and the bound methods are those of the fold `PairAll` over the impl items. |
| `Pairing.PairingIsPermutation` | tonic-macros/src/service.rs:38-45 | The bound methods plus what remains of the declared list are a permutation of the declared list: nothing is lost, duplicated or invented. |
| `Pairing.PairedNamesMatch` | tonic-macros/src/service.rs:35-45 | Every pair binds a method to an async function whose identifier equals the method's `name`. |
| `Pairing.PairsFollowItemOrder` | tonic-macros/src/service.rs:31-46 | The pair identifiers are a subsequence of the async method identifiers in impl-item order. Pairs therefore follow impl order, and non-async or non-method items contribute no pair. |
| `Pairing.PairingByName` | tonic-macros/src/service.rs:38-45 | Take `c` async functions and `n` declared methods with one name. Exactly the first `min(c, n)` of those methods, in declaration order, are bound, and the rest remain in order. A second function of the same name takes the next such method, or none. |
| `Pairing.UnimplementedStaysBehind` | tonic-macros/src/service.rs:38-46 | A declared method with no async function of its name is never bound and stays in the declared list. Binding does not fail because of it. |
| `Pairing.OnlyAsyncItemsMatter` | tonic-macros/src/service.rs:31-35 | Binding an impl block equals binding the sequence of its async method identifiers alone. |
| `Pairing.SameAsyncIdentsSamePairing` | tonic-macros/src/service.rs:31-35 | Two impl blocks with the same async methods in the same order bind identically, whatever other items they hold. |
| `Routes.Classify` | tonic-macros/src/service.rs:141-169 | The classifier is total. The pattern streams requests exactly when `client_streaming` holds and streams responses exactly when `server_streaming` holds, so the four flag pairs give four distinct patterns. |
| `Routes.ClassifyRecoversPattern` | tonic-macros/src/service.rs:141-169 | Every pattern is selected by its own streaming flags, so classification is a bijection. |
| `Routes.EntryPoint` | tonic-macros/src/service.rs:182-360 | Each pattern goes to its own `Grpc` entry point (`unary`, `server_streaming`, `client_streaming`, `streaming`), in both directions. |
| `Routes.MethodOfRoutePath` | tonic-macros/src/service.rs:135-138 | Parsing the route path `/{package}.{service}/{rpc}` within its service gives back `rpc`. |
| `Routes.RoutePathOfMethod` | tonic-macros/src/service.rs:135-138 | A path that parses to `rpc` within a service is exactly that service's route path for `rpc`. |
| `Routes.RoutePathInjective` | tonic-macros/src/service.rs:135-138 | Within one service, route paths of different wire names differ. |
| `Routes.RouteTableArms` | tonic-macros/src/service.rs:131-180 | There is exactly one arm per bound method, in pairing order. Arm `k` has method `k`'s route path, its classified pattern, the method itself and its handler identifier. |
| `Routes.GenerateMethods` | tonic-macros/src/service.rs:131-180 | The loop emits exactly the route table. |
| `Routes.Generate` | tonic-macros/src/service.rs:61-128 | The two server types are named `{name}Server` and `{name}ServerSvc`, and the names differ. Both hold the implementing type, and `call` matches over the route table. |
| `Dispatch.Adapt` | tonic-macros/src/service.rs:182-360 | Errors pass through untouched, and success stays success. Unary and client-streaming results are unchanged. For streaming patterns only the stream is boxed; metadata and stream items, including mid-stream error items, keep their content and order. |
| `Dispatch.AdaptRoundTrip` | tonic-macros/src/service.rs:245-255 | Adapting loses nothing: the handler's result can be recovered from the adapted one. |
| `Dispatch.Lookup` | tonic-macros/src/service.rs:121-124 | The match is an exact comparison and the first equal arm wins. No arm is chosen exactly when no arm's path equals the request path. |
| `Dispatch.LookupOwnPath` | tonic-macros/src/service.rs:121-124 | When all arm paths differ, each arm's own path selects that arm. |
| `Dispatch.DistinctRoutes` | tonic-macros/src/service.rs:134-138 | Distinct wire names among the bound methods give the route table distinct paths. |
| `Dispatch.CallServedIffBound` | tonic-macros/src/service.rs:118-126 | A request is served exactly when its path lies within the service and names a bound method. Every other path reaches `unimplemented!`. |
| `Dispatch.CallReachesBoundHandler` | tonic-macros/src/service.rs:118-126 | In a service bound from an impl block, with distinct wire names, a request to a bound method's route path runs the async function of that method's name. It goes through the adapter and the `Grpc` entry point of that method's pattern. |

## Left out

- Token generation (`quote!`, `TokenStream`, `format_ident!`, `Ident::new`, `syn::parse_str`). The route table `seq<Route>` stands for the emitted arms. The generated names are modelled as strings.
- Panics inside token generation: `syn::parse_str(..).unwrap()` on a malformed input or output type path, and `Ident::new` on a wire name that is not a valid identifier. Both abort compilation, and neither is modelled. So `input_type` and `output_type` are carried but not used.
- `crate::Method` and `crate::Service` are not part of this model. They are defined outside the core file, and minimal datatypes with only the fields the macro reads stand in for them.
- Async futures, `Box::pin` of futures, `BoxFuture`, `Arc` sharing and cloning, the `Clone` make-service and tower's `poll_ready`, which is always `Ready(Ok)`. These are runtime plumbing. The handler is modelled as a pure function from a handler identifier and a request to its result.
- `tonic::codec::ProstCodec` and `tonic::server::Grpc`: their decoding, encoding and framing are foreign code. The model records only which `Grpc` entry point an arm calls and the adapted handler result it hands over.
- `Dispatch.Adapt`: streams are modelled as finite sequences of items. Each item is a message or a mid-stream `Status` error, and the adapter passes every item through untouched and in order. Lazy, unbounded streams, cancellation and the interleaving of bidirectional streams are not captured. How `Grpc` frames a mid-stream error onto the wire is not modelled.
- The compiler's warnings for unreachable or duplicate match arms. Only first-match semantics is modelled.
