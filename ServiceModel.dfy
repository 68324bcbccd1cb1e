/**
 The entities the `#[tonic::server]` service macro works on: the declared
 protobuf service and its methods, the items of the user's `impl` block, and
 the service definition that pairs declared methods with their handlers.
 Only the fields the macro reads are kept.
 */
module ServiceModel {

  datatype Option<T> = None | Some(value: T)

  /** The position of the first element of `s` that satisfies `p`, as an
      iterator's `find` (or a `match` over its arms) meets it. */
  function FirstMatch<T>(s: seq<T>, p: T -> bool): (r: Option<nat>)
    ensures r.Some? ==> r.value < |s| && p(s[r.value])
    ensures r.Some? ==> forall j :: 0 <= j < r.value ==> !p(s[j])
    ensures r.None? <==> forall j :: 0 <= j < |s| ==> !p(s[j])
  {
    if s == [] then None
    else if p(s[0]) then Some(0)
    else match FirstMatch(s[1..], p)
      case None => None
      case Some(i) => Some(i + 1)
  }

  /** A value, or the panic message the macro aborts compilation with. */
  datatype Result<T> = Ok(value: T) | Panic(message: string)

  /** One rpc of the protobuf service (`crate::Method`). `name` is the Rust
      handler name, `protoName` the name on the wire. */
  datatype Method = Method(
    name: string,
    protoName: string,
    inputType: string,
    outputType: string,
    clientStreaming: bool,
    serverStreaming: bool)

  /** The protobuf service as declared (`crate::Service`). */
  datatype Service = Service(name: string, package: string, protoName: string, methods: seq<Method>)

  /** An item of the user's `impl` block: a method, async or not, with its
      identifier; or any other kind of item (constants, types, macros). */
  datatype ImplItem = MethodItem(isAsync: bool, ident: string) | OtherItem

  /** The implementing type of the `impl` block: a path type (`MyService`,
      `crate::a::MyService`) or any other form of type. */
  datatype SelfType = PathType(path: string) | OtherType

  /** The parts of the `impl` block the macro reads. */
  datatype ItemImpl = ItemImpl(selfTy: SelfType, items: seq<ImplItem>)

  /** A declared method together with the identifier of the async function
      implementing it. */
  type Pair = (Method, string)

  /** The bound service (`ServiceDef`). */
  datatype ServiceDef = ServiceDef(
    name: string,
    nameStr: string,
    package: string,
    protoName: string,
    protoPath: string,
    methods: seq<Pair>)
}
