/**
 Binding the async functions of the user's `impl` block to the declared
 methods of the service (`parse_service_impl`). Items are visited in source
 order; each async method takes the first declared method with the same name
 out of the declared list, and the pair is appended to the bound methods.
 */
module Pairing {
  import opened ServiceModel

  /** The position of the first method called `name`, as
      `iter().enumerate().find(|(_, m)| m.name == name)` yields it. */
  function FindByName(ms: seq<Method>, name: string): (r: Option<nat>)
    ensures r.Some? ==> r.value < |ms| && ms[r.value].name == name
    ensures r.Some? ==> forall j :: 0 <= j < r.value ==> ms[j].name != name
    ensures r.None? <==> forall j :: 0 <= j < |ms| ==> ms[j].name != name
  {
    FirstMatch(ms, (m: Method) => m.name == name)
  }

  /** `Vec::remove(i)`: the list without its `i`-th element. */
  function RemoveAt(ms: seq<Method>, i: nat): (r: seq<Method>)
    requires i < |ms|
    ensures |r| == |ms| - 1
    ensures forall j :: 0 <= j < i ==> r[j] == ms[j]
    ensures forall j :: i <= j < |r| ==> r[j] == ms[j + 1]
    ensures multiset(r) + multiset{ms[i]} == multiset(ms)
  {
    assert ms == ms[..i] + [ms[i]] + ms[i + 1..];
    ms[..i] + ms[i + 1..]
  }

  /** What the loop has built so far: the bound pairs and what is left of
      the declared list. */
  datatype Binding = Binding(paired: seq<Pair>, remaining: seq<Method>)

  /** One async function called `ident` takes the first remaining declared
      method of that name, if there is one. */
  function Pick(b: Binding, ident: string): Binding
  {
    match FindByName(b.remaining, ident)
    case None => b
    case Some(i) => Binding(b.paired + [(b.remaining[i], ident)], RemoveAt(b.remaining, i))
  }

  /** One iteration of the loop over the impl items. */
  function Step(b: Binding, item: ImplItem): Binding
  {
    match item
    case MethodItem(isAsync, ident) => if isAsync then Pick(b, ident) else b
    case OtherItem => b
  }

  /** The state after visiting all of `items`, starting from `declared`. */
  function PairAll(items: seq<ImplItem>, declared: seq<Method>): Binding
    decreases |items|
  {
    if items == [] then Binding([], declared)
    else Step(PairAll(items[..|items| - 1], declared), items[|items| - 1])
  }

  /** `parse_service_impl`. A `self_ty` that is not a path type panics
      ("wrong type!") before any item is looked at. */
  method ParseServiceImpl(item: ItemImpl, service: Service, protoPath: string) returns (r: Result<ServiceDef>)
    ensures r.Panic? <==> !item.selfTy.PathType?
    ensures r.Ok? ==> r.value == ServiceDef(item.selfTy.path, service.name, service.package,
                                            service.protoName, protoPath,
                                            PairAll(item.items, service.methods).paired)
  {
    if !item.selfTy.PathType? {
      return Panic("wrong type!");
    }
    var name := item.selfTy.path;
    var declared := service.methods;
    var methods: seq<Pair> := [];
    for k := 0 to |item.items|
      invariant Binding(methods, declared) == PairAll(item.items[..k], service.methods)
    {
      ghost var before := Binding(methods, declared);
      assert item.items[..k + 1] == item.items[..k] + [item.items[k]];
      PairAllStep(item.items[..k], item.items[k], service.methods);
      match item.items[k] {
        case MethodItem(isAsync, ident) =>
          if isAsync {
            var found := FindByName(declared, ident);
            if found.Some? {
              var i := found.value;
              var m := declared[i];
              declared := RemoveAt(declared, i);
              methods := methods + [(m, ident)];
            }
          }
        case OtherItem =>
      }
      assert Binding(methods, declared) == Step(before, item.items[k]);
    }
    assert item.items[..|item.items|] == item.items;
    r := Ok(ServiceDef(name, service.name, service.package, service.protoName, protoPath, methods));
  }

  // ---------------------------------------------------------------------
  // Views of the items and of the pairs.

  /** The identifiers of the async methods among `items`, in source order. */
  function AsyncIdents(items: seq<ImplItem>): seq<string>
    decreases |items|
  {
    if items == [] then []
    else
      var last := items[|items| - 1];
      AsyncIdents(items[..|items| - 1])
        + (if last.MethodItem? && last.isAsync then [last.ident] else [])
  }

  /** The declared methods of the pairs, in pair order. */
  function Methods(ps: seq<Pair>): seq<Method>
    decreases |ps|
  {
    if ps == [] then [] else Methods(ps[..|ps| - 1]) + [ps[|ps| - 1].0]
  }

  /** The handler identifiers of the pairs, in pair order. */
  function Idents(ps: seq<Pair>): seq<string>
    decreases |ps|
  {
    if ps == [] then [] else Idents(ps[..|ps| - 1]) + [ps[|ps| - 1].1]
  }

  /** The methods of `ms` called `name`, in order. */
  function Named(ms: seq<Method>, name: string): seq<Method>
    decreases |ms|
  {
    if ms == [] then []
    else (if ms[0].name == name then [ms[0]] else []) + Named(ms[1..], name)
  }

  /** `a` can be obtained from `b` by deleting elements. */
  predicate Subsequence(a: seq<string>, b: seq<string>)
    decreases |b|
  {
    a == [] ||
    (b != [] &&
     ((a[|a| - 1] == b[|b| - 1] && Subsequence(a[..|a| - 1], b[..|b| - 1])) ||
      Subsequence(a, b[..|b| - 1])))
  }

  // ---------------------------------------------------------------------
  // Small facts about the views.

  lemma MethodsAppend(ps: seq<Pair>, p: Pair)
    ensures Methods(ps + [p]) == Methods(ps) + [p.0]
  {
    assert (ps + [p])[..|ps|] == ps;
  }

  lemma IdentsAppend(ps: seq<Pair>, p: Pair)
    ensures Idents(ps + [p]) == Idents(ps) + [p.1]
  {
    assert (ps + [p])[..|ps|] == ps;
  }

  lemma {:induction false} NamedConcat(a: seq<Method>, b: seq<Method>, name: string)
    ensures Named(a + b, name) == Named(a, name) + Named(b, name)
    decreases |a|
  {
    if a == [] {
      assert a + b == b;
    } else {
      var head := if a[0].name == name then [a[0]] else [];
      assert (a + b)[0] == a[0];
      assert (a + b)[1..] == a[1..] + b;
      NamedConcat(a[1..], b, name);
      assert Named(a + b, name) == head + Named(a[1..] + b, name);
      assert Named(a, name) == head + Named(a[1..], name);
    }
  }

  lemma {:induction false} NamedNone(ms: seq<Method>, name: string)
    requires forall j :: 0 <= j < |ms| ==> ms[j].name != name
    ensures Named(ms, name) == []
    decreases |ms|
  {
    if ms != [] {
      NamedNone(ms[1..], name);
    }
  }

  /** Removing a method of another name leaves the methods called `name` alone. */
  lemma NamedRemoveOther(ms: seq<Method>, i: nat, name: string)
    requires i < |ms| && ms[i].name != name
    ensures Named(RemoveAt(ms, i), name) == Named(ms, name)
  {
    assert ms == ms[..i] + ([ms[i]] + ms[i + 1..]);
    NamedConcat(ms[..i], [ms[i]] + ms[i + 1..], name);
    NamedConcat([ms[i]], ms[i + 1..], name);
    NamedConcat(ms[..i], ms[i + 1..], name);
    assert Named([ms[i]], name) == [] by {
      assert [ms[i]][1..] == [];
    }
  }

  /** Removing the first method called `name` drops the head of the methods of that name. */
  lemma NamedRemoveFirst(ms: seq<Method>, i: nat, name: string)
    requires i < |ms| && ms[i].name == name
    requires forall j :: 0 <= j < i ==> ms[j].name != name
    ensures Named(ms, name) != [] && Named(ms, name)[0] == ms[i]
    ensures Named(RemoveAt(ms, i), name) == Named(ms, name)[1..]
  {
    assert ms == ms[..i] + ([ms[i]] + ms[i + 1..]);
    NamedConcat(ms[..i], [ms[i]] + ms[i + 1..], name);
    NamedConcat([ms[i]], ms[i + 1..], name);
    NamedConcat(ms[..i], ms[i + 1..], name);
    NamedNone(ms[..i], name);
    assert Named([ms[i]], name) == [ms[i]] by {
      assert [ms[i]][1..] == [];
    }
  }

  lemma SubsequenceExtend(a: seq<string>, b: seq<string>, x: string)
    requires Subsequence(a, b)
    ensures Subsequence(a, b + [x])
  {
    assert (b + [x])[..|b|] == b;
  }

  lemma SubsequenceExtendBoth(a: seq<string>, b: seq<string>, x: string)
    requires Subsequence(a, b)
    ensures Subsequence(a + [x], b + [x])
  {
    assert (a + [x])[..|a|] == a;
    assert (b + [x])[..|b|] == b;
  }

  lemma AsyncIdentsStep(items: seq<ImplItem>, item: ImplItem)
    ensures item.MethodItem? && item.isAsync ==> AsyncIdents(items + [item]) == AsyncIdents(items) + [item.ident]
    ensures !(item.MethodItem? && item.isAsync) ==> AsyncIdents(items + [item]) == AsyncIdents(items)
  {
    assert (items + [item])[..|items|] == items;
    assert AsyncIdents(items) + [] == AsyncIdents(items);
  }

  lemma PairAllStep(items: seq<ImplItem>, item: ImplItem, declared: seq<Method>)
    ensures PairAll(items + [item], declared) == Step(PairAll(items, declared), item)
  {
    assert (items + [item])[..|items|] == items;
  }

  // ---------------------------------------------------------------------
  // What the pairing promises.

  /** No declared method is lost, duplicated or invented: the bound methods
      and what is left of the declared list together are a permutation of
      the declared list. */
  lemma {:induction false} PairingIsPermutation(items: seq<ImplItem>, declared: seq<Method>)
    ensures var b := PairAll(items, declared);
            multiset(Methods(b.paired)) + multiset(b.remaining) == multiset(declared)
    decreases |items|
  {
    if items != [] {
      var init := items[..|items| - 1];
      var b := PairAll(init, declared);
      PairingIsPermutation(init, declared);
      var last := items[|items| - 1];
      if last.MethodItem? && last.isAsync {
        var found := FindByName(b.remaining, last.ident);
        if found.Some? {
          MethodsAppend(b.paired, (b.remaining[found.value], last.ident));
        }
      }
    }
  }

  /** Every pair of `ps` binds a method to an identifier equal to its name. */
  ghost predicate NamesMatch(ps: seq<Pair>)
  {
    forall k :: 0 <= k < |ps| ==> ps[k].0.name == ps[k].1
  }

  lemma PickKeepsNamesMatch(b: Binding, ident: string)
    requires NamesMatch(b.paired)
    ensures NamesMatch(Pick(b, ident).paired)
  {
    var found := FindByName(b.remaining, ident);
    if found.Some? {
      var m := b.remaining[found.value];
      assert m.name == ident;
      var ps := b.paired + [(m, ident)];
      assert Pick(b, ident).paired == ps;
      forall k | 0 <= k < |ps| ensures ps[k].0.name == ps[k].1 {
        if k < |b.paired| { assert ps[k] == b.paired[k]; }
      }
    }
  }

  /** Every pair binds a method to an async function of exactly its name. */
  lemma {:induction false} PairedNamesMatch(items: seq<ImplItem>, declared: seq<Method>)
    ensures NamesMatch(PairAll(items, declared).paired)
    decreases |items|
  {
    if items != [] {
      var last := items[|items| - 1];
      PairedNamesMatch(items[..|items| - 1], declared);
      if last.MethodItem? && last.isAsync {
        PickKeepsNamesMatch(PairAll(items[..|items| - 1], declared), last.ident);
      }
    }
  }

  /** Pairs follow the order of the async functions in the impl block, and
      each pair's identifier is that of an async method item; non-async
      methods and non-method items contribute nothing. */
  lemma {:induction false} PairsFollowItemOrder(items: seq<ImplItem>, declared: seq<Method>)
    ensures Subsequence(Idents(PairAll(items, declared).paired), AsyncIdents(items))
    decreases |items|
  {
    if items != [] {
      var init := items[..|items| - 1];
      var last := items[|items| - 1];
      assert items == init + [last];
      var b := PairAll(init, declared);
      PairsFollowItemOrder(init, declared);
      AsyncIdentsStep(init, last);
      if last.MethodItem? && last.isAsync {
        var found := FindByName(b.remaining, last.ident);
        if found.Some? {
          IdentsAppend(b.paired, (b.remaining[found.value], last.ident));
          SubsequenceExtendBoth(Idents(b.paired), AsyncIdents(init), last.ident);
        } else {
          SubsequenceExtend(Idents(b.paired), AsyncIdents(init), last.ident);
        }
      }
    }
  }

  function Min(a: nat, b: nat): nat { if a <= b then a else b }

  /** The number of async methods called `name` among `items`. */
  function Implementations(items: seq<ImplItem>, name: string): nat
    decreases |items|
  {
    if items == [] then 0
    else
      var last := items[|items| - 1];
      Implementations(items[..|items| - 1], name)
        + (if last.MethodItem? && last.isAsync && last.ident == name then 1 else 0)
  }

  /** The methods called `name` are split at `k`: the first `k` of `all`
      are bound, in order, and the rest remain, in order. */
  ghost predicate SplitAt(b: Binding, name: string, all: seq<Method>, k: nat)
  {
    k <= |all| && Named(Methods(b.paired), name) == all[..k] && Named(b.remaining, name) == all[k..]
  }

  /** An async function called `name` binds the next method of that name. */
  lemma PickSameName(b: Binding, name: string, all: seq<Method>, k: nat)
    requires SplitAt(b, name, all, k)
    ensures SplitAt(Pick(b, name), name, all, if k < |all| then k + 1 else k)
  {
    var found := FindByName(b.remaining, name);
    if found.Some? {
      var i := found.value;
      var m := b.remaining[i];
      MethodsAppend(b.paired, (m, name));
      NamedConcat(Methods(b.paired), [m], name);
      assert Named([m], name) == [m] by { assert [m][1..] == []; }
      NamedRemoveFirst(b.remaining, i, name);
      assert all[..k + 1] == all[..k] + [all[k]];
    } else {
      NamedNone(b.remaining, name);
    }
  }

  /** An async function of another name leaves the methods called `name` alone. */
  lemma PickOtherName(b: Binding, ident: string, name: string, all: seq<Method>, k: nat)
    requires ident != name
    requires SplitAt(b, name, all, k)
    ensures SplitAt(Pick(b, ident), name, all, k)
  {
    var found := FindByName(b.remaining, ident);
    if found.Some? {
      var i := found.value;
      var m := b.remaining[i];
      MethodsAppend(b.paired, (m, ident));
      NamedConcat(Methods(b.paired), [m], name);
      assert Named([m], name) == [] by { assert [m][1..] == []; }
      NamedRemoveOther(b.remaining, i, name);
    }
  }

  /** One loop iteration, seen by the methods called `name`. */
  lemma StepByName(b: Binding, item: ImplItem, name: string, all: seq<Method>, c: nat)
    requires SplitAt(b, name, all, Min(c, |all|))
    ensures SplitAt(Step(b, item), name, all,
                    Min(c + (if item.MethodItem? && item.isAsync && item.ident == name then 1 else 0), |all|))
  {
    if item.MethodItem? && item.isAsync {
      if item.ident == name {
        PickSameName(b, name, all, Min(c, |all|));
      } else {
        PickOtherName(b, item.ident, name, all, Min(c, |all|));
      }
    }
  }

  /** Pairing by name is first-come, first-served: if `c` async functions are
      called `name` and `n` declared methods are, the first `min(c, n)` of
      those methods, in declaration order, are bound, and the rest stay in
      the declared list in their order. So a second async function of one
      name takes the next declared method of that name, or none. */
  lemma {:induction false} PairingByName(items: seq<ImplItem>, declared: seq<Method>, name: string)
    ensures var b := PairAll(items, declared);
            var k := Min(Implementations(items, name), |Named(declared, name)|);
            Named(Methods(b.paired), name) == Named(declared, name)[..k] &&
            Named(b.remaining, name) == Named(declared, name)[k..]
    decreases |items|
  {
    var all := Named(declared, name);
    if items == [] {
      assert all[..0] == [] && all[0..] == all;
    } else {
      var init := items[..|items| - 1];
      PairingByName(init, declared, name);
      StepByName(PairAll(init, declared), items[|items| - 1], name, all, Implementations(init, name));
    }
  }

  /** A declared method that no async function implements stays behind, and
      binding does not fail because of it. */
  lemma UnimplementedStaysBehind(items: seq<ImplItem>, declared: seq<Method>, name: string)
    requires Implementations(items, name) == 0
    ensures var b := PairAll(items, declared);
            Named(b.remaining, name) == Named(declared, name) &&
            Named(Methods(b.paired), name) == []
  {
    PairingByName(items, declared, name);
  }

  /** Pairing over a whole impl block is pairing over its async identifiers alone. */
  lemma {:induction false} OnlyAsyncItemsMatter(items: seq<ImplItem>, declared: seq<Method>)
    ensures PairAll(items, declared) == PairIdents(AsyncIdents(items), declared)
    decreases |items|
  {
    if items != [] {
      var init := items[..|items| - 1];
      var last := items[|items| - 1];
      assert items == init + [last];
      OnlyAsyncItemsMatter(init, declared);
      AsyncIdentsStep(init, last);
      if last.MethodItem? && last.isAsync {
        PairIdentsStep(AsyncIdents(init), last.ident, declared);
      }
    }
  }

  /** Pairing driven by a list of async function identifiers. */
  function PairIdents(idents: seq<string>, declared: seq<Method>): Binding
    decreases |idents|
  {
    if idents == [] then Binding([], declared)
    else Pick(PairIdents(idents[..|idents| - 1], declared), idents[|idents| - 1])
  }

  lemma PairIdentsStep(idents: seq<string>, ident: string, declared: seq<Method>)
    ensures PairIdents(idents + [ident], declared) == Pick(PairIdents(idents, declared), ident)
  {
    assert (idents + [ident])[..|idents|] == idents;
  }

  /** Two impl blocks with the same async functions in the same order bind
      the same way, whatever other items they hold. */
  lemma SameAsyncIdentsSamePairing(items1: seq<ImplItem>, items2: seq<ImplItem>, declared: seq<Method>)
    requires AsyncIdents(items1) == AsyncIdents(items2)
    ensures PairAll(items1, declared) == PairAll(items2, declared)
  {
    OnlyAsyncItemsMatter(items1, declared);
    OnlyAsyncItemsMatter(items2, declared);
  }
}
