/**
 * The XinFin JSON-RPC compatibility proxy (proxy/server.js).
 *
 * XinFin nodes write addresses as "xdc…" where Ethereum tooling expects "0x…". The proxy
 * rewrites every nested string value of a JSON-RPC response that starts with "xdc", and on
 * the way in it asks the node for the "latest" block instead of "pending" for two methods.
 * JSON text is not modelled: a parse is an `Option<Json>` and serialisation is left out.
 */
module ProxyRewrite {
  import opened Wrappers

  /** A parsed JSON value. A number keeps its literal text: the proxy never looks inside it. */
  datatype Json =
    | JNull
    | JBool(b: bool)
    | JNumber(literal: string)
    | JString(s: string)
    | JArray(items: seq<Json>)
    | JObject(fields: seq<(string, Json)>)

  /** `/^xdc/.test(s)` */
  predicate HasXdcPrefix(s: string) {
    |s| >= 3 && s[..3] == "xdc"
  }

  /** `s.replace(/^xdc/, "0x")` on a string the regular expression matches. */
  function ReplaceXdcPrefix(s: string): (r: string)
    requires HasXdcPrefix(s)
    ensures |r| == |s| - 1
    ensures r[..2] == "0x" && r[2..] == s[3..]
    ensures !HasXdcPrefix(r)
  {
    var r := "0x" + s[3..];
    assert r[1] == 'x' != s[1];
    r
  }

  /**
   * The inner `mapValue`: applied to every element of an array and every value of an object.
   * A string starting with "xdc" is rewritten; anything of `typeof "object"` (null, an array,
   * an object) goes back through `Traverse`; every other value is returned as it is.
   */
  function MapValue(v: Json): (r: Json)
    decreases v, 1
    ensures v.JString? ==> r.JString? && (if HasXdcPrefix(v.s) then r.s == ReplaceXdcPrefix(v.s) else r == v)
    ensures v.JNull? || v.JBool? || v.JNumber? ==> r == v
  {
    if v.JString? && HasXdcPrefix(v.s) then JString(ReplaceXdcPrefix(v.s))
    else if v.JNull? || v.JArray? || v.JObject? then Traverse(v)
    else v
  }

  /**
   * `traverseObjRec`: an array is mapped element-wise and an object entry-wise (keys kept, in
   * order); anything else, a top-level string included, is returned unchanged.
   */
  function Traverse(obj: Json): (r: Json)
    decreases obj, 0
    ensures r.JArray? <==> obj.JArray?
    ensures r.JObject? <==> obj.JObject?
    ensures !obj.JArray? && !obj.JObject? ==> r == obj
  {
    match obj
    case JArray(items) =>
      JArray(seq(|items|, i requires 0 <= i < |items| => MapValue(items[i])))
    case JObject(fields) =>
      JObject(seq(|fields|, i requires 0 <= i < |fields| => (fields[i].0, MapValue(fields[i].1))))
    case _ => obj
  }

  /**
   * The response interceptor's body: a response that `JSON.parse` rejects is replaced by `{}`
   * before the rewrite.
   */
  function RewriteResponse(parsed: Option<Json>): (r: Json)
    ensures parsed.None? ==> r == JObject([])
    ensures parsed.Some? ==> r == Traverse(parsed.value)
    ensures parsed.Some? ==> SameShape(parsed.value, r)
    ensures NoXdcBelow(r)
  {
    var data := if parsed.Some? then parsed.value else JObject([]);
    TraverseShape(data);
    TraverseCleans(data);
    Traverse(data)
  }

  // ----- Shape -----------------------------------------------------------------------------

  /**
   * `a` and `b` have the same tree shape: the same kind of node everywhere, arrays of the same
   * length, objects with the same keys in the same order, and equal non-string leaves. Strings
   * may differ.
   */
  predicate SameShape(a: Json, b: Json)
    decreases a
  {
    match (a, b)
    case (JString(_), JString(_)) => true
    case (JArray(xs), JArray(ys)) =>
      |xs| == |ys| && forall i :: 0 <= i < |xs| ==> SameShape(xs[i], ys[i])
    case (JObject(fs), JObject(gs)) =>
      |fs| == |gs| && forall i :: 0 <= i < |fs| ==> fs[i].0 == gs[i].0 && SameShape(fs[i].1, gs[i].1)
    case _ => a == b
  }

  lemma {:induction false} TraverseShape(obj: Json)
    ensures SameShape(obj, Traverse(obj))
    decreases obj, 0
  {
    match obj
    case JArray(items) =>
      forall i | 0 <= i < |items| ensures SameShape(items[i], Traverse(obj).items[i]) {
        MapValueShape(items[i]);
      }
    case JObject(fields) =>
      forall i | 0 <= i < |fields| ensures SameShape(fields[i].1, Traverse(obj).fields[i].1) {
        MapValueShape(fields[i].1);
      }
    case _ =>
  }

  lemma {:induction false} MapValueShape(v: Json)
    ensures SameShape(v, MapValue(v))
    decreases v, 1
  {
    if v.JNull? || v.JArray? || v.JObject? {
      TraverseShape(v);
    }
  }

  // ----- Pointwise behaviour ---------------------------------------------------------------

  /** One step down a JSON tree: the i-th element of an array, or the i-th entry of an object. */
  datatype Step = Item(index: nat) | Member(index: nat)

  /** The value reached from `j` along `path`, if there is one. */
  function At(j: Json, path: seq<Step>): Option<Json>
    decreases |path|
  {
    if path == [] then Some(j)
    else match (j, path[0])
      case (JArray(items), Item(i)) => if i < |items| then At(items[i], path[1..]) else None
      case (JObject(fields), Member(i)) => if i < |fields| then At(fields[i].1, path[1..]) else None
      case _ => None
  }

  /**
   * Every value strictly below the root is replaced by its `MapValue`, and no position
   * appears or disappears.
   */
  lemma {:induction false} TraverseAt(obj: Json, path: seq<Step>)
    requires path != []
    ensures At(Traverse(obj), path) == if At(obj, path).Some? then Some(MapValue(At(obj, path).value)) else None
    decreases |path|, 0
  {
    var rest := path[1..];
    match (obj, path[0])
    case (JArray(items), Item(i)) =>
      if i < |items| && rest != [] {
        MapValueAt(items[i], rest);
      }
    case (JObject(fields), Member(i)) =>
      if i < |fields| && rest != [] {
        MapValueAt(fields[i].1, rest);
      }
    case _ =>
  }

  lemma {:induction false} MapValueAt(v: Json, path: seq<Step>)
    requires path != []
    ensures At(MapValue(v), path) == if At(v, path).Some? then Some(MapValue(At(v, path).value)) else None
    decreases |path|, 1
  {
    if v.JNull? || v.JArray? || v.JObject? {
      TraverseAt(v, path);
    }
  }

  // ----- No "xdc" left, fixpoints, idempotence ---------------------------------------------

  /** No string value strictly below the root starts with "xdc". */
  predicate NoXdcBelow(j: Json)
    decreases j, 0
  {
    match j
    case JArray(items) => forall i :: 0 <= i < |items| ==> CleanValue(items[i])
    case JObject(fields) => forall i :: 0 <= i < |fields| ==> CleanValue(fields[i].1)
    case _ => true
  }

  /** A value in an array or object position that the rewrite has nothing to do to. */
  predicate CleanValue(v: Json)
    decreases v, 1
  {
    (v.JString? ==> !HasXdcPrefix(v.s)) && NoXdcBelow(v)
  }

  lemma {:induction false} TraverseCleans(obj: Json)
    ensures NoXdcBelow(Traverse(obj))
    decreases obj, 0
  {
    match obj
    case JArray(items) =>
      forall i | 0 <= i < |items| ensures CleanValue(Traverse(obj).items[i]) {
        MapValueCleans(items[i]);
      }
    case JObject(fields) =>
      forall i | 0 <= i < |fields| ensures CleanValue(Traverse(obj).fields[i].1) {
        MapValueCleans(fields[i].1);
      }
    case _ =>
  }

  lemma {:induction false} MapValueCleans(v: Json)
    ensures CleanValue(MapValue(v))
    decreases v, 1
  {
    if v.JNull? || v.JArray? || v.JObject? {
      TraverseCleans(v);
    }
  }

  /** The rewrite leaves a tree alone exactly when no nested string value starts with "xdc". */
  lemma {:induction false} TraverseFixpoint(obj: Json)
    ensures Traverse(obj) == obj <==> NoXdcBelow(obj)
    decreases obj, 0
  {
    match obj
    case JArray(items) =>
      var r := Traverse(obj).items;
      forall i | 0 <= i < |items| ensures r[i] == items[i] <==> CleanValue(items[i]) {
        MapValueFixpoint(items[i]);
      }
      if NoXdcBelow(obj) {
        assert r == items;
      } else {
        var i :| 0 <= i < |items| && !CleanValue(items[i]);
        assert r[i] != items[i];
      }
    case JObject(fields) =>
      var r := Traverse(obj).fields;
      forall i | 0 <= i < |fields| ensures r[i].1 == fields[i].1 <==> CleanValue(fields[i].1) {
        MapValueFixpoint(fields[i].1);
      }
      if NoXdcBelow(obj) {
        assert r == fields;
      } else {
        var i :| 0 <= i < |fields| && !CleanValue(fields[i].1);
        assert r[i].1 != fields[i].1;
      }
    case _ =>
  }

  lemma {:induction false} MapValueFixpoint(v: Json)
    ensures MapValue(v) == v <==> CleanValue(v)
    decreases v, 1
  {
    if v.JString? && HasXdcPrefix(v.s) {
      assert MapValue(v).s[..2] == "0x";
    } else if v.JNull? || v.JArray? || v.JObject? {
      TraverseFixpoint(v);
    }
  }

  /** Rewriting twice is rewriting once: a rewritten value starts with "0x", never "xdc". */
  lemma TraverseIdempotent(obj: Json)
    ensures Traverse(Traverse(obj)) == Traverse(obj)
  {
    TraverseCleans(obj);
    TraverseFixpoint(Traverse(obj));
  }

  // ----- Request side ----------------------------------------------------------------------

  /** The JSON-RPC methods for which the proxy replaces a "pending" block tag. */
  predicate PrefersLatest(rpcMethod: Json) {
    rpcMethod == JString("eth_getTransactionCount") || rpcMethod == JString("eth_call")
  }

  /** The request's `params` after the `onProxyReq` rule. */
  function NormalizedParams(rpcMethod: Json, params: seq<Json>): (r: seq<Json>)
    ensures |r| == |params|
    ensures forall i | 0 <= i < |params| && i != 1 :: r[i] == params[i]
    ensures r != params <==> PrefersLatest(rpcMethod) && |params| > 1 && params[1] == JString("pending")
    ensures r != params ==> r[1] == JString("latest")
  {
    if PrefersLatest(rpcMethod) && |params| > 1 && params[1] == JString("pending") then
      params[1 := JString("latest")]
    else
      params
  }

  /** The rule applied to its own output changes nothing more. */
  lemma NormalizedParamsIdempotent(rpcMethod: Json, params: seq<Json>)
    ensures NormalizedParams(rpcMethod, NormalizedParams(rpcMethod, params)) == NormalizedParams(rpcMethod, params)
  {
  }

  /**
   * The `onProxyReq` rule, in place on the request's `params` array. `rpcMethod` is the request's
   * `method` field (JNull when it is missing: neither is one of the two names). `params` is null
   * when the request has no `params`: reading `params[1]` then throws, which `thrown` reports.
   */
  method PreferLatest(rpcMethod: Json, params: array?<Json>) returns (thrown: bool)
    modifies params
    ensures thrown <==> PrefersLatest(rpcMethod) && params == null
    ensures params != null ==> params[..] == NormalizedParams(rpcMethod, old(params[..]))
  {
    thrown := false;
    if PrefersLatest(rpcMethod) {
      if params == null {
        thrown := true;
      } else if params.Length > 1 && params[1] == JString("pending") {
        params[1] := JString("latest");
      }
    }
  }
}
