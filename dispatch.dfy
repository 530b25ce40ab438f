/**
 * The request handler's resolution callback `response(err, params)`: what
 * it does with resolved parameters, and how the call list handed to the
 * function is assembled.
 */
module Dispatch {
  import opened Wrappers
  import opened Js
  import opened Reflect
  import opened Responses

  /** One entry of the call list: a value, or the completion callback. */
  datatype Arg = Value(v: JsValue) | Callback

  /** What the resolution callback does with one resolved request. */
  datatype Decision =
    | Threw(reason: string)
    | Replied(response: Response)
    | Invoke(modulePath: string, args: JsValue, kwargs: JsValue)

  const ReadOfNothing := "TypeError: cannot read property 'args' of undefined or null"

  /** The parameters of an offline request: no positional arguments, the query as keyword arguments, a loopback address. */
  function OfflineParams(query: map<string, JsValue>): (p: JsValue)
    ensures p.Object? && p.fields.Keys == {"args", "kwargs", "remoteAddress"}
    ensures p.fields["args"] == Array([]) && p.fields["kwargs"] == Object(query)
    ensures p.fields["remoteAddress"] == Str("::1")
  {
    Object(map["args" := Array([]), "kwargs" := Object(query), "remoteAddress" := Str("::1")])
  }

  /** The `err` argument the resolver passes to the callback: an Error exactly on a resolution error. */
  function ErrOf(r: Resolution): (err: Option<string>)
    ensures err.Some? <==> r.ResolutionError?
    ensures err.Some? ==> err.value == r.message
  {
    if r.ResolutionError? then Some(r.message) else None
  }

  /** The `params` argument the resolver passes to the callback: undefined on an error, the parsed reply otherwise. */
  function ParamsOf(r: Resolution): (params: JsValue)
    ensures r.ResolutionError? ==> params == Undefined
    ensures r.Resolved? ==> params == r.json
  {
    if r.Resolved? then r.json else Undefined
  }

  /** The module path the loader is asked for. */
  function ModulePath(pathname: string): (m: string)
    ensures |m| == |pathname| + 1 && m[0] == '.' && m[1..] == pathname
  {
    "." + pathname
  }

  /**
   * `response(err, params)` up to the point where it hands over to the
   * loader and the environment swap: the logging line reads `params.args`
   * first, then an error becomes a 400, and otherwise the function is to be
   * invoked with `params.args` and `params.kwargs`, whatever their shape
   * (the call itself, `Invocation.Process.Invoke`, decides what happens
   * when `args` is not an array).
   */
  function OnResolved(pathname: string, err: Option<string>, params: JsValue): (d: Decision)
    ensures d.Threw? <==> params.Undefined? || params.Null?
    ensures d.Replied? <==> err.Some? && !(params.Undefined? || params.Null?)
    ensures d.Replied? ==> d.response == ErrorResponse(err.value)
    ensures d.Invoke? <==> err.None? && !(params.Undefined? || params.Null?)
    ensures d.Invoke? ==>
      && d.modulePath == ModulePath(pathname)
      && d.args == (if params.Object? && "args" in params.fields then params.fields["args"] else Undefined)
      && d.kwargs == (if params.Object? && "kwargs" in params.fields then params.fields["kwargs"] else Undefined)
  {
    match GetProperty(params, "args")
    case None => Threw(ReadOfNothing)
    case Some(args) =>
      if err.Some? then Replied(ErrorResponse(err.value))
      else Invoke(ModulePath(pathname), args, GetProperty(params, "kwargs").value)
  }

  /**
   * `args.concat(kwargs, callback)`: the positional arguments, then the
   * keyword arguments (spread element by element when they are an array,
   * as `concat` does), then the completion callback.
   */
  function CallList(args: seq<JsValue>, kwargs: JsValue): (call: seq<Arg>)
    ensures |call| == |args| + (if kwargs.Array? then |kwargs.items| else 1) + 1
    ensures call[|call| - 1] == Callback
    ensures forall i :: 0 <= i < |call| - 1 ==> call[i].Value?
    ensures forall i :: 0 <= i < |args| ==> call[i] == Value(args[i])
    ensures !kwargs.Array? ==> call[|args|] == Value(kwargs)
    ensures kwargs.Array? ==> forall j :: 0 <= j < |kwargs.items| ==> call[|args| + j] == Value(kwargs.items[j])
  {
    var spread := if kwargs.Array? then kwargs.items else [kwargs];
    seq(|args| + |spread|, i requires 0 <= i < |args| + |spread| =>
      if i < |args| then Value(args[i]) else Value(spread[i - |args|])) + [Callback]
  }

  /** A resolution error never reaches the 400 branch: reading `params.args` throws first. */
  lemma ResolutionErrorThrows(pathname: string, r: Resolution)
    requires r.ResolutionError?
    ensures OnResolved(pathname, ErrOf(r), ParamsOf(r)).Threw?
  {
  }

  /** An offline request invokes the function with the query mapping alone, then the callback. */
  lemma OfflineInvocation(pathname: string, query: map<string, JsValue>)
    ensures OnResolved(pathname, None, OfflineParams(query)) == Invoke(ModulePath(pathname), Array([]), Object(query))
    ensures CallList([], Object(query)) == [Value(Object(query)), Callback]
  {
  }

  /** A parsed reply with positional `args` and keyword `kwargs` invokes the function with exactly those. */
  lemma OnlineInvocation(pathname: string, decode: Bytes -> string, parse: string -> Option<JsValue>,
                         chunks: seq<Bytes>, args: seq<JsValue>, kwargs: map<string, JsValue>)
    requires parse(decode(Flatten(chunks))) == Some(Object(map["args" := Array(args), "kwargs" := Object(kwargs)]))
    ensures var r := Classify(Received(chunks), decode, parse);
      OnResolved(pathname, ErrOf(r), ParamsOf(r)) == Invoke(ModulePath(pathname), Array(args), Object(kwargs))
    ensures CallList(args, Object(kwargs)) == seq(|args|, i requires 0 <= i < |args| => Value(args[i])) + [Value(Object(kwargs)), Callback]
  {
    var call := CallList(args, Object(kwargs));
    var expected := seq(|args|, i requires 0 <= i < |args| => Value(args[i])) + [Value(Object(kwargs)), Callback];
    assert |call| == |expected|;
    forall i | 0 <= i < |call| ensures call[i] == expected[i] {
    }
  }

  /** The reply `{"args":[1,2],"kwargs":{"a":"b"}}` calls the function with 1, 2, {a: "b"} and the callback. */
  lemma OnlineExample(decode: Bytes -> string, parse: string -> Option<JsValue>, chunks: seq<Bytes>)
    requires parse(decode(Flatten(chunks))) == Some(Object(map["args" := Array([Num(1), Num(2)]), "kwargs" := Object(map["a" := Str("b")])]))
    ensures var r := Classify(Received(chunks), decode, parse);
      var d := OnResolved("/add", ErrOf(r), ParamsOf(r));
      d.Invoke? && d.args.Array? && CallList(d.args.items, d.kwargs) == [Value(Num(1)), Value(Num(2)), Value(Object(map["a" := Str("b")])), Callback]
  {
    OnlineInvocation("/add", decode, parse, chunks, [Num(1), Num(2)], map["a" := Str("b")]);
  }

  /** A reply that parses to `null` throws as well. */
  lemma NullReplyThrows(pathname: string, decode: Bytes -> string, parse: string -> Option<JsValue>, chunks: seq<Bytes>)
    requires parse(decode(Flatten(chunks))) == Some(Null)
    ensures var r := Classify(Received(chunks), decode, parse);
      OnResolved(pathname, ErrOf(r), ParamsOf(r)) == Threw(ReadOfNothing)
  {
  }
}
