/**
 * The response marshaller: how the completion of an invoked function is
 * turned into the status, headers and body written to the client.
 */
module Responses {
  import opened Wrappers
  import opened Js

  type Headers = map<string, string>

  /** What the invoked function passes to its completion callback `(err, result, headers)`. */
  datatype Completion =
    | Failed(message: string)
    | Succeeded(result: JsValue, headers: Option<Headers>)

  /** A body as handed to `res.end`: a value passed through untouched, or text. */
  datatype Body = Raw(value: JsValue) | Text(text: string)

  /** The arguments of `res.writeHead` and `res.end`. */
  datatype Response = Response(status: int, headers: Option<Headers>, body: Body)

  const PlainText: Headers := map["Content-Type" := "text/plain"]
  const ErrorPrefix := "Error: "

  /** The plain-text 400 reply for an error; its message can be read back from the body. */
  function ErrorResponse(message: string): (r: Response)
    ensures r.status == 400 && r.headers == Some(PlainText) && r.body.Text?
    ensures |r.body.text| == |ErrorPrefix| + |message|
    ensures r.body.text[..|ErrorPrefix|] == ErrorPrefix && r.body.text[|ErrorPrefix|..] == message
  {
    Response(400, Some(PlainText), Text(ErrorPrefix + message))
  }

  /**
   * `result instanceof Buffer || typeof result !== 'object'`: the result is
   * sent as it is. `SerialisedExactly` characterises it and `Marshal` uses it.
   */
  predicate SentRaw(v: JsValue) {
    v.Buffer? || TypeOf(v) != "object"
  }

  /** Only `null`, arrays and plain objects are serialised; everything else is sent raw. */
  lemma SerialisedExactly(v: JsValue)
    ensures !SentRaw(v) <==> v.Null? || v.Array? || v.Object?
  {
  }

  /**
   * The response for a completion. `stringify` is `JSON.stringify`, None
   * standing for a throw (a cyclic structure, for one).
   */
  function Marshal(c: Completion, stringify: JsValue -> Option<string>): (r: Response)
    ensures r.status == 400 <==> c.Failed?
    ensures r.status == 200 <==> c.Succeeded?
    ensures c.Failed? ==> r == ErrorResponse(c.message)
    ensures c.Succeeded? ==> r.headers == c.headers
    ensures c.Succeeded? ==> (r.body.Raw? <==> !(c.result.Null? || c.result.Array? || c.result.Object?))
    ensures r.body.Raw? ==> c.Succeeded? && r.body.value == c.result
    ensures c.Succeeded? && r.body.Text? ==>
      r.body.text == (if stringify(c.result).Some? then stringify(c.result).value else "{}")
  {
    match c
    case Failed(message) => ErrorResponse(message)
    case Succeeded(result, headers) =>
      var body :=
        if SentRaw(result) then Raw(result)
        else match stringify(result)
          case Some(text) => Text(text)
          case None => Text("{}");
      Response(200, headers, body)
  }

  /** A structured result that cannot be serialised still succeeds, with body `{}`. */
  lemma UnserialisableGivesEmptyObject(result: JsValue, headers: Option<Headers>, stringify: JsValue -> Option<string>)
    requires result.Null? || result.Array? || result.Object?
    requires stringify(result) == None
    ensures Marshal(Succeeded(result, headers), stringify) == Response(200, headers, Text("{}"))
  {
  }

  /** A function failing with `boom` produces exactly `Error: boom`. */
  lemma BoomExample(stringify: JsValue -> Option<string>)
    ensures Marshal(Failed("boom"), stringify) == Response(400, Some(map["Content-Type" := "text/plain"]), Text("Error: boom"))
  {
  }
}
