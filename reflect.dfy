/**
 * The online argument resolver: how `send` prepares the request to the
 * reflect service, how reply bytes are collected, and how the reply is
 * classified into parsed parameters or a resolution error.
 */
module Reflect {
  import opened Wrappers
  import opened Js

  const ReflectHost := "f.stdlib.com"
  const ReflectPort := 443
  const ReflectPrefix := "/stdlib/reflect"

  /** The request headers `send` deletes, in the order it deletes them. */
  const StrippedHeaders := ["accept-encoding", "host"]

  const ConnectFailedMessage := "Could not connect to stdlib reflect"
  const UnexpectedReplyPrefix := "Unexpected stdlib reflect response: "

  /** A header object, mutated in place by `delete`. */
  class HeaderTable {
    var entries: map<string, string>

    constructor (initial: map<string, string>)
      ensures entries == initial
    {
      entries := initial;
    }

    /** `delete headers[key]`. */
    method Delete(key: string)
      modifies this
      ensures entries == old(entries) - {key}
    {
      entries := entries - {key};
    }
  }

  /** The map left after deleting `keys` one after the other. */
  function DeleteAll(m: map<string, string>, keys: seq<string>): (r: map<string, string>)
    ensures r.Keys == m.Keys - set k | k in keys
    ensures forall k :: k in r ==> r[k] == m[k]
    decreases |keys|
  {
    if keys == [] then m else DeleteAll(m - {keys[0]}, keys[1..])
  }

  /** The options `send` passes to the HTTPS request. */
  datatype RequestOptions = RequestOptions(
    hostname: string,
    port: int,
    path: string,
    verb: string,
    headers: HeaderTable,
    body: Bytes)

  /** The reflect request path for a query string; the query is recoverable from it. */
  function ReflectPath(search: string): (p: string)
    ensures |p| == |ReflectPrefix| + |search|
    ensures p[..|ReflectPrefix|] == ReflectPrefix
    ensures p[|ReflectPrefix|..] == search
  {
    ReflectPrefix + search
  }

  /**
   * The preparation `send` does before opening the request: absent
   * arguments take their defaults and the header object given by the
   * caller loses `accept-encoding` and `host` in place.
   */
  method PrepareSend(search: Option<string>, verb: Option<string>, headers: HeaderTable?, buffer: Option<Bytes>)
    returns (opts: RequestOptions)
    modifies headers
    ensures opts.hostname == ReflectHost && opts.port == ReflectPort
    ensures opts.path == ReflectPath(Or(search, ""))
    ensures opts.verb == Or(verb, "GET")
    ensures opts.body == (if buffer.Some? then buffer.value else [])
    ensures headers != null ==> opts.headers == headers
    ensures headers != null ==> opts.headers.entries == DeleteAll(old(headers.entries), StrippedHeaders)
    ensures headers == null ==> fresh(opts.headers) && opts.headers.entries == map[]
  {
    var table: HeaderTable;
    if headers == null {
      table := new HeaderTable(map[]);
    } else {
      table := headers;
    }
    var body := if buffer.Some? then buffer.value else [];
    ghost var before := table.entries;
    table.Delete("accept-encoding");
    table.Delete("host");
    assert table.entries == DeleteAll(before, StrippedHeaders) by {
      assert StrippedHeaders[1..][1..] == [];
    }
    opts := RequestOptions(ReflectHost, ReflectPort, ReflectPath(Or(search, "")), Or(verb, "GET"), table, body);
  }

  /**
   * `Buffer.concat(chunks)`: the chunks' bytes, in order. This is the
   * specification of `ChunkBuffer.Concat`; its properties are stated by
   * `FlattenAppend` and `ChunkBuffer.Push`.
   */
  function Flatten(chunks: seq<Bytes>): (r: Bytes)
  {
    if chunks == [] then [] else Flatten(chunks[..|chunks| - 1]) + chunks[|chunks| - 1]
  }

  /** Concatenation of chunk lists is concatenation of their bytes. */
  lemma {:induction false} FlattenAppend(a: seq<Bytes>, b: seq<Bytes>)
    ensures Flatten(a + b) == Flatten(a) + Flatten(b)
    decreases |b|
  {
    if b != [] {
      var last := b[|b| - 1];
      assert (a + b)[..|a + b| - 1] == a + b[..|b| - 1];
      FlattenAppend(a, b[..|b| - 1]);
    } else {
      assert a + b == a;
    }
  }

  /** The body chunks a stream delivered, collected with `push`. */
  class ChunkBuffer {
    var chunks: seq<Bytes>

    constructor ()
      ensures chunks == []
    {
      chunks := [];
    }

    /** `buffers.push(chunk)`: the collected bytes grow by the chunk at the end. */
    method Push(chunk: Bytes)
      modifies this
      ensures chunks == old(chunks) + [chunk]
      ensures Flatten(chunks) == old(Flatten(chunks)) + chunk
    {
      FlattenAppend(chunks, [chunk]);
      assert [chunk][..0] == [];
      chunks := chunks + [chunk];
    }

    /** `Buffer.concat(buffers)`. */
    method Concat() returns (bytes: Bytes)
      ensures bytes == Flatten(chunks)
    {
      bytes := [];
      var i := 0;
      while i < |chunks|
        invariant 0 <= i <= |chunks|
        invariant bytes == Flatten(chunks[..i])
      {
        assert chunks[..i + 1][..i] == chunks[..i];
        bytes := bytes + chunks[i];
        i := i + 1;
      }
      assert chunks[..|chunks|] == chunks;
    }
  }

  /**
   * `reflect`: once the client's body has been collected, forward its query
   * string, method, headers and bytes through `send`.
   */
  method ReflectRequest(search: Option<string>, verb: string, headers: HeaderTable, body: ChunkBuffer)
    returns (opts: RequestOptions)
    modifies headers
    ensures opts.path == ReflectPath(Or(search, "")) && opts.verb == Or(Some(verb), "GET")
    ensures opts.headers == headers && headers.entries == DeleteAll(old(headers.entries), StrippedHeaders)
    ensures opts.body == Flatten(body.chunks)
  {
    var bytes := body.Concat();
    opts := PrepareSend(search, Some(verb), headers, Some(bytes));
  }

  /** What came back from the reflect service: a transport failure or the reply body's chunks. */
  datatype Reply = ConnectFailed | Received(chunks: seq<Bytes>)

  /** The outcome handed to the resolution callback. */
  datatype Resolution = Resolved(json: JsValue) | ResolutionError(message: string)

  /**
   * The reply classification: a transport failure gives a fixed message; a
   * body that does not parse gives a message carrying the raw text; any
   * parsed value is passed on as it is. `decode` is `Buffer.toString` and
   * `parse` is `JSON.parse`, None standing for a throw.
   */
  function Classify(reply: Reply, decode: Bytes -> string, parse: string -> Option<JsValue>): (r: Resolution)
    ensures reply.ConnectFailed? ==> r == ResolutionError(ConnectFailedMessage)
    ensures reply.Received? ==> (r.Resolved? <==> parse(decode(Flatten(reply.chunks))).Some?)
    ensures reply.Received? && r.Resolved? ==> Some(r.json) == parse(decode(Flatten(reply.chunks)))
    ensures reply.Received? && r.ResolutionError? ==>
      |r.message| >= |UnexpectedReplyPrefix|
      && r.message[..|UnexpectedReplyPrefix|] == UnexpectedReplyPrefix
      && r.message[|UnexpectedReplyPrefix|..] == decode(Flatten(reply.chunks))
  {
    match reply
    case ConnectFailed => ResolutionError(ConnectFailedMessage)
    case Received(chunks) =>
      var text := decode(Flatten(chunks));
      match parse(text)
      case None => ResolutionError(UnexpectedReplyPrefix + text)
      case Some(json) => Resolved(json)
  }

  /** The two error messages can be told apart: a transport failure never looks like an unparsable reply. */
  lemma ErrorsDistinguishable(reply: Reply, decode: Bytes -> string, parse: string -> Option<JsValue>)
    requires Classify(reply, decode, parse).ResolutionError?
    ensures reply.ConnectFailed? <==> Classify(reply, decode, parse).message == ConnectFailedMessage
  {
  }

  /** The example of an unparsable reply: the text `not-json` comes back inside the error. */
  lemma NotJsonExample(decode: Bytes -> string, parse: string -> Option<JsValue>, chunks: seq<Bytes>)
    requires decode(Flatten(chunks)) == "not-json" && parse("not-json") == None
    ensures Classify(Received(chunks), decode, parse) == ResolutionError("Unexpected stdlib reflect response: not-json")
  {
  }
}
