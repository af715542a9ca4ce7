/**
 * The request functions of src/molgenis-api-client.js and the shared
 * response handling (`isJsonResponse`, `handleResponse`).
 *
 * The transport (`fetch`) is a parameter: a function from the URL and the
 * options to the response it yields. A promise that settles is modelled by
 * `Settled`, either resolved or rejected with a value. Reading the body as
 * JSON is not carried out here: a response records what `response.json()`
 * would yield, a parsed document or a parse failure.
 */
module ApiClient {
  import opened Wrappers
  import opened ContentType
  import opened RequestOptions

  /** A parsed JSON document. */
  datatype Json =
    | JNull
    | JBool(b: bool)
    | JNumber(n: real)
    | JString(s: string)
    | JArray(items: seq<Json>)
    | JObject(members: map<string, Json>)

  /** What reading the body with `response.json()` yields. */
  datatype Body = Parsed(json: Json) | Malformed

  /** The transport's response: status, ok flag, `content-type` header (null when absent) and body. */
  datatype Response = Response(status: int, ok: bool, contentType: Option<string>, body: Body)

  /** The value a settled promise carries. */
  datatype Value =
    | Raw(response: Response)  // the response object itself, body unread
    | Decoded(json: Json)      // the parsed body
    | DecodeFailure            // the error `response.json()` rejects with

  datatype Settled = Resolved(value: Value) | Rejected(reason: Value) {
    /** The value carried, whichever way the promise settled. */
    function Carried(): Value {
      match this
      case Resolved(v) => v
      case Rejected(v) => v
    }
  }

  /** The request a call hands to the transport. */
  datatype Request = Request(url: string, options: Options)

  /** One call: the request issued and how its promise settles. */
  datatype Call = Call(request: Request, outcome: Settled)

  type Transport = (string, Options) -> Response

  /**
   * `isJsonResponse`: classify the response by its `content-type` header.
   * A response is JSON exactly when it has that header and the header
   * normalises to one of the two accepted media types.
   */
  predicate IsJsonResponse(response: Response)
    ensures IsJsonResponse(response) <==>
      response.contentType.Some? && Normalize(response.contentType.value) in {ApplicationJson, ApplicationJsonUtf8}
  {
    IsJson(response.contentType)
  }

  /**
   * `handleResponse`. A JSON response settles with its parsed body (or the
   * parse failure), a non-JSON one with the response object itself; either
   * way the promise resolves only when the response is ok.
   */
  function HandleResponse(response: Response): (s: Settled)
    ensures !IsJsonResponse(response) ==> s.Carried() == Raw(response)
    ensures IsJsonResponse(response) ==>
      s.Carried() == if response.body.Parsed? then Decoded(response.body.json) else DecodeFailure
    ensures s.Resolved? <==> response.ok && (IsJsonResponse(response) ==> response.body.Parsed?)
  {
    if IsJsonResponse(response) then
      match response.body
      case Parsed(json) => if response.ok then Resolved(Decoded(json)) else Rejected(Decoded(json))
      case Malformed => Rejected(DecodeFailure)
    else
      if response.ok then Resolved(Raw(response)) else Rejected(Raw(response))
  }

  /** Send the request and handle the response; the trailing `.then(response => response)` is the identity. */
  function Send(url: string, options: Options, transport: Transport): (c: Call)
    ensures c.request == Request(url, options)
    ensures c.outcome == HandleResponse(transport(url, options))
  {
    Call(Request(url, options), HandleResponse(transport(url, options)))
  }

  /**
   * The shared shape of `get`, `post`, `put` and `delete_`: merge the
   * caller's options over the defaults with the function's own method,
   * send, and handle the response.
   */
  function SendMerged(verb: string, url: string, options: Options, transport: Transport): (c: Call)
    ensures c.request == Request(url, MergeOptions(verb, options))
    ensures {MethodKey, HeadersKey, CredentialsKey} <= c.request.options.Keys
    ensures c.request.options[MethodKey] ==
      if MethodKey in options then options[MethodKey] else Text(verb)
    ensures c.request.options[CredentialsKey] ==
      if CredentialsKey in options then options[CredentialsKey] else Text(SameOrigin)
    ensures HeadersKey !in options ==> c.request.options[HeadersKey] == Record(DefaultHeaders())
    ensures c.outcome == HandleResponse(transport(url, c.request.options))
  {
    Send(url, MergeOptions(verb, options), transport)
  }

  function Get(url: string, options: Options, transport: Transport): (c: Call)
    ensures c.request == Request(url, MergeOptions("GET", options))
    ensures MethodKey in c.request.options
    ensures c.request.options[MethodKey] == if MethodKey in options then options[MethodKey] else Text("GET")
    ensures c.outcome == HandleResponse(transport(url, c.request.options))
  {
    SendMerged("GET", url, options, transport)
  }

  function Post(url: string, options: Options, transport: Transport): (c: Call)
    ensures c.request == Request(url, MergeOptions("POST", options))
    ensures MethodKey in c.request.options
    ensures c.request.options[MethodKey] == if MethodKey in options then options[MethodKey] else Text("POST")
    ensures c.outcome == HandleResponse(transport(url, c.request.options))
  {
    SendMerged("POST", url, options, transport)
  }

  function Put(url: string, options: Options, transport: Transport): (c: Call)
    ensures c.request == Request(url, MergeOptions("PUT", options))
    ensures MethodKey in c.request.options
    ensures c.request.options[MethodKey] == if MethodKey in options then options[MethodKey] else Text("PUT")
    ensures c.outcome == HandleResponse(transport(url, c.request.options))
  {
    SendMerged("PUT", url, options, transport)
  }

  /** `delete_`: `delete` is reserved in the source language. */
  function Delete(url: string, options: Options, transport: Transport): (c: Call)
    ensures c.request == Request(url, MergeOptions("DELETE", options))
    ensures MethodKey in c.request.options
    ensures c.request.options[MethodKey] == if MethodKey in options then options[MethodKey] else Text("DELETE")
    ensures c.outcome == HandleResponse(transport(url, c.request.options))
  {
    SendMerged("DELETE", url, options, transport)
  }

  /** `postFile`: a form body with one `file` field, POST, same-origin, and no merged defaults. */
  function PostFile(url: string, file: string, transport: Transport): (c: Call)
    ensures c.request == Request(url, PostFileOptions(file))
    ensures HeadersKey !in c.request.options
    ensures c.outcome == HandleResponse(transport(url, PostFileOptions(file)))
  {
    Send(url, PostFileOptions(file), transport)
  }

  // ---------------------------------------------------------------------
  // Properties of the response handling

  /** A non-JSON response passes through unchanged: resolved when ok, rejected otherwise. */
  lemma NonJsonPassesThrough(response: Response)
    requires !IsJsonResponse(response)
    ensures HandleResponse(response) ==
      if response.ok then Resolved(Raw(response)) else Rejected(Raw(response))
  {
  }

  /** A JSON response settles with its parsed body, never with the response object. */
  lemma JsonCarriesBody(response: Response, json: Json)
    requires IsJsonResponse(response) && response.body == Parsed(json)
    ensures HandleResponse(response) ==
      if response.ok then Resolved(Decoded(json)) else Rejected(Decoded(json))
    ensures !HandleResponse(response).Carried().Raw?
  {
  }

  /** A JSON response whose body does not parse is rejected with the parse failure, ok or not. */
  lemma MalformedJsonRejects(response: Response)
    requires IsJsonResponse(response) && response.body == Malformed
    ensures HandleResponse(response) == Rejected(DecodeFailure)
  {
  }

  /** The body of a non-JSON response is never read: the outcome does not depend on it. */
  lemma NonJsonIgnoresBody(response: Response, body: Body)
    requires !IsJsonResponse(response)
    ensures HandleResponse(response.(body := body)).Resolved? == HandleResponse(response).Resolved?
    ensures HandleResponse(response.(body := body)).Carried() == Raw(response.(body := body))
  {
  }

  /** A response with no `content-type` header, or an empty one, is passed through. */
  lemma AbsentHeaderPassesThrough(response: Response)
    requires response.contentType == None || response.contentType == Some("")
    ensures HandleResponse(response).Carried() == Raw(response)
  {
    AbsentOrEmptyIsNotJson();
  }
}
