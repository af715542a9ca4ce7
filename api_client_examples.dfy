/**
 * The scenarios of test/molgenis-api-client.spec.js, each with a transport
 * that answers every request with one fixed response, as the mocked `fetch`
 * of the test suite does. An unset mock status is 200.
 */
module ApiClientExamples {
  import opened Wrappers
  import opened ContentType
  import opened ContentTypeExamples
  import opened RequestOptions
  import opened ApiClient

  /** A transport that answers every request with `response`. */
  function Always(response: Response): (t: Transport)
    ensures forall url, options :: t(url, options) == response
  {
    (url: string, options: Options) => response
  }

  /** The error document the failing endpoints answer with: `{errors: [{message: 'its an error'}]}`. */
  function ErrorDocument(): Json {
    JObject(map["errors" := JArray([JObject(map["message" := JString("its an error")])])])
  }

  /** A response with a JSON content type and an error body, as the failing JSON endpoints send. */
  function JsonError(): Response {
    Response(400, false, Some("application/json"), Parsed(ErrorDocument()))
  }

  lemma JsonErrorIsJson()
    ensures IsJsonResponse(JsonError())
  {
    PlainJsonIsJson();
  }

  /** get: a "my type" response is handed back as it is, with its status 200. */
  lemma GetOtherTypeReturnsResponse(url: string, body: Body)
    ensures var response := Response(200, true, Some("my type"), body);
      var c := Get(url, map[], Always(response));
      c.outcome == Resolved(Raw(response)) && c.outcome.value.response.status == 200
  {
    MyTypeIsNotJson();
  }

  /** get: with content type `application/json"` the parsed body is returned. */
  lemma GetTrailingQuoteReturnsBody(url: string)
    ensures var foo := JObject(map["foo" := JString("bar")]);
      Get(url, map[], Always(Response(200, true, Some("application/json\""), Parsed(foo)))).outcome
        == Resolved(Decoded(foo))
  {
    TrailingQuoteIsJson();
  }

  /** get: with content type `application/JSON; charset="utf-8"` the parsed body is returned. */
  lemma GetQuotedCharsetReturnsBody(url: string)
    ensures var foo := JObject(map["foo" := JString("bar")]);
      Get(url, map[], Always(Response(200, true, Some("application/JSON; charset=\"utf-8\""), Parsed(foo)))).outcome
        == Resolved(Decoded(foo))
  {
    QuotedCharsetIsJson();
  }

  /** get: with content type `application/json;charset=utf-8` the parsed body is returned. */
  lemma GetUtf8ReturnsBody(url: string)
    ensures var foo := JObject(map["foo" := JString("bar")]);
      Get(url, map[], Always(Response(200, true, Some("application/json;charset=utf-8"), Parsed(foo)))).outcome
        == Resolved(Decoded(foo))
  {
    Utf8JsonIsJson();
  }

  /** get: a bare 400 with no content type rejects with the response, status 400. */
  lemma GetBareFailureRejectsWithResponse(url: string, body: Body)
    ensures var response := Response(400, false, None, body);
      var c := Get(url, map[], Always(response));
      c.outcome == Rejected(Raw(response)) && c.outcome.reason.response.status == 400
  {
  }

  /** get, post, put and delete_: a JSON error response rejects with the parsed error document. */
  lemma JsonFailureRejectsWithDocument(url: string, options: Options)
    ensures Get(url, options, Always(JsonError())).outcome == Rejected(Decoded(ErrorDocument()))
    ensures Post(url, options, Always(JsonError())).outcome == Rejected(Decoded(ErrorDocument()))
    ensures Put(url, options, Always(JsonError())).outcome == Rejected(Decoded(ErrorDocument()))
    ensures Delete(url, options, Always(JsonError())).outcome == Rejected(Decoded(ErrorDocument()))
  {
    JsonErrorIsJson();
  }

  /** The options sent for a string body: the verb, the default headers, same-origin credentials and the body. */
  lemma BodyOptionsMerged(verb: string, payload: string)
    ensures MergeOptions(verb, map[BodyKey := Text(payload)]) ==
      map[MethodKey := Text(verb), HeadersKey := Record(DefaultHeaders()),
          CredentialsKey := Text(SameOrigin), BodyKey := Text(payload)]
  {
    var expected := map[MethodKey := Text(verb), HeadersKey := Record(DefaultHeaders()),
                        CredentialsKey := Text(SameOrigin), BodyKey := Text(payload)];
    assert MergeOptions(verb, map[BodyKey := Text(payload)]).Keys == expected.Keys;
  }

  /**
   * post and put with a string body: the request is sent with the method,
   * the default headers, same-origin credentials and the body, and a bare
   * 200 resolves with the response.
   */
  lemma PostAndPutWithBodySucceed(url: string, payload: string, body: Body)
    ensures var options := map[BodyKey := Text(payload)];
      var response := Response(200, true, None, body);
      var post := Post(url, options, Always(response));
      var put := Put(url, options, Always(response));
      && post.request.options == map[MethodKey := Text("POST"), HeadersKey := Record(DefaultHeaders()),
                                     CredentialsKey := Text(SameOrigin), BodyKey := Text(payload)]
      && put.request.options == post.request.options[MethodKey := Text("PUT")]
      && post.outcome == Resolved(Raw(response)) && put.outcome == Resolved(Raw(response))
  {
    BodyOptionsMerged("POST", payload);
    BodyOptionsMerged("PUT", payload);
  }

  /** delete_: a bare 204 with no content type resolves with the response, status 204. */
  lemma DeleteNoContentResolves(url: string, body: Body)
    ensures var response := Response(204, true, None, body);
      var c := Delete(url, map[], Always(response));
      c.outcome == Resolved(Raw(response)) && c.outcome.value.response.status == 204
      && c.request.options[MethodKey] == Text("DELETE")
  {
  }

  /** postFile: the form is posted and a JSON answer resolves with the job document. */
  lemma PostFileReturnsJobDocument(url: string, file: string)
    ensures var job := JObject(map["text" := JString("/api/v2/job/test")]);
      var c := PostFile(url, file, Always(Response(200, true, Some("application/json"), Parsed(job))));
      && c.request.options[MethodKey] == Text("POST")
      && c.request.options[BodyKey] == Form([FormField("file", file)])
      && c.outcome == Resolved(Decoded(job))
      && c.outcome.value.json.members["text"] == JString("/api/v2/job/test")
  {
    PlainJsonIsJson();
  }
}
