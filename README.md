# MOLGENIS API client: a verified model

This project models the JavaScript REST client in `src/molgenis-api-client.js`:
five request functions (`get`, `post`, `put`, `delete_`, `postFile`) that
build fetch options, send a request, and turn the response into a resolved
or rejected promise. The decision rules around the `fetch` call are modelled
in Dafny and proved:

- **Content-type classification** (`isJsonResponse`). The header value is
  lower-cased, every space is deleted, and every double quote is deleted.
  The result must then equal `application/json` or
  `application/json;charset=utf-8` exactly. An absent or empty header is
  never JSON. `ContentType` writes the chain `toLowerCase().split(' ').join('').split('"').join('')`
  out with models of `split` and `join`. It proves that the chain deletes the
  separators and keeps everything else in order, that it is idempotent, and
  that it ignores case, spaces and quotes.
- **Response handling** (`handleResponse`). A JSON response settles with
  its parsed body. A non-JSON response settles with the response object
  itself and its body is never read. Either way the promise resolves only
  when the response is ok.
- **Request options** (`defaultOptions`, `mergeOptions`, `postFile`).
  `merge({method}, defaultOptions, options)` is modelled as two successive
  two-level map merges where the later source wins and the `headers`
  objects are merged key by key. `postFile` builds exactly three options
  and no headers.

Modules: `Wrappers` (Option), `ContentType` and `ContentTypeExamples`
(classification), `RequestOptions` (options), `ApiClient` and
`ApiClientExamples` (response handling, the five calls, and the scenarios
of `test/molgenis-api-client.spec.js`).

Two details of the code are easy to misread, and the model follows the code:

- The comment at `src/molgenis-api-client.js:19` says whitespace is
  ignored, but line 20 splits on `' '` only. A tab, or any other white
  space, survives normalisation. So `application/json;\tcharset=utf-8` is
  not JSON (`ContentTypeExamples.TabbedIsNotJson`). The optional white
  space of section 3.1.1.1 of RFC 7231 (`OWS = *( SP / HTAB )`) is
  therefore only partly ignored.
- The calling function's method is the FIRST source given to `merge`, and
  the caller's `options` are the last. So an options object that has a
  `method` overrides the method of `get`, `post`, `put` or `delete_`.
  `RequestOptions.MergeOptions` states this.

## Model

| member | source | states |
|---|---|---|
| `ContentType.ToLowerCase` | src/molgenis-api-client.js:20 | the lowered string has the input's length and lowers each character in place |
| `ContentType.Split` | src/molgenis-api-client.js:20 | `split(c)` gives one piece more than there are occurrences of `c`, and no piece contains `c` |
| `ContentType.Join` | src/molgenis-api-client.js:20 | `join(sep)` of no pieces is empty, and otherwise starts with the first piece |
| `ContentType.Normalize` | src/molgenis-api-client.js:20 | the chain `toLowerCase().split(' ').join('').split('"').join('')` amounts to lower-casing, then deleting every space, then deleting every double quote |
| `ContentType.JoinSplitRemoves` | src/molgenis-api-client.js:20 | `split(c).join('')` deletes every `c` and keeps every other character in order |
| `ContentType.JoinSplitRoundTrip` | src/molgenis-api-client.js:20 | `split(c).join(c)` gives back the input |
| `ContentType.NormalizeSingle` | src/molgenis-api-client.js:20 | a space or a quote normalises to nothing; any other character normalises to its lower-case form |
| `ContentType.NormalizeAppend` | src/molgenis-api-client.js:20 | normalisation distributes over concatenation, so surviving characters keep their order |
| `ContentType.NormalizeClean` | src/molgenis-api-client.js:20 | the normalised string has no upper-case letter, no space and no double quote |
| `ContentType.NormalizeFixed` | src/molgenis-api-client.js:20 | a string is left unchanged by normalisation if and only if it has none of those characters |
| `ContentType.NormalizeIdempotent` | src/molgenis-api-client.js:20 | normalising twice is normalising once |
| `ContentType.NormalizeIgnoresCase` | src/molgenis-api-client.js:20 | lower-casing the input first changes nothing |
| `ContentType.NormalizeIgnoresSpaceAndQuote` | src/molgenis-api-client.js:20 | inserting a space or a quote anywhere changes nothing |
| `ContentType.IsJson` | src/molgenis-api-client.js:14-22 | a header is JSON if and only if it is present and normalises to one of the two accepted media types |
| `ContentType.AbsentOrEmptyIsNotJson` | src/molgenis-api-client.js:15-18 | an absent (null) or empty header is never JSON |
| `ContentType.IsJsonRespectsNormalize` | src/molgenis-api-client.js:20-21 | headers with the same normalised form classify alike |
| `ContentType.IsJsonIgnoresCase` | src/molgenis-api-client.js:20-21 | headers that differ only in letter case classify alike |
| `ContentType.IsJsonIgnoresSpaceAndQuote` | src/molgenis-api-client.js:20-21 | inserting a space or a double quote does not change the classification |
| `ContentType.IsJsonOfNormalized` | src/molgenis-api-client.js:21 | on an already normalised value, classification is exact equality with one of the two strings |
| `ContentTypeExamples.PlainJsonIsJson` | test/molgenis-api-client.spec.js:91 | `application/json` is JSON |
| `ContentTypeExamples.Utf8JsonIsJson` | test/molgenis-api-client.spec.js:65 | `application/json;charset=utf-8` is JSON |
| `ContentTypeExamples.TrailingQuoteIsJson` | test/molgenis-api-client.spec.js:35 | `application/json"` is JSON, because the stray quote is deleted |
| `ContentTypeExamples.QuotedCharsetIsJson` | test/molgenis-api-client.spec.js:50 | `application/JSON; charset="utf-8"` is JSON |
| `ContentTypeExamples.ShoutedIsJson` | src/molgenis-api-client.js:20 | `APPLICATION/JSON;CHARSET=UTF-8` is JSON |
| `ContentTypeExamples.MyTypeIsNotJson` | test/molgenis-api-client.spec.js:21 | `my type` is not JSON |
| `ContentTypeExamples.TabbedIsNotJson` | src/molgenis-api-client.js:20 | a tab is not deleted, so `application/json;<TAB>charset=utf-8` is not JSON |
| `ContentTypeExamples.OtherCharsetIsNotJson` | src/molgenis-api-client.js:21 | a charset other than utf-8 is not JSON |
| `ContentTypeExamples.ExtraParameterIsNotJson` | src/molgenis-api-client.js:21 | an extra parameter after the charset is not JSON |
| `RequestOptions.DefaultHeaders` | src/molgenis-api-client.js:6-10 | the default headers are exactly `Accept` and `Content-Type`, both `application/json`, and `X-Requested-With: XMLHttpRequest` |
| `RequestOptions.DefaultOptions` | src/molgenis-api-client.js:5-12 | `defaultOptions` holds exactly the default headers and same-origin credentials, and no method |
| `RequestOptions.Merge` | src/molgenis-api-client.js:53 | one merge step: the result has the keys of both sides, the source wins on each key, and two nested objects are merged key by key with the source winning |
| `RequestOptions.MergeOptions` | src/molgenis-api-client.js:52-54 | the result has `method`, `headers`, `credentials` and the caller's keys. `method` is the function's verb unless the options give one. `credentials` is same-origin unless the options give them. `headers` is the default headers overridden key by key by the caller's. Every other caller option passes through unchanged |
| `RequestOptions.MergeNoOptions` | src/molgenis-api-client.js:5-12 | with no options, every call sends exactly `defaultOptions` plus its own method |
| `RequestOptions.MergeHeaderByHeader` | src/molgenis-api-client.js:52-54 | a header the caller names has the caller's value, and any other default header keeps its default value |
| `RequestOptions.MergeEmpty` | src/molgenis-api-client.js:53 | an absent source changes nothing |
| `RequestOptions.MergeIsNotAssociative` | src/molgenis-api-client.js:53 | the order in which sources are merged matters. `merge(a, b, c)` at line 53 applies `b` and then `c` onto `a`; it does not merge `b` with `c` first. So `MergeOptions` must apply its three sources one after the other, as it does |
| `RequestOptions.HeaderKeysAreCaseSensitive` | src/molgenis-api-client.js:66 | header keys are matched case-sensitively, so the documented override `Content-type` is added beside the default `Content-Type` |
| `RequestOptions.PostFileOptions` | src/molgenis-api-client.js:156-164 | `postFile` sends exactly `body`, `method` and `credentials`: a form with one `file` field, POST, and same-origin |
| `RequestOptions.PostFileHasNoDefaultHeaders` | src/molgenis-api-client.js:160-164 | `postFile`'s options have three entries and no headers |
| `RequestOptions.PostFileIsNotAMergedPost` | src/molgenis-api-client.js:156-164 | no options given to `post` produce what `postFile` sends, because merged options always carry headers |
| `ApiClient.IsJsonResponse` | src/molgenis-api-client.js:14-22 | a response is JSON if and only if it has a `content-type` header that normalises to one of the two accepted media types |
| `ApiClient.HandleResponse` | src/molgenis-api-client.js:44-50 | a non-JSON response settles with itself. A JSON one settles with its parsed body, or with the parse failure. The promise resolves if and only if the response is ok and, when it is JSON, its body parses |
| `ApiClient.NonJsonPassesThrough` | src/molgenis-api-client.js:47-48 | a non-JSON response is resolved with itself when ok, and rejected with itself otherwise |
| `ApiClient.JsonCarriesBody` | src/molgenis-api-client.js:45-46 | a JSON response is resolved with its parsed body when ok, and rejected with it otherwise. It never settles with the response object |
| `ApiClient.MalformedJsonRejects` | src/molgenis-api-client.js:46 | a JSON response whose body does not parse is rejected with the parse failure |
| `ApiClient.NonJsonIgnoresBody` | src/molgenis-api-client.js:48 | for a non-JSON response the outcome does not depend on the body |
| `ApiClient.AbsentHeaderPassesThrough` | src/molgenis-api-client.js:15-18 | a response without a content type, or with an empty one, settles with itself |
| `ApiClient.Send` | src/molgenis-api-client.js:166 | a call sends exactly the given URL and options and settles as `handleResponse` decides on the transport's answer |
| `ApiClient.SendMerged` | src/molgenis-api-client.js:71-74 | the shared shape of the four merged calls: method, credentials and default headers as `mergeOptions` gives them, with the outcome decided on what the transport returns for that request |
| `ApiClient.Get` | src/molgenis-api-client.js:71-74 | `get` sends the options merged over the defaults, with method `GET` unless the options supply one, and settles as `handleResponse` decides on the answer to that request |
| `ApiClient.Post` | src/molgenis-api-client.js:96-99 | `post` sends the options merged over the defaults, with method `POST` unless the options supply one, and settles as `handleResponse` decides on the answer to that request |
| `ApiClient.Put` | src/molgenis-api-client.js:121-124 | `put` sends the options merged over the defaults, with method `PUT` unless the options supply one, and settles as `handleResponse` decides on the answer to that request |
| `ApiClient.Delete` | src/molgenis-api-client.js:137-140 | `delete_` sends the options merged over the defaults, with method `DELETE` unless the options supply one, and settles as `handleResponse` decides on the answer to that request |
| `ApiClient.PostFile` | src/molgenis-api-client.js:156-167 | `postFile` sends its three form options and no headers, and settles as `handleResponse` decides on the answer to that request |
| `ApiClientExamples.GetOtherTypeReturnsResponse` | test/molgenis-api-client.spec.js:18-29 | a `my type` response is resolved with itself, status 200 |
| `ApiClientExamples.GetTrailingQuoteReturnsBody` | test/molgenis-api-client.spec.js:31-44 | an `application/json"` response is resolved with its parsed body |
| `ApiClientExamples.GetQuotedCharsetReturnsBody` | test/molgenis-api-client.spec.js:46-59 | an `application/JSON; charset="utf-8"` response is resolved with its parsed body |
| `ApiClientExamples.GetUtf8ReturnsBody` | test/molgenis-api-client.spec.js:61-74 | an `application/json;charset=utf-8` response is resolved with its parsed body |
| `ApiClientExamples.GetBareFailureRejectsWithResponse` | test/molgenis-api-client.spec.js:76-81 | a bare 400 is rejected with the response itself, status 400 |
| `ApiClientExamples.JsonFailureRejectsWithDocument` | test/molgenis-api-client.spec.js:83-100 | a JSON 400 is rejected with the parsed `errors` document by `get`, `post`, `put` and `delete_`, whatever the options |
| `ApiClientExamples.PostAndPutWithBodySucceed` | test/molgenis-api-client.spec.js:115-120 | `post` and `put` with a string body send it with the method, the default headers and same-origin credentials, and a bare 200 resolves with the response |
| `ApiClientExamples.DeleteNoContentResolves` | test/molgenis-api-client.spec.js:184-189 | a bare 204 is resolved with the response, status 204, and the request method is DELETE |
| `ApiClientExamples.PostFileReturnsJobDocument` | test/molgenis-api-client.spec.js:214-228 | `postFile` posts a one-field form and is resolved with the parsed job document |

## Left out

- The `fetch` transport, promises and the asynchronous chaining are not modelled as such. The transport is a function parameter from URL and options to a response. A settled promise is a `Settled` value. The trailing `.then(response => response)` is the identity.
- Transport-level failures (network errors) are left out: the transport parameter always returns a response, and this layer would only pass such a failure on.
- Parsing the body as JSON is left out. A response records what `response.json()` would yield: a parsed document or a parse failure.
- `RequestOptions.Merge` replaces a form body in the target with a plain object from the source. lodash would merge the object's properties into the `FormData` object instead. `mergeOptions` never reaches this case, because its targets hold only strings and objects of strings.
- JSON numbers are modelled as exact reals, not as IEEE doubles, because the parsed body is only an abstract value here.
- lodash `merge` is modelled to two levels only. Left out: deeper nesting, arrays, the difference between `null` and `undefined`, the key order of the result, and options that are not objects. The test suite passes the string `'test.txt'` as options; lodash would spread its characters into index keys. The scenario lemmas state their outcome for all options instead.
- `FormData` internals and the multipart encoding are left out: a form body is the list of its appended fields.
- `toLowerCase` folds only the ASCII letters A-Z. Full Unicode case mapping, which can change a string's length, is left out.
- Looking up the `content-type` header by name case-insensitively (`headers.get`) is left out. A response carries the header's value directly.
- `defaultOptions` being left unchanged by `mergeOptions` is not stated as a separate lemma. The model holds values, not shared mutable objects, so every call sees the same defaults by construction. `RequestOptions.MergeNoOptions` shows that they are the defaults.
- `build/build.js`, `rollup.config.js` and the example unit tests are bundling and test tooling with no behaviour of the client, so they are not part of this model.
