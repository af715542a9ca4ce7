/**
 * The request options handed to `fetch` by src/molgenis-api-client.js:
 * the shared `defaultOptions`, `mergeOptions`, and the literal options that
 * `postFile` builds.
 *
 * An options object is a map from property name to value. A value is a
 * string, a nested object of string properties (such as `headers`), or a
 * multipart form body. An absent key is JavaScript's `undefined`, which
 * lodash `merge` skips. Keys match exactly and case-sensitively.
 */
module RequestOptions {

  /** One field of a multipart form body: `form.append(name, file)`. */
  datatype FormField = FormField(name: string, file: string)

  datatype OptionValue =
    | Text(text: string)
    | Record(fields: map<string, string>)
    | Form(parts: seq<FormField>)

  type Options = map<string, OptionValue>

  const MethodKey: string := "method"
  const HeadersKey: string := "headers"
  const CredentialsKey: string := "credentials"
  const BodyKey: string := "body"

  const SameOrigin: string := "same-origin"

  /** The three headers of `defaultOptions`: JSON in both directions, and the XMLHttpRequest marker. */
  function DefaultHeaders(): (h: map<string, string>)
    ensures h.Keys == {"Accept", "Content-Type", "X-Requested-With"}
    ensures h["Accept"] == "application/json" && h["Content-Type"] == "application/json"
    ensures h["X-Requested-With"] == "XMLHttpRequest"
  {
    map["Accept" := "application/json",
        "Content-Type" := "application/json",
        "X-Requested-With" := "XMLHttpRequest"]
  }

  /** `defaultOptions`: the default headers and same-origin credentials, and no method. */
  function DefaultOptions(): (d: Options)
    ensures d.Keys == {HeadersKey, CredentialsKey}
    ensures d[HeadersKey] == Record(DefaultHeaders()) && d[CredentialsKey] == Text(SameOrigin)
  {
    map[HeadersKey := Record(DefaultHeaders()), CredentialsKey := Text(SameOrigin)]
  }

  /**
   * One step of lodash `merge(target, source)`, for targets whose values are
   * strings and objects of strings (all that `mergeOptions` builds): every
   * key of `source` is copied onto `target`, except that when both hold a
   * nested object the two objects are merged key by key, again with
   * `source` winning. A form body in the target is replaced, not merged into.
   */
  function Merge(target: Options, source: Options): (r: Options)
    ensures r.Keys == target.Keys + source.Keys
    ensures forall k :: k in target && k !in source ==> r[k] == target[k]
    ensures forall k :: k in source && !(k in target && target[k].Record? && source[k].Record?) ==>
      r[k] == source[k]
    ensures forall k :: k in source && k in target && target[k].Record? && source[k].Record? ==>
      r[k] == Record(target[k].fields + source[k].fields)
  {
    map k | k in target.Keys + source.Keys ::
      if k !in source then target[k]
      else if k in target && target[k].Record? && source[k].Record? then
        Record(target[k].fields + source[k].fields)
      else source[k]
  }

  /**
   * `mergeOptions(method, options)`, with `verb` for `method`: `merge({method: verb}, defaultOptions, options)`.
   * The three sources are applied in that order onto a fresh object, so a
   * later one wins.
   */
  function MergeOptions(verb: string, options: Options): (r: Options)
    ensures r.Keys == {MethodKey, HeadersKey, CredentialsKey} + options.Keys
    // method: the calling function's, unless the caller's options supply one
    ensures r[MethodKey] == if MethodKey in options then options[MethodKey] else Text(verb)
    // credentials: same-origin, unless the caller's options supply them
    ensures r[CredentialsKey] == if CredentialsKey in options then options[CredentialsKey] else Text(SameOrigin)
    // headers: the defaults, overridden key by key by the caller's headers
    ensures r[HeadersKey] ==
      if HeadersKey !in options then Record(DefaultHeaders())
      else if options[HeadersKey].Record? then Record(DefaultHeaders() + options[HeadersKey].fields)
      else options[HeadersKey]
    // every other caller option is passed through untouched
    ensures forall k :: k in options && k !in {MethodKey, HeadersKey, CredentialsKey} ==> r[k] == options[k]
  {
    Merge(Merge(map[MethodKey := Text(verb)], DefaultOptions()), options)
  }

  /** The options `postFile` builds: a one-field form body, POST and same-origin credentials. */
  function PostFileOptions(file: string): (r: Options)
    ensures r.Keys == {BodyKey, MethodKey, CredentialsKey}
    ensures r[BodyKey] == Form([FormField("file", file)])
    ensures r[MethodKey] == Text("POST") && r[CredentialsKey] == Text(SameOrigin)
  {
    map[BodyKey := Form([FormField("file", file)]),
        MethodKey := Text("POST"),
        CredentialsKey := Text(SameOrigin)]
  }

  // ---------------------------------------------------------------------
  // Properties of the merge

  /** With no caller options, each call sees exactly the defaults plus its own method. */
  lemma MergeNoOptions(verb: string)
    ensures MergeOptions(verb, map[]) == DefaultOptions()[MethodKey := Text(verb)]
  {
    var r := MergeOptions(verb, map[]);
    var d := DefaultOptions()[MethodKey := Text(verb)];
    assert r.Keys == d.Keys;
  }

  /**
   * The headers sent are the caller's value for every header key the caller
   * names, and the default for every other default header.
   */
  lemma MergeHeaderByHeader(verb: string, options: Options, name: string)
    requires HeadersKey in options && options[HeadersKey].Record?
    ensures var h := MergeOptions(verb, options)[HeadersKey].fields;
      && (name in options[HeadersKey].fields ==> name in h && h[name] == options[HeadersKey].fields[name])
      && (name !in options[HeadersKey].fields && name in DefaultHeaders() ==> name in h && h[name] == DefaultHeaders()[name])
      && (name in h <==> name in options[HeadersKey].fields || name in DefaultHeaders())
  {
  }

  /** An empty source leaves the target as it is. */
  lemma MergeEmpty(target: Options)
    ensures Merge(target, map[]) == target
  {
  }

  /**
   * The order of the sources matters: merging a string and then an object
   * onto an object differs from merging their merge onto it. So `mergeOptions`
   * has to apply its three sources one after the other.
   */
  lemma MergeIsNotAssociative()
    ensures var a := map["k" := Record(map["x" := "1"])];
      var b := map["k" := Text("s")];
      var c := map["k" := Record(map["y" := "2"])];
      Merge(Merge(a, b), c) != Merge(a, Merge(b, c))
  {
    var a := map["k" := Record(map["x" := "1"])];
    var b := map["k" := Text("s")];
    var c := map["k" := Record(map["y" := "2"])];
    var ab := Merge(a, b);
    assert ab["k"] == Text("s");
    var left := Merge(ab, c);
    assert left["k"] == Record(map["y" := "2"]);
    var bc := Merge(b, c);
    assert bc["k"] == Record(map["y" := "2"]);
    var right := Merge(a, bc);
    assert right["k"] == Record(map["x" := "1"] + map["y" := "2"]);
    assert "x" in right["k"].fields && "x" !in left["k"].fields;
  }

  /** `postFile`'s options carry none of the default headers. */
  lemma PostFileHasNoDefaultHeaders(file: string)
    ensures HeadersKey !in PostFileOptions(file)
    ensures |PostFileOptions(file)| == 3
  {
  }

  /** No `post` call sends what `postFile` sends: `mergeOptions` always adds headers. */
  lemma PostFileIsNotAMergedPost(file: string, options: Options)
    ensures MergeOptions("POST", options) != PostFileOptions(file)
  {
    assert HeadersKey in MergeOptions("POST", options);
  }

  /**
   * Header keys match case-sensitively: the documented example
   * `{ headers: { 'Content-type': 'text' } }` keeps the default
   * "Content-Type" and adds a second key beside it.
   */
  lemma HeaderKeysAreCaseSensitive()
    ensures var r := MergeOptions("GET", map[HeadersKey := Record(map["Content-type" := "text"])]);
      r[HeadersKey].fields == DefaultHeaders()["Content-type" := "text"]
  {
  }
}
