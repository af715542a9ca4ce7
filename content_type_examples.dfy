/**
 * The header values exercised by test/molgenis-api-client.spec.js, and a few
 * neighbours that show where the exact-match rule stops. Each fact about a
 * literal string is proved in a lemma of its own and the classification is
 * then derived from the general lemmas of `ContentType`.
 */
module ContentTypeExamples {
  import opened Wrappers
  import opened ContentType

  lemma PlainJsonIsNormalized()
    ensures IsNormalized(ApplicationJson)
  {
  }

  lemma Utf8JsonIsNormalized()
    ensures IsNormalized(ApplicationJsonUtf8)
  {
  }

  /** "application/json" is JSON. */
  lemma PlainJsonIsJson()
    ensures IsJson(Some("application/json"))
  {
    PlainJsonIsNormalized();
    IsJsonOfNormalized(ApplicationJson);
  }

  /** "application/json;charset=utf-8", with no space before the parameter, is JSON. */
  lemma Utf8JsonIsJson()
    ensures IsJson(Some("application/json;charset=utf-8"))
  {
    Utf8JsonIsNormalized();
    IsJsonOfNormalized(ApplicationJsonUtf8);
  }

  lemma TrailingQuoteSplits()
    ensures "application/json\"" == ApplicationJson + ['"'] + ""
    ensures ApplicationJson + "" == ApplicationJson
  {
  }

  /** A stray trailing double quote is deleted, so "application/json\"" is JSON. */
  lemma TrailingQuoteIsJson()
    ensures IsJson(Some("application/json\""))
  {
    TrailingQuoteSplits();
    IsJsonIgnoresSpaceAndQuote(ApplicationJson, '"', "");
    PlainJsonIsJson();
  }

  lemma QuotedCharsetSplits()
    ensures "application/JSON; charset=\"utf-8\"" == "application/JSON;" + [' '] + "charset=\"utf-8\""
    ensures "application/JSON;charset=\"utf-8\"" == "application/JSON;charset=" + ['"'] + "utf-8\""
    ensures "application/JSON;charset=utf-8\"" == "application/JSON;charset=utf-8" + ['"'] + ""
    ensures "application/JSON;" + "charset=\"utf-8\"" == "application/JSON;charset=\"utf-8\""
    ensures "application/JSON;charset=" + "utf-8\"" == "application/JSON;charset=utf-8\""
    ensures "application/JSON;charset=utf-8" + "" == "application/JSON;charset=utf-8"
  {
  }

  lemma UpperJsonSameIgnoringCase()
    ensures SameIgnoringCase("application/JSON;charset=utf-8", ApplicationJsonUtf8)
  {
  }

  /**
   * `application/JSON; charset="utf-8"` is JSON: the upper-case subtype, the
   * space before the parameter and the quotes around its value all vanish.
   */
  lemma QuotedCharsetIsJson()
    ensures IsJson(Some("application/JSON; charset=\"utf-8\""))
  {
    QuotedCharsetSplits();
    IsJsonIgnoresSpaceAndQuote("application/JSON;", ' ', "charset=\"utf-8\"");
    IsJsonIgnoresSpaceAndQuote("application/JSON;charset=", '"', "utf-8\"");
    IsJsonIgnoresSpaceAndQuote("application/JSON;charset=utf-8", '"', "");
    UpperJsonSameIgnoringCase();
    IsJsonIgnoresCase("application/JSON;charset=utf-8", ApplicationJsonUtf8);
    Utf8JsonIsJson();
  }

  lemma ShoutedTypeSameIgnoringCase()
    ensures SameIgnoringCase("APPLICATION/JSON;", "application/json;")
  {
  }

  lemma ShoutedCharsetSameIgnoringCase()
    ensures SameIgnoringCase("CHARSET=UTF-8", "charset=utf-8")
  {
  }

  lemma ShoutedSameIgnoringCase()
    ensures SameIgnoringCase("APPLICATION/JSON;CHARSET=UTF-8", ApplicationJsonUtf8)
  {
    assert "APPLICATION/JSON;CHARSET=UTF-8" == "APPLICATION/JSON;" + "CHARSET=UTF-8";
    assert ApplicationJsonUtf8 == "application/json;" + "charset=utf-8";
    ShoutedTypeSameIgnoringCase();
    ShoutedCharsetSameIgnoringCase();
    SameIgnoringCaseAppend("APPLICATION/JSON;", "application/json;", "CHARSET=UTF-8", "charset=utf-8");
  }

  /** Upper case throughout is still JSON. */
  lemma ShoutedIsJson()
    ensures IsJson(Some("APPLICATION/JSON;CHARSET=UTF-8"))
  {
    ShoutedSameIgnoringCase();
    IsJsonIgnoresCase("APPLICATION/JSON;CHARSET=UTF-8", ApplicationJsonUtf8);
    Utf8JsonIsJson();
  }

  lemma MyTypeSplits()
    ensures "my type" == "my" + [' '] + "type"
    ensures "my" + "type" == "mytype"
    ensures IsNormalized("mytype")
  {
  }

  /** "my type" is not JSON. */
  lemma MyTypeIsNotJson()
    ensures !IsJson(Some("my type"))
  {
    MyTypeSplits();
    IsJsonIgnoresSpaceAndQuote("my", ' ', "type");
    IsJsonOfNormalized("mytype");
  }

  lemma TabbedIsNormalized()
    ensures IsNormalized("application/json;\tcharset=utf-8")
  {
  }

  /** Only U+0020 is deleted: a tab before the parameter stops the match. */
  lemma TabbedIsNotJson()
    ensures !IsJson(Some("application/json;\tcharset=utf-8"))
  {
    TabbedIsNormalized();
    IsJsonOfNormalized("application/json;\tcharset=utf-8");
  }

  lemma OtherCharsetIsNormalized()
    ensures IsNormalized("application/json;charset=iso-8859-1")
  {
  }

  /** Any charset other than utf-8 stops the match. */
  lemma OtherCharsetIsNotJson()
    ensures !IsJson(Some("application/json;charset=iso-8859-1"))
  {
    OtherCharsetIsNormalized();
    IsJsonOfNormalized("application/json;charset=iso-8859-1");
  }

  lemma ExtraParameterIsNormalized()
    ensures IsNormalized("application/json;charset=utf-8;version=2")
  {
  }

  /** A further parameter stops the match too. */
  lemma ExtraParameterIsNotJson()
    ensures !IsJson(Some("application/json;charset=utf-8;version=2"))
  {
    ExtraParameterIsNormalized();
    IsJsonOfNormalized("application/json;charset=utf-8;version=2");
  }
}
