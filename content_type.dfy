/**
 * Classification of a response's `content-type` header value, as done by
 * `isJsonResponse` in src/molgenis-api-client.js.
 *
 * The source normalises the header with the chain
 *   toLowerCase().split(' ').join('').split('"').join('')
 * and then compares the result with exactly two literal media types.
 * `Split` and `Join` below model JavaScript's `String.prototype.split`
 * with a one-character separator and `Array.prototype.join`; `Normalize`
 * is that chain written out. Case folding is ASCII only.
 */
module ContentType {
  import opened Wrappers

  /** The two normalised values that the client accepts as JSON. */
  const ApplicationJson: string := "application/json"
  const ApplicationJsonUtf8: string := "application/json;charset=utf-8"

  predicate IsUpper(c: char) {
    'A' <= c <= 'Z'
  }

  /** ASCII lower-casing of one character. */
  function LowerChar(c: char): (d: char)
    ensures !IsUpper(d)
    ensures IsUpper(c) || d == c
  {
    if IsUpper(c) then (c as int + 32) as char else c
  }

  /** `String.prototype.toLowerCase`, restricted to ASCII letters. */
  function ToLowerCase(s: string): (r: string)
    ensures |r| == |s|
    ensures forall i :: 0 <= i < |s| ==> r[i] == LowerChar(s[i])
  {
    if s == [] then [] else [LowerChar(s[0])] + ToLowerCase(s[1..])
  }

  /**
   * `s.split(c)` for a one-character separator: the maximal pieces between
   * occurrences of `c`. There is always at least one piece ("" for the empty
   * string), and one more piece than there are occurrences of `c`.
   */
  function Split(s: string, c: char): (parts: seq<string>)
    ensures |parts| >= 1
    ensures |parts| == Count(s, c) + 1
    ensures forall i :: 0 <= i < |parts| ==> c !in parts[i]
  {
    if s == [] then [""]
    else
      var rest := Split(s[1..], c);
      if s[0] == c then [""] + rest
      else [[s[0]] + rest[0]] + rest[1..]
  }

  /**
   * `parts.join(sep)`: the pieces with `sep` between neighbours. Joining no
   * pieces gives the empty string; otherwise the result starts with the
   * first piece.
   */
  function Join(parts: seq<string>, sep: string): (r: string)
    ensures |parts| == 0 ==> r == ""
    ensures |parts| > 0 ==> parts[0] <= r
  {
    if |parts| == 0 then ""
    else if |parts| == 1 then parts[0]
    else parts[0] + sep + Join(parts[1..], sep)
  }

  /** Number of occurrences of `c` in `s`. */
  function Count(s: string, c: char): nat {
    if s == [] then 0 else (if s[0] == c then 1 else 0) + Count(s[1..], c)
  }

  /** `s` with every occurrence of `c` deleted, the rest kept in order. */
  function Remove(s: string, c: char): (r: string)
    ensures c !in r
    ensures |r| == |s| - Count(s, c)
  {
    if s == [] then []
    else (if s[0] == c then [] else [s[0]]) + Remove(s[1..], c)
  }

  /**
   * The normalisation chain of src/molgenis-api-client.js:20, step by step.
   * It amounts to lower-casing, then deleting every space, then deleting
   * every double quote.
   */
  function Normalize(contentType: string): (r: string)
    ensures r == Remove(Remove(ToLowerCase(contentType), ' '), '"')
  {
    var lowered := ToLowerCase(contentType);
    var noSpaces := Join(Split(lowered, ' '), "");
    JoinSplitRemoves(lowered, ' ');
    JoinSplitRemoves(noSpaces, '"');
    Join(Split(noSpaces, '"'), "")
  }

  /**
   * `isJsonResponse` on the header value alone: an absent (null) or empty
   * header is falsy and never JSON; any other value is JSON exactly when
   * its normalised form is one of the two accepted media types.
   */
  predicate IsJson(contentType: Option<string>)
    ensures IsJson(contentType) <==>
      contentType.Some? && Normalize(contentType.value) in {ApplicationJson, ApplicationJsonUtf8}
  {
    match contentType
    case None => false
    case Some(v) =>
      if v == "" then false
      else
        var n := Normalize(v);
        n == ApplicationJson || n == ApplicationJsonUtf8
  }

  // ---------------------------------------------------------------------
  // split / join

  /** Joining a piece in front of at least one other puts the separator between them. */
  lemma JoinFront(first: string, rest: seq<string>, sep: string)
    requires |rest| >= 1
    ensures Join([first] + rest, sep) == first + sep + Join(rest, sep)
  {
    assert ([first] + rest)[1..] == rest;
  }

  /**
   * How `Split` takes a string apart at its first character: a separator
   * starts a new empty piece, and any other character is put in front of
   * the first piece of the rest.
   */
  lemma SplitFront(s: string, c: char)
    requires s != []
    ensures var rest := Split(s[1..], c);
      if s[0] == c then Split(s, c) == [""] + rest
      else Split(s, c) == [[s[0]] + rest[0]] + rest[1..]
  {
  }

  /** Joining the pieces of a split with the empty string deletes the separator. */
  lemma {:induction false} JoinSplitRemoves(s: string, c: char)
    ensures Join(Split(s, c), "") == Remove(s, c)
  {
    if s != [] {
      JoinSplitRemoves(s[1..], c);
      var rest := Split(s[1..], c);
      SplitFront(s, c);
      assert Remove(s, c) == (if s[0] == c then [] else [s[0]]) + Remove(s[1..], c);
      if s[0] == c {
        JoinFront("", rest, "");
      } else if |rest| == 1 {
        assert Split(s, c) == [[s[0]] + rest[0]];
        assert Join(rest, "") == rest[0];
      } else {
        JoinFront([s[0]] + rest[0], rest[1..], "");
        JoinFront(rest[0], rest[1..], "");
        assert [rest[0]] + rest[1..] == rest;
      }
    }
  }

  /** Joining the pieces of a split with the separator gives back the input. */
  lemma {:induction false} JoinSplitRoundTrip(s: string, c: char)
    ensures Join(Split(s, c), [c]) == s
  {
    if s != [] {
      JoinSplitRoundTrip(s[1..], c);
      var rest := Split(s[1..], c);
      SplitFront(s, c);
      if s[0] == c {
        JoinFront("", rest, [c]);
      } else if |rest| == 1 {
        assert Split(s, c) == [[s[0]] + rest[0]];
        assert Join(rest, [c]) == rest[0];
      } else {
        JoinFront([s[0]] + rest[0], rest[1..], [c]);
        JoinFront(rest[0], rest[1..], [c]);
        assert [rest[0]] + rest[1..] == rest;
      }
      assert s == [s[0]] + s[1..];
    }
  }

  // ---------------------------------------------------------------------
  // Normalize

  lemma {:induction false} ToLowerCaseAppend(a: string, b: string)
    ensures ToLowerCase(a + b) == ToLowerCase(a) + ToLowerCase(b)
  {
  }

  lemma {:induction false} RemoveAppend(a: string, b: string, c: char)
    ensures Remove(a + b, c) == Remove(a, c) + Remove(b, c)
  {
    if a == [] {
      assert a + b == b;
    } else {
      assert (a + b)[1..] == a[1..] + b;
      RemoveAppend(a[1..], b, c);
    }
  }

  /** Deleting a character that does not occur changes nothing. */
  lemma {:induction false} RemoveAbsent(s: string, c: char)
    requires c !in s
    ensures Remove(s, c) == s
  {
    if s != [] {
      RemoveAbsent(s[1..], c);
      assert s == [s[0]] + s[1..];
    }
  }

  /** Lower-casing has no effect on a string without upper-case letters. */
  lemma LowerAbsent(s: string)
    requires forall i :: 0 <= i < |s| ==> !IsUpper(s[i])
    ensures ToLowerCase(s) == s
  {
  }

  /** What `Normalize` makes of a single character. */
  function NormalizedChar(c: char): string {
    if c == ' ' || c == '"' then "" else [LowerChar(c)]
  }

  /**
   * `Normalize` works character by character: on a one-character string it
   * yields `NormalizedChar`, and it distributes over concatenation. Together
   * these say that every character other than ' ' and '"' survives, lower-cased,
   * in its original order.
   */
  lemma NormalizeSingle(c: char)
    ensures Normalize([c]) == NormalizedChar(c)
  {
    assert ToLowerCase([c]) == [LowerChar(c)];
  }

  lemma NormalizeAppend(a: string, b: string)
    ensures Normalize(a + b) == Normalize(a) + Normalize(b)
  {
    ToLowerCaseAppend(a, b);
    RemoveAppend(ToLowerCase(a), ToLowerCase(b), ' ');
    RemoveAppend(Remove(ToLowerCase(a), ' '), Remove(ToLowerCase(b), ' '), '"');
  }

  /** A string that normalisation leaves alone: no upper-case letter, no space, no double quote. */
  predicate IsNormalized(s: string) {
    forall i :: 0 <= i < |s| ==> !IsUpper(s[i]) && s[i] != ' ' && s[i] != '"'
  }

  /** Every character of `Remove(s, c)` is a character of `s`. */
  lemma {:induction false} RemoveKeeps(s: string, c: char)
    ensures forall x :: x in Remove(s, c) ==> x in s
  {
    if s != [] {
      RemoveKeeps(s[1..], c);
    }
  }

  /** The normalised string holds no upper-case letter, no space and no double quote. */
  lemma NormalizeClean(s: string)
    ensures IsNormalized(Normalize(s))
  {
    var lowered := ToLowerCase(s);
    var noSpaces := Remove(lowered, ' ');
    RemoveKeeps(noSpaces, '"');
    RemoveKeeps(lowered, ' ');
    forall i | 0 <= i < |Normalize(s)|
      ensures !IsUpper(Normalize(s)[i]) && Normalize(s)[i] != ' ' && Normalize(s)[i] != '"'
    {
      var x := Normalize(s)[i];
      assert x in noSpaces;
      assert x in lowered;
    }
  }

  /** Exactly the normalised strings are fixed points of `Normalize`. */
  lemma NormalizeFixed(s: string)
    ensures Normalize(s) == s <==> IsNormalized(s)
  {
    if IsNormalized(s) {
      LowerAbsent(s);
      RemoveAbsent(s, ' ');
      RemoveAbsent(s, '"');
    } else {
      NormalizeClean(s);
    }
  }

  /** Normalising an already normalised string returns it unchanged. */
  lemma NormalizeIdempotent(s: string)
    ensures Normalize(Normalize(s)) == Normalize(s)
  {
    NormalizeClean(s);
    NormalizeFixed(Normalize(s));
  }

  /** Upper or lower case in the input makes no difference. */
  lemma NormalizeIgnoresCase(s: string)
    ensures Normalize(ToLowerCase(s)) == Normalize(s)
  {
    LowerAbsent(ToLowerCase(s));
  }

  /** A space or a double quote inserted anywhere makes no difference. */
  lemma NormalizeIgnoresSpaceAndQuote(a: string, c: char, b: string)
    requires c == ' ' || c == '"'
    ensures Normalize(a + [c] + b) == Normalize(a + b)
  {
    NormalizeAppend(a + [c], b);
    NormalizeAppend(a, [c]);
    NormalizeAppend(a, b);
    NormalizeSingle(c);
  }

  // ---------------------------------------------------------------------
  // IsJson

  /** An absent or empty header is never JSON. */
  lemma AbsentOrEmptyIsNotJson()
    ensures !IsJson(None) && !IsJson(Some(""))
  {
  }

  /** Headers that normalise alike classify alike. */
  lemma IsJsonRespectsNormalize(a: string, b: string)
    requires Normalize(a) == Normalize(b)
    ensures IsJson(Some(a)) == IsJson(Some(b))
  {
  }

  /** Two strings that differ at most in the case of their letters. */
  predicate SameIgnoringCase(a: string, b: string) {
    |a| == |b| && forall i :: 0 <= i < |a| ==> LowerChar(a[i]) == LowerChar(b[i])
  }

  /** Strings equal up to case, concatenated, are equal up to case. */
  lemma SameIgnoringCaseAppend(a: string, b: string, a': string, b': string)
    requires SameIgnoringCase(a, b) && SameIgnoringCase(a', b')
    ensures SameIgnoringCase(a + a', b + b')
  {
    forall i | 0 <= i < |a + a'|
      ensures LowerChar((a + a')[i]) == LowerChar((b + b')[i])
    {
      if i >= |a| {
        assert (a + a')[i] == a'[i - |a|] && (b + b')[i] == b'[i - |a|];
      }
    }
  }

  /** Case makes no difference to the classification. */
  lemma IsJsonIgnoresCase(a: string, b: string)
    requires SameIgnoringCase(a, b)
    ensures IsJson(Some(a)) == IsJson(Some(b))
  {
    assert ToLowerCase(a) == ToLowerCase(b);
    NormalizeIgnoresCase(a);
    NormalizeIgnoresCase(b);
    IsJsonRespectsNormalize(a, b);
  }

  /** On a string that is already normalised, classification is plain equality. */
  lemma IsJsonOfNormalized(s: string)
    requires IsNormalized(s)
    ensures IsJson(Some(s)) <==> s == ApplicationJson || s == ApplicationJsonUtf8
  {
    NormalizeFixed(s);
  }

  /** A space or a double quote inserted anywhere does not change the classification. */
  lemma IsJsonIgnoresSpaceAndQuote(a: string, c: char, b: string)
    requires c == ' ' || c == '"'
    ensures IsJson(Some(a + [c] + b)) == IsJson(Some(a + b))
  {
    NormalizeIgnoresSpaceAndQuote(a, c, b);
    IsJsonRespectsNormalize(a + [c] + b, a + b);
  }
}
