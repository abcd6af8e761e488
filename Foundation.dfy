/**
  The Foundation values the pipeline passes around: byte buffers, URLs,
  requests, responses, the untyped tree JSONSerialization produces, and the
  lower-casing used to compare MIME types.
 */
module Foundation {

  datatype Option<+T> = None | Some(value: T)

  /** `Data`: the raw payload of a response. */
  type Data = seq<bv8>

  /** A `URL` as produced by `URL(string:)`; parsing itself is a collaborator. */
  datatype Url = Url(text: string)

  /** `URLRequest(url:)`: a plain GET of one URL. */
  datatype Request = Request(url: Url)

  /**
    `URLResponse`: its declared MIME type (absent when the server sent none)
    and, for an `HTTPURLResponse`, its status code (absent otherwise).
   */
  datatype Response = Response(url: Url, mimeType: Option<string>, statusCode: Option<int>)

  /**
    The tree `JSONSerialization.jsonObject` returns, as far as the feed mapper
    can tell it apart: dictionaries, arrays, strings, and every other leaf
    (numbers, booleans, null).
   */
  datatype Json =
    | Object(fields: map<string, Json>)
    | Array(items: seq<Json>)
    | String(text: string)
    | Other

  /** The ASCII part of `String.lowercased()`. */
  function LowerChar(c: char): char {
    if 'A' <= c <= 'Z' then (c as int + 32) as char else c
  }

  /**
    `String.lowercased()`, one character at a time: the result is all lower
    case and differs from `s` only in the case of its letters.
   */
  function Lowercased(s: string): (r: string)
    ensures IsLowercase(r) && EqualIgnoringCase(r, s)
  {
    seq(|s|, i requires 0 <= i < |s| => LowerChar(s[i]))
  }

  /** Two strings that differ at most in the case of their letters. */
  predicate EqualIgnoringCase(a: string, b: string) {
    |a| == |b| && forall i :: 0 <= i < |a| ==> LowerChar(a[i]) == LowerChar(b[i])
  }

  predicate IsLowercase(s: string) {
    forall i :: 0 <= i < |s| ==> LowerChar(s[i]) == s[i]
  }

  /**
    Comparing the lower-cased text with an all-lower-case expected value is
    exactly a case-insensitive comparison, in both directions.
   */
  lemma LowercasedMatchesIgnoringCase(s: string, expected: string)
    ensures IsLowercase(expected) ==> (Lowercased(s) == expected <==> EqualIgnoringCase(s, expected))
  {
    if IsLowercase(expected) && EqualIgnoringCase(s, expected) {
      assert forall i :: 0 <= i < |s| ==> Lowercased(s)[i] == expected[i];
    }
  }

  /**
    The guard both handlers open with: the response declares a MIME type and
    that type, lower-cased, is `expected`. Against an all-lower-case
    `expected` this accepts a declared type exactly when it equals `expected`
    up to case.
   */
  function HasMimeType(response: Response, expected: string): (accepted: bool)
    ensures IsLowercase(expected)
        ==> (accepted <==> response.mimeType.Some? && EqualIgnoringCase(response.mimeType.value, expected))
  {
    if response.mimeType.Some? then
      LowercasedMatchesIgnoringCase(response.mimeType.value, expected);
      Lowercased(response.mimeType.value) == expected
    else
      false
  }
}
