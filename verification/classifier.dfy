/**
 Client classification: a request comes from curl (and gets the plain-text report) exactly
 when its lower-cased user agent contains "curl"; every other client is treated as a browser.
 */
module Classifier {
  import opened Strings

  const CurlToken: string := "curl"

  /** `ua.toLowerCase().includes('curl')`. */
  predicate IsCurl(ua: string)
    ensures IsCurl(ua) ==> |ua| >= |CurlToken|
  {
    Contains(ToLowerAscii(ua), CurlToken)
  }

  /** The four characters at `i` spell "curl" in some mix of upper and lower case. */
  predicate CurlAt(ua: string, i: int) {
    0 <= i && i + 4 <= |ua| &&
    (ua[i] == 'c' || ua[i] == 'C') &&
    (ua[i + 1] == 'u' || ua[i + 1] == 'U') &&
    (ua[i + 2] == 'r' || ua[i + 2] == 'R') &&
    (ua[i + 3] == 'l' || ua[i + 3] == 'L')
  }

  /** Reference definition: "curl" appears somewhere in `ua`, ignoring case. */
  predicate MentionsCurlAnyCase(ua: string) {
    exists i :: 0 <= i <= |ua| - 4 && CurlAt(ua, i)
  }

  /** The lowered user agent holds "curl" at `i` exactly when the raw one spells it there in any case. */
  lemma OccursAtLowered(ua: string, i: int)
    ensures OccursAt(ToLowerAscii(ua), CurlToken, i) <==> CurlAt(ua, i)
  {
  }

  /** Classification is a case-insensitive search for "curl", in both directions. */
  lemma IsCurlIff(ua: string)
    ensures IsCurl(ua) <==> MentionsCurlAnyCase(ua)
  {
    if IsCurl(ua) {
      var i :| 0 <= i <= |ua| - 4 && OccursAt(ToLowerAscii(ua), CurlToken, i);
      OccursAtLowered(ua, i);
    }
    if MentionsCurlAnyCase(ua) {
      var i :| 0 <= i <= |ua| - 4 && CurlAt(ua, i);
      OccursAtLowered(ua, i);
      ContainsAt(ToLowerAscii(ua), CurlToken, i);
    }
  }

  /** Upper-case "CURL/8.0" counts as curl; an empty user agent (a missing header) does not. */
  lemma ClassifyExamples()
    ensures IsCurl("CURL/8.0")
    ensures IsCurl("Wget-compatible curl/7.88.1")
    ensures !IsCurl("")
  {
    assert CurlAt("CURL/8.0", 0);
    IsCurlIff("CURL/8.0");
    assert CurlAt("Wget-compatible curl/7.88.1", 16);
    IsCurlIff("Wget-compatible curl/7.88.1");
    NotContainsLonger(ToLowerAscii(""), CurlToken);
  }

  /** A user agent without 'c' or 'C' is never classified as curl. */
  lemma NoCNotCurl(ua: string)
    requires forall i :: 0 <= i < |ua| ==> ua[i] != 'c' && ua[i] != 'C'
    ensures !IsCurl(ua)
  {
    IsCurlIff(ua);
  }
}
