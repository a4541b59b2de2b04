/**
 * The response rewrite of the relay: every response forwarded from the
 * remote origin loses the headers that would stop the page from being shown
 * inside the panel's iframe. The header collection is an object whose
 * entries are deleted in place, one `delete` per spelling.
 */
module ProxyHeaders {

  /** A header's value as the HTTP layer delivers it: one string, or a list for repeated headers. */
  datatype HeaderValue = Single(text: string) | Multiple(texts: seq<string>)

  const FrameOptionsLower := "x-frame-options"
  const FrameOptionsCanonical := "X-Frame-Options"
  const CspLower := "content-security-policy"
  const CspCanonical := "Content-Security-Policy"

  /** The four exact spellings removed; names are compared case-sensitively. */
  const FramingHeaders: set<string> := {FrameOptionsLower, FrameOptionsCanonical, CspLower, CspCanonical}

  /**
   * The header collection after the rewrite: exactly the four spellings are
   * gone and every other header keeps its value.
   */
  function WithoutFramingHeaders(h: map<string, HeaderValue>): (r: map<string, HeaderValue>)
    ensures r.Keys == h.Keys - FramingHeaders
    ensures forall name :: name in r ==> r[name] == h[name]
    ensures forall name :: name in FramingHeaders ==> name !in r
  {
    map name | name in h && name !in FramingHeaders :: h[name]
  }

  /** A forwarded response whose header object is edited in place. */
  class ProxyResponse {
    var headers: map<string, HeaderValue>

    constructor (received: map<string, HeaderValue>)
      ensures headers == received
    {
      headers := received;
    }

    /** The four `delete` statements, in the order the handler runs them. */
    method StripFramingHeaders()
      modifies this
      ensures headers == WithoutFramingHeaders(old(headers))
    {
      headers := headers - {FrameOptionsLower};
      headers := headers - {FrameOptionsCanonical};
      headers := headers - {CspLower};
      headers := headers - {CspCanonical};
    }
  }

  /** Rewriting an already rewritten collection changes nothing. */
  lemma StripIdempotent(h: map<string, HeaderValue>)
    ensures WithoutFramingHeaders(WithoutFramingHeaders(h)) == WithoutFramingHeaders(h)
  {
    var once := WithoutFramingHeaders(h);
    assert WithoutFramingHeaders(once).Keys == once.Keys;
  }

  /** Absent headers are not an error: a collection without them is kept as it is. */
  lemma StripWithoutFramingIsNoOp(h: map<string, HeaderValue>)
    requires forall name :: name in FramingHeaders ==> name !in h
    ensures WithoutFramingHeaders(h) == h
  {
    assert WithoutFramingHeaders(h).Keys == h.Keys;
  }

  predicate IsLowerAscii(name: string)
  {
    forall i :: 0 <= i < |name| ==> !('A' <= name[i] <= 'Z')
  }

  /**
   * With header names in lower case, as the HTTP layer delivers them, the
   * two lower-case spellings are the ones that match and both headers are
   * gone.
   */
  lemma LowerCaseNamesLoseFramingHeaders(h: map<string, HeaderValue>)
    requires forall name :: name in h ==> IsLowerAscii(name)
    ensures forall name :: name in WithoutFramingHeaders(h) ==> name != FrameOptionsLower && name != CspLower
    ensures forall name :: name in WithoutFramingHeaders(h) <==> name in h && name != FrameOptionsLower && name != CspLower
  {
    assert !IsLowerAscii(FrameOptionsCanonical) by { assert FrameOptionsCanonical[0] == 'X'; }
    assert !IsLowerAscii(CspCanonical) by { assert CspCanonical[0] == 'C'; }
  }

  const FrameOptionsUpper := "X-FRAME-OPTIONS"

  /**
   * The comparison is by exact spelling: a framing header spelled in any
   * other case passes through unchanged.
   */
  lemma OtherCasingSurvives(h: map<string, HeaderValue>)
    requires FrameOptionsUpper in h
    ensures FrameOptionsUpper in WithoutFramingHeaders(h)
    ensures WithoutFramingHeaders(h)[FrameOptionsUpper] == h[FrameOptionsUpper]
  {
    assert FrameOptionsUpper != FrameOptionsLower by { assert FrameOptionsUpper[0] != FrameOptionsLower[0]; }
    assert FrameOptionsUpper != FrameOptionsCanonical by { assert FrameOptionsUpper[3] != FrameOptionsCanonical[3]; }
    assert |FrameOptionsUpper| != |CspLower|;
  }

  /** A client run of the rewrite on a concrete response: only the content type is left. */
  method StripExample() returns (kept: map<string, HeaderValue>)
    ensures kept == map["content-type" := Single("text/html")]
  {
    var received := map[FrameOptionsLower := Single("DENY"), "content-type" := Single("text/html"),
                         CspLower := Single("frame-ancestors 'none'")];
    var response := new ProxyResponse(received);
    response.StripFramingHeaders();
    assert response.headers.Keys == {"content-type"};
    assert response.headers["content-type"] == Single("text/html");
    kept := response.headers;
  }
}
