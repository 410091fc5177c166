/**
 * What both signers share: the foreign library calls they make, the request
 * they hand to the transport, the response it gives back, the exceptions a
 * request can raise, and the fixed host and path prefix of the exchange.
 */
module Http {
  import opened Wrappers
  import opened KeyValue
  import opened Decimal

  /** A header map in insertion order. */
  type HeaderMap = seq<(string, string)>

  /**
   * The foreign calls, uninterpreted: JSON serialisation (`to_json`,
   * `JSON.dump`), Hash#x_www_form_urlencode, String#url_encode,
   * HMAC-SHA256 digest bytes, strict Base64, and HMAC-SHA512 as hex.
   * The HMACs take (secret, message).
   */
  datatype Library = Library(
    toJson: Args -> string,
    formUrlEncode: Args -> string,
    urlEncode: Value -> string,
    hmacSha256: (string, string) -> seq<bv8>,
    base64: seq<bv8> -> string,
    hmacSha512Hex: (string, string) -> string)

  /** The arguments of `HTTP.send(verb, url, args, headers)`; `verb` is lower case. */
  datatype Request = Request(verb: string, url: string, params: Args, headers: HeaderMap)

  /** A transport response: `success?`, `code`, `message`, `body`. */
  datatype Response = Response(success: bool, code: string, message: string, body: string)

  /** What a request can raise. */
  datatype Raised =
    | BitgetError(code: string, message: string, body: string)  // Bitget::Error
    | RuntimeError(text: string)                                 // `raise "..."`
    | TypeError                                                  // signing a nil message
    | ParserError(input: string)                                 // JSON::ParserError

  /** The two verbs either signer accepts. */
  predicate IsVerb(verb: string) {
    verb == "GET" || verb == "POST"
  }

  /**
   * A signed message starts with the timestamp and then the verb, so the
   * integer text at its head is exactly that timestamp.
   */
  lemma TimestampLeads(i: int, verb: string, rest: string)
    requires IsVerb(verb)
    ensures LeadingInteger(IntToDecimal(i) + verb + rest) == IntToDecimal(i)
  {
    IntToDecimalChars(i);
    assert IntToDecimal(i) + verb + rest == IntToDecimal(i) + (verb + rest);
    LeadingIntegerOf(IntToDecimal(i), verb + rest);
  }

  const ApiHost := "api.bitget.com"
  const PathPrefix := "/api/v2"

  /** `full_path`: the endpoint path under the API version prefix. */
  function FullPath(path: string): string
  {
    PathPrefix + path
  }

  /** `request_string`: the URL a request goes to. */
  function RequestString(path: string): string
  {
    "https://" + ApiHost + FullPath(path)
  }

  const UrlBase := "https://" + ApiHost + PathPrefix

  /** The endpoint path a URL addresses, as the exchange reads it back. */
  function PathOf(url: string): Option<string>
  {
    if |UrlBase| <= |url| && url[..|UrlBase|] == UrlBase then Some(url[|UrlBase|..]) else None
  }

  /** An endpoint path survives the round trip through its URL. */
  lemma RequestStringPath(path: string)
    ensures PathOf(RequestString(path)) == Some(path)
  {
    assert RequestString(path) == UrlBase + path;
  }

  /** The first value stored under `name`. */
  function Header(h: HeaderMap, name: string): (r: Option<string>)
    ensures r.Some? <==> exists i :: 0 <= i < |h| && h[i].0 == name
    ensures r.Some? ==> (name, r.value) in h
  {
    if |h| == 0 then None else if h[0].0 == name then Some(h[0].1) else Header(h[1..], name)
  }

  predicate DistinctNames(h: HeaderMap) {
    forall i, j :: 0 <= i < j < |h| ==> h[i].0 != h[j].0
  }

  /** With distinct names, looking a name up finds the one entry that carries it. */
  lemma {:induction false} HeaderAt(h: HeaderMap, i: nat)
    requires DistinctNames(h) && i < |h|
    ensures Header(h, h[i].0) == Some(h[i].1)
  {
    if i > 0 {
      assert h[1..][i - 1] == h[i];
      HeaderAt(h[1..], i - 1);
    }
  }
}
