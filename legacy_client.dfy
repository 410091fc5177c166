/**
 * The legacy signer that lib/Bitget.rb defines under the same class name,
 * Bitget::V2::Client. Its rules differ from the current ones: the timestamp
 * is in whole seconds and is never cleared, arguments are neither filtered
 * nor sorted, GET always carries '?' and also the JSON body, the signature is
 * HMAC-SHA512 in hex, an unknown verb raises, and the response body is parsed
 * whatever the transport reports.
 */
module LegacyClient {
  import opened Wrappers
  import opened Text
  import opened Decimal
  import opened KeyValue
  import opened Http
  import opened ParameterStrings

  /** The fresh value of `timestamp` at clock reading `now`: `Time.now.to_i.to_s`, whole seconds rounded down. */
  function SecondsStamp(now: real): string
  {
    IntToDecimal(Floor(now))
  }

  /** A seconds timestamp is integer text that reads back as the clock's second. */
  lemma SecondsStampReadsBack(now: real)
    ensures ParseInteger(SecondsStamp(now)) == Floor(now)
    ensures forall k :: 0 <= k < |SecondsStamp(now)| ==> IsIntegerChar(SecondsStamp(now)[k])
  {
    IntRoundTrip(Floor(now));
    IntToDecimalChars(Floor(now));
  }

  /** Before 1970 the second is rounded down, not toward zero as Float#to_i would: half a second before the epoch is second -1. */
  lemma SecondsStampBeforeEpoch()
    ensures SecondsStamp(-0.5) == "-1"
    ensures IntToDecimal(Truncate(-0.5)) == "0"
  {
    assert Floor(-0.5) == -1;
    assert Truncate(-0.5) == 0;
  }

  /** What `message` raises for a verb other than GET and POST. */
  function VerbError(verb: string): Raised
  {
    RuntimeError("The verb, " + verb + ", is not acceptable.")
  }

  /**
   * `message`: the query string is the parameter string for GET and nil for
   * POST; the body is the JSON of the arguments in both cases.
   */
  function Message(ts: string, verb: string, path: string, args: Args, lib: Library): (r: Result<string, Raised>)
    ensures r.Success? <==> IsVerb(verb)
    ensures r.Failure? ==> r.error == VerbError(verb)
    ensures r.Success? ==> |ts + verb + FullPath(path)| <= |r.value| && r.value[..|ts + verb + FullPath(path)|] == ts + verb + FullPath(path)
  {
    if !IsVerb(verb) then Failure(VerbError(verb))
    else
      var query: Option<string> := if verb == "GET" then Some(ParameterString(args, lib.urlEncode)) else None;
      var body := lib.toJson(args);
      match query
      case None => Success(ts + verb + FullPath(path) + body)
      case Some(q) => Success(ts + verb + FullPath(path) + "?" + q + body)
  }

  /** `signature`: HMAC-SHA512 of the message under the secret, as hex. */
  function Signature(secret: string, message: string, lib: Library): string
  {
    lib.hmacSha512Hex(secret, message)
  }

  /** `headers`: the seven fixed entries. */
  function Headers(key: string, signature: string, ts: string, passphrase: string): (h: HeaderMap)
    ensures |h| == 7 && DistinctNames(h)
  {
    [ ("ACCESS-KEY", key),
      ("ACCESS-SIGN", signature),
      ("ACCESS-TIMESTAMP", ts),
      ("ACCESS-PASSPHRASE", passphrase),
      ("Content-type", "application/json"),
      ("locale", "en-AU"),
      ("Accept", "application/json") ]
  }

  /** Each header name reads back the value it was given. */
  lemma HeadersLookup(key: string, signature: string, ts: string, passphrase: string)
    ensures var h := Headers(key, signature, ts, passphrase);
      && Header(h, "ACCESS-KEY") == Some(key)
      && Header(h, "ACCESS-SIGN") == Some(signature)
      && Header(h, "ACCESS-TIMESTAMP") == Some(ts)
      && Header(h, "ACCESS-PASSPHRASE") == Some(passphrase)
      && Header(h, "Content-type") == Some("application/json")
      && Header(h, "locale") == Some("en-AU")
      && Header(h, "Accept") == Some("application/json")
  {
    var h := Headers(key, signature, ts, passphrase);
    HeaderAt(h, 0); HeaderAt(h, 1); HeaderAt(h, 2); HeaderAt(h, 3); HeaderAt(h, 4); HeaderAt(h, 5); HeaderAt(h, 6);
  }

  /**
   * Everything `do_request` computes before it sends, with the timestamp
   * passed in as a value: the request handed to `HTTP.send`, or what
   * `message` raises. The arguments go out as the caller gave them.
   */
  function SignRequest(key: string, secret: string, passphrase: string, ts: string,
                       verb: string, path: string, args: Args, lib: Library): Result<Request, Raised>
  {
    match Message(ts, verb, path, args, lib)
    case Failure(e) => Failure(e)
    case Success(message) =>
      Success(Request(Downcase(verb), RequestString(path), args, Headers(key, Signature(secret, message, lib), ts, passphrase)))
  }

  /** The exchange's check of a request as it arrives, under the legacy rules. */
  predicate Authentic(secret: string, request: Request, lib: Library)
  {
    match (Header(request.headers, "ACCESS-TIMESTAMP"), Header(request.headers, "ACCESS-SIGN"), PathOf(request.url))
    case (Some(ts), Some(sign), Some(path)) =>
      var message := Message(ts, Upcase(request.verb), path, request.params, lib);
      message.Success? && sign == Signature(secret, message.value, lib)
    case _ => false
  }

  /**
   * What is signed is what is sent: the caller's arguments, nils included,
   * go to the transport; ACCESS-TIMESTAMP is the timestamp the message
   * embeds; the exchange, rebuilding the message from what it receives,
   * gets the same signature.
   */
  lemma SignedIsSent(key: string, secret: string, passphrase: string, ts: string,
                     verb: string, path: string, args: Args, lib: Library)
    requires IsVerb(verb)
    ensures var r := SignRequest(key, secret, passphrase, ts, verb, path, args, lib);
      && r.Success?
      && r.value.params == args
      && r.value.url == RequestString(path)
      && Header(r.value.headers, "ACCESS-TIMESTAMP") == Some(ts)
      && Header(r.value.headers, "ACCESS-KEY") == Some(key)
      && Authentic(secret, r.value, lib)
  {
    UpcaseDowncaseVerb(verb);
    RequestStringPath(path);
    HeadersLookup(key, Signature(secret, Message(ts, verb, path, args, lib).value, lib), ts, passphrase);
  }

  /**
   * The canonical GET message: '?' and then the parameter string, which
   * leaves nil entries out, and then the JSON body, which keeps them.
   */
  lemma GetMessage(ts: string, path: string, args: Args, lib: Library)
    ensures Message(ts, "GET", path, args, lib)
      == Success(ts + "GET" + "/api/v2" + path + "?" + ParameterString(NonNil(args), lib.urlEncode) + lib.toJson(args))
  {
    NilsIgnored(args, lib.urlEncode);
    assert ts + "GET" + FullPath(path) == ts + "GET" + "/api/v2" + path;
  }

  /** With only nil arguments a GET message still has its '?', followed directly by the body. */
  lemma GetMessageAllNil(ts: string, path: string, args: Args, lib: Library)
    requires forall i :: 0 <= i < |args| ==> args[i].1.None?
    ensures Message(ts, "GET", path, args, lib) == Success(ts + "GET" + "/api/v2" + path + "?" + lib.toJson(args))
  {
    AllNilIsEmpty(args, lib.urlEncode);
    var head := ts + "GET" + "/api/v2" + path + "?";
    assert head + "" == head;
    assert ts + "GET" + FullPath(path) == ts + "GET" + "/api/v2" + path;
  }

  /** The canonical POST message: the JSON body and no '?'. */
  lemma PostMessage(ts: string, path: string, args: Args, lib: Library)
    ensures Message(ts, "POST", path, args, lib) == Success(ts + "POST" + "/api/v2" + path + lib.toJson(args))
  {
    assert ts + "POST" + FullPath(path) == ts + "POST" + "/api/v2" + path;
  }

  /** `JSON.parse(response.body)`: the body is parsed whether or not the transport reports success. */
  function ParseBody<J>(response: Response, parse: string -> Option<J>): (r: Result<J, Raised>)
    ensures r.Success? <==> parse(response.body).Some?
    ensures r.Success? ==> Some(r.value) == parse(response.body)
    ensures r.Failure? ==> r.error == ParserError(response.body)
  {
    match parse(response.body)
    case None => Failure(ParserError(response.body))
    case Some(j) => Success(j)
  }

  class Client {
    const apiKey: string
    const apiSecret: string
    const apiPassphrase: string
    /** `@timestamp`: set by the first request and kept from then on. */
    var timestamp: Option<string>
    /** The foreign calls the client makes. */
    const lib: Library

    constructor (apiKey: string, apiSecret: string, apiPassphrase: string, lib: Library)
      ensures this.apiKey == apiKey && this.apiSecret == apiSecret && this.apiPassphrase == apiPassphrase
      ensures this.lib == lib && timestamp == None
    {
      this.apiKey := apiKey;
      this.apiSecret := apiSecret;
      this.apiPassphrase := apiPassphrase;
      this.lib := lib;
      timestamp := None;
    }

    /** `timestamp`: the memoised value, or the clock's `now` in seconds, memoised. */
    method Timestamp(now: real) returns (ts: string)
      modifies this`timestamp
      ensures ts == old(timestamp).GetOr(SecondsStamp(now))
      ensures timestamp == Some(ts)
    {
      if timestamp.None? {
        timestamp := Some(SecondsStamp(now));
      }
      ts := timestamp.value;
    }

    /**
     * `do_request`. The clock reads `now` when `message` first asks for the
     * timestamp and `later` when `headers` asks again; `send` is the
     * transport and `parse` is JSON.parse. Returns the request sent, if any,
     * and the parsed body or what was raised. The memo is never cleared.
     */
    method DoRequest<J>(verb: string, path: string, args: Args, now: real, later: real,
                        send: Request -> Response, parse: string -> Option<J>)
      returns (sent: Option<Request>, result: Result<J, Raised>)
      modifies this`timestamp
      ensures var signed := SignRequest(apiKey, apiSecret, apiPassphrase, old(timestamp).GetOr(SecondsStamp(now)), verb, path, args, lib);
        && (signed.Failure? ==> sent == None && result == Failure(signed.error) && timestamp == old(timestamp))
        && (signed.Success? ==>
              && sent == Some(signed.value)
              && result == ParseBody(send(signed.value), parse)
              && timestamp == Some(old(timestamp).GetOr(SecondsStamp(now))))
    {
      ghost var signed := SignRequest(apiKey, apiSecret, apiPassphrase, timestamp.GetOr(SecondsStamp(now)), verb, path, args, lib);
      var query: Option<string>;
      if verb == "GET" {
        var q := ToParameterString(args, lib.urlEncode);
        query := Some(q);
      } else if verb == "POST" {
        query := None;
      } else {
        assert signed == Failure(VerbError(verb));
        return None, Failure(RuntimeError("The verb, " + verb + ", is not acceptable."));
      }
      var body := lib.toJson(args);
      var ts := Timestamp(now);
      var message := if query.None? then ts + verb + FullPath(path) + body else ts + verb + FullPath(path) + "?" + query.value + body;
      var signature := Signature(apiSecret, message, lib);
      var stamp := Timestamp(later);
      var request := Request(Downcase(verb), RequestString(path), args, Headers(apiKey, signature, stamp, apiPassphrase));
      assert signed == Success(request) by {
        assert Message(ts, verb, path, args, lib) == Success(message);
      }
      var response := send(request);
      sent := Some(request);
      result := ParseBody(response, parse);
    }

    /** `get`. */
    method Get<J>(path: string, args: Args, now: real, later: real, send: Request -> Response, parse: string -> Option<J>)
      returns (request: Request, result: Result<J, Raised>)
      modifies this`timestamp
      ensures var signed := SignRequest(apiKey, apiSecret, apiPassphrase, old(timestamp).GetOr(SecondsStamp(now)), "GET", path, args, lib);
        && signed.Success? && request == signed.value
        && result == ParseBody(send(request), parse)
        && timestamp == Some(old(timestamp).GetOr(SecondsStamp(now)))
    {
      var sent;
      sent, result := DoRequest("GET", path, args, now, later, send, parse);
      request := sent.value;
    }

    /** `post`. */
    method Post<J>(path: string, args: Args, now: real, later: real, send: Request -> Response, parse: string -> Option<J>)
      returns (request: Request, result: Result<J, Raised>)
      modifies this`timestamp
      ensures var signed := SignRequest(apiKey, apiSecret, apiPassphrase, old(timestamp).GetOr(SecondsStamp(now)), "POST", path, args, lib);
        && signed.Success? && request == signed.value
        && result == ParseBody(send(request), parse)
        && timestamp == Some(old(timestamp).GetOr(SecondsStamp(now)))
    {
      var sent;
      sent, result := DoRequest("POST", path, args, now, later, send, parse);
      request := sent.value;
    }

    /** `spot_public_coins`: GET /spot/public/coins with the coin, nil or not, in the arguments. */
    method SpotPublicCoins<J>(coin: Option<Value>, now: real, later: real, send: Request -> Response, parse: string -> Option<J>)
      returns (result: Result<J, Raised>)
      modifies this`timestamp
      ensures var signed := SignRequest(apiKey, apiSecret, apiPassphrase, old(timestamp).GetOr(SecondsStamp(now)),
                                        "GET", "/spot/public/coins", [("coin", coin)], lib);
        && signed.Success?
        && result == ParseBody(send(signed.value), parse)
        && timestamp == Some(old(timestamp).GetOr(SecondsStamp(now)))
    {
      var _, r := Get("/spot/public/coins", [("coin", coin)], now, later, send, parse);
      result := r;
    }
  }

  /**
   * Two requests in a row on a new client: whatever the clock says the second
   * time, both carry the timestamp of the first request's clock reading.
   */
  method TwoRequests<J>(c: Client, verb1: string, path1: string, args1: Args, verb2: string, path2: string, args2: Args,
                        t1: real, t1Later: real, t2: real, t2Later: real, send: Request -> Response, parse: string -> Option<J>)
    returns (first: Request, second: Request)
    requires c.timestamp == None && IsVerb(verb1) && IsVerb(verb2)
    modifies c`timestamp
    ensures c.timestamp == Some(SecondsStamp(t1))
    ensures Header(first.headers, "ACCESS-TIMESTAMP") == Some(SecondsStamp(t1))
    ensures Header(second.headers, "ACCESS-TIMESTAMP") == Some(SecondsStamp(t1))
    ensures Authentic(c.apiSecret, first, c.lib) && Authentic(c.apiSecret, second, c.lib)
  {
    var s1, _ := c.DoRequest(verb1, path1, args1, t1, t1Later, send, parse);
    SignedIsSent(c.apiKey, c.apiSecret, c.apiPassphrase, SecondsStamp(t1), verb1, path1, args1, c.lib);
    var s2, _ := c.DoRequest(verb2, path2, args2, t2, t2Later, send, parse);
    SignedIsSent(c.apiKey, c.apiSecret, c.apiPassphrase, SecondsStamp(t1), verb2, path2, args2, c.lib);
    first, second := s1.value, s2.value;
  }
}
