/**
 * The current signer and dispatcher of Bitget::V2::Client
 * (lib/Bitget/V2/Client.rb). A request drops nil arguments, sorts the rest by
 * key, signs `timestamp + verb + "/api/v2" + path` followed by `"?" + query`
 * (GET with arguments) or the JSON body (POST) with Base64 HMAC-SHA256, sends
 * the very arguments it signed, and clears the memoised millisecond timestamp.
 */
module V2Client {
  import opened Wrappers
  import opened Text
  import opened Decimal
  import opened KeyValue
  import opened Http

  /** The fresh value of `timestamp` at clock reading `now` (seconds since the epoch): `(Time.now.to_f * 1000).to_i.to_s`. */
  function MillisStamp(now: real): string
  {
    IntToDecimal(Truncate(now * 1000.0))
  }

  /** A millisecond timestamp is integer text that reads back as the clock's millisecond. */
  lemma MillisStampReadsBack(now: real)
    ensures ParseInteger(MillisStamp(now)) == Truncate(now * 1000.0)
    ensures forall k :: 0 <= k < |MillisStamp(now)| ==> IsIntegerChar(MillisStamp(now)[k])
  {
    IntRoundTrip(Truncate(now * 1000.0));
    IntToDecimalChars(Truncate(now * 1000.0));
  }

  /**
   * `message`: the canonical string to sign, over arguments already filtered
   * and sorted. Any verb other than GET and POST falls through the `case`
   * and yields nil.
   */
  function Message(ts: string, verb: string, path: string, args: Args, lib: Library): (r: Option<string>)
    ensures r.Some? <==> IsVerb(verb)
    ensures r.Some? ==> |ts + verb + FullPath(path)| <= |r.value| && r.value[..|ts + verb + FullPath(path)|] == ts + verb + FullPath(path)
  {
    if verb == "GET" then
      if |args| == 0 then Some(ts + verb + FullPath(path))
      else Some(ts + verb + FullPath(path) + "?" + lib.formUrlEncode(args))
    else if verb == "POST" then Some(ts + verb + FullPath(path) + lib.toJson(args))
    else None
  }

  /** `signature`: strict Base64 of the HMAC-SHA256 digest of the message under the secret. */
  function Signature(secret: string, message: string, lib: Library): string
  {
    lib.base64(lib.hmacSha256(secret, message))
  }

  /** `headers`: the six fixed entries. */
  function Headers(key: string, signature: string, ts: string, passphrase: string): (h: HeaderMap)
    ensures |h| == 6 && DistinctNames(h)
  {
    [ ("ACCESS-KEY", key),
      ("ACCESS-SIGN", signature),
      ("ACCESS-TIMESTAMP", ts),
      ("ACCESS-PASSPHRASE", passphrase),
      ("Content-Type", "application/json"),
      ("X-CHANNEL-API-CODE", "spot") ]
  }

  /** Each header name reads back the value it was given. */
  lemma HeadersLookup(key: string, signature: string, ts: string, passphrase: string)
    ensures var h := Headers(key, signature, ts, passphrase);
      && Header(h, "ACCESS-KEY") == Some(key)
      && Header(h, "ACCESS-SIGN") == Some(signature)
      && Header(h, "ACCESS-TIMESTAMP") == Some(ts)
      && Header(h, "ACCESS-PASSPHRASE") == Some(passphrase)
      && Header(h, "Content-Type") == Some("application/json")
      && Header(h, "X-CHANNEL-API-CODE") == Some("spot")
  {
    var h := Headers(key, signature, ts, passphrase);
    HeaderAt(h, 0); HeaderAt(h, 1); HeaderAt(h, 2); HeaderAt(h, 3); HeaderAt(h, 4); HeaderAt(h, 5);
  }

  /** `log_args?`: not every value is nil. */
  function LogArgs(args: Args): (r: bool)
    ensures r <==> exists i :: 0 <= i < |args| && args[i].1.Some?
  {
    if |args| == 0 then false
    else
      assert forall i :: 1 <= i < |args| ==> args[i] == args[1..][i - 1];
      args[0].1.Some? || LogArgs(args[1..])
  }

  /** What the logger receives; the text layout of each entry is not modelled. */
  datatype LogEntry =
    | RequestLogged(verb: string, url: string, args: Option<Args>, headers: HeaderMap)
    | ResponseLogged(code: string, message: string, body: string)
    | ErrorLogged(code: string, message: string, body: string)

  /** `log_request` for a request about to be sent: the arguments line only when `log_args?` holds. */
  function RequestLog(verb: string, request: Request): LogEntry
  {
    RequestLogged(verb, request.url, if LogArgs(request.params) then Some(request.params) else None, request.headers)
  }

  /**
   * Everything `do_request` computes before it sends, with the timestamp
   * passed in as a value: the lower-case verb, the URL, the arguments and the
   * headers handed to `HTTP.send`, or what is raised instead.
   */
  function SignRequest(key: string, secret: string, passphrase: string, ts: string,
                       verb: string, path: string, args: Args, lib: Library): Result<Request, Raised>
  {
    var sortedArgs := SortedArgs(args);
    match Message(ts, verb, path, sortedArgs, lib)
    case None => Failure(TypeError)
    case Some(message) =>
      Success(Request(Downcase(verb), RequestString(path), sortedArgs,
                      Headers(key, Signature(secret, message, lib), ts, passphrase)))
  }

  /** SignRequest for GET or POST, step by step as `do_request` takes the steps. */
  lemma SignRequestSteps(key: string, secret: string, passphrase: string, ts: string,
                         verb: string, path: string, args: Args, lib: Library)
    requires IsVerb(verb)
    ensures SignRequest(key, secret, passphrase, ts, verb, path, args, lib)
      == Success(Request(Downcase(verb), RequestString(path), SortedArgs(args),
                         Headers(key, Signature(secret, Message(ts, verb, path, SortedArgs(args), lib).value, lib), ts, passphrase)))
  {
  }

  /**
   * The exchange's check of a request as it arrives: rebuild the message from
   * the received timestamp header, method, path and arguments, and compare
   * its signature with the ACCESS-SIGN header.
   */
  predicate Authentic(secret: string, request: Request, lib: Library)
  {
    match (Header(request.headers, "ACCESS-TIMESTAMP"), Header(request.headers, "ACCESS-SIGN"), PathOf(request.url))
    case (Some(ts), Some(sign), Some(path)) =>
      var message := Message(ts, Upcase(request.verb), path, request.params, lib);
      message.Some? && sign == Signature(secret, message.value, lib)
    case _ => false
  }

  /**
   * What is signed is what is sent: the arguments sent are the caller's
   * non-nil entries sorted by key, the ACCESS-TIMESTAMP header is the
   * timestamp the message embeds, and the exchange, rebuilding the message
   * from the request it receives, gets the same signature.
   */
  lemma SignedIsSent(key: string, secret: string, passphrase: string, ts: string,
                     verb: string, path: string, args: Args, lib: Library)
    requires IsVerb(verb)
    ensures var r := SignRequest(key, secret, passphrase, ts, verb, path, args, lib);
      && r.Success?
      && r.value.params == SortedArgs(args)
      && r.value.url == RequestString(path)
      && Header(r.value.headers, "ACCESS-TIMESTAMP") == Some(ts)
      && Header(r.value.headers, "ACCESS-KEY") == Some(key)
      && Authentic(secret, r.value, lib)
  {
    UpcaseDowncaseVerb(verb);
    RequestStringPath(path);
    HeadersLookup(key, Signature(secret, Message(ts, verb, path, SortedArgs(args), lib).value, lib), ts, passphrase);
  }

  /** The signer refuses every verb but GET and POST, before anything is sent. */
  lemma OnlyGetAndPostAreSigned(key: string, secret: string, passphrase: string, ts: string,
                                verb: string, path: string, args: Args, lib: Library)
    ensures SignRequest(key, secret, passphrase, ts, verb, path, args, lib).Success? <==> IsVerb(verb)
  {
  }

  /**
   * The canonical message in terms of the caller's arguments: GET without a
   * non-nil argument has no '?', GET with one has '?' and the form encoding of
   * the sorted arguments, POST always has a JSON body, even of no arguments.
   */
  lemma MessageShape(ts: string, path: string, args: Args, lib: Library)
    requires DistinctKeys(args)
    ensures (forall i :: 0 <= i < |args| ==> args[i].1.None?) ==>
      Message(ts, "GET", path, SortedArgs(args), lib) == Some(ts + "GET" + "/api/v2" + path)
    ensures (exists i :: 0 <= i < |args| && args[i].1.Some?) ==>
      Message(ts, "GET", path, SortedArgs(args), lib)
        == Some(ts + "GET" + "/api/v2" + path + "?" + lib.formUrlEncode(SortedArgs(args)))
    ensures Message(ts, "POST", path, SortedArgs(args), lib)
      == Some(ts + "POST" + "/api/v2" + path + lib.toJson(SortedArgs(args)))
  {
    SortedArgsSpec(args);
    assert FullPath(path) == "/api/v2" + path;
    assert ts + "GET" + FullPath(path) == ts + "GET" + "/api/v2" + path;
    assert ts + "POST" + FullPath(path) == ts + "POST" + "/api/v2" + path;
  }

  /**
   * Two signed messages that are equal were built at the same millisecond:
   * a message taken at one millisecond never carries another's timestamp.
   */
  lemma MessageDeterminesMillisecond(t1: real, verb1: string, path1: string, args1: Args,
                                     t2: real, verb2: string, path2: string, args2: Args, lib: Library)
    requires IsVerb(verb1) && IsVerb(verb2)
    requires Message(MillisStamp(t1), verb1, path1, args1, lib) == Message(MillisStamp(t2), verb2, path2, args2, lib)
    ensures Truncate(t1 * 1000.0) == Truncate(t2 * 1000.0)
  {
    var m := Message(MillisStamp(t1), verb1, path1, args1, lib).value;
    var n1 := |MillisStamp(t1) + verb1|;
    var n2 := |MillisStamp(t2) + verb2|;
    assert m == MillisStamp(t1) + verb1 + m[n1..];
    assert m == MillisStamp(t2) + verb2 + m[n2..];
    TimestampLeads(Truncate(t1 * 1000.0), verb1, m[n1..]);
    TimestampLeads(Truncate(t2 * 1000.0), verb2, m[n2..]);
    IntToDecimalInjective(Truncate(t1 * 1000.0), Truncate(t2 * 1000.0));
  }

  /** `log_args?` on filtered arguments holds exactly when some argument is left. */
  lemma LogArgsOfSorted(args: Args)
    requires DistinctKeys(args)
    ensures LogArgs(SortedArgs(args)) <==> |SortedArgs(args)| > 0
  {
    SortedArgsSpec(args);
    if |SortedArgs(args)| > 0 {
      assert SortedArgs(args)[0] in SortedArgs(args);
    }
  }

  /**
   * `handle_response`: the parsed body on transport success, otherwise
   * Bitget::Error with the response's own code, message and body. JSON.parse
   * is `parse`; when it fails its error propagates and nothing is logged.
   * Also returns what is logged when logging is on.
   */
  function HandleResponse<J>(response: Response, useLogging: bool, parse: string -> Option<J>): (r: (Result<J, Raised>, seq<LogEntry>))
    ensures r.0.Success? <==> response.success && parse(response.body).Some?
    ensures r.0.Success? ==> Some(r.0.value) == parse(response.body)
    ensures !response.success ==> r.0 == Failure(BitgetError(response.code, response.message, response.body))
    ensures response.success && parse(response.body).None? ==> r.0 == Failure(ParserError(response.body))
    ensures !useLogging ==> r.1 == []
    ensures useLogging && !response.success ==> r.1 == [ErrorLogged(response.code, response.message, response.body)]
    ensures useLogging && r.0.Success? ==> r.1 == [ResponseLogged(response.code, response.message, response.body)]
    ensures response.success && parse(response.body).None? ==> r.1 == []
  {
    if response.success then
      match parse(response.body)
      case None => (Failure(ParserError(response.body)), [])
      case Some(parsed) =>
        (Success(parsed), if useLogging then [ResponseLogged(response.code, response.message, response.body)] else [])
    else
      (Failure(BitgetError(response.code, response.message, response.body)),
       if useLogging then [ErrorLogged(response.code, response.message, response.body)] else [])
  }

  /** Logging never changes what is returned or raised. */
  lemma LoggingIsNeutral<J>(response: Response, parse: string -> Option<J>)
    ensures HandleResponse(response, true, parse).0 == HandleResponse(response, false, parse).0
  {
  }

  /**
   * The "I'm a teapot" case: a failed response raises its literal code,
   * message and empty body, and with logging on the error entry carries the same.
   */
  lemma TeapotRaises<J>(useLogging: bool, parse: string -> Option<J>)
    ensures HandleResponse(Response(false, "418", "I'm a teapot", ""), useLogging, parse).0
      == Failure(BitgetError("418", "I'm a teapot", ""))
    ensures useLogging ==>
      HandleResponse(Response(false, "418", "I'm a teapot", ""), useLogging, parse).1 == [ErrorLogged("418", "I'm a teapot", "")]
  {
  }

  /** The arguments `spot_public_coins` passes to `get`. */
  function PublicCoinsArgs(coin: Option<Value>): Args
  {
    [("coin", coin)]
  }

  /** The arguments `spot_wallet_subaccount_transfer` passes to `post`, as written: `symbol` is accepted and dropped. */
  function SubaccountTransferArgsAsWritten(fromType: Value, toType: Value, amount: Value, coin: Value, symbol: Option<Value>,
                                           clientOrderId: Option<Value>, fromUserId: Option<Value>, toUserId: Option<Value>): Args
  {
    [ ("fromType", Some(fromType)), ("toType", Some(toType)), ("amount", Some(amount)), ("coin", Some(coin)),
      ("clientOid", clientOrderId), ("fromUserId", fromUserId), ("toUserId", toUserId) ]
  }

  /** As written, the symbol never reaches the exchange: a transfer with any symbol signs the same request as one without. */
  lemma SubaccountTransferDropsSymbol(key: string, secret: string, passphrase: string, ts: string, lib: Library,
                                      fromType: Value, toType: Value, amount: Value, coin: Value, symbol: Option<Value>,
                                      clientOrderId: Option<Value>, fromUserId: Option<Value>, toUserId: Option<Value>)
    ensures var a1 := SubaccountTransferArgsAsWritten(fromType, toType, amount, coin, symbol, clientOrderId, fromUserId, toUserId);
            var a2 := SubaccountTransferArgsAsWritten(fromType, toType, amount, coin, None, clientOrderId, fromUserId, toUserId);
      && (forall i :: 0 <= i < |a1| ==> a1[i].0 != "symbol")
      && SignRequest(key, secret, passphrase, ts, "POST", "/spot/wallet/subaccount-transfer", a1, lib)
         == SignRequest(key, secret, passphrase, ts, "POST", "/spot/wallet/subaccount-transfer", a2, lib)
  {
  }

  /** The documented mapping: the same arguments with `symbol` included. */
  function SubaccountTransferArgs(fromType: Value, toType: Value, amount: Value, coin: Value, symbol: Option<Value>,
                                  clientOrderId: Option<Value>, fromUserId: Option<Value>, toUserId: Option<Value>): Args
  {
    [ ("fromType", Some(fromType)), ("toType", Some(toType)), ("amount", Some(amount)), ("coin", Some(coin)),
      ("symbol", symbol), ("clientOid", clientOrderId), ("fromUserId", fromUserId), ("toUserId", toUserId) ]
  }

  /** With the corrected mapping a given symbol is signed and sent. */
  lemma SubaccountTransferSendsSymbol(key: string, secret: string, passphrase: string, ts: string, lib: Library,
                                      fromType: Value, toType: Value, amount: Value, coin: Value, symbol: Value,
                                      clientOrderId: Option<Value>, fromUserId: Option<Value>, toUserId: Option<Value>)
    ensures var a := SubaccountTransferArgs(fromType, toType, amount, coin, Some(symbol), clientOrderId, fromUserId, toUserId);
            var r := SignRequest(key, secret, passphrase, ts, "POST", "/spot/wallet/subaccount-transfer", a, lib);
      r.Success? && ("symbol", Some(symbol)) in r.value.params
  {
    var a := SubaccountTransferArgs(fromType, toType, amount, coin, Some(symbol), clientOrderId, fromUserId, toUserId);
    assert a[4] == ("symbol", Some(symbol));
    assert a[4] in NonNil(a);
    assert a[4] in multiset(SortedArgs(a));
  }

  /** An exchange: the request handed to `HTTP.send` and the response it returned. */
  datatype Exchange = Exchange(request: Request, response: Response)

  class Client {
    var apiKey: string
    var apiSecret: string
    var apiPassphrase: string
    var useLogging: bool
    /** `@timestamp`: the memoised timestamp, nil between requests. */
    var timestamp: Option<string>
    /** The foreign calls the client makes. */
    const lib: Library

    /** No timestamp is memoised. */
    ghost predicate Idle()
      reads this
    {
      timestamp.None?
    }

    constructor (apiKey: string, apiSecret: string, apiPassphrase: string, useLogging: bool, lib: Library)
      ensures this.apiKey == apiKey && this.apiSecret == apiSecret && this.apiPassphrase == apiPassphrase
      ensures this.useLogging == useLogging && this.lib == lib
      ensures Idle()
    {
      this.apiKey := apiKey;
      this.apiSecret := apiSecret;
      this.apiPassphrase := apiPassphrase;
      this.useLogging := useLogging;
      this.lib := lib;
      timestamp := None;
    }

    /** `timestamp`: the memoised value, or the clock's `now` in milliseconds, memoised. */
    method Timestamp(now: real) returns (ts: string)
      modifies this`timestamp
      ensures ts == old(timestamp).GetOr(MillisStamp(now))
      ensures timestamp == Some(ts)
    {
      if timestamp.None? {
        timestamp := Some(MillisStamp(now));
      }
      ts := timestamp.value;
    }

    /**
     * `do_request`. The clock reads `now` when `message` first asks for the
     * timestamp and `later` when `headers` asks again; `send` is the
     * transport. The memo is cleared after the headers are built and before
     * sending.
     */
    method DoRequest(verb: string, path: string, args: Args, now: real, later: real, send: Request -> Response)
      returns (outcome: Result<Exchange, Raised>, log: seq<LogEntry>)
      modifies this`timestamp
      ensures var signed := SignRequest(apiKey, apiSecret, apiPassphrase, old(timestamp).GetOr(MillisStamp(now)), verb, path, args, lib);
        && (signed.Failure? ==> outcome == Failure(signed.error) && log == [] && timestamp == old(timestamp))
        && (signed.Success? ==>
              && outcome == Success(Exchange(signed.value, send(signed.value)))
              && log == (if useLogging then [RequestLog(verb, signed.value)] else [])
              && timestamp == None)
    {
      ghost var signed := SignRequest(apiKey, apiSecret, apiPassphrase, timestamp.GetOr(MillisStamp(now)), verb, path, args, lib);
      var sortedArgs := SortedArgs(args);
      if !IsVerb(verb) {
        // `message` yields nil without reading the timestamp; signing nil raises.
        assert signed == Failure(TypeError);
        return Failure(TypeError), [];
      }
      var ts := Timestamp(now);
      var message := Message(ts, verb, path, sortedArgs, lib).value;
      var signature := Signature(apiSecret, message, lib);
      var stamp := Timestamp(later);
      var headers := Headers(apiKey, signature, stamp, apiPassphrase);
      var request := Request(Downcase(verb), RequestString(path), sortedArgs, headers);
      assert signed == Success(request) by {
        SignRequestSteps(apiKey, apiSecret, apiPassphrase, ts, verb, path, args, lib);
      }
      log := if useLogging then [RequestLog(verb, request)] else [];
      timestamp := None;
      outcome := Success(Exchange(request, send(request)));
    }

    /** `get`. */
    method Get(path: string, args: Args, now: real, later: real, send: Request -> Response)
      returns (exchange: Exchange, log: seq<LogEntry>)
      modifies this`timestamp
      ensures var signed := SignRequest(apiKey, apiSecret, apiPassphrase, old(timestamp).GetOr(MillisStamp(now)), "GET", path, args, lib);
        && signed.Success?
        && exchange == Exchange(signed.value, send(signed.value))
        && log == (if useLogging then [RequestLog("GET", signed.value)] else [])
        && timestamp == None
    {
      var outcome;
      outcome, log := DoRequest("GET", path, args, now, later, send);
      exchange := outcome.value;
    }

    /** `post`. */
    method Post(path: string, args: Args, now: real, later: real, send: Request -> Response)
      returns (exchange: Exchange, log: seq<LogEntry>)
      modifies this`timestamp
      ensures var signed := SignRequest(apiKey, apiSecret, apiPassphrase, old(timestamp).GetOr(MillisStamp(now)), "POST", path, args, lib);
        && signed.Success?
        && exchange == Exchange(signed.value, send(signed.value))
        && log == (if useLogging then [RequestLog("POST", signed.value)] else [])
        && timestamp == None
    {
      var outcome;
      outcome, log := DoRequest("POST", path, args, now, later, send);
      exchange := outcome.value;
    }

    /** `spot_public_coins`: GET /spot/public/coins with the optional coin, then `handle_response`. */
    method SpotPublicCoins<J>(coin: Option<Value>, now: real, later: real, send: Request -> Response, parse: string -> Option<J>)
      returns (result: Result<J, Raised>, log: seq<LogEntry>)
      modifies this`timestamp
      ensures var signed := SignRequest(apiKey, apiSecret, apiPassphrase, old(timestamp).GetOr(MillisStamp(now)),
                                        "GET", "/spot/public/coins", PublicCoinsArgs(coin), lib);
        && signed.Success?
        && var handled := HandleResponse(send(signed.value), useLogging, parse);
        && result == handled.0
        && log == (if useLogging then [RequestLog("GET", signed.value)] else []) + handled.1
        && timestamp == None
    {
      var exchange, sendLog := Get("/spot/public/coins", PublicCoinsArgs(coin), now, later, send);
      var handled := HandleResponse(exchange.response, useLogging, parse);
      result := handled.0;
      log := sendLog + handled.1;
    }

    /** `spot_wallet_subaccount_transfer`, with `symbol` passed on as documented. */
    method SpotWalletSubaccountTransfer<J>(fromType: Value, toType: Value, amount: Value, coin: Value, symbol: Option<Value>,
                                           clientOrderId: Option<Value>, fromUserId: Option<Value>, toUserId: Option<Value>,
                                           now: real, later: real, send: Request -> Response, parse: string -> Option<J>)
      returns (result: Result<J, Raised>, log: seq<LogEntry>)
      modifies this`timestamp
      ensures var signed := SignRequest(apiKey, apiSecret, apiPassphrase, old(timestamp).GetOr(MillisStamp(now)),
                                        "POST", "/spot/wallet/subaccount-transfer",
                                        SubaccountTransferArgs(fromType, toType, amount, coin, symbol, clientOrderId, fromUserId, toUserId), lib);
        && signed.Success?
        && var handled := HandleResponse(send(signed.value), useLogging, parse);
        && result == handled.0
        && log == (if useLogging then [RequestLog("POST", signed.value)] else []) + handled.1
        && timestamp == None
    {
      var args := SubaccountTransferArgs(fromType, toType, amount, coin, symbol, clientOrderId, fromUserId, toUserId);
      var exchange, sendLog := Post("/spot/wallet/subaccount-transfer", args, now, later, send);
      var handled := HandleResponse(exchange.response, useLogging, parse);
      result := handled.0;
      log := sendLog + handled.1;
    }
  }

  /**
   * Two requests in a row on one client: each carries the timestamp of its
   * own first clock reading, so when they fall in different milliseconds the
   * second message does not carry the first request's timestamp.
   */
  method TwoRequests(c: Client, verb1: string, path1: string, args1: Args, verb2: string, path2: string, args2: Args,
                     t1: real, t1Later: real, t2: real, t2Later: real, send: Request -> Response)
    returns (first: Exchange, second: Exchange)
    requires c.Idle() && IsVerb(verb1) && IsVerb(verb2)
    requires Truncate(t1 * 1000.0) != Truncate(t2 * 1000.0)
    modifies c`timestamp
    ensures c.Idle()
    ensures Header(first.request.headers, "ACCESS-TIMESTAMP") == Some(MillisStamp(t1))
    ensures Header(second.request.headers, "ACCESS-TIMESTAMP") == Some(MillisStamp(t2))
    ensures MillisStamp(t1) != MillisStamp(t2)
    ensures Authentic(c.apiSecret, first.request, c.lib) && Authentic(c.apiSecret, second.request, c.lib)
  {
    var o1, _ := c.DoRequest(verb1, path1, args1, t1, t1Later, send);
    SignedIsSent(c.apiKey, c.apiSecret, c.apiPassphrase, MillisStamp(t1), verb1, path1, args1, c.lib);
    var o2, _ := c.DoRequest(verb2, path2, args2, t2, t2Later, send);
    SignedIsSent(c.apiKey, c.apiSecret, c.apiPassphrase, MillisStamp(t2), verb2, path2, args2, c.lib);
    first, second := o1.value, o2.value;
    if MillisStamp(t1) == MillisStamp(t2) {
      IntToDecimalInjective(Truncate(t1 * 1000.0), Truncate(t2 * 1000.0));
    }
  }
}
