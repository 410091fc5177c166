# Bitget request signing, modelled in Dafny

This project models the request-signing core of the Bitget Ruby client.
Every private REST call goes through it. It turns a verb, a path and a hash
of arguments into a canonical message. It signs that message with the API
secret and sends the arguments with four authentication headers:
ACCESS-KEY, ACCESS-SIGN, ACCESS-TIMESTAMP and ACCESS-PASSPHRASE.

The source defines two signers under the same class name. They are kept
apart here as two modules:

- `V2Client` (lib/Bitget/V2/Client.rb) is the current signer.
  - It drops nil arguments and sorts the rest by key.
  - The message is the millisecond timestamp, the verb and `/api/v2` + path, followed by `?` and the form-encoded query (GET with arguments) or the JSON body (POST).
  - The signature is Base64 of HMAC-SHA256.
  - It sends exactly the arguments it signed.
  - It clears the memoised timestamp on every request it sends.
  - `handle_response` returns the parsed body, or raises `Bitget::Error` carrying the response's code, message and body.
- `LegacyClient` (lib/Bitget.rb) is the earlier signer.
  - The timestamp is in whole seconds and is never cleared.
  - Arguments are neither filtered nor sorted.
  - A GET message always has `?` and the parameter string, followed by the JSON body of all arguments, nils included.
  - The signature is hex HMAC-SHA512.
  - Any verb but GET and POST raises.
  - The response body is parsed whether or not the call succeeded.

Shared modules:

- `ParameterStrings` models `Hash#to_parameter_string` (lib/Hash/to_parameter_string.rb).
  - Its loop becomes the method `ToParameterString`.
  - That method is proved equal to the function `ParameterString`.
  - The function is proved to skip nils and to yield one `&`-separated part per non-nil entry.
- `KeyValue` models argument hashes as sequences of `(key, optional value)` with distinct keys.
  - Ruby's `sort` of the pairs is modelled as an insertion sort by bytewise key order.
  - By `SortedUnique`, every sort of entries with distinct keys gives the same list, so the choice of algorithm does not matter.
- `Text`, `Decimal` and `Http` hold the string helpers, `Integer#to_s` with its parser, `Float#to_i` and `Time#to_i`, and the request and response shapes.
- `Wrappers` holds `Option` and `Result`.

Both clients' `do_request` is a method of a `class Client` whose `timestamp`
field plays `@timestamp`. Each method is specified against the function
`SignRequest`: what the client computes before `HTTP.send`, with the
timestamp given as a value. `SignedIsSent` proves what that request is:

- the arguments it carries;
- its ACCESS-TIMESTAMP header equals the timestamp inside the signed message;
- the predicate `Authentic` holds. `Authentic` is the exchange's check: it rebuilds the message from the received timestamp header, method, URL path and arguments, then compares the signature.

The outside world enters as parameters:

- the clock becomes `now` and `later` readings in seconds, as `real`;
- the transport becomes `send: Request -> Response`;
- `JSON.parse` becomes `parse: string -> Option<J>`;
- JSON generation, form and URL encoding, HMAC and Base64 become the fields of a `Library` value.

Logging is returned as a list of `LogEntry` values.

Points where the code is easy to misread:

- `V2Client` sorts and filters the arguments for POST as well as for GET (Client.rb:1915 applies to every verb).
- `LegacyClient` keeps nil arguments in the JSON body and in what it sends; only its query string leaves them out.
- `LegacyClient` never clears its timestamp. After the first request, every request on the same object carries the first timestamp (`LegacyClient.TwoRequests`).
- `V2Client` clears its timestamp after the headers are built and before sending, not before the next request starts. The two differ when a request raises between reading the timestamp and clearing it: the memo then stays set and the next request signs with it. The only raise modelled, the `TypeError` for a verb other than GET and POST, comes before the timestamp is read and leaves the memo as it was (`V2Client.Client.DoRequest`).

## Model

| member | source | states |
|---|---|---|
| KeyValue.NonNil | lib/Bitget/V2/Client.rb:1915 | holds an entry exactly when the input holds it with a present value, never more entries than the input |
| KeyValue.NonNilAppend | lib/Bitget/V2/Client.rb:1915 | filtering a concatenation filters each half, so the filter keeps the order of the entries |
| KeyValue.NonNilDistinct | lib/Bitget/V2/Client.rb:1915 | dropping nils keeps keys distinct |
| KeyValue.NonNilIdentity | lib/Bitget/V2/Client.rb:1915 | arguments with no nil come through the filter unchanged |
| KeyValue.NonNilEmpty | lib/Bitget/V2/Client.rb:1915 | the filter yields no entries exactly when every value is nil |
| KeyValue.Insert | lib/Bitget/V2/Client.rb:1915 | inserting into the sorted list adds exactly that entry (multiset) |
| KeyValue.InsertSorted | lib/Bitget/V2/Client.rb:1915 | inserting a new key into a strictly sorted list keeps it strictly sorted |
| KeyValue.SortByKey | lib/Bitget/V2/Client.rb:1915 | the sort is a permutation of its input (multiset) |
| KeyValue.SortByKeySorted | lib/Bitget/V2/Client.rb:1915 | with distinct keys the sort yields keys in strictly increasing bytewise order |
| KeyValue.SortedUnique | lib/Bitget/V2/Client.rb:1915 | two strictly sorted lists with the same entries are equal, so the order sent is determined by the entries |
| KeyValue.SortedArgs | lib/Bitget/V2/Client.rb:1915 | `reject` of the nil values, then `sort`; `SortedArgsSpec`, `SortedArgsUnique` and `SortedArgsIdempotent` state what it yields |
| KeyValue.SortedArgsSpec | lib/Bitget/V2/Client.rb:1915 | the filtered, sorted arguments are strictly sorted, contain an entry exactly when the caller gave it a non-nil value, and are empty exactly when every value is nil |
| KeyValue.SortedArgsUnique | lib/Bitget/V2/Client.rb:1915 | any strictly sorted list holding exactly the caller's non-nil entries is the filtered, sorted arguments |
| KeyValue.SortedArgsIdempotent | lib/Bitget/V2/Client.rb:1915 | filtering and sorting already filtered, sorted arguments changes nothing |
| ParameterStrings.ParameterString | lib/Hash/to_parameter_string.rb:18-24 | the `&`-join of one `key=urlencode(value)` part per non-nil entry; `ToParameterString` is proved to compute it, and `PartsAreNonNilEntries`, `NilsIgnored`, `AllNilIsEmpty` and `Separators` state its shape |
| ParameterStrings.PartsAppend | lib/Hash/to_parameter_string.rb:20-22 | the parts of a concatenation are the parts of each half, concatenated |
| ParameterStrings.ToParameterString | lib/Hash/to_parameter_string.rb:18-24 | the loop that collects `key=urlencode(value)` for non-nil entries and joins them with `&` yields `ParameterString` |
| ParameterStrings.PartsAreNonNilEntries | lib/Hash/to_parameter_string.rb:20-22 | there is one part per non-nil entry, and the k-th part is that entry's key, `=` and its encoded value |
| ParameterStrings.NilsIgnored | lib/Hash/to_parameter_string.rb:21 | the parameter string of a hash equals that of its non-nil entries |
| ParameterStrings.PartsNilsIgnored | lib/Hash/to_parameter_string.rb:21 | the list of parts is unchanged by dropping nil entries |
| ParameterStrings.AllNilIsEmpty | lib/Hash/to_parameter_string.rb:21-23 | a hash whose values are all nil gives the empty string |
| ParameterStrings.Separators | lib/Hash/to_parameter_string.rb:23 | for a hash with a non-nil entry and no `&` in any key or encoded value: the string is non-empty, has one `&` fewer than there are non-nil entries, neither starts nor ends with `&`, and splitting it at `&` gives back exactly the parts |
| Decimal.NatToDecimal | lib/Bitget/V2/Client.rb:1848 | `Integer#to_s` of a natural number: non-empty digits with no leading zero |
| Decimal.NatRoundTrip | lib/Bitget/V2/Client.rb:1848 | the decimal digits of a natural number read back as that number |
| Decimal.IntToDecimal | lib/Bitget/V2/Client.rb:1848 | `Integer#to_s` (also the `.to_s` at lib/Bitget.rb:52): `-` before the digits of a negative number; `IntRoundTrip`, `IntToDecimalInjective` and `IntToDecimalChars` state its promise |
| Decimal.IntRoundTrip | lib/Bitget/V2/Client.rb:1848 | the decimal text of any integer parses back to it |
| Decimal.IntToDecimalInjective | lib/Bitget/V2/Client.rb:1848 | different integers have different decimal text |
| Decimal.Floor | lib/Bitget.rb:52 | `Time#to_i` rounds down: the greatest integer not above the reading |
| Decimal.Truncate | lib/Bitget/V2/Client.rb:1848 | `Float#to_i` rounds toward zero: within one below a non-negative value, within one above a negative one |
| Text.Downcase | lib/Bitget/V2/Client.rb:1921 | `verb.to_s.downcase` (also lib/Bitget.rb:97) on ASCII: same length, each upper-case letter lowered, every other character kept |
| Text.UpcaseDowncaseVerb | lib/Bitget/V2/Client.rb:1921 | upcasing the lower-case verb that is sent gives back GET or POST, so the exchange recovers the verb that was signed |
| Http.FullPath | lib/Bitget/V2/Client.rb:1838-1840 | `full_path` of both signers (also lib/Bitget.rb:42-44): `/api/v2` + path; `RequestStringPath` and the message lemmas state what it contributes |
| Http.RequestString | lib/Bitget/V2/Client.rb:1872-1874 | `request_string` of both signers (also lib/Bitget.rb:78-80): `https://api.bitget.com` + the full path; `RequestStringPath` states that the endpoint path is recovered from it |
| Http.TimestampLeads | lib/Bitget/V2/Client.rb:1855 | in both signers' messages the timestamp is followed by the verb, so the integer text at the head of a message is exactly its timestamp |
| Http.RequestStringPath | lib/Bitget/V2/Client.rb:1872-1874 | the path after `https://api.bitget.com/api/v2` in the request URL is the caller's path, so the URL determines the path that was signed |
| V2Client.MillisStamp | lib/Bitget/V2/Client.rb:1848 | the fresh timestamp: the clock reading in whole milliseconds, as decimal text; `MillisStampReadsBack` states what it means |
| V2Client.MillisStampReadsBack | lib/Bitget/V2/Client.rb:1847-1849 | the timestamp is integer text that parses back as the clock reading in whole milliseconds |
| V2Client.Message | lib/Bitget/V2/Client.rb:1851-1864 | a message exists exactly for GET and POST, and it starts with timestamp + verb + `/api/v2` + path |
| V2Client.MessageShape | lib/Bitget/V2/Client.rb:1851-1864 | GET with no non-nil argument has no `?`; GET with one has `?` and the form encoding of the sorted arguments; POST has the JSON of the sorted arguments |
| V2Client.MessageDeterminesMillisecond | lib/Bitget/V2/Client.rb:1847-1864 | two equal messages were built at the same clock millisecond |
| V2Client.Signature | lib/Bitget/V2/Client.rb:1866-1870 | strict Base64 of the HMAC-SHA256 digest of the message under the secret, both foreign calls; `SignedIsSent` states that the exchange recomputes the same value from what it receives |
| V2Client.Headers | lib/Bitget/V2/Client.rb:1876-1885 | six headers with distinct names |
| V2Client.HeadersLookup | lib/Bitget/V2/Client.rb:1876-1885 | each of the six names reads back the key, signature, timestamp, passphrase, `application/json` and `spot` |
| V2Client.LogArgs | lib/Bitget/V2/Client.rb:1887-1889 | true exactly when some argument's value is not nil |
| V2Client.LogArgsOfSorted | lib/Bitget/V2/Client.rb:1887-1889 | on the filtered arguments the args line is logged exactly when any argument is left |
| V2Client.RequestLog | lib/Bitget/V2/Client.rb:1891-1898 | the entry `log_request` writes: verb, URL, the arguments only when `log_args?` holds, and the headers; `DoRequest` states when it is logged |
| V2Client.SignRequest | lib/Bitget/V2/Client.rb:1914-1921 | what `do_request` hands to `HTTP.send`, with the timestamp as a value, or the `TypeError` raised instead; `SignedIsSent` and `OnlyGetAndPostAreSigned` state what it yields, and every `Client` method is specified against it |
| V2Client.SignedIsSent | lib/Bitget/V2/Client.rb:1914-1921 | the request sent carries the filtered, sorted arguments, the URL, the key and, as ACCESS-TIMESTAMP, the timestamp the message embeds; the exchange's check of it succeeds |
| V2Client.OnlyGetAndPostAreSigned | lib/Bitget/V2/Client.rb:1851-1869 | signing succeeds exactly for GET and POST; any other verb raises before sending |
| V2Client.HandleResponse | lib/Bitget/V2/Client.rb:1932-1953 | success exactly when the transport succeeded and the body parses, returning the parsed body; a failed transport raises Bitget::Error with its code, message and body; a body that does not parse raises the parser error; the log holds the response or error entry only when logging is on, and nothing when parsing fails |
| V2Client.LoggingIsNeutral | lib/Bitget/V2/Client.rb:1932-1953 | turning logging on never changes what is returned or raised |
| V2Client.TeapotRaises | test/V2/client_test.rb:1000-1017 | a failed 418 "I'm a teapot" response with an empty body raises Bitget::Error with exactly those fields, and with logging on the one entry logged is the error entry with code '418', message "I'm a teapot" and body '' |
| V2Client.PublicCoinsArgs | lib/Bitget/V2/Client.rb:80 | the one-entry hash `{coin: coin}` that `spot_public_coins` passes to `get`, the coin possibly nil |
| V2Client.SubaccountTransferArgsAsWritten | lib/Bitget/V2/Client.rb:1393-1401 | the hash `spot_wallet_subaccount_transfer` builds as written: from type, to type, amount, coin, client order id and the two user ids, with no `symbol` |
| V2Client.SubaccountTransferDropsSymbol | lib/Bitget/V2/Client.rb:1379-1401 | as written no argument is named `symbol`, and a transfer with any symbol signs the same request as one without |
| V2Client.SubaccountTransferArgs | lib/Bitget/V2/Client.rb:1379-1401 | the corrected hash: the same entries with `symbol` after `coin` |
| V2Client.SubaccountTransferSendsSymbol | lib/Bitget/V2/Client.rb:1379-1401 | with the corrected mapping a given symbol is among the arguments signed and sent |
| V2Client.Client.constructor | lib/Bitget/V2/Client.rb:1831-1836 | stores the credentials and the logging flag; no timestamp is memoised |
| V2Client.Client.Timestamp | lib/Bitget/V2/Client.rb:1847-1849 | returns the memoised timestamp, or memoises and returns the clock's millisecond |
| V2Client.Client.DoRequest | lib/Bitget/V2/Client.rb:1914-1922 | sends exactly `SignRequest` at the memoised or first clock reading and returns the transport's response; logs the request only when logging is on; clears the memo; for another verb raises, sends nothing, logs nothing and leaves the memo untouched |
| V2Client.Client.Get | lib/Bitget/V2/Client.rb:1924-1926 | `do_request` with GET, which always signs and sends |
| V2Client.Client.Post | lib/Bitget/V2/Client.rb:1928-1930 | `do_request` with POST, which always signs and sends |
| V2Client.Client.SpotPublicCoins | lib/Bitget/V2/Client.rb:79-82 | GET /spot/public/coins with the optional coin, then `handle_response` of the reply; the log is the request entry followed by the response entries |
| V2Client.Client.SpotWalletSubaccountTransfer | lib/Bitget/V2/Client.rb:1390-1402 | POST /spot/wallet/subaccount-transfer with the documented arguments, symbol included, then `handle_response` |
| V2Client.TwoRequests | lib/Bitget/V2/Client.rb:1914-1922 | two requests on one client carry the timestamps of their own clock readings, which differ when the readings fall in different milliseconds; both pass the exchange's check and the client ends idle |
| LegacyClient.SecondsStamp | lib/Bitget.rb:52 | the fresh timestamp: the clock reading in whole seconds rounded down, as decimal text; `SecondsStampReadsBack` states what it means |
| LegacyClient.SecondsStampReadsBack | lib/Bitget.rb:51-53 | the timestamp is integer text that parses back as the clock reading rounded down to the second |
| LegacyClient.SecondsStampBeforeEpoch | lib/Bitget.rb:52 | half a second before the epoch is second -1, where rounding toward zero would give 0 |
| LegacyClient.Message | lib/Bitget.rb:55-72 | a message exists exactly for GET and POST, otherwise the error is "The verb, X, is not acceptable."; a message starts with timestamp + verb + `/api/v2` + path |
| LegacyClient.GetMessage | lib/Bitget.rb:55-72 | a GET message is timestamp, verb, full path, `?`, the parameter string of the non-nil entries and the JSON of all arguments |
| LegacyClient.GetMessageAllNil | lib/Bitget.rb:56-70 | with only nil arguments a GET message keeps its `?`, followed directly by the body |
| LegacyClient.PostMessage | lib/Bitget.rb:55-72 | a POST message is timestamp, verb, full path and the JSON of the arguments, with no `?` |
| LegacyClient.Signature | lib/Bitget.rb:74-76 | HMAC-SHA512 of the message under the secret, as hex, a foreign call; `SignedIsSent` states that the exchange recomputes the same value from what it receives |
| LegacyClient.Headers | lib/Bitget.rb:82-92 | seven headers with distinct names |
| LegacyClient.HeadersLookup | lib/Bitget.rb:82-92 | each of the seven names reads back the key, signature, timestamp, passphrase, `application/json`, `en-AU` and `application/json` |
| LegacyClient.SignRequest | lib/Bitget.rb:94-97 | what `do_request` hands to `HTTP.send`, with the timestamp as a value, or the RuntimeError `message` raises; `Message`'s contract and `SignedIsSent` state what it yields, and every `Client` method is specified against it |
| LegacyClient.SignedIsSent | lib/Bitget.rb:94-97 | the request sent carries the caller's arguments unfiltered, the URL, the key and, as ACCESS-TIMESTAMP, the timestamp the message embeds; the exchange's check of it succeeds |
| LegacyClient.ParseBody | lib/Bitget.rb:98 | the parsed body exactly when the body parses, otherwise the parser error, whatever the transport reported |
| LegacyClient.Client.constructor | lib/Bitget.rb:36-40 | stores the credentials; no timestamp is memoised |
| LegacyClient.Client.Timestamp | lib/Bitget.rb:51-53 | returns the memoised timestamp, or memoises and returns the clock's second |
| LegacyClient.Client.DoRequest | lib/Bitget.rb:94-99 | for GET and POST sends exactly `SignRequest` at the memoised or first clock reading and returns the parsed body, keeping the memo; for another verb raises before reading the clock, sends nothing and leaves the memo untouched |
| LegacyClient.Client.Get | lib/Bitget.rb:101-103 | `do_request` with GET, which always signs and sends |
| LegacyClient.Client.Post | lib/Bitget.rb:105-107 | `do_request` with POST, which always signs and sends |
| LegacyClient.Client.SpotPublicCoins | lib/Bitget.rb:23-32 | GET /spot/public/coins with the coin, nil or not, among the arguments; returns the parsed body |
| LegacyClient.TwoRequests | lib/Bitget.rb:51-53 | on a new client, both of two requests carry the first request's clock second, whatever the clock says the second time, and both pass the exchange's check |

## Left out

- HMAC-SHA256, HMAC-SHA512 hex and strict Base64 are parameters of `Library`. They are foreign calls into OpenSSL and Base64, and no property of the digests is assumed.
- `to_json`, `JSON.dump`, `x_www_form_urlencode` and `String#url_encode` are parameters of `Library`, and `JSON.parse` is the parameter `parse`. These are library encoders outside this code.
- `HTTP.send` is the parameter `send`. Connections, TLS and retries belong to the HTTP library.
- The clock is the `now` and `later` parameters. `Time.now` is I/O.
- `V2Client.MillisStamp`: computes `Truncate(now * 1000.0)` exactly over the reals. It does not model the floating-point rounding of `to_f * 1000`.
- Values are modelled as strings. Number arguments are represented by their text, since the encoders that would render them are parameters.
- `Text.Downcase` and `Text.Upcase` map ASCII letters only. The verb is always ASCII.
- Logging: the text layout of the log lines, the log file and its daily rotation, and the shared `Logger` are left out. Only which entries are logged, and their fields, is modelled.
- `encoded_payload` (Client.rb:1842-1845 and Bitget.rb:46-49) has no caller in either signer.
- The `.encode('UTF-8')` of the legacy credentials: strings here are already sequences of characters.
- The attribute accessors of the V2 client are plain `var` fields. Changing the credentials or the logging flag between requests is therefore possible in the model, as in the source.
- `Bitget::Client` (Bitget.rb:111) is an empty subclass of the V2 class, so it adds no behaviour.
- The other 45 V2 endpoint wrappers (lib/Bitget/V2/Client.rb:79-1821) only map their keyword arguments to an argument hash. `spot_public_coins` and `spot_wallet_subaccount_transfer` stand for them; lib/Bitget.rb has only `spot_public_coins`, which is modelled.
- The argument hash is passed by value, so that `do_request` does not change the caller's hash holds by construction.
- V2Client.Client.DoRequest: signing a nil message raises a `TypeError` inside OpenSSL. It is modelled as the single error `TypeError`, without its text.
- A raising logger: with logging on, `log_request` (Client.rb:1919) opens the log file (Client.rb:35-41) after `message` has memoised the timestamp and before it is cleared at Client.rb:1920. An error there is not modelled. The memo it would leave set is covered by `V2Client.Client.DoRequest` signing at `old(timestamp)` when one is memoised.
- Concurrency: two threads sharing one client would share `@timestamp`. Only sequential use is modelled.

## Findings

| source | as written | input that shows it | evidently intended | confidence | as-written member | corrected member |
|---|---|---|---|---|---|---|
| lib/Bitget/V2/Client.rb:1390-1401 | `spot_wallet_subaccount_transfer` takes `symbol:` (documented at line 1379 as an optional trading-pair symbol) but leaves it out of the argument hash | `symbol: 'BTCUSDT'`: the signed and sent request is the same as with no symbol | pass `symbol` in the arguments, like the other optional parameters | medium, not executed | V2Client.SubaccountTransferArgsAsWritten, V2Client.SubaccountTransferDropsSymbol | V2Client.SubaccountTransferArgs, V2Client.SubaccountTransferSendsSymbol, V2Client.Client.SpotWalletSubaccountTransfer |
