# Binance futures client: request construction and signing

A Dafny model of `client.go`, the whole of a small Go client for an
exchange's futures REST API. The model covers how the client turns an
endpoint call into an HTTP request:

- the option structs (`NewOrderOptions`, `CandlestickDataOptions`) and the
  go-querystring rules that turn them into `url.Values`: tag names, the
  `omitempty` rule for the three integer candlestick fields, the untagged
  `ReduceOnly` field, and the error for a value that is not a struct;
- `url.Values`, kept sorted by key. `Set` replaces a key's values in place,
  `Add` appends to them, and `Encode` joins `key=value` fields with `&` in
  key order;
- `sign`, which works in four steps:
  1. it sets `timestamp` to the clock reading in milliseconds, truncated
     toward zero and written with `%d`;
  2. it encodes the parameters;
  3. it computes HMAC-SHA256 over that exact string;
  4. it appends `&signature=` and the digest in lower-case hex;
- `NewRequest`, whose dispatch on the security level decides two things:
  - TRADE and USER_DATA queries are signed;
  - USER_STREAM and MARKET_DATA requests carry the `X-MBX-APIKEY` header;
  - NONE gets neither, and no level gets both;
- the five endpoint wrappers, each a fixed method, path and security level.

What the client takes from outside becomes a parameter (`Collaborators`):
- the clock reading;
- HMAC-SHA256, as a function from a secret and a message to a 32-byte digest;
- `url.QueryEscape`.

`Do` becomes a function from the request to the error it reports.

`sign` is checked by the receiving side's `SignatureValid`:
1. split the query on `&`;
2. the last field must be `signature=` followed by hex;
3. that hex must read back as the MAC of the fields before it.

`SignedQueryVerifies` proves that every signed query passes this check.
`SignatureIsLast` and `SignedQueryFields` prove what the signed query is made of.

Two details of the query are easy to misread:
- The reduce-only field's JSON tag is `reduceOnly`, but it has no `url` tag,
  so go-querystring names the query parameter after the Go field:
  `ReduceOnly`.
- `Encode` sorts keys, so `timestamp` is not necessarily the field just
  before `signature`: it takes its place among the other keys.

Signed levels get no API key header. This is reproduced as written.

## Model

| member | source | states |
|---|---|---|
| Binance.PolicyOf | client.go:79-92 | The tests on the `Security` enum: TRADE and USER_DATA are signed, and only they. USER_STREAM and MARKET_DATA carry the API key header, and only they. No level gets both; NONE gets neither. |
| Binance.RequestBySecurity | client.go:79-92 | For every level: the query is signed exactly for TRADE and USER_DATA and is otherwise the plain encoding of the options. The `X-MBX-APIKEY` header is present exactly for USER_STREAM and MARKET_DATA, holds the client's key, and is the only header. |
| Binance.Client.BuildRequest | client.go:72-95 | Building fails exactly when the options are not a struct, with go-querystring's error. Otherwise the request has the given method and path. |
| Binance.Client.NewRequest | client.go:72-95 | The imperative construction is shown equal to `BuildRequest`. It sets the query values, signs or encodes them, and adds the header. |
| Binance.Timestamp | client.go:98 | The `timestamp` value reads back as the clock's nanoseconds divided by 1,000,000, truncated toward zero. |
| Binance.TimestampExactlyOnce | client.go:98 | After `Set`, `timestamp` holds exactly one value, the clock's. Every other parameter keeps its values. |
| Binance.Client.Sign | client.go:97-107 | The caller's values gain `timestamp`. The returned string is the encoding of those values, then `&signature=`, then the hex MAC of exactly that encoding. |
| Binance.SplitSigned | client.go:104-106 | The signature field contains no `&`, so it splits off as one last field. |
| Binance.SignatureIsLast | client.go:97-107 | A signed query has at least two fields. The last is `signature=` followed by 64 lower-case hex digits of the MAC. The fields before it join back into the string that was MACed. |
| Binance.SignedQueryVerifies | client.go:97-107 | Every signed query passes the receiving side's check: the signature's hex reads back as the MAC of everything before it. |
| Binance.SignedQueryFields | client.go:97-107 | When escaping produces no `&`, a signed query splits into one `key=value` field per parameter, `timestamp` included, followed by the signature field. |
| Binance.SignedRequest | client.go:79-92 | A request at a signed level has no header, a query the receiving side accepts, and a MAC over the encoding of the timestamped parameters. |
| Binance.Client.NewOrder | client.go:51-60 | A new order is built as a signed POST on `/fapi/v1/order` and handed to `Do`. `Do`'s error is dropped, so the call always returns no error. |
| Binance.NewOrderRequest | client.go:51-60 | The order request is a POST on the order path with no API key header and a valid signature over its timestamped parameters. |
| Binance.Timestamped | client.go:98 | The parameters `sign` encodes gain the key `timestamp`, holding the one clock value; every other key keeps its values. |
| Binance.SignedQuery | client.go:100-106 | The string `sign` returns starts with the encoding of the timestamped parameters, continues with `&signature=`, and is 75 characters longer than that encoding. |
| Binance.SignedQueryPrefix | client.go:100-106 | A signed query passes the receiving side's check, and its signature covers exactly the encoding of the timestamped parameters. |
| Binance.OrderOptions | client.go:52 | A `*NewOrderOptions` always reaches `query.Values` without an error; a nil pointer gives no parameters. |
| Binance.CandlestickOptions | client.go:183 | A `*CandlestickDataOptions` always reaches `query.Values` without an error; a nil pointer gives no parameters. |
| QueryOptions.OrderFields | client.go:35-43 | The order struct has seven fields with distinct query names, all strings and none `omitempty`. |
| QueryOptions.CandlestickFields | client.go:174-180 | The candlestick struct has five fields with distinct query names; exactly the integer fields are `omitempty`. |
| QueryOptions.Reflect | client.go:74 | `query.Values` on a struct: a key is present exactly when some field carries that name and is not skipped by `omitempty`. |
| UrlValues.Encode | client.go:82 | `v.Encode()` gives the empty string exactly when there are no values to write. |
| Binance.NewOrderParameters | client.go:35-43 | The signed parameters of an order are its seven fields and `timestamp`, each with exactly one value, and no other key has a value. |
| Binance.Client.StartUserDataStream | client.go:130-140 | A POST on `/fapi/v1/listenKey` at USER_STREAM is built and sent; the error `Do` reports is returned. |
| Binance.Client.KeepAliveUserDataStream | client.go:142-151 | A PUT on `/fapi/v1/listenKey` at USER_STREAM is built and sent; the error `Do` reports is returned. |
| Binance.Client.CloseUserDataStream | client.go:153-162 | A DELETE on `/fapi/v1/listenKey` at USER_STREAM is built and sent; the error `Do` reports is returned. |
| Binance.UserStreamRequest | client.go:130-162 | A listen-key request always builds, carries the API key header and has an empty query. |
| Binance.Client.CandlestickData | client.go:182-192 | A GET on `/fapi/v1/klines` at MARKET_DATA with the given options is built and sent; the error `Do` reports is returned. |
| Binance.CandlestickRequest | client.go:182-192 | A candlestick request is unsigned, carries the API key header, and its query is the plain encoding of its options. |
| Binance.Client.Dispatch | client.go:131-139 | Either the request is built and `Do`'s error is returned, or building fails, nothing is sent and the build error is returned. |
| QueryOptions.QueryValues | client.go:74-77 | `query.Values` fails exactly for a value that is not a struct. Nil options give no parameters. |
| QueryOptions.OrderValuesSent | client.go:35-43 | All seven order fields are sent once each, even when empty, under `symbol`, `side`, `type`, `timeInForce`, `quantity`, `price` and `ReduceOnly`. |
| QueryOptions.OrderValuesOnly | client.go:35-43 | An order sends no other parameter. |
| QueryOptions.CandlestickValuesSent | client.go:174-180 | `symbol` and `interval` are always sent. `startTime`, `endTime` and `limit` are sent only when non-zero, as decimal text. |
| QueryOptions.CandlestickValuesOnly | client.go:174-180 | A candlestick query sends no other parameter. |
| QueryOptions.CandlestickValuesReadBack | client.go:177-179 | A sent integer bound reads back as the number that was set. |
| QueryOptions.ReflectLookup | client.go:74 | Under every name, the values hold what the struct's fields emitted for it, in field order. |
| QueryOptions.EmittedUnique | client.go:74 | With distinct tag names, a field's name carries its own rendered value, or nothing when `omitempty` skips it. |
| QueryOptions.EmittedAbsent | client.go:74 | A name that no field carries is never emitted. |
| QueryOptions.SentField | client.go:74 | The parameter named after a field holds exactly what that field emits. |
| UrlValues.Put | client.go:98 | `Set` on values: the key is present with exactly the new values, and every other key is unchanged. |
| UrlValues.Values.Set | client.go:98 | The in-place `Set` leaves the key with the one given value and every other key unchanged. |
| UrlValues.Add | client.go:74 | `Add` appends one value to the key's values and leaves every other key unchanged. |
| UrlValues.PairsValuesOf | client.go:82 | The `(key, value)` pairs `Encode` writes, read back per key, give exactly that key's values. |
| UrlValues.JoinSplit | client.go:100 | Splitting a query on `&` and joining it again gives the same string. |
| UrlValues.SplitJoin | client.go:100 | Joining fields that contain no `&` and splitting again gives the same fields. |
| UrlValues.SplitAppend | client.go:106 | Appending `&` and a field with no `&` adds exactly that field at the end of the split. |
| UrlValues.EncodeSplits | client.go:100 | When escaping produces no `&`, a non-empty encoding splits into one `key=value` field per pair. |
| HexFormat.Hex | client.go:104 | `%x` writes two lower-case hex digits per byte. |
| HexFormat.UnHexHex | client.go:104 | The hex text reads back as exactly the bytes it was written from. |
| HexFormat.DigestHexShape | client.go:104 | A 32-byte digest is written as 64 lower-case hex digits. |
| HexFormat.HexHasNoSeparators | client.go:104-106 | Hex text contains neither `&` nor `=`. |
| Decimal.TruncDiv | client.go:98 | Go's integer division truncates toward zero. The quotient brackets the dividend from below for positive values and from above for negative ones. |
| Decimal.FormatInt | client.go:98 | `%d` writes at least one character, with a leading `-` exactly for negative numbers and decimal digits otherwise. |
| Decimal.FormatIntRoundTrip | client.go:98 | `%d` text reads back as the number that was written. |
| Decimal.FormatIntInjective | client.go:98 | Distinct integers are written differently. |

## Left out

- `Do`'s internals are not modelled: the HTTP exchange, copying the body to standard error, and JSON decoding into the result. It is a parameter that returns the error it would report.
- The `UserDataStream` and `Candletick` results are not modelled, nor is `ORDER_TRADE_UPDATE`, because they are only JSON decoding targets.
- HMAC-SHA256 is a parameter returning a 32-byte digest, not a model of the hash. Converting the query to its bytes is folded into that parameter.
- `url.QueryEscape` is a parameter. Where an `&`-free escape matters, the lemmas require it.
- `time.Now` is a parameter: the clock reading in nanoseconds.
- `NewClient`, `defaultBaseURL` and the resolution of the path against the base URL are not modelled. The request carries the path as given.
- The error path of `http.NewRequest` is not modelled, because a parsed URL and a fixed method never reach it.
- net/http stores the header under its canonical form (`X-Mbx-Apikey`). The model keeps the literal name.
- Keys are ordered by character code. For the ASCII keys the client uses, this is the byte order Go's `sort.Strings` uses.
- Go's `int` is taken to be 64 bits wide, like `Int64`.
