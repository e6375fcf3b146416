/**
 * client.go: the security levels, request construction (`NewRequest`),
 * request signing (`sign`) and the five endpoint wrappers.
 *
 * What the client takes from outside is passed in: the clock reading
 * (`time.Now().UnixNano()`), HMAC-SHA256 keyed with the secret over the
 * bytes of a message, `url.QueryEscape`, and `Do`, of which the model keeps
 * only the error it reports.
 */
module Binance {
  import opened Wrappers
  import opened HexFormat
  import opened Decimal
  import opened UrlValues
  import opened QueryOptions

  /** The source's `Security` enum; its `NONE` is called `Public` here. */
  datatype Security = Public | Trade | UserData | UserStream | MarketData

  /** What a security level asks of a request. */
  datatype Policy = Policy(signed: bool, apiKeyHeader: bool)

  /**
   * The dispatch table: TRADE and USER_DATA are signed, USER_STREAM and
   * MARKET_DATA carry the API key header, NONE gets neither, and no level
   * gets both.
   */
  function PolicyOf(sec: Security): (p: Policy)
    ensures p.signed <==> sec == Trade || sec == UserData
    ensures p.apiKeyHeader <==> sec == UserStream || sec == MarketData
    ensures !(p.signed && p.apiKeyHeader)
    ensures sec == Public ==> !p.signed && !p.apiKeyHeader
  {
    match sec
    case Public => Policy(false, false)
    case Trade => Policy(true, false)
    case UserData => Policy(true, false)
    case UserStream => Policy(false, true)
    case MarketData => Policy(false, true)
  }

  datatype Method = GET | POST | PUT | DELETE

  /**
   * The request handed to `Do`: method, path (as given; the base URL is not
   * part of this model), raw query string and headers.
   */
  datatype Request = Request(verb: Method, path: string, rawQuery: string, header: map<string, seq<string>>)

  datatype Error = QueryError(message: string) | TransportError(message: string)

  /** What the client takes from outside (see the module comment). */
  datatype Collaborators = Collaborators(
    nowNanos: Int64,
    hmac: (seq<byte>, string) -> Digest,
    escape: string -> string)

  const API_KEY_HEADER: string := "X-MBX-APIKEY"
  const ORDER_PATH: string := "/fapi/v1/order"
  const LISTEN_KEY_PATH: string := "/fapi/v1/listenKey"
  const KLINES_PATH: string := "/fapi/v1/klines"

  /** `time.Millisecond`, in nanoseconds. */
  const NANOS_PER_MILLI: int := 1_000_000

  /** The `timestamp` value: the clock reading in whole milliseconds, truncated toward zero, in decimal. */
  function Timestamp(nowNanos: Int64): (s: string)
    ensures ParseInt(s) == Some(TruncDiv(nowNanos as int, NANOS_PER_MILLI))
  {
    FormatIntRoundTrip(TruncDiv(nowNanos as int, NANOS_PER_MILLI));
    FormatInt(TruncDiv(nowNanos as int, NANOS_PER_MILLI))
  }

  /** The parameters `sign` encodes: the caller's, with `timestamp` set. */
  function Timestamped(e: Entries, nowNanos: Int64): (t: Entries)
    ensures Keys(t) == Keys(e) + {"timestamp"}
    ensures Lookup(t, "timestamp") == [Timestamp(nowNanos)]
    ensures forall k :: k != "timestamp" ==> Lookup(t, k) == Lookup(e, k)
  {
    Put(e, "timestamp", [Timestamp(nowNanos)])
  }

  /** The string `sign` returns for parameters `e`. */
  function SignedQuery(secret: seq<byte>, e: Entries, env: Collaborators): (q: string)
    ensures var qs := Encode(Timestamped(e, env.nowNanos), env.escape);
      |q| == |qs| + 75 && q[..|qs|] == qs && q[|qs|..|qs| + 11] == "&signature="
  {
    var qs := Encode(Timestamped(e, env.nowNanos), env.escape);
    SignedShape(qs, env.hmac(secret, qs));
    qs + "&" + "signature=" + Hex(env.hmac(secret, qs))
  }

  lemma SignedShape(qs: string, d: Digest)
    ensures var q := qs + "&" + "signature=" + Hex(d);
      |q| == |qs| + 75 && q[..|qs|] == qs && q[|qs|..|qs| + 11] == "&signature="
  {
    var q := qs + "&" + "signature=" + Hex(d);
    assert q == qs + ("&signature=" + Hex(d));
  }

  /**
   * How the receiving side checks a signed query: its last `&`-separated
   * field is `signature=` followed by hex, and that hex is the MAC of
   * everything before that field.
   */
  predicate SignatureValid(secret: seq<byte>, q: string, hmac: (seq<byte>, string) -> Digest) {
    var fs := Split(q);
    var last := fs[|fs| - 1];
    && |fs| >= 2
    && |last| >= 10 && last[..10] == "signature="
    && UnHex(last[10..]) == Some(hmac(secret, Join(fs[..|fs| - 1])))
  }

  /** The client: its API key and secret; it never changes after construction. */
  datatype Client = Client(key: string, secret: seq<byte>) {

    /**
     * `sign`: sets `timestamp` in `v` (which the caller sees), encodes `v`,
     * and appends the signature of exactly that encoding.
     */
    method Sign(v: Values, env: Collaborators) returns (s: string)
      modifies v
      ensures v.entries == Timestamped(old(v.entries), env.nowNanos)
      ensures s == SignedQuery(secret, old(v.entries), env)
    {
      v.Set("timestamp", Timestamp(env.nowNanos));
      var qs := Encode(v.entries, env.escape);
      var mac := env.hmac(secret, qs);
      s := qs + "&" + "signature=" + Hex(mac);
    }

    /** The request `NewRequest` builds, or the error it returns. */
    function BuildRequest(verb: Method, path: string, opt: Options, sec: Security, env: Collaborators)
      : (r: Result<Request, Error>)
      ensures r.Failure? <==> opt.NotAStruct?
      ensures r.Failure? ==> r.error == QueryError(QueryValues(opt).error)
      ensures r.Success? ==> r.value.verb == verb && r.value.path == path
    {
      match QueryValues(opt)
      case Failure(msg) => Failure(QueryError(msg))
      case Success(e) =>
        var p := PolicyOf(sec);
        var rawQuery := if p.signed then SignedQuery(secret, e, env) else Encode(e, env.escape);
        var header := if p.apiKeyHeader then map[API_KEY_HEADER := [key]] else map[];
        Success(Request(verb, path, rawQuery, header))
    }

    /** `NewRequest`. */
    method NewRequest(verb: Method, path: string, opt: Options, sec: Security, env: Collaborators)
      returns (r: Result<Request, Error>)
      ensures r == BuildRequest(verb, path, opt, sec, env)
    {
      var q := QueryValues(opt);
      if q.Failure? {
        return Failure(QueryError(q.error));
      }
      var v := new Values(q.value);
      var rawQuery: string;
      if sec == Trade || sec == UserData {
        rawQuery := Sign(v, env);
      } else {
        rawQuery := Encode(v.entries, env.escape);
      }
      var header: map<string, seq<string>> := map[];
      if sec == UserStream || sec == MarketData {
        header := header[API_KEY_HEADER := [key]];
      }
      return Success(Request(verb, path, rawQuery, header));
    }

    /** `NewOrder`: a signed POST; `Do`'s error is dropped, so only a build error is reported. */
    method NewOrder(opt: Option<NewOrderOptions>, env: Collaborators, transport: Request -> Option<Error>)
      returns (sent: Option<Request>, err: Option<Error>)
      ensures sent == Some(BuildRequest(POST, ORDER_PATH, OrderOptions(opt), Trade, env).value)
      ensures err == None
    {
      var r := NewRequest(POST, ORDER_PATH, OrderOptions(opt), Trade, env);
      match r
      case Failure(e) =>
        return None, Some(e);
      case Success(req) =>
        var _ := transport(req);
        return Some(req), None;
    }

    /** `StartUserDataStream`: POST to the listen-key path with the API key header. */
    method StartUserDataStream(env: Collaborators, transport: Request -> Option<Error>)
      returns (sent: Option<Request>, err: Option<Error>)
      ensures sent == Some(BuildRequest(POST, LISTEN_KEY_PATH, NoOptions, UserStream, env).value)
      ensures err == transport(sent.value)
    {
      sent, err := Dispatch(POST, LISTEN_KEY_PATH, NoOptions, UserStream, env, transport);
    }

    /** `KeepAliveUserDataStream`: PUT to the listen-key path with the API key header. */
    method KeepAliveUserDataStream(env: Collaborators, transport: Request -> Option<Error>)
      returns (sent: Option<Request>, err: Option<Error>)
      ensures sent == Some(BuildRequest(PUT, LISTEN_KEY_PATH, NoOptions, UserStream, env).value)
      ensures err == transport(sent.value)
    {
      sent, err := Dispatch(PUT, LISTEN_KEY_PATH, NoOptions, UserStream, env, transport);
    }

    /** `CloseUserDataStream`: DELETE on the listen-key path with the API key header. */
    method CloseUserDataStream(env: Collaborators, transport: Request -> Option<Error>)
      returns (sent: Option<Request>, err: Option<Error>)
      ensures sent == Some(BuildRequest(DELETE, LISTEN_KEY_PATH, NoOptions, UserStream, env).value)
      ensures err == transport(sent.value)
    {
      sent, err := Dispatch(DELETE, LISTEN_KEY_PATH, NoOptions, UserStream, env, transport);
    }

    /** `CandlestickData`: GET on the klines path with the API key header. */
    method CandlestickData(opt: Option<CandlestickDataOptions>, env: Collaborators, transport: Request -> Option<Error>)
      returns (sent: Option<Request>, err: Option<Error>)
      ensures sent == Some(BuildRequest(GET, KLINES_PATH, CandlestickOptions(opt), MarketData, env).value)
      ensures err == transport(sent.value)
    {
      sent, err := Dispatch(GET, KLINES_PATH, CandlestickOptions(opt), MarketData, env, transport);
    }

    /** Build the request; on success hand it to `Do` and report `Do`'s error. */
    method Dispatch(verb: Method, path: string, opt: Options, sec: Security, env: Collaborators,
                    transport: Request -> Option<Error>)
      returns (sent: Option<Request>, err: Option<Error>)
      ensures var b := BuildRequest(verb, path, opt, sec, env);
        && sent == (if b.Success? then Some(b.value) else None)
        && err == (if b.Success? then transport(b.value) else Some(b.error))
    {
      var r := NewRequest(verb, path, opt, sec, env);
      if r.Failure? {
        return None, Some(r.error);
      }
      return Some(r.value), transport(r.value);
    }
  }

  /** After signing, `timestamp` holds the one value the clock gave; every other key keeps its values. */
  lemma TimestampExactlyOnce(e: Entries, nowNanos: Int64)
    ensures ValuesOf(Pairs(Timestamped(e, nowNanos)), "timestamp") == [Timestamp(nowNanos)]
    ensures forall k :: k != "timestamp" ==> Lookup(Timestamped(e, nowNanos), k) == Lookup(e, k)
    ensures ParseInt(Timestamp(nowNanos)) == Some(TruncDiv(nowNanos as int, NANOS_PER_MILLI))
  {
    PairsValuesOf(Timestamped(e, nowNanos), "timestamp");
  }

  /** The signature field holds no `&`, so it splits off as one field of its own. */
  lemma SplitSigned(qs: string, d: Digest)
    ensures Split(qs + "&" + "signature=" + Hex(d)) == Split(qs) + ["signature=" + Hex(d)]
  {
    var field := "signature=" + Hex(d);
    HexHasNoSeparators(d);
    assert '&' !in field by {
      assert forall i :: 0 <= i < 10 ==> field[i] == "signature="[i];
      assert forall i :: 10 <= i < |field| ==> field[i] == Hex(d)[i - 10];
    }
    assert qs + "&" + "signature=" + Hex(d) == qs + "&" + field;
    SplitAppend(qs, field);
  }

  /**
   * The signature is the last field of a signed query, its value is the
   * 64-character lower-case hex of the MAC, and the MAC was computed over
   * exactly the fields before it: the encoding of the timestamped parameters.
   */
  lemma SignatureIsLast(secret: seq<byte>, e: Entries, env: Collaborators)
    ensures var qs := Encode(Timestamped(e, env.nowNanos), env.escape);
      var sig := Hex(env.hmac(secret, qs));
      var fs := Split(SignedQuery(secret, e, env));
      && |fs| >= 2
      && fs[|fs| - 1] == "signature=" + sig
      && Join(fs[..|fs| - 1]) == qs
      && |sig| == 64 && (forall i :: 0 <= i < 64 ==> sig[i] in DIGITS)
  {
    var qs := Encode(Timestamped(e, env.nowNanos), env.escape);
    var d := env.hmac(secret, qs);
    SplitSigned(qs, d);
    var fs := Split(SignedQuery(secret, e, env));
    assert fs == Split(qs) + ["signature=" + Hex(d)];
    assert fs[..|fs| - 1] == Split(qs);
    JoinSplit(qs);
    DigestHexShape(d);
  }

  /** Every query `sign` produces passes the receiving side's check. */
  lemma SignedQueryVerifies(secret: seq<byte>, e: Entries, env: Collaborators)
    ensures SignatureValid(secret, SignedQuery(secret, e, env), env.hmac)
  {
    SignatureIsLast(secret, e, env);
    var qs := Encode(Timestamped(e, env.nowNanos), env.escape);
    var d := env.hmac(secret, qs);
    var last := "signature=" + Hex(d);
    assert last[..10] == "signature=" && last[10..] == Hex(d);
    UnHexHex(d);
  }

  /**
   * When escaping never produces `&`, a signed query splits into one
   * `key=value` field per parameter, `timestamp` among them, followed by
   * the signature field.
   */
  lemma SignedQueryFields(secret: seq<byte>, e: Entries, env: Collaborators)
    requires forall s :: '&' !in env.escape(s)
    ensures var t := Timestamped(e, env.nowNanos);
      Split(SignedQuery(secret, e, env))
        == Fields(Pairs(t), env.escape) + ["signature=" + Hex(env.hmac(secret, Encode(t, env.escape)))]
  {
    var t := Timestamped(e, env.nowNanos);
    var qs := Encode(t, env.escape);
    TimestampExactlyOnce(e, env.nowNanos);
    assert Pairs(t) != [];
    EncodeSplits(t, env.escape);
    SplitSigned(qs, env.hmac(secret, qs));
  }

  /**
   * The query is signed exactly for TRADE and USER_DATA, and is otherwise
   * the plain encoding of the options; the API key header, holding the
   * client's key, is present exactly for USER_STREAM and MARKET_DATA, and
   * no other header is set.
   */
  lemma RequestBySecurity(c: Client, verb: Method, path: string, opt: Options, sec: Security, env: Collaborators)
    requires !opt.NotAStruct?
    ensures var r := c.BuildRequest(verb, path, opt, sec, env).value;
      var e := QueryValues(opt).value;
      && ((sec == Trade || sec == UserData) ==> r.rawQuery == SignedQuery(c.secret, e, env))
      && (!(sec == Trade || sec == UserData) ==> r.rawQuery == Encode(e, env.escape))
      && (API_KEY_HEADER in r.header <==> sec == UserStream || sec == MarketData)
      && (API_KEY_HEADER in r.header ==> r.header[API_KEY_HEADER] == [c.key])
      && r.header.Keys <= {API_KEY_HEADER}
  {
  }

  /**
   * A request at a signed level carries no header, and its query is the
   * encoding of the timestamped parameters followed by a signature the
   * receiving side accepts.
   */
  lemma SignedRequest(c: Client, verb: Method, path: string, opt: Options, sec: Security, env: Collaborators)
    requires !opt.NotAStruct?
    requires sec == Trade || sec == UserData
    ensures var r := c.BuildRequest(verb, path, opt, sec, env).value;
      && r.header == map[]
      && SignedOver(c.secret, r.rawQuery, Encode(Timestamped(QueryValues(opt).value, env.nowNanos), env.escape), env.hmac)
  {
    var e := QueryValues(opt).value;
    RequestBySecurity(c, verb, path, opt, sec, env);
    SignedQueryPrefix(c.secret, e, env);
  }

  /** `q` passes the receiving side's check, and what its signature covers is `qs`. */
  predicate SignedOver(secret: seq<byte>, q: string, qs: string, hmac: (seq<byte>, string) -> Digest) {
    var fs := Split(q);
    SignatureValid(secret, q, hmac) && Join(fs[..|fs| - 1]) == qs
  }

  /** A signed query passes the check, over the encoding of the timestamped parameters. */
  lemma SignedQueryPrefix(secret: seq<byte>, e: Entries, env: Collaborators)
    ensures SignedOver(secret, SignedQuery(secret, e, env), Encode(Timestamped(e, env.nowNanos), env.escape), env.hmac)
  {
    SignedQueryVerifies(secret, e, env);
    SignatureIsLast(secret, e, env);
  }

  /** The parameters a new order signs: its seven fields and the timestamp, each once, and nothing else. */
  lemma NewOrderParameters(o: NewOrderOptions, nowNanos: Int64)
    ensures var t := Timestamped(QueryValues(Order(o)).value, nowNanos);
      && Lookup(t, "symbol") == [o.symbol] && Lookup(t, "side") == [o.side]
      && Lookup(t, "type") == [o.orderType] && Lookup(t, "timeInForce") == [o.timeInForce]
      && Lookup(t, "quantity") == [o.quantity] && Lookup(t, "price") == [o.price]
      && Lookup(t, REDUCE_ONLY_KEY) == [o.reduceOnly]
      && Lookup(t, "timestamp") == [Timestamp(nowNanos)]
      && forall k :: k !in {"symbol", "side", "type", "timeInForce", "quantity", "price", REDUCE_ONLY_KEY, "timestamp"}
           ==> Lookup(t, k) == []
  {
    var e := QueryValues(Order(o)).value;
    forall k | k !in {"symbol", "side", "type", "timeInForce", "quantity", "price", REDUCE_ONLY_KEY, "timestamp"}
      ensures Lookup(Timestamped(e, nowNanos), k) == []
    {
      OrderValuesOnly(o, k);
      TimestampKeeps(e, nowNanos, k);
    }
    OrderValuesSent(o);
    TimestampKeeps(e, nowNanos, "symbol");
    TimestampKeeps(e, nowNanos, "side");
    TimestampKeeps(e, nowNanos, "type");
    TimestampKeeps(e, nowNanos, "timeInForce");
    TimestampKeeps(e, nowNanos, "quantity");
    TimestampKeeps(e, nowNanos, "price");
    TimestampKeeps(e, nowNanos, REDUCE_ONLY_KEY);
  }

  lemma TimestampKeeps(e: Entries, nowNanos: Int64, k: string)
    requires k != "timestamp"
    ensures Lookup(Timestamped(e, nowNanos), k) == Lookup(e, k)
    ensures Lookup(Timestamped(e, nowNanos), "timestamp") == [Timestamp(nowNanos)]
  {
  }

  /**
   * A new order goes out as a POST to the order path, without the API key
   * header, carrying a signature the receiving side accepts over the
   * encoding of its timestamped parameters.
   */
  lemma NewOrderRequest(c: Client, o: NewOrderOptions, env: Collaborators)
    ensures var r := c.BuildRequest(POST, ORDER_PATH, Order(o), Trade, env).value;
      && r.verb == POST && r.path == ORDER_PATH && r.header == map[]
      && SignedOver(c.secret, r.rawQuery, Encode(Timestamped(QueryValues(Order(o)).value, env.nowNanos), env.escape), env.hmac)
  {
    SignedRequest(c, POST, ORDER_PATH, Order(o), Trade, env);
  }

  /**
   * A candlestick query goes out unsigned as a GET on the klines path, with
   * the API key header, and its query is the encoding of the options alone.
   */
  lemma CandlestickRequest(c: Client, opt: CandlestickDataOptions, env: Collaborators)
    ensures var r := c.BuildRequest(GET, KLINES_PATH, Candlestick(opt), MarketData, env).value;
      && r.verb == GET && r.path == KLINES_PATH
      && r.header == map[API_KEY_HEADER := [c.key]]
      && r.rawQuery == Encode(QueryValues(Candlestick(opt)).value, env.escape)
  {
  }

  /**
   * The listen-key requests carry the API key header and an empty query:
   * they are neither signed nor given parameters.
   */
  lemma UserStreamRequest(c: Client, verb: Method, env: Collaborators)
    ensures var r := c.BuildRequest(verb, LISTEN_KEY_PATH, NoOptions, UserStream, env);
      && r.Success?
      && r.value.verb == verb && r.value.path == LISTEN_KEY_PATH
      && r.value.header == map[API_KEY_HEADER := [c.key]]
      && r.value.rawQuery == ""
  {
    assert Encode([], env.escape) == "";
  }

  /** A nil `*NewOrderOptions` reaches go-querystring as a nil pointer: no parameters. */
  function OrderOptions(opt: Option<NewOrderOptions>): (o: Options)
    ensures QueryValues(o).Success?
    ensures opt.None? ==> QueryValues(o) == Success([])
  {
    if opt.Some? then Order(opt.value) else NoOptions
  }

  /** A nil `*CandlestickDataOptions` likewise gives no parameters. */
  function CandlestickOptions(opt: Option<CandlestickDataOptions>): (o: Options)
    ensures QueryValues(o).Success?
    ensures opt.None? ==> QueryValues(o) == Success([])
  {
    if opt.Some? then Candlestick(opt.value) else NoOptions
  }
}
