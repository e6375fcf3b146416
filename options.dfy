/**
 * The option structs of client.go and how go-querystring turns them into
 * `url.Values`. Each struct field carries a `url` tag: the parameter name
 * (the Go field name when the tag is absent) and optionally `omitempty`.
 * Fields are visited in declaration order; a field tagged `omitempty` that
 * holds its zero value is skipped, every other one is added with `Add`
 * under its name, an `int` written in decimal.
 */
module QueryOptions {
  import opened Wrappers
  import opened Decimal
  import opened UrlValues

  datatype FieldValue = Text(text: string) | Number(number: Int64)

  /** One struct field as go-querystring sees it: tag name, `omitempty`, value. */
  datatype TaggedField = TaggedField(name: string, omitEmpty: bool, value: FieldValue)

  predicate IsZero(v: FieldValue) {
    match v
    case Text(s) => s == ""
    case Number(n) => n == 0
  }

  function Render(v: FieldValue): string {
    match v
    case Text(s) => s
    case Number(n) => FormatInt(n as int)
  }

  predicate Omitted(f: TaggedField) {
    f.omitEmpty && IsZero(f.value)
  }

  predicate DistinctNames(fs: seq<TaggedField>) {
    forall i, j :: 0 <= i < j < |fs| ==> fs[i].name != fs[j].name
  }

  /** The `(name, text)` pairs added, in field order. */
  function Emitted(fs: seq<TaggedField>): seq<(string, string)> {
    if fs == [] then []
    else
      var f := fs[|fs| - 1];
      Emitted(fs[..|fs| - 1]) + if Omitted(f) then [] else [(f.name, Render(f.value))]
  }

  /** `query.Values` on a struct: one `Add` per field that is not omitted. */
  function Reflect(fs: seq<TaggedField>): (r: Entries)
    ensures forall k :: k in Keys(r) <==> exists i :: 0 <= i < |fs| && fs[i].name == k && !Omitted(fs[i])
  {
    if fs == [] then []
    else
      var f := fs[|fs| - 1];
      var e := Reflect(fs[..|fs| - 1]);
      if Omitted(f) then e else Add(e, f.name, Render(f.value))
  }

  /** Under every name, the values hold exactly what the fields emitted for it, in order. */
  lemma {:induction false} ReflectLookup(fs: seq<TaggedField>, k: string)
    ensures Lookup(Reflect(fs), k) == ValuesOf(Emitted(fs), k)
  {
    if fs != [] {
      var init, f := fs[..|fs| - 1], fs[|fs| - 1];
      ReflectLookup(init, k);
      var last := if Omitted(f) then [] else [(f.name, Render(f.value))];
      ValuesOfAppend(Emitted(init), last, k);
      assert Emitted(fs) == Emitted(init) + last;
    }
  }

  /** With distinct names, a field's name carries its own value, or nothing when omitted. */
  lemma {:induction false} EmittedUnique(fs: seq<TaggedField>, i: nat)
    requires DistinctNames(fs)
    requires i < |fs|
    ensures ValuesOf(Emitted(fs), fs[i].name) == if Omitted(fs[i]) then [] else [Render(fs[i].value)]
  {
    var init, f := fs[..|fs| - 1], fs[|fs| - 1];
    var k := fs[i].name;
    var last := if Omitted(f) then [] else [(f.name, Render(f.value))];
    assert Emitted(fs) == Emitted(init) + last;
    ValuesOfAppend(Emitted(init), last, k);
    if i == |fs| - 1 {
      EmittedAbsent(init, k);
    } else {
      EmittedUnique(init, i);
      assert f.name != k;
    }
  }

  /** A name no field carries is never emitted. */
  lemma {:induction false} EmittedAbsent(fs: seq<TaggedField>, k: string)
    requires forall i :: 0 <= i < |fs| ==> fs[i].name != k
    ensures ValuesOf(Emitted(fs), k) == []
  {
    if fs != [] {
      var init, f := fs[..|fs| - 1], fs[|fs| - 1];
      var last := if Omitted(f) then [] else [(f.name, Render(f.value))];
      assert Emitted(fs) == Emitted(init) + last;
      ValuesOfAppend(Emitted(init), last, k);
      EmittedAbsent(init, k);
    }
  }

  datatype NewOrderOptions = NewOrderOptions(
    symbol: string,
    side: string,
    orderType: string,
    timeInForce: string,
    quantity: string,
    price: string,
    reduceOnly: string)

  datatype CandlestickDataOptions = CandlestickDataOptions(
    symbol: string,
    interval: string,
    startTime: Int64,
    endTime: Int64,
    limit: Int64)

  /**
   * What `NewRequest` receives as its `opt interface{}`: nothing (a nil
   * interface or a nil pointer), one of the two option structs, or a value
   * that is not a struct, which go-querystring refuses.
   */
  datatype Options =
    | NoOptions
    | Order(order: NewOrderOptions)
    | Candlestick(candles: CandlestickDataOptions)
    | NotAStruct(kind: string)

  /** `ReduceOnly` has no `url` tag, so go-querystring names it after the Go field. */
  const REDUCE_ONLY_KEY: string := "ReduceOnly"

  /** The tags of `NewOrderOptions`: none of them is `omitempty`. */
  function OrderFields(o: NewOrderOptions): (fs: seq<TaggedField>)
    ensures |fs| == 7 && DistinctNames(fs)
    ensures forall i :: 0 <= i < |fs| ==> !fs[i].omitEmpty && fs[i].value.Text?
  {
    [ TaggedField("symbol", false, Text(o.symbol)),
      TaggedField("side", false, Text(o.side)),
      TaggedField("type", false, Text(o.orderType)),
      TaggedField("timeInForce", false, Text(o.timeInForce)),
      TaggedField("quantity", false, Text(o.quantity)),
      TaggedField("price", false, Text(o.price)),
      TaggedField(REDUCE_ONLY_KEY, false, Text(o.reduceOnly)) ]
  }

  /** The tags of `CandlestickDataOptions`: the three integers are `omitempty`. */
  function CandlestickFields(c: CandlestickDataOptions): (fs: seq<TaggedField>)
    ensures |fs| == 5 && DistinctNames(fs)
    ensures forall i :: 0 <= i < |fs| ==> (fs[i].omitEmpty <==> fs[i].value.Number?)
  {
    [ TaggedField("symbol", false, Text(c.symbol)),
      TaggedField("interval", false, Text(c.interval)),
      TaggedField("startTime", true, Number(c.startTime)),
      TaggedField("endTime", true, Number(c.endTime)),
      TaggedField("limit", true, Number(c.limit)) ]
  }

  /** `query.Values(opt)`: the parameters of `opt`, or the error for a non-struct. */
  function QueryValues(opt: Options): (r: Result<Entries, string>)
    ensures r.Failure? <==> opt.NotAStruct?
    ensures opt.NoOptions? ==> r == Success([])
  {
    match opt
    case NoOptions => Success([])
    case Order(o) => Success(Reflect(OrderFields(o)))
    case Candlestick(c) => Success(Reflect(CandlestickFields(c)))
    case NotAStruct(kind) => Result<Entries, string>.Failure("query: Values() expects struct input. Got " + kind)
  }

  /** Every `NewOrderOptions` field is sent, once, even when empty. */
  lemma OrderValuesSent(o: NewOrderOptions)
    ensures QueryValues(Order(o)).Success?
    ensures var e := QueryValues(Order(o)).value;
      && Lookup(e, "symbol") == [o.symbol] && Lookup(e, "side") == [o.side]
      && Lookup(e, "type") == [o.orderType] && Lookup(e, "timeInForce") == [o.timeInForce]
      && Lookup(e, "quantity") == [o.quantity] && Lookup(e, "price") == [o.price]
      && Lookup(e, REDUCE_ONLY_KEY) == [o.reduceOnly]
  {
    var fs := OrderFields(o);
    SentField(fs, 0);
    SentField(fs, 1);
    SentField(fs, 2);
    SentField(fs, 3);
    SentField(fs, 4);
    SentField(fs, 5);
    SentField(fs, 6);
  }

  /** The parameter named after field `i` holds exactly what that field emits. */
  lemma SentField(fs: seq<TaggedField>, i: nat)
    requires DistinctNames(fs)
    requires i < |fs|
    ensures Lookup(Reflect(fs), fs[i].name) == if Omitted(fs[i]) then [] else [Render(fs[i].value)]
  {
    ReflectLookup(fs, fs[i].name);
    EmittedUnique(fs, i);
  }

  /** A new order sends no parameter besides its seven fields. */
  lemma OrderValuesOnly(o: NewOrderOptions, k: string)
    requires k !in {"symbol", "side", "type", "timeInForce", "quantity", "price", REDUCE_ONLY_KEY}
    ensures Lookup(QueryValues(Order(o)).value, k) == []
  {
    var fs := OrderFields(o);
    assert forall i :: 0 <= i < |fs| ==> fs[i].name in {"symbol", "side", "type", "timeInForce", "quantity", "price", REDUCE_ONLY_KEY};
    ReflectLookup(fs, k);
    EmittedAbsent(fs, k);
  }

  /**
   * `symbol` and `interval` are always sent; `startTime`, `endTime` and
   * `limit` only when non-zero, and then as their decimal text.
   */
  lemma CandlestickValuesSent(c: CandlestickDataOptions)
    ensures QueryValues(Candlestick(c)).Success?
    ensures var e := QueryValues(Candlestick(c)).value;
      && Lookup(e, "symbol") == [c.symbol] && Lookup(e, "interval") == [c.interval]
      && Lookup(e, "startTime") == (if c.startTime == 0 then [] else [FormatInt(c.startTime as int)])
      && Lookup(e, "endTime") == (if c.endTime == 0 then [] else [FormatInt(c.endTime as int)])
      && Lookup(e, "limit") == (if c.limit == 0 then [] else [FormatInt(c.limit as int)])
  {
    var fs := CandlestickFields(c);
    SentField(fs, 0);
    SentField(fs, 1);
    SentField(fs, 2);
    SentField(fs, 3);
    SentField(fs, 4);
  }

  /** A candlestick query sends no parameter besides its five fields. */
  lemma CandlestickValuesOnly(c: CandlestickDataOptions, k: string)
    requires k !in {"symbol", "interval", "startTime", "endTime", "limit"}
    ensures Lookup(QueryValues(Candlestick(c)).value, k) == []
  {
    var fs := CandlestickFields(c);
    ReflectLookup(fs, k);
    EmittedAbsent(fs, k);
  }

  /** An optional candlestick bound that is sent reads back as the number that was set. */
  lemma CandlestickValuesReadBack(c: CandlestickDataOptions)
    ensures var e := QueryValues(Candlestick(c)).value;
      && (c.startTime != 0 ==> |Lookup(e, "startTime")| == 1 && ParseInt(Lookup(e, "startTime")[0]) == Some(c.startTime as int))
      && (c.endTime != 0 ==> |Lookup(e, "endTime")| == 1 && ParseInt(Lookup(e, "endTime")[0]) == Some(c.endTime as int))
      && (c.limit != 0 ==> |Lookup(e, "limit")| == 1 && ParseInt(Lookup(e, "limit")[0]) == Some(c.limit as int))
  {
    CandlestickValuesSent(c);
    FormatIntRoundTrip(c.startTime as int);
    FormatIntRoundTrip(c.endTime as int);
    FormatIntRoundTrip(c.limit as int);
  }
}
