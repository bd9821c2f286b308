/** Static symbol table, decoded upstream frames, cached ticks and the wire
    records of the outbound `price_update` payload, with the pure helpers of
    the relay server that work on them. */
module Wire {

  datatype Option<+T> = None | Some(value: T)

  /** Static metadata of one tracked instrument. */
  datatype SymbolMeta = SymbolMeta(id: string, name: string, symbol: string)

  /** The fixed universe of tracked instruments; its order is the output order. */
  const SYMBOLS: seq<SymbolMeta> := [
    SymbolMeta("btcusdt", "Bitcoin", "BTC"),
    SymbolMeta("ethusdt", "Ethereum", "ETH"),
    SymbolMeta("solusdt", "Solana", "SOL"),
    SymbolMeta("bnbusdt", "BNB", "BNB"),
    SymbolMeta("xrpusdt", "XRP", "XRP"),
    SymbolMeta("dogeusdt", "Dogecoin", "DOGE"),
    SymbolMeta("adausdt", "Cardano", "ADA")
  ]

  /** The numeric fields of a ticker event (`c`, `P`, `h`, `l`, `q`), already
      converted from their decimal strings. */
  datatype Ticker = Ticker(lastPrice: real, changePct: real, high: real, low: real, quoteVolume: real)

  /** One decoded upstream text frame: either not parsable as an object, or an
      object whose `stream` and `data` members may be missing. */
  datatype Frame = Unparsable | Parsed(stream: Option<string>, data: Option<Ticker>)

  /** A cache entry: the symbol's metadata and its latest ticker, in USD. */
  datatype Tick = Tick(id: string, name: string, symbol: string,
                       priceUsd: real, change24h: real, high24h: real, low24h: real, volume: real)

  /** One element of the outbound `data` array; `None` stands for JSON null. */
  datatype Record = Record(id: string, name: string, symbol: string,
                           priceUsd: Option<real>, priceInr: Option<real>,
                           change24h: Option<real>,
                           high24h: Option<real>, low24h: Option<real>,
                           high24hInr: Option<real>, low24hInr: Option<real>,
                           volume: Option<real>)

  /** The outbound message `{type: 'price_update', data, inrRate, timestamp}`. */
  datatype PriceUpdate = PriceUpdate(data: seq<Record>, inrRate: real, timestamp: Option<string>)

  /** A message as a subscriber decodes it: not parsable, or an object with a
      `type` and a `data` member that is an array (`Some`) or not (`None`). */
  datatype Inbound = Malformed | Message(kind: string, data: Option<seq<Record>>)

  /** The subscriber's view of a serialized payload. */
  function Encode(p: PriceUpdate): Inbound
  {
    Message("price_update", Some(p.data))
  }

  function MetaOfTick(t: Tick): SymbolMeta { SymbolMeta(t.id, t.name, t.symbol) }

  function MetaOfRecord(r: Record): SymbolMeta { SymbolMeta(r.id, r.name, r.symbol) }

  /** The text before the first `@` (all of `s` when it has none). */
  function StreamId(s: string): (r: string)
    ensures r <= s
    ensures '@' !in r
    ensures |r| < |s| ==> s[|r|] == '@'
  {
    if |s| == 0 || s[0] == '@' then [] else [s[0]] + StreamId(s[1..])
  }

  /** The index of the first entry of `metas` whose id is `id`. */
  function Find(metas: seq<SymbolMeta>, id: string): (r: Option<nat>)
    ensures r.Some? ==> r.value < |metas| && metas[r.value].id == id
    ensures r.Some? ==> forall j :: 0 <= j < r.value ==> metas[j].id != id
    ensures r.None? <==> forall j :: 0 <= j < |metas| ==> metas[j].id != id
  {
    if |metas| == 0 then None
    else if metas[0].id == id then Some(0)
    else match Find(metas[1..], id)
      case None => None
      case Some(k) => Some(k + 1)
  }

  lemma SymbolsDistinct()
    ensures forall i, j :: 0 <= i < j < |SYMBOLS| ==> SYMBOLS[i].id != SYMBOLS[j].id
    ensures forall i, j :: 0 <= i < j < |SYMBOLS| ==> SYMBOLS[i].symbol != SYMBOLS[j].symbol
  {
  }

  /** Every tracked id is found at its own position. */
  lemma FindTracked(i: nat)
    requires i < |SYMBOLS|
    ensures Find(SYMBOLS, SYMBOLS[i].id) == Some(i)
  {
    SymbolsDistinct();
  }

  /** A cache entry keyed `key` belongs to the table entry with that id. */
  ghost predicate Tracked(key: string, t: Tick)
  {
    t.id == key && MetaOfTick(t) in SYMBOLS
  }

  /** Every cache key is a tracked id and its tick is tagged with that id's metadata. */
  ghost predicate CacheWellFormed(cache: map<string, Tick>)
  {
    forall k {:trigger Tracked(k, cache[k])} :: k in cache ==> Tracked(k, cache[k])
  }

  /** The `message` handler's decision: the tick to store, or `None` when the
      frame is dropped (unparsable, missing or empty `stream`, missing `data`,
      or an id before `@` that matches no table entry). */
  function DecodeFrame(f: Frame): (r: Option<Tick>)
    ensures r.Some? <==>
      f.Parsed? && f.stream.Some? && f.stream.value != "" && f.data.Some?
      && Find(SYMBOLS, StreamId(f.stream.value)).Some?
    ensures r.Some? ==>
      && r.value.id == StreamId(f.stream.value)
      && Tracked(r.value.id, r.value)
      && r.value.priceUsd == f.data.value.lastPrice
      && r.value.change24h == f.data.value.changePct
      && r.value.high24h == f.data.value.high
      && r.value.low24h == f.data.value.low
      && r.value.volume == f.data.value.quoteVolume
  {
    if f.Unparsable? || f.stream.None? || f.stream.value == "" || f.data.None? then None
    else
      var streamSymbol := StreamId(f.stream.value);
      match Find(SYMBOLS, streamSymbol)
      case None => None
      case Some(k) =>
        var meta := SYMBOLS[k];
        var ticker := f.data.value;
        Some(Tick(meta.id, meta.name, meta.symbol,
                  ticker.lastPrice, ticker.changePct, ticker.high, ticker.low, ticker.quoteVolume))
  }

  /** A record whose every market field is null. */
  predicate AllNull(r: Record)
  {
    r.priceUsd.None? && r.priceInr.None? && r.change24h.None?
    && r.high24h.None? && r.low24h.None?
    && r.high24hInr.None? && r.low24hInr.None? && r.volume.None?
  }

  /** `r` carries tick `t` in USD and its INR conversion at `rate`. */
  predicate Converted(r: Record, t: Tick, rate: real)
  {
    && MetaOfRecord(r) == MetaOfTick(t)
    && r.priceUsd == Some(t.priceUsd) && r.priceInr == Some(t.priceUsd * rate)
    && r.change24h == Some(t.change24h)
    && r.high24h == Some(t.high24h) && r.low24h == Some(t.low24h)
    && r.high24hInr == Some(t.high24h * rate) && r.low24hInr == Some(t.low24h * rate)
    && r.volume == Some(t.volume)
  }

  function RecordFor(s: SymbolMeta, cache: map<string, Tick>, rate: real): Record
  {
    if s.id !in cache then
      Record(s.id, s.name, s.symbol, None, None, None, None, None, None, None, None)
    else
      var t := cache[s.id];
      Record(t.id, t.name, t.symbol,
             Some(t.priceUsd), Some(t.priceUsd * rate),
             Some(t.change24h),
             Some(t.high24h), Some(t.low24h),
             Some(t.high24h * rate), Some(t.low24h * rate),
             Some(t.volume))
  }

  /** `getCacheAsArray`: one record per table entry, in table order. */
  function CacheAsArray(cache: map<string, Tick>, rate: real): (r: seq<Record>)
    ensures |r| == |SYMBOLS|
    ensures forall i :: 0 <= i < |r| && SYMBOLS[i].id !in cache ==>
      MetaOfRecord(r[i]) == SYMBOLS[i] && AllNull(r[i])
    ensures forall i :: 0 <= i < |r| && SYMBOLS[i].id in cache ==>
      Converted(r[i], cache[SYMBOLS[i].id], rate)
  {
    var r := seq(|SYMBOLS|, i requires 0 <= i < |SYMBOLS| => RecordFor(SYMBOLS[i], cache, rate));
    assert forall i :: 0 <= i < |r| && SYMBOLS[i].id in cache ==>
      Converted(r[i], cache[SYMBOLS[i].id], rate) by {
      forall i | 0 <= i < |r| && SYMBOLS[i].id in cache
        ensures Converted(r[i], cache[SYMBOLS[i].id], rate)
      {
        assert r[i] == RecordFor(SYMBOLS[i], cache, rate);
      }
    }
    r
  }

  /** For a well-formed cache (whatever its contents, empty included) the
      snapshot's i-th record carries exactly the i-th table entry's id, name
      and symbol. */
  lemma SnapshotFollowsTable(cache: map<string, Tick>, rate: real)
    requires CacheWellFormed(cache)
    ensures |CacheAsArray(cache, rate)| == |SYMBOLS|
    ensures forall i :: 0 <= i < |SYMBOLS| ==> MetaOfRecord(CacheAsArray(cache, rate)[i]) == SYMBOLS[i]
  {
    var r := CacheAsArray(cache, rate);
    forall i | 0 <= i < |SYMBOLS| ensures MetaOfRecord(r[i]) == SYMBOLS[i] {
      if SYMBOLS[i].id in cache {
        var t := cache[SYMBOLS[i].id];
        assert Tracked(SYMBOLS[i].id, t);
        var j :| 0 <= j < |SYMBOLS| && SYMBOLS[j] == MetaOfTick(t);
        SymbolsDistinct();
        assert SYMBOLS[j].id == SYMBOLS[i].id;
        assert j == i;
      }
    }
  }

  /** Storing a tracked tick keeps the cache well formed: unknown ids never enter it. */
  lemma StoreKeepsWellFormed(cache: map<string, Tick>, t: Tick)
    requires CacheWellFormed(cache) && Tracked(t.id, t)
    ensures CacheWellFormed(cache[t.id := t])
  {
  }

  /** Of two ticks stored in turn under one id, only the later is visible
      in the snapshot. */
  lemma LaterTickShadows(cache: map<string, Tick>, first: Tick, second: Tick, rate: real)
    requires first.id == second.id
    ensures CacheAsArray(cache[first.id := first][second.id := second], rate)
         == CacheAsArray(cache[second.id := second], rate)
  {
    assert cache[first.id := first][second.id := second] == cache[second.id := second];
  }

  /** Of two accepted frames for the same stream id, stored in turn before a
      flush, only the later one is visible in the snapshot: the record for
      that symbol carries the second frame's numbers. */
  lemma LaterFrameShadows(cache: map<string, Tick>, f1: Frame, f2: Frame, t1: Tick, t2: Tick, rate: real)
    requires DecodeFrame(f1) == Some(t1) && DecodeFrame(f2) == Some(t2)
    requires f1.stream == f2.stream
    ensures CacheAsArray(cache[t1.id := t1][t2.id := t2], rate) == CacheAsArray(cache[t2.id := t2], rate)
    ensures forall i :: 0 <= i < |SYMBOLS| && SYMBOLS[i].id == t2.id ==>
      Converted(CacheAsArray(cache[t1.id := t1][t2.id := t2], rate)[i], t2, rate)
  {
    LaterTickShadows(cache, t1, t2, rate);
  }
}
