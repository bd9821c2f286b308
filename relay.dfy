/** The relay server's module-level state and its event handlers: the
    throttled broadcast, the upstream feed handlers with their fixed-delay
    reconnect, the forex poller and the subscriber fan-out. */
module Relay {
  import opened Wire
  import Throttle

  /** The upstream socket: none created yet, handshake in progress, open, closed. */
  datatype Link = NoSocket | Connecting | Connected | Closed

  /** A subscriber connection: whether its ready state is OPEN, and the
      payloads sent to it so far. */
  datatype Subscriber = Subscriber(open: bool, inbox: seq<PriceUpdate>)

  /** How one forex poll ended: `fetch` or `response.json()` threw, the
      response was not ok, or a body was decoded, reduced to the number at
      `rates.INR` when that path exists. */
  datatype ForexOutcome = Threw | HttpNotOk | Decoded(inr: Option<real>)

  /** The fallback rate used until the first successful fetch. */
  const FALLBACK_INR_RATE: real := 86.0

  /** The rate a poll installs, if any: the body must hold a truthy (so
      non-zero) number at `rates.INR`. */
  function AcceptedRate(o: ForexOutcome): (r: Option<real>)
    ensures o.Threw? || o.HttpNotOk? ==> r.None?
    ensures o == Decoded(None) || o == Decoded(Some(0.0)) ==> r.None?
    ensures r.Some? ==> o == Decoded(Some(r.value)) && r.value != 0.0
    ensures o.Decoded? && o.inr.Some? && o.inr.value != 0.0 ==> r.Some?
  {
    if o.Decoded? && o.inr.Some? && o.inr.value != 0.0 then Some(o.inr.value) else None
  }

  function SendIfOpen(c: Subscriber, m: PriceUpdate): Subscriber
  {
    if c.open then c.(inbox := c.inbox + [m]) else c
  }

  /** The subscriber list after `m` has been sent to every open one. */
  function Deliver(cs: seq<Subscriber>, m: PriceUpdate): (r: seq<Subscriber>)
    ensures |r| == |cs|
    ensures forall i :: 0 <= i < |cs| ==> r[i].open == cs[i].open
    ensures forall i :: 0 <= i < |cs| ==> r[i].inbox == if cs[i].open then cs[i].inbox + [m] else cs[i].inbox
  {
    seq(|cs|, i requires 0 <= i < |cs| => SendIfOpen(cs[i], m))
  }

  function CountOpen(cs: seq<Subscriber>): nat
  {
    if cs == [] then 0 else CountOpen(cs[..|cs| - 1]) + (if cs[|cs| - 1].open then 1 else 0)
  }

  /** The total number of payloads queued over all subscribers. */
  function Queued(cs: seq<Subscriber>): nat
  {
    if cs == [] then 0 else Queued(cs[..|cs| - 1]) + |cs[|cs| - 1].inbox|
  }

  /** The count a broadcast returns is exactly the number of payloads it queues. */
  lemma {:induction false} DeliverQueuesOnePerOpen(cs: seq<Subscriber>, m: PriceUpdate)
    ensures Queued(Deliver(cs, m)) == Queued(cs) + CountOpen(cs)
  {
    if cs != [] {
      var n := |cs|;
      assert Deliver(cs, m)[..n - 1] == Deliver(cs[..n - 1], m);
      DeliverQueuesOnePerOpen(cs[..n - 1], m);
    }
  }

  /** The count never exceeds the number of subscribers, and equals it exactly
      when every subscriber is open. */
  lemma {:induction false} CountOpenBounded(cs: seq<Subscriber>)
    ensures CountOpen(cs) <= |cs|
    ensures CountOpen(cs) == |cs| <==> forall i :: 0 <= i < |cs| ==> cs[i].open
  {
    if cs != [] {
      var n := |cs|;
      CountOpenBounded(cs[..n - 1]);
      assert forall i :: 0 <= i < n - 1 ==> cs[..n - 1][i] == cs[i];
    }
  }

  class RelayServer {
    var priceCache: map<string, Tick>
    var lastUpdateTime: Option<string>
    var inrRate: real
    var inrRateLastUpdated: Option<string>
    var broadcastArmed: bool
    var broadcastPending: bool
    var reconnectArmed: bool
    var link: Link
    var clients: seq<Subscriber>

    /** Throttle timers scheduled and not yet fired (including orphaned ones). */
    ghost var broadcastTimers: nat
    /** Reconnect timers scheduled and neither fired nor cleared. */
    ghost var reconnectTimers: nat
    /** Every payload passed to `broadcast`, in order. */
    ghost var sentLog: seq<PriceUpdate>
    /** How many upstream sockets have been created. */
    ghost var connects: nat

    ghost predicate Valid()
      reads this
    {
      && CacheWellFormed(priceCache)
      && inrRate != 0.0
      && broadcastTimers == (if broadcastArmed then 1 else 0)
      && (broadcastPending ==> broadcastArmed)
      && reconnectTimers == (if reconnectArmed then 1 else 0)
      && (reconnectArmed ==> link == Closed)
    }

    /** The throttle's two flags as a value of the coalescing primitive. */
    function ThrottleState(): Throttle.State
      reads this`broadcastArmed, this`broadcastPending
    {
      Throttle.State(broadcastArmed, broadcastPending)
    }

    /** The message every broadcast and every join snapshot carries. */
    function Payload(): PriceUpdate
      reads this`priceCache, this`inrRate, this`lastUpdateTime
    {
      PriceUpdate(CacheAsArray(priceCache, inrRate), inrRate, lastUpdateTime)
    }

    /** The state of the module when it has been loaded. */
    constructor ()
      ensures Valid()
      ensures priceCache == map[] && lastUpdateTime == None
      ensures inrRate == FALLBACK_INR_RATE && inrRateLastUpdated == None
      ensures !broadcastArmed && !broadcastPending && !reconnectArmed
      ensures link == NoSocket && clients == [] && sentLog == [] && connects == 0
    {
      priceCache := map[];
      lastUpdateTime := None;
      inrRate := FALLBACK_INR_RATE;
      inrRateLastUpdated := None;
      broadcastArmed, broadcastPending := false, false;
      reconnectArmed := false;
      link := NoSocket;
      clients := [];
      broadcastTimers, reconnectTimers := 0, 0;
      sentLog := [];
      connects := 0;
    }

    /** `scheduleBroadcast`: always marks pending; arms a timer only when none is armed. */
    method ScheduleBroadcast()
      requires Valid()
      modifies this`broadcastPending, this`broadcastArmed, this`broadcastTimers
      ensures Valid()
      ensures broadcastPending && broadcastArmed && broadcastTimers == 1
      ensures ThrottleState() == Throttle.Apply(old(ThrottleState()), Throttle.Mark).next
      ensures old(broadcastArmed) ==> broadcastTimers == old(broadcastTimers)
    {
      broadcastPending := true;
      if broadcastArmed {
        return;
      }
      broadcastArmed := true;
      broadcastTimers := broadcastTimers + 1;
    }

    /** The throttle timer's callback: it disarms itself and, when a signal is
        pending, clears it and broadcasts the current snapshot exactly once. */
    method FireBroadcastTimer() returns (sent: nat)
      requires Valid() && broadcastArmed
      modifies this`broadcastArmed, this`broadcastPending, this`broadcastTimers, this`clients, this`sentLog
      ensures Valid()
      ensures !broadcastArmed && !broadcastPending && broadcastTimers == 0
      ensures ThrottleState() == Throttle.Apply(old(ThrottleState()), Throttle.Elapse).next
      ensures old(broadcastPending) ==>
        && sentLog == old(sentLog) + [Payload()]
        && clients == Deliver(old(clients), Payload())
        && sent == CountOpen(old(clients))
      ensures !old(broadcastPending) ==> sentLog == old(sentLog) && clients == old(clients) && sent == 0
    {
      broadcastArmed := false;
      broadcastTimers := broadcastTimers - 1;
      sent := 0;
      if broadcastPending {
        broadcastPending := false;
        sent := Broadcast(Payload());
      }
    }

    /** `broadcast`: sends `msg` to every subscriber whose state is OPEN and
        returns how many that was. */
    method Broadcast(msg: PriceUpdate) returns (sent: nat)
      modifies this`clients, this`sentLog
      ensures clients == Deliver(old(clients), msg)
      ensures sent == CountOpen(old(clients))
      ensures sentLog == old(sentLog) + [msg]
    {
      ghost var before := clients;
      sent := 0;
      var i := 0;
      while i < |clients|
        invariant 0 <= i <= |clients| == |before|
        invariant forall j :: 0 <= j < i ==> clients[j] == SendIfOpen(before[j], msg)
        invariant forall j :: i <= j < |clients| ==> clients[j] == before[j]
        invariant sent == CountOpen(before[..i])
        invariant sentLog == old(sentLog)
      {
        assert before[..i + 1][..i] == before[..i];
        if clients[i].open {
          clients := clients[i := clients[i].(inbox := clients[i].inbox + [msg])];
          sent := sent + 1;
        }
        i := i + 1;
      }
      assert before[..i] == before;
      sentLog := sentLog + [msg];
    }

    /** Creates a new upstream socket (`connectToBinance`); its callers never
        have a reconnect timer armed. */
    method ConnectToBinance()
      requires Valid() && !reconnectArmed
      modifies this`link, this`connects
      ensures Valid()
      ensures link == Connecting && connects == old(connects) + 1
    {
      link := Connecting;
      connects := connects + 1;
    }

    /** The upstream `open` handler: clears any pending reconnect timer. */
    method OnUpstreamOpen()
      requires Valid()
      modifies this`link, this`reconnectArmed, this`reconnectTimers
      ensures Valid()
      ensures link == Connected && !reconnectArmed && reconnectTimers == 0
    {
      link := Connected;
      if reconnectArmed {
        reconnectArmed := false;
        reconnectTimers := reconnectTimers - 1;
      }
    }

    /** The upstream `message` handler: drops the frame or stores its tick
        over the previous one for that id, stamps the update time and
        schedules a throttled broadcast. */
    method OnUpstreamMessage(f: Frame, now: string)
      requires Valid()
      modifies this`priceCache, this`lastUpdateTime,
               this`broadcastPending, this`broadcastArmed, this`broadcastTimers
      ensures Valid()
      ensures DecodeFrame(f).None? ==>
        && priceCache == old(priceCache) && lastUpdateTime == old(lastUpdateTime)
        && ThrottleState() == old(ThrottleState()) && broadcastTimers == old(broadcastTimers)
      ensures DecodeFrame(f).Some? ==>
        var t := DecodeFrame(f).value;
        && priceCache == old(priceCache)[t.id := t]
        && lastUpdateTime == Some(now)
        && ThrottleState() == Throttle.Apply(old(ThrottleState()), Throttle.Mark).next
        && broadcastTimers == 1
    {
      var decoded := DecodeFrame(f);
      if decoded.None? {
        return;
      }
      StoreTick(decoded.value, now);
      ScheduleBroadcast();
    }

    /** `priceCache.set` and the update stamp: the tick replaces only its own
        id's entry, and the cache stays well formed. */
    method StoreTick(t: Tick, now: string)
      requires Valid() && Tracked(t.id, t)
      modifies this`priceCache, this`lastUpdateTime
      ensures Valid()
      ensures priceCache == old(priceCache)[t.id := t] && lastUpdateTime == Some(now)
    {
      StoreKeepsWellFormed(priceCache, t);
      priceCache := priceCache[t.id := t];
      lastUpdateTime := Some(now);
    }

    /** `scheduleReconnect`, called only from the close handler: a no-op if a
        reconnect timer is already armed, so at most one is ever pending. */
    method ScheduleReconnect()
      requires Valid() && link == Closed
      modifies this`reconnectArmed, this`reconnectTimers
      ensures Valid()
      ensures reconnectArmed && reconnectTimers == 1
      ensures old(reconnectArmed) ==> reconnectTimers == old(reconnectTimers)
    {
      if reconnectArmed {
        return;
      }
      reconnectArmed := true;
      reconnectTimers := reconnectTimers + 1;
    }

    /** The upstream `close` handler: the only place a reconnect is scheduled. */
    method OnUpstreamClose()
      requires Valid()
      modifies this`link, this`reconnectArmed, this`reconnectTimers
      ensures Valid()
      ensures link == Closed && reconnectArmed && reconnectTimers == 1
      ensures old(reconnectArmed) ==> reconnectTimers == old(reconnectTimers)
    {
      link := Closed;
      ScheduleReconnect();
    }

    /** The upstream `error` handler only logs: it changes no state and
        schedules no reconnect (the `close` that follows does). */
    method OnUpstreamError()
      requires Valid()
      ensures Valid()
    {
    }

    /** The reconnect timer's callback: disarms it and opens a new socket. */
    method FireReconnectTimer()
      requires Valid() && reconnectArmed
      modifies this`reconnectArmed, this`reconnectTimers, this`link, this`connects
      ensures Valid()
      ensures !reconnectArmed && reconnectTimers == 0
      ensures link == Connecting && connects == old(connects) + 1
    {
      reconnectArmed := false;
      reconnectTimers := reconnectTimers - 1;
      ConnectToBinance();
    }

    /** `fetchForexRate`, given how the poll ended: on any failure the rate and
        its timestamp are kept; on success the rate is replaced and, if the
        cache holds anything, a broadcast bypassing the throttle is sent. */
    method FetchForexRate(outcome: ForexOutcome, now: string)
      requires Valid()
      modifies this`inrRate, this`inrRateLastUpdated, this`clients, this`sentLog
      ensures Valid()
      ensures AcceptedRate(outcome).None? ==>
        && inrRate == old(inrRate) && inrRateLastUpdated == old(inrRateLastUpdated)
        && clients == old(clients) && sentLog == old(sentLog)
      ensures AcceptedRate(outcome).Some? ==>
        && inrRate == AcceptedRate(outcome).value
        && inrRateLastUpdated == Some(now)
        && (|priceCache| > 0 ==> clients == Deliver(old(clients), Payload()) && sentLog == old(sentLog) + [Payload()])
        && (|priceCache| == 0 ==> clients == old(clients) && sentLog == old(sentLog))
    {
      var accepted := AcceptedRate(outcome);
      if accepted.None? {
        return;
      }
      inrRate := accepted.value;
      inrRateLastUpdated := Some(now);
      if |priceCache| > 0 {
        var msg := Payload();
        var sent := Broadcast(msg);
      }
    }

    /** The `connection` handler: the new subscriber is sent the snapshot at
        once only if the cache is non-empty. */
    method OnConnection()
      requires Valid()
      modifies this`clients
      ensures Valid()
      ensures clients == old(clients) + [Subscriber(true, if |priceCache| > 0 then [Payload()] else [])]
    {
      var first := if |priceCache| > 0 then [Payload()] else [];
      clients := clients + [Subscriber(true, first)];
    }

    /** A subscriber's ready state leaves OPEN (closing or closed). */
    method OnClientClosing(i: nat)
      requires Valid() && i < |clients|
      modifies this`clients
      ensures Valid()
      ensures clients == old(clients)[i := old(clients)[i].(open := false)]
    {
      clients := clients[i := clients[i].(open := false)];
    }

    /** A closed subscriber is dropped from the server's client set. */
    method OnClientRemoved(i: nat)
      requires Valid() && i < |clients|
      modifies this`clients
      ensures Valid()
      ensures clients == old(clients)[..i] + old(clients)[i + 1..]
    {
      clients := clients[..i] + clients[i + 1..];
    }
  }

  /** Two accepted frames for one stream arrive before the throttle fires:
      a single timer is armed with the signal pending, and the snapshot its
      firing sends (`FireBroadcastTimer` sends `Payload()`) holds only the
      second frame's tick, stamped with the second arrival time. */
  method SecondFrameShadowsFirst(f1: Frame, f2: Frame, t1: Tick, t2: Tick, now1: string, now2: string)
    returns (armed: bool, pending: bool, next: PriceUpdate)
    requires DecodeFrame(f1) == Some(t1) && DecodeFrame(f2) == Some(t2)
    requires f1.stream == f2.stream
    ensures armed && pending
    ensures next == PriceUpdate(CacheAsArray(map[t2.id := t2], FALLBACK_INR_RATE), FALLBACK_INR_RATE, Some(now2))
  {
    var s := new RelayServer();
    s.OnUpstreamMessage(f1, now1);
    s.OnUpstreamMessage(f2, now2);
    LaterTickShadows(map[], t1, t2, FALLBACK_INR_RATE);
    armed, pending, next := s.broadcastArmed, s.broadcastPending, s.Payload();
  }
}
