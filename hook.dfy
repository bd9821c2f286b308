/** The browser-side subscriber: the hook that keeps one socket to the relay,
    replaces its price map on every `price_update` message and reconnects
    after a close. */
module PriceHook {
  import opened Wire

  /** The map the `onmessage` loop builds by `set(coin.symbol, coin)` in array order. */
  function PricesOf(data: seq<Record>): map<string, Record>
  {
    if data == [] then map[]
    else PricesOf(data[..|data| - 1])[data[|data| - 1].symbol := data[|data| - 1]]
  }

  function SymbolsOf(data: seq<Record>): set<string>
  {
    set i | 0 <= i < |data| :: data[i].symbol
  }

  /** No later record of `data` has the symbol of record `i`. */
  predicate LastWithSymbol(data: seq<Record>, i: nat)
    requires i < |data|
  {
    forall j :: i < j < |data| ==> data[j].symbol != data[i].symbol
  }

  /** The map's keys are exactly the symbols present in the message. */
  lemma {:induction false} PricesOfKeys(data: seq<Record>)
    ensures PricesOf(data).Keys == SymbolsOf(data)
  {
    if data != [] {
      var n := |data|;
      PricesOfKeys(data[..n - 1]);
      assert SymbolsOf(data) == SymbolsOf(data[..n - 1]) + {data[n - 1].symbol} by {
        assert forall i :: 0 <= i < n - 1 ==> data[..n - 1][i] == data[i];
      }
    }
  }

  /** Among records sharing a symbol, the map holds the last one. */
  lemma {:induction false} PricesOfLastWins(data: seq<Record>, i: nat)
    requires i < |data| && LastWithSymbol(data, i)
    ensures data[i].symbol in PricesOf(data) && PricesOf(data)[data[i].symbol] == data[i]
  {
    var n := |data|;
    if i < n - 1 {
      assert LastWithSymbol(data[..n - 1], i) by {
        assert forall j :: 0 <= j < n - 1 ==> data[..n - 1][j] == data[j];
      }
      PricesOfLastWins(data[..n - 1], i);
      assert data[..n - 1][i] == data[i];
    }
  }

  /** The `onmessage` loop: a fresh map filled from `data` alone. */
  method BuildPrices(data: seq<Record>) returns (m: map<string, Record>)
    ensures m == PricesOf(data)
    ensures m.Keys == SymbolsOf(data)
    ensures forall i :: 0 <= i < |data| && LastWithSymbol(data, i) ==> m[data[i].symbol] == data[i]
  {
    m := map[];
    var i := 0;
    while i < |data|
      invariant 0 <= i <= |data|
      invariant m == PricesOf(data[..i])
    {
      assert data[..i + 1][..i] == data[..i];
      m := m[data[i].symbol := data[i]];
      i := i + 1;
    }
    assert data[..i] == data;
    PricesOfKeys(data);
    forall i | 0 <= i < |data| && LastWithSymbol(data, i) ensures m[data[i].symbol] == data[i] {
      PricesOfLastWins(data, i);
    }
  }

  /** The records a message carries when the hook accepts it: only a
      `price_update` whose `data` is an array. */
  function Accept(msg: Inbound): (r: Option<seq<Record>>)
    ensures r.Some? <==> msg.Message? && msg.kind == "price_update" && msg.data.Some?
    ensures r.Some? ==> r.value == msg.data.value
  {
    if msg.Message? && msg.kind == "price_update" && msg.data.Some? then msg.data else None
  }

  /** Every snapshot the relay sends is accepted, and the resulting map holds
      one entry per tracked symbol: the record the relay computed for it. */
  lemma SnapshotFillsPrices(cache: map<string, Tick>, rate: real, timestamp: Option<string>)
    requires CacheWellFormed(cache)
    ensures Accept(Encode(PriceUpdate(CacheAsArray(cache, rate), rate, timestamp))) == Some(CacheAsArray(cache, rate))
    ensures PricesOf(CacheAsArray(cache, rate)).Keys == set i | 0 <= i < |SYMBOLS| :: SYMBOLS[i].symbol
    ensures forall i :: 0 <= i < |SYMBOLS| ==>
      PricesOf(CacheAsArray(cache, rate))[SYMBOLS[i].symbol] == CacheAsArray(cache, rate)[i]
  {
    var data := CacheAsArray(cache, rate);
    SnapshotFollowsTable(cache, rate);
    SymbolsDistinct();
    PricesOfKeys(data);
    assert SymbolsOf(data) == set i | 0 <= i < |SYMBOLS| :: SYMBOLS[i].symbol by {
      assert forall i :: 0 <= i < |SYMBOLS| ==> data[i].symbol == SYMBOLS[i].symbol;
    }
    forall i | 0 <= i < |SYMBOLS| ensures PricesOf(data)[SYMBOLS[i].symbol] == data[i] {
      assert data[i].symbol == SYMBOLS[i].symbol;
      PricesOfLastWins(data, i);
    }
  }

  /** The browser socket's ready state. */
  datatype Sock = Connecting | Open | Closing | Closed

  class CryptoPricesHook {
    var isConnected: bool
    var prices: map<string, Record>
    /** The ready state of `wsRef.current`. */
    var socket: Sock
    /** `reconnectTimer.current` is non-null. */
    var timerRef: bool
    /** A reconnect timer is scheduled and neither fired nor cleared. */
    var timerPending: bool
    /** The `on*` handlers of `wsRef.current` are still installed. */
    var handlersAttached: bool
    /** The component using the hook is mounted. */
    var mounted: bool
    /** How many sockets `connect()` has created. */
    ghost var connects: nat

    ghost predicate Valid()
      reads this
    {
      && (timerPending ==> timerRef && socket == Closed)
      && (!handlersAttached ==> !timerPending)
    }

    /** After the corrected cleanup: unmounted, nothing attached, no timer pending. */
    ghost predicate Quiescent()
      reads this
    {
      !mounted && !handlersAttached && !timerPending
    }

    /** Mounting runs the effect, whose first act is `connect()`. */
    constructor ()
      ensures Valid()
      ensures mounted && !isConnected && prices == map[]
      ensures socket == Connecting && handlersAttached && !timerRef && !timerPending && connects == 1
    {
      isConnected := false;
      prices := map[];
      timerRef, timerPending := false, false;
      mounted := true;
      socket := Connecting;
      handlersAttached := true;
      connects := 1;
    }

    /** `connect()`: a new socket with all four handlers installed. */
    method Connect()
      requires Valid() && !timerPending
      modifies this`socket, this`handlersAttached, this`connects
      ensures Valid()
      ensures socket == Connecting && handlersAttached && connects == old(connects) + 1
    {
      socket := Connecting;
      handlersAttached := true;
      connects := connects + 1;
    }

    /** The socket opens; `onopen` marks the hook connected and clears any
        pending reconnect timer. */
    method OnOpen()
      requires Valid()
      modifies this`socket, this`isConnected, this`timerRef, this`timerPending
      ensures Valid()
      ensures old(Quiescent()) ==> Quiescent()
      ensures socket == Open
      ensures old(handlersAttached) ==> isConnected && !timerRef && !timerPending
      ensures !old(handlersAttached) ==>
        isConnected == old(isConnected) && timerRef == old(timerRef) && timerPending == old(timerPending)
    {
      socket := Open;
      if !handlersAttached {
        return;
      }
      isConnected := true;
      if timerRef {
        timerPending := false;
        timerRef := false;
      }
    }

    /** A message arrives; `onmessage` replaces the price map with one built
        from an accepted message and ignores everything else. */
    method OnMessage(msg: Inbound)
      requires Valid()
      modifies this`prices
      ensures Valid()
      ensures old(Quiescent()) ==> Quiescent()
      ensures old(handlersAttached) && Accept(msg).Some? ==> prices == PricesOf(Accept(msg).value)
      ensures !old(handlersAttached) || Accept(msg).None? ==> prices == old(prices)
    {
      if !handlersAttached {
        return;
      }
      var accepted := Accept(msg);
      if accepted.Some? {
        prices := BuildPrices(accepted.value);
      }
    }

    /** The socket closes; `onclose` marks the hook disconnected and arms a
        reconnect timer only when `reconnectTimer.current` is null. */
    method OnClose()
      requires Valid()
      modifies this`socket, this`isConnected, this`timerRef, this`timerPending
      ensures Valid()
      ensures old(Quiescent()) ==> Quiescent()
      ensures socket == Closed
      ensures old(handlersAttached) ==> !isConnected && timerRef
      ensures old(handlersAttached) && !old(timerRef) ==> timerPending
      ensures old(handlersAttached) && old(timerRef) ==> timerPending == old(timerPending)
      ensures !old(handlersAttached) ==>
        isConnected == old(isConnected) && timerRef == old(timerRef) && timerPending == old(timerPending)
    {
      socket := Closed;
      if !handlersAttached {
        return;
      }
      isConnected := false;
      if !timerRef {
        timerRef := true;
        timerPending := true;
      }
    }

    /** A socket error; `onerror` only closes the socket, so every state
        change goes through the `onclose` that follows. */
    method OnError()
      requires Valid()
      modifies this`socket
      ensures Valid()
      ensures old(Quiescent()) ==> Quiescent()
      ensures old(handlersAttached) && old(socket) in {Connecting, Open} ==> socket == Closing
      ensures !(old(handlersAttached) && old(socket) in {Connecting, Open}) ==> socket == old(socket)
    {
      if handlersAttached && socket in {Connecting, Open} {
        socket := Closing;
      }
    }

    /** The reconnect timer fires: it nulls its reference and connects again. */
    method TimerFire()
      requires Valid() && timerPending
      modifies this`timerRef, this`timerPending, this`socket, this`handlersAttached, this`connects
      ensures Valid()
      ensures !timerRef && !timerPending
      ensures socket == Connecting && handlersAttached && connects == old(connects) + 1
    {
      timerRef, timerPending := false, false;
      Connect();
    }

    /** The effect's cleanup as written: closes the current socket and clears
        the pending timer, but leaves the socket's handlers installed and
        `reconnectTimer.current` non-null. */
    method Cleanup()
      requires Valid()
      modifies this`mounted, this`socket, this`timerPending
      ensures Valid()
      ensures !mounted && !timerPending
      ensures socket == (if old(socket) in {Connecting, Open} then Closing else old(socket))
    {
      mounted := false;
      if socket in {Connecting, Open} {
        socket := Closing;
      }
      if timerRef {
        timerPending := false;
      }
    }

    /** The corrected cleanup: it first removes the socket's handlers, so the
        close it causes can no longer schedule a reconnect, and it nulls
        `reconnectTimer.current` after cancelling the timer, so no stale
        reference outlives the effect. */
    method CorrectedCleanup()
      requires Valid()
      modifies this`mounted, this`socket, this`timerPending, this`timerRef, this`handlersAttached
      ensures Valid() && Quiescent() && !timerRef
      ensures socket == (if old(socket) in {Connecting, Open} then Closing else old(socket))
    {
      handlersAttached := false;
      mounted := false;
      if socket in {Connecting, Open} {
        socket := Closing;
      }
      if timerRef {
        timerPending := false;
        timerRef := false;
      }
    }

    /** The effect re-runs (the `wsUrl` dependency changed) as written: the old
        effect's cleanup, then `connect()` on the same hook instance, whose
        state and refs React keeps. */
    method Rerun()
      requires Valid()
      modifies this`mounted, this`socket, this`timerPending, this`handlersAttached, this`connects
      ensures Valid()
      ensures mounted && socket == Connecting && handlersAttached && !timerPending
      ensures connects == old(connects) + 1
      ensures timerRef == old(timerRef)
    {
      Cleanup();
      mounted := true;
      Connect();
    }

    /** The same re-run with the corrected cleanup. */
    method RerunCorrected()
      requires Valid()
      modifies this`mounted, this`socket, this`timerPending, this`timerRef, this`handlersAttached, this`connects
      ensures Valid()
      ensures mounted && socket == Connecting && handlersAttached && !timerPending && !timerRef
      ensures connects == old(connects) + 1
    {
      CorrectedCleanup();
      mounted := true;
      Connect();
    }
  }

  /** As written: once the component is unmounted, the close caused by the
      cleanup arms a reconnect timer whose firing opens a new socket. */
  method UnmountedHookReconnects() returns (reconnected: bool)
    ensures reconnected
  {
    var h := new CryptoPricesHook();
    h.OnOpen();
    h.Cleanup();
    h.OnClose();
    h.TimerFire();
    reconnected := !h.mounted && h.socket == Connecting;
  }

  /** Corrected: after the corrected cleanup the same close arms nothing. */
  method CorrectedHookStaysClosed() returns (reconnectPending: bool)
    ensures !reconnectPending
  {
    var h := new CryptoPricesHook();
    h.OnOpen();
    h.CorrectedCleanup();
    h.OnClose();
    reconnectPending := h.timerPending;
  }

  /** As written: a re-run while a reconnect is pending cancels the timer but
      keeps the reference, so when the new socket closes before opening no
      reconnect is armed and the mounted hook stays disconnected for good. */
  method StaleRefBlocksReconnect() returns (stuck: bool)
    ensures stuck
  {
    var h := new CryptoPricesHook();
    h.OnClose();
    h.Rerun();
    h.OnClose();
    stuck := h.mounted && h.socket == Closed && !h.isConnected && !h.timerPending;
  }

  /** Corrected: after the corrected re-run the same close arms a reconnect. */
  method CorrectedRerunReconnects() returns (reconnectPending: bool)
    ensures reconnectPending
  {
    var h := new CryptoPricesHook();
    h.OnClose();
    h.RerunCorrected();
    h.OnClose();
    reconnectPending := h.mounted && h.timerPending;
  }
}
