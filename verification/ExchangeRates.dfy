/**
 * The live-rate stream manager: one object that owns a WebSocket to the
 * exchange-rate feed, three consumer callback slots and a reconnect timer.
 *
 * The transport is abstract. Every socket the manager ever created is an
 * entry of `sockets` (its index is its id) holding its URL, its `readyState`
 * and whether its four handlers (`onopen`, `onmessage`, `onclose`,
 * `onerror`) are still attached. Each transport event is a method call
 * naming the socket it comes from. The reconnect interval is a flag. The
 * ghost `trace` records every effect the manager has on the outside world:
 * sockets created, frames sent, `close()` calls, timers set and cleared,
 * and callback invocations.
 */
module ExchangeRates {
  import opened Common

  /** `WebSocket.readyState`. */
  datatype ReadyState = Connecting | Open | Closing | Closed

  /** A socket is live while it can still open or deliver frames. */
  predicate Live(s: ReadyState) {
    s == Connecting || s == Open
  }

  /** A socket the manager created. */
  datatype Socket = Socket(url: string, state: ReadyState, attached: bool)

  /** A reference to a function the consumer passed to `connect`. */
  datatype Listener = Listener(id: nat)

  /** An inbound frame: text, or binary (then `event.data` is a Blob, not a string). */
  datatype Frame = Text(data: string) | Binary

  /** The argument a consumer callback receives. */
  datatype Delivery<J> = RatesUpdate(rates: J) | ConnectionChange(connected: bool) | Notification(text: string)

  datatype Effect<J> =
    | SocketCreated(socket: nat, url: string)
    | FrameSent(socket: nat, frame: string)
    | CloseCalled(socket: nat)
    | ReconnectScheduled
    | ReconnectCancelled
    | Invoked(listener: Listener, delivery: Delivery<J>)

  /** Where `onmessage` sends a frame. */
  datatype Route<J> = ToRatesUpdate(rates: J) | ToNotification(text: string) | Dropped

  const BaseUrl: string := "ws://localhost:8080/ws/exchange-rates"
  const TokenQuery: string := "?token="
  /** The only frame the client ever sends. */
  const RefreshRequest: string := "getRates"

  /** `if (token)`: `localStorage.getItem` yields null or a string, and "" is falsy too. */
  predicate HasToken(token: Option<string>) {
    token.Some? && token.value != ""
  }

  /** The URL `connect` opens: the token, if any, is appended raw, without URL encoding. */
  function ConnectionUrl(token: Option<string>): (url: string)
    ensures StartsWith(url, BaseUrl)
    ensures url == BaseUrl <==> !HasToken(token)
    ensures HasToken(token) ==>
      StartsWith(url, BaseUrl + TokenQuery) && url[|BaseUrl + TokenQuery|..] == token.value
  {
    if HasToken(token) then BaseUrl + TokenQuery + token.value else BaseUrl
  }

  /**
   * Distinct tokens give distinct URL strings: the string `connect` builds
   * determines the token. This is about the string handed to `new
   * WebSocket`, before the browser's URL parser normalises it.
   */
  lemma ConnectionUrlInjective(t1: Option<string>, t2: Option<string>)
    requires ConnectionUrl(t1) == ConnectionUrl(t2)
    ensures HasToken(t1) <==> HasToken(t2)
    ensures HasToken(t1) ==> t1.value == t2.value
  {
    if HasToken(t1) && HasToken(t2) {
      var prefix := BaseUrl + TokenQuery;
      assert t1.value == ConnectionUrl(t1)[|prefix|..];
    }
  }

  /** The brace sniffing of `onmessage`: starts with `{` and ends with `}`. */
  predicate LooksLikeJson(message: string) {
    StartsWith(message, "{") && EndsWith(message, "}")
  }

  /** How `onmessage` classifies a frame, given `JSON.parse` as a partial function. */
  function RouteFrame<J>(frame: Frame, parse: string -> Option<J>): (r: Route<J>)
    ensures r.ToRatesUpdate? <==> frame.Text? && LooksLikeJson(frame.data) && parse(frame.data).Some?
    ensures r.ToRatesUpdate? ==> r.rates == parse(frame.data).value
    ensures r.ToNotification? <==> frame.Text? && !LooksLikeJson(frame.data)
    ensures r.ToNotification? ==> r.text == frame.data
  {
    match frame
    case Binary => Dropped  // `message.startsWith` throws on a Blob; the catch swallows it
    case Text(message) =>
      if LooksLikeJson(message) then
        match parse(message)
        case Some(rates) => ToRatesUpdate(rates)
        case None => Dropped  // `JSON.parse` threw; the catch swallows it
      else
        ToNotification(message)
  }

  /** `if (slot) slot(d)`. */
  function Deliver<J>(slot: Option<Listener>, d: Delivery<J>): seq<Effect<J>> {
    if slot.Some? then [Invoked(slot.value, d)] else []
  }

  /** What a socket becomes when `disconnect` detaches its handlers and closes it if it is live. */
  function TornDown(s: Socket): (t: Socket)
    ensures !t.attached && !Live(t.state) && t.url == s.url
    ensures Live(s.state) ==> t.state == Closing
    ensures !Live(s.state) ==> t.state == s.state
  {
    s.(attached := false, state := if Live(s.state) then Closing else s.state)
  }

  function TimerDelta<J>(e: Effect<J>): int {
    match e
    case ReconnectScheduled => 1
    case ReconnectCancelled => -1
    case _ => 0
  }

  /** Intervals set minus intervals cleared along a trace. */
  ghost function PendingTimers<J>(trace: seq<Effect<J>>): int {
    if trace == [] then 0 else PendingTimers(trace[..|trace| - 1]) + TimerDelta(trace[|trace| - 1])
  }

  lemma {:induction false} PendingTimersAppend<J>(a: seq<Effect<J>>, b: seq<Effect<J>>)
    ensures PendingTimers(a + b) == PendingTimers(a) + PendingTimers(b)
    decreases |b|
  {
    if b == [] {
      assert a + b == a;
    } else {
      assert (a + b)[..|a + b| - 1] == a + b[..|b| - 1];
      PendingTimersAppend(a, b[..|b| - 1]);
    }
  }

  /** What `disconnect` makes of the socket list whose current socket is `cur`. */
  function SocketsAfterTeardown(ss: seq<Socket>, cur: Option<nat>): seq<Socket>
    requires cur.Some? ==> cur.value < |ss|
  {
    if cur.Some? then ss[cur.value := TornDown(ss[cur.value])] else ss
  }

  /** The effects of `disconnect`: close a live current socket, clear a pending interval. */
  ghost function TeardownEffects<J>(ss: seq<Socket>, cur: Option<nat>, interval: bool): seq<Effect<J>>
    requires cur.Some? ==> cur.value < |ss|
  {
    (if cur.Some? && Live(ss[cur.value].state) then [CloseCalled(cur.value)] else [])
    + (if interval then [ReconnectCancelled] else [])
  }

  /** Tearing down the only socket that may be attached or live leaves none attached or live. */
  lemma TeardownLeavesNoneLive(ss: seq<Socket>, cur: Option<nat>)
    requires cur.Some? ==> cur.value < |ss|
    requires forall i :: 0 <= i < |ss| && (ss[i].attached || Live(ss[i].state)) ==> cur == Some(i)
    ensures var t := SocketsAfterTeardown(ss, cur);
            forall i :: 0 <= i < |t| ==> !t[i].attached && !Live(t[i].state)
  {
  }

  class ExchangeRateService<J> {
    /** `JSON.parse`: None where it throws. */
    const parse: string -> Option<J>

    var sockets: seq<Socket>
    /** `this.socket`: the id of the current socket, or null. */
    var socket: Option<nat>
    var onRatesUpdate: Option<Listener>
    var onConnectionChange: Option<Listener>
    var onNotification: Option<Listener>
    /** `this.reconnectInterval`: whether a reconnect interval is set. */
    var reconnectInterval: bool
    var isConnecting: bool
    ghost var trace: seq<Effect<J>>

    /**
     * The invariant that holds in every state, including between the
     * assignment of `isConnecting` and the call to `disconnect` inside
     * `connect`: only the current socket has handlers attached, every
     * other socket is closing or closed, a reconnect interval exists only
     * while the current socket is closed, and the trace never shows two
     * intervals set at once.
     */
    ghost predicate Consistent()
      reads this
    {
      && (socket.Some? ==> socket.value < |sockets| && sockets[socket.value].attached)
      && (forall i :: 0 <= i < |sockets| && (sockets[i].attached || Live(sockets[i].state)) ==>
            socket.Some? && socket.value == i)
      && (reconnectInterval ==> socket.Some? && sockets[socket.value].state == Closed)
      && PendingTimers(trace) == (if reconnectInterval then 1 else 0)
    }

    /** The invariant between public calls: also, no connection attempt is marked in progress. */
    ghost predicate Valid()
      reads this
    {
      Consistent() && !isConnecting
    }

    /** `this.socket && this.socket.readyState === WebSocket.OPEN`. */
    predicate IsOpen()
      reads this
    {
      socket.Some? && socket.value < |sockets| && sockets[socket.value].state == Open
    }

    /** The callback `onmessage` invokes for a routed frame, if its slot is filled. */
    ghost function Dispatch(route: Route<J>): seq<Effect<J>>
      reads this
    {
      match route
      case ToRatesUpdate(rates) => Deliver(onRatesUpdate, RatesUpdate(rates))
      case ToNotification(text) => Deliver(onNotification, Notification(text))
      case Dropped => []
    }

    constructor (parse: string -> Option<J>)
      ensures Valid() && this.parse == parse
      ensures sockets == [] && socket == None && !reconnectInterval && trace == []
      ensures onRatesUpdate == None && onConnectionChange == None && onNotification == None
    {
      this.parse := parse;
      sockets := [];
      socket := None;
      onRatesUpdate := None;
      onConnectionChange := None;
      onNotification := None;
      reconnectInterval := false;
      isConnecting := false;
      trace := [];
    }

    /**
     * Safe in every state and idempotent: afterwards there is no current
     * socket, no socket has handlers attached and no interval is set.
     */
    method Disconnect()
      requires Consistent()
      modifies this`isConnecting, this`sockets, this`socket, this`reconnectInterval, this`trace
      ensures Valid()
      ensures socket == None && !reconnectInterval
      ensures forall i :: 0 <= i < |sockets| ==> !sockets[i].attached && !Live(sockets[i].state)
      ensures sockets == SocketsAfterTeardown(old(sockets), old(socket))
      ensures trace == old(trace) + TeardownEffects(old(sockets), old(socket), old(reconnectInterval))
      ensures old(socket) == None && !old(reconnectInterval) ==> sockets == old(sockets) && trace == old(trace)
    {
      isConnecting := false;
      TeardownLeavesNoneLive(sockets, socket);
      ghost var closeEffects: seq<Effect<J>> := [];
      if socket.Some? {
        var id := socket.value;
        // detach the four handlers first, then close a socket that is still live
        var detached := sockets[id].(attached := false);
        if detached.state == Open || detached.state == Connecting {
          detached := detached.(state := Closing);
          closeEffects := [CloseCalled(id)];
        }
        assert detached == TornDown(sockets[id]);
        sockets := sockets[id := detached];
        socket := None;
      }
      ghost var cancelEffects: seq<Effect<J>> := [];
      if reconnectInterval {
        reconnectInterval := false;
        cancelEffects := [ReconnectCancelled];
      }
      PendingTimersAppend(trace, closeEffects);
      PendingTimersAppend(trace + closeEffects, cancelEffects);
      trace := trace + closeEffects + cancelEffects;
    }

    /**
     * `connect`: records the three callbacks, tears down any previous
     * socket and interval, then opens exactly one new socket. The guard on
     * `isConnecting` never fires, because `disconnect` clears the flag
     * that `connect` has just set.
     */
    method Connect(ratesListener: Option<Listener>, connectionListener: Option<Listener>,
                   notificationListener: Option<Listener>, token: Option<string>)
      requires Valid()
      modifies this
      ensures Valid()
      ensures onRatesUpdate == ratesListener && onConnectionChange == connectionListener
      ensures onNotification == notificationListener
      ensures socket == Some(|old(sockets)|) && !reconnectInterval
      ensures sockets == SocketsAfterTeardown(old(sockets), old(socket)) + [Socket(ConnectionUrl(token), Connecting, true)]
      ensures trace == old(trace) + TeardownEffects(old(sockets), old(socket), old(reconnectInterval))
                       + [SocketCreated(|old(sockets)|, ConnectionUrl(token))]
    {
      if isConnecting {
        return;
      }
      onRatesUpdate := ratesListener;
      onConnectionChange := connectionListener;
      isConnecting := true;
      onNotification := notificationListener;
      Disconnect();
      OpenSocket(ConnectionUrl(token));
    }

    /** `new WebSocket(url)` with the four handlers attached: the new socket becomes the current one. */
    method OpenSocket(url: string)
      requires Valid() && socket == None && !reconnectInterval
      requires forall i :: 0 <= i < |sockets| ==> !sockets[i].attached && !Live(sockets[i].state)
      modifies this`sockets, this`socket, this`trace
      ensures Valid() && socket == Some(|old(sockets)|)
      ensures sockets == old(sockets) + [Socket(url, Connecting, true)]
      ensures trace == old(trace) + [SocketCreated(|old(sockets)|, url)]
    {
      var id := |sockets|;
      ghost var before := sockets;
      sockets := sockets + [Socket(url, Connecting, true)];
      assert forall i :: 0 <= i < id ==> sockets[i] == before[i];
      socket := Some(id);
      ghost var created: seq<Effect<J>> := [SocketCreated(id, url)];
      assert PendingTimers(created) == 0 by {
        assert created[..0] == [];
      }
      PendingTimersAppend(trace, created);
      trace := trace + created;
    }

    /**
     * `onopen`: the socket that opens is the current one; the manager
     * reports `true`, asks for the rates and clears any interval.
     */
    method OnOpen(id: nat)
      requires Valid() && id < |sockets| && sockets[id].state == Connecting
      modifies this`sockets, this`isConnecting, this`reconnectInterval, this`trace
      ensures Valid()
      ensures socket == Some(id) && !reconnectInterval
      ensures sockets == old(sockets)[id := old(sockets[id]).(state := Open)]
      ensures trace == old(trace) + Deliver(onConnectionChange, ConnectionChange(true)) + [FrameSent(id, RefreshRequest)]
    {
      sockets := sockets[id := sockets[id].(state := Open)];
      if sockets[id].attached {
        isConnecting := false;
        var reported := Deliver(onConnectionChange, ConnectionChange(true));
        PendingTimersAppend(trace, reported);
        trace := trace + reported;
        var current := socket.value;
        PendingTimersAppend(trace, [FrameSent(current, RefreshRequest)]);
        trace := trace + [FrameSent(current, RefreshRequest)];
        if reconnectInterval {
          // `clearInterval` here is dead code: an interval is only set
          // while the current socket is closed, and this one was connecting
          assert false;
        }
      }
    }

    /**
     * `onmessage`: the browser delivers frames only on an OPEN socket, and
     * the only OPEN socket is the current one, whose handlers are attached;
     * at most one callback fires, as `RouteFrame` says.
     */
    method OnMessage(id: nat, frame: Frame)
      requires Valid() && id < |sockets| && sockets[id].state == Open
      modifies this`trace
      ensures Valid()
      ensures socket == Some(id) && sockets[id].attached
      ensures trace == old(trace) + (if sockets[id].attached then Dispatch(RouteFrame(frame, parse)) else [])
      ensures |trace| <= |old(trace)| + 1
    {
      if sockets[id].attached {
        var effects: seq<Effect<J>> := [];
        match frame {
          case Binary =>
          case Text(message) =>
            var isJson := StartsWith(message, "{") && EndsWith(message, "}");
            if isJson {
              var rates := parse(message);
              if rates.Some? && onRatesUpdate.Some? {
                effects := [Invoked(onRatesUpdate.value, RatesUpdate(rates.value))];
              }
            } else if onNotification.Some? {
              effects := [Invoked(onNotification.value, Notification(message))];
            }
        }
        PendingTimersAppend(trace, effects);
        trace := trace + effects;
      }
    }

    /**
     * The server starts the closing handshake: an open socket becomes
     * CLOSING and no handler runs until `onclose`.
     */
    method OnClosingHandshake(id: nat)
      requires Valid() && id < |sockets| && sockets[id].state == Open
      modifies this`sockets
      ensures Valid()
      ensures socket == Some(id) && sockets[id].attached
      ensures sockets == old(sockets)[id := old(sockets[id]).(state := Closing)]
    {
      sockets := sockets[id := sockets[id].(state := Closing)];
    }

    /** `handleReconnect`: set the interval unless one is already set. */
    method HandleReconnect()
      requires Consistent() && socket.Some? && sockets[socket.value].state == Closed
      modifies this`reconnectInterval, this`trace
      ensures Consistent() && reconnectInterval
      ensures trace == old(trace) + (if old(reconnectInterval) then [] else [ReconnectScheduled])
    {
      if reconnectInterval {
        return;
      }
      reconnectInterval := true;
      PendingTimersAppend(trace, [ReconnectScheduled]);
      trace := trace + [ReconnectScheduled];
    }

    /**
     * `onclose`: the socket is closed; if its handlers are still attached
     * the manager reports `false` and makes sure one interval is set.
     */
    method OnClose(id: nat)
      requires Valid() && id < |sockets| && sockets[id].state != Closed
      modifies this`sockets, this`isConnecting, this`reconnectInterval, this`trace
      ensures Valid()
      ensures sockets == old(sockets)[id := old(sockets[id]).(state := Closed)]
      ensures old(sockets[id].attached) ==>
        reconnectInterval
        && trace == old(trace) + Deliver(onConnectionChange, ConnectionChange(false))
                    + (if old(reconnectInterval) then [] else [ReconnectScheduled])
      ensures !old(sockets[id].attached) ==>
        reconnectInterval == old(reconnectInterval) && trace == old(trace)
    {
      sockets := sockets[id := sockets[id].(state := Closed)];
      if sockets[id].attached {
        isConnecting := false;
        var reported := Deliver(onConnectionChange, ConnectionChange(false));
        PendingTimersAppend(trace, reported);
        trace := trace + reported;
        HandleReconnect();
      }
    }

    /** `onerror`: reports `false` if the handlers are attached, and schedules nothing. */
    method OnError(id: nat)
      requires Valid() && id < |sockets| && sockets[id].state != Closed
      modifies this`isConnecting, this`trace
      ensures Valid()
      ensures trace == old(trace) + (if sockets[id].attached then Deliver(onConnectionChange, ConnectionChange(false)) else [])
    {
      if sockets[id].attached {
        isConnecting := false;
        var reported := Deliver(onConnectionChange, ConnectionChange(false));
        PendingTimersAppend(trace, reported);
        trace := trace + reported;
      }
    }

    /**
     * The interval callback: `connect` again with two callbacks only, so
     * the notification slot is emptied; the `disconnect` inside clears the
     * interval, so it fires once per scheduling.
     */
    method OnReconnectTimer(token: Option<string>)
      requires Valid() && reconnectInterval
      modifies this
      ensures Valid()
      ensures onRatesUpdate == old(onRatesUpdate) && onConnectionChange == old(onConnectionChange)
      ensures onNotification == None
      ensures socket == Some(|old(sockets)|) && !reconnectInterval
      ensures sockets == SocketsAfterTeardown(old(sockets), old(socket)) + [Socket(ConnectionUrl(token), Connecting, true)]
      ensures trace == old(trace) + [ReconnectCancelled, SocketCreated(|old(sockets)|, ConnectionUrl(token))]
    {
      Connect(onRatesUpdate, onConnectionChange, None, token);
    }

    /**
     * `requestRates`: send the refresh request on an open socket; otherwise
     * `connect` again with two callbacks only.
     */
    method RequestRates(token: Option<string>)
      requires Valid()
      modifies this
      ensures Valid()
      ensures onRatesUpdate == old(onRatesUpdate) && onConnectionChange == old(onConnectionChange)
      ensures old(IsOpen()) ==>
        && socket == old(socket) && sockets == old(sockets)
        && onNotification == old(onNotification) && reconnectInterval == old(reconnectInterval)
        && trace == old(trace) + [FrameSent(old(socket).value, RefreshRequest)]
      ensures !old(IsOpen()) ==>
        && onNotification == None && socket == Some(|old(sockets)|) && !reconnectInterval
        && sockets == SocketsAfterTeardown(old(sockets), old(socket)) + [Socket(ConnectionUrl(token), Connecting, true)]
        && trace == old(trace) + TeardownEffects(old(sockets), old(socket), old(reconnectInterval)) + [SocketCreated(|old(sockets)|, ConnectionUrl(token))]
    {
      if socket.Some? && sockets[socket.value].state == Open {
        PendingTimersAppend(trace, [FrameSent(socket.value, RefreshRequest)]);
        trace := trace + [FrameSent(socket.value, RefreshRequest)];
      } else {
        Connect(onRatesUpdate, onConnectionChange, None, token);
      }
    }
  }

  /** Between public calls at most one socket is live, and it is the current one. */
  lemma AtMostOneLiveSocket<J>(m: ExchangeRateService<J>, i: nat, j: nat)
    requires m.Valid() && i < |m.sockets| && j < |m.sockets|
    requires Live(m.sockets[i].state) && Live(m.sockets[j].state)
    ensures i == j && m.socket == Some(i)
  {
  }

  /** Two `connect` calls in a row leave one live socket: the first one is closed and detached. */
  method ConnectTwiceScenario<J>(parse: string -> Option<J>, token: Option<string>)
  {
    var m := new ExchangeRateService(parse);
    m.Connect(Some(Listener(0)), Some(Listener(1)), Some(Listener(2)), token);
    m.Connect(Some(Listener(0)), Some(Listener(1)), Some(Listener(2)), token);
    assert m.socket == Some(1);
    assert m.sockets[0] == Socket(ConnectionUrl(token), Closing, false);
    assert m.trace == [SocketCreated(0, ConnectionUrl(token)), CloseCalled(0), SocketCreated(1, ConnectionUrl(token))];
  }

  /** Open, then a plain-text frame: the consumer hears `true`, `getRates` goes out, the text is a notification. */
  method OpenAndNotifyScenario<J>(parse: string -> Option<J>, token: Option<string>)
  {
    var url := ConnectionUrl(token);
    var m := new ExchangeRateService(parse);
    m.Connect(Some(Listener(0)), Some(Listener(1)), Some(Listener(2)), token);
    m.OnOpen(0);
    assert m.trace == [SocketCreated(0, url), Invoked(Listener(1), ConnectionChange(true)), FrameSent(0, RefreshRequest)];
    m.OnMessage(0, Text("USD/TRY changed"));
    assert m.trace[3..] == [Invoked(Listener(2), Notification("USD/TRY changed"))];
  }

  /**
   * An unexpected close of the open current socket, then one timer tick:
   * the consumer hears `false`, one interval is scheduled, and the tick
   * cancels it and opens a second socket without the notification callback.
   */
  method ReconnectScenario<J>(m: ExchangeRateService<J>, token: Option<string>)
    requires m.Valid() && m.sockets == [Socket(ConnectionUrl(token), Open, true)] && m.socket == Some(0)
    requires m.onConnectionChange == Some(Listener(1)) && m.onNotification == Some(Listener(2))
    modifies m
  {
    ghost var before := m.trace;
    m.OnClose(0);
    assert m.reconnectInterval;
    assert m.trace == before + [Invoked(Listener(1), ConnectionChange(false)), ReconnectScheduled];
    m.OnReconnectTimer(token);
    assert m.onNotification == None && m.socket == Some(1) && !m.reconnectInterval;
    assert m.sockets == [Socket(ConnectionUrl(token), Closed, false), Socket(ConnectionUrl(token), Connecting, true)];
    assert m.trace == before + [Invoked(Listener(1), ConnectionChange(false)), ReconnectScheduled,
                                ReconnectCancelled, SocketCreated(1, ConnectionUrl(token))];
  }
}
