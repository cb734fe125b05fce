/** The live trade-stream client (tests/real-time/lib/wsx.js). Module-level flags
    `ready`, `reconnecting`, `terminated`, the time of the last event, the subscribed
    symbols and the current socket are driven by socket events, timer callbacks and
    the exported calls. Sockets, timers and callbacks are not executed: each step
    returns the effects it requests (open a socket, send a frame, close, schedule a
    job after a delay, call a callback), and the current time is a parameter. */
module StreamClient {
  import opened JsText

  /** The address every socket is opened to. */
  const StreamUrl: string := "wss://stream.binance.com:9443/ws"

  /** How long without events before the heartbeat reconnects. */
  const StaleAfterMs: int := 60000

  /** The `readyState` of the current socket. */
  datatype Phase = Connecting | Open | Closing | Closed

  /** The `ws` variable: null until the first `init`, then the latest socket. */
  datatype Socket = NoSocket | Socket(phase: Phase)

  /** `last_event`: Infinity until the first event, then a clock reading. */
  datatype Stamp = Infinity | At(ms: int)

  /** The callbacks that a timer runs. */
  datatype Job =
    | RetryInit        // `if (!ready) init(symbols)`, ten seconds after `init`
    | RestartStream    // `start_hf(symbols)`, one second after `reconnect`
    | Heartbeat        // `heartbeat`
    | ClearTerminated  // `terminated = false`, half a second after `terminate`

  /** Frames sent to the exchange. */
  datatype Outbound =
    | Subscribe(params: seq<string>, id: int)  // {method: 'SUBSCRIBE', params, id}
    | AddMarket(market: string)                // {op: 'subscribe', channel: 'trades', market}

  /** What `ontrades` receives. */
  datatype TradeTick = TradeTick(symbol: string, price: JsFloat, size: JsFloat)

  datatype Effect =
    | Connect(url: string)
    | Send(frame: Outbound)
    | CloseSocket
    | Schedule(delay: nat, job: Job)
    | EmitTrade(tick: TradeTick)
    | EmitReady
    | EmitRefine

  /** The `s` field of a parsed message: falsy (missing, null, "", 0, false), a
      string, or some other truthy value that has no `toUpperCase`. */
  datatype SymbolField = Falsy | Text(text: string) | OtherValue

  /** A frame as `JSON.parse` sees it. The fields `p` and `q` are given as the text
      `parseFloat` converts them to (a missing field is the text "undefined"). */
  datatype Message =
    | Unparsable
    | Parsed(s: SymbolField, e: Option<string>, p: string, q: string)

  /** The module-level state. */
  datatype ClientState = ClientState(
    ready: bool,
    reconnecting: bool,
    terminated: bool,
    lastEvent: Stamp,
    symbols: seq<string>,
    socket: Socket)

  /** The state when the module is loaded. */
  const Initial: ClientState := ClientState(false, false, false, Infinity, [], NoSocket)

  // ---------------------------------------------------------------------------
  // Pure parts: the trade filter, the subscribe params, message routing

  /** `symbols.some(s => s.toUpperCase() === dataSymbol)` */
  predicate Matches(symbols: seq<string>, upperSymbol: string)
  {
    symbols != [] && (Upper(symbols[0]) == upperSymbol || Matches(symbols[1..], upperSymbol))
  }

  /** The trade filter finds a subscribed symbol equal up to case, and only then. */
  lemma {:induction false} MatchesIff(symbols: seq<string>, s: string)
    ensures Matches(symbols, Upper(s)) <==> exists i :: 0 <= i < |symbols| && Upper(symbols[i]) == Upper(s)
  {
    if symbols != [] {
      MatchesIff(symbols[1..], s);
      if Matches(symbols[1..], Upper(s)) {
        var i :| 0 <= i < |symbols[1..]| && Upper(symbols[1..][i]) == Upper(s);
        assert Upper(symbols[i + 1]) == Upper(s);
      }
      if exists i :: 0 <= i < |symbols| && Upper(symbols[i]) == Upper(s) {
        var i :| 0 <= i < |symbols| && Upper(symbols[i]) == Upper(s);
        if i > 0 {
          assert Upper(symbols[1..][i - 1]) == Upper(s);
        }
      }
    }
  }

  /** The params of the subscribe frame: each symbol lower-cased with `@aggTrade` appended. */
  function SubscribeParams(symbols: seq<string>): (r: seq<string>)
    ensures |r| == |symbols|
    ensures forall i :: 0 <= i < |symbols| ==> r[i] == Lower(symbols[i]) + "@aggTrade"
  {
    if symbols == [] then [] else [Lower(symbols[0]) + "@aggTrade"] + SubscribeParams(symbols[1..])
  }

  /** What `onmessage` does with a frame. */
  datatype Routing =
    | Ignored                        // parse error, or a thrown `toUpperCase`
    | ToPrint                        // no `s`: handed to `print`
    | Seen(forward: Option<TradeTick>) // `last_event` refreshed, maybe a trade forwarded

  function Route(symbols: seq<string>, m: Message): (r: Routing)
    ensures m.Unparsable? ==> r == Ignored
    ensures m.Parsed? && (m.s.Falsy? || m.s == Text([])) ==> r == ToPrint
    ensures r.Seen? && r.forward.Some? ==>
      m.Parsed? && m.e == Some("aggTrade") && m.s.Text? && m.s.text != [] &&
      r.forward.value == TradeTick(Upper(m.s.text), ParseFloatOf(m.p), ParseFloatOf(m.q)) &&
      IsUpperCase(r.forward.value.symbol) && Matches(symbols, Upper(m.s.text))
  {
    match m
    case Unparsable => Ignored
    case Parsed(s, e, p, q) =>
      if s.Falsy? || s == Text([]) then ToPrint
      else if e == Some("aggTrade") then
        (match s
         case Text(t) =>
           var upper := Upper(t);
           UpperIdempotent(t);
           Seen(if Matches(symbols, upper) then Some(TradeTick(upper, ParseFloatOf(p), ParseFloatOf(q))) else None)
         case _ => Ignored)
      else Seen(None)
  }

  /** An `aggTrade` with a non-empty string symbol is forwarded exactly when some
      subscribed symbol equals it up to case. */
  lemma RouteForwardsIff(symbols: seq<string>, t: string, p: string, q: string)
    requires t != []
    ensures var r := Route(symbols, Parsed(Text(t), Some("aggTrade"), p, q));
      r.Seen? &&
      (r.forward.Some? <==> exists i :: 0 <= i < |symbols| && Upper(symbols[i]) == Upper(t))
  {
    MatchesIff(symbols, t);
  }

  // ---------------------------------------------------------------------------
  // The steps, as functions of the state

  /** The last event is more than a minute old. Infinity is never stale. */
  predicate Stale(last: Stamp, now: int) {
    last.At? && now - last.ms > StaleAfterMs
  }

  /** `ws.close()` on the current socket. */
  function AfterClose(s: Socket): Socket {
    match s
    case NoSocket => NoSocket
    case Socket(ph) => if ph == Closed then s else Socket(Closing)
  }

  /** `start_hf`: a new socket; its handlers belong to the new socket. */
  function StartHfStep(st: ClientState): (r: (ClientState, seq<Effect>))
    ensures r.0 == st.(socket := Socket(Connecting)) && r.1 == [Connect(StreamUrl)]
  {
    (st.(socket := Socket(Connecting)), [Connect(StreamUrl)])
  }

  /** `print`: the first message without a symbol makes the stream ready; one
      received while reconnecting asks for a refine. */
  function PrintStep(st: ClientState, now: int): (r: (ClientState, seq<Effect>))
    ensures !r.0.reconnecting
    ensures r.0.ready == (st.ready || !st.reconnecting)
    ensures r.0.lastEvent == if !st.reconnecting && !st.ready then At(now) else st.lastEvent
    ensures r.0.terminated == st.terminated && r.0.symbols == st.symbols && r.0.socket == st.socket
    ensures st.reconnecting ==> r.1 == [EmitRefine]
    ensures !st.reconnecting && !st.ready ==> r.1 == [EmitReady, Schedule(10000, Heartbeat)]
    ensures !st.reconnecting && st.ready ==> r.1 == []
  {
    if st.reconnecting then (st.(reconnecting := false), [EmitRefine])
    else if !st.ready then
      (st.(ready := true, lastEvent := At(now), reconnecting := false), [EmitReady, Schedule(10000, Heartbeat)])
    else (st.(reconnecting := false), [])
  }

  /** `ws.onmessage` */
  function OnMessageStep(st: ClientState, m: Message, now: int): (r: (ClientState, seq<Effect>))
  {
    match Route(st.symbols, m)
    case Ignored => (st, [])
    case ToPrint => PrintStep(st, now)
    case Seen(f) => (st.(lastEvent := At(now)), if f.Some? then [EmitTrade(f.value)] else [])
  }

  /** `reconnect`: marks the client as reconnecting; with a socket it is closed and a
      restart scheduled one second later. Without one `ws.close()` throws and
      nothing is scheduled. */
  function ReconnectStep(st: ClientState): (r: (ClientState, seq<Effect>))
    ensures r.0.reconnecting
    ensures r.0 == st.(reconnecting := true, socket := AfterClose(st.socket))
    ensures st.socket.Socket? ==> r.1 == [CloseSocket, Schedule(1000, RestartStream)]
    ensures st.socket.NoSocket? ==> r.1 == []
  {
    var st' := st.(reconnecting := true);
    if st.socket.NoSocket? then (st', [])
    else (st'.(socket := AfterClose(st.socket)), [CloseSocket, Schedule(1000, RestartStream)])
  }

  /** `ws.onerror`: the only event that reconnects. */
  function OnErrorStep(st: ClientState): (ClientState, seq<Effect>)
  {
    ReconnectStep(st)
  }

  /** `ws.onclose`: logs the close code; the socket is now closed and nothing else changes. */
  function OnCloseStep(st: ClientState): (r: (ClientState, seq<Effect>))
    ensures r.0.reconnecting == st.reconnecting && r.0.ready == st.ready && r.1 == []
  {
    (st.(socket := Socket(Closed)), [])
  }

  /** `ws.onopen`: subscribes to the aggregate trades of every symbol. */
  function OnOpenStep(st: ClientState): (r: (ClientState, seq<Effect>))
  {
    (st.(socket := Socket(Open)), [Send(Subscribe(SubscribeParams(st.symbols), 1))])
  }

  /** `heartbeat` */
  function HeartbeatStep(st: ClientState, now: int): (r: (ClientState, seq<Effect>))
    ensures st.terminated ==> r == (st, [])
    ensures !st.terminated && !Stale(st.lastEvent, now) ==> r == (st, [Schedule(1000, Heartbeat)])
    ensures !st.terminated && Stale(st.lastEvent, now) ==>
      r.0.reconnecting && |r.1| >= 1 && r.1[|r.1| - 1] == Schedule(10000, Heartbeat)
    ensures !st.terminated && Stale(st.lastEvent, now) && st.reconnecting ==> r == (st, [Schedule(10000, Heartbeat)])
    ensures !st.terminated && Stale(st.lastEvent, now) && !st.reconnecting ==>
      r == (ReconnectStep(st).0, ReconnectStep(st).1 + [Schedule(10000, Heartbeat)])
  {
    if st.terminated then (st, [])
    else if Stale(st.lastEvent, now) then
      if st.reconnecting then (st, [Schedule(10000, Heartbeat)])
      else
        var (st', fx) := ReconnectStep(st);
        (st', fx + [Schedule(10000, Heartbeat)])
    else (st, [Schedule(1000, Heartbeat)])
  }

  /** `terminate` */
  function TerminateStep(st: ClientState): (r: (ClientState, seq<Effect>))
    ensures r.0.terminated && !r.0.ready && !r.0.reconnecting
    ensures r.0.symbols == st.symbols && r.0.lastEvent == st.lastEvent
    ensures |r.1| >= 1 && r.1[|r.1| - 1] == Schedule(500, ClearTerminated)
    ensures CloseSocket in r.1 <==> st.socket.Socket? && st.socket.phase != Closed
  {
    var closes := st.socket.Socket? && st.socket.phase != Closed;
    (st.(socket := if closes then Socket(Closing) else st.socket, terminated := true, ready := false, reconnecting := false),
     (if closes then [CloseSocket] else []) + [Schedule(500, ClearTerminated)])
  }

  /** The timer set by `terminate`. */
  function ClearTerminatedStep(st: ClientState): (ClientState, seq<Effect>)
  {
    (st.(terminated := false), [])
  }

  /** `init(syms)` */
  function InitStep(st: ClientState, syms: seq<string>): (r: (ClientState, seq<Effect>))
    ensures r.0.symbols == syms && r.0.socket == Socket(Connecting)
    ensures st.socket.Socket? ==> !r.0.ready && r.0.terminated
    ensures st.socket.NoSocket? ==> r.0.ready == st.ready && r.0.terminated == st.terminated
    ensures r.0.lastEvent == st.lastEvent
    ensures |r.1| >= 2 && r.1[|r.1| - 2] == Connect(StreamUrl) && r.1[|r.1| - 1] == Schedule(10000, RetryInit)
    ensures st.socket.Socket? ==> !r.0.reconnecting && r.1[..|r.1| - 2] == TerminateStep(st).1
    ensures st.socket.NoSocket? ==> |r.1| == 2 && r.0.reconnecting == st.reconnecting
  {
    var (s1, e1) := if st.socket.Socket? then var (t, fx) := TerminateStep(st); (t.(ready := false), fx) else (st, []);
    var (s2, e2) := StartHfStep(s1.(symbols := syms));
    (s2, e1 + e2 + [Schedule(10000, RetryInit)])
  }

  /** The timer set by `init`: retries while the stream is not ready. */
  function RetryInitStep(st: ClientState): (r: (ClientState, seq<Effect>))
    ensures st.ready ==> r == (st, [])
    ensures !st.ready ==> r == InitStep(st, st.symbols)
  {
    if !st.ready then InitStep(st, st.symbols) else (st, [])
  }

  /** `add_symbol(s)`: sends a subscribe frame on an open socket. It throws (and the
      error is logged) when there is no socket or it is still connecting; a closing
      or closed socket discards the frame. The symbol list is left as it is. */
  function AddSymbolStep(st: ClientState, s: string): (r: (ClientState, seq<Effect>))
    ensures r.0 == st
    ensures r.1 == (if st.socket == Socket(Open) then [Send(AddMarket(s))] else [])
  {
    (st, if st.socket == Socket(Open) then [Send(AddMarket(s))] else [])
  }

  // ---------------------------------------------------------------------------
  // Properties of the steps

  /** A message without a symbol refreshes the time of the last event only when it
      makes the stream ready for the first time. */
  lemma SymbolLessMessage(st: ClientState, e: Option<string>, p: string, q: string, now: int)
    ensures var r := OnMessageStep(st, Parsed(Falsy, e, p, q), now);
      r == PrintStep(st, now) &&
      (r.0.lastEvent != st.lastEvent ==> !st.ready && !st.reconnecting)
  {
  }

  /** Every message with a string symbol, forwarded or not, refreshes the time of the last
      event, and nothing else in the state; a forwarded trade is the only effect. */
  lemma SymbolMessageRefreshes(st: ClientState, t: string, e: Option<string>, p: string, q: string, now: int)
    requires t != []
    ensures var r := OnMessageStep(st, Parsed(Text(t), e, p, q), now);
      r.0 == st.(lastEvent := At(now)) && |r.1| <= 1 &&
      (|r.1| == 1 <==> e == Some("aggTrade") && exists i :: 0 <= i < |st.symbols| && Upper(st.symbols[i]) == Upper(t))
  {
    if e == Some("aggTrade") {
      RouteForwardsIff(st.symbols, t, p, q);
    }
  }

  /** `print` never turns `ready` off, and neither does any message. */
  lemma MessagesNeverUnready(st: ClientState, m: Message, now: int)
    requires st.ready
    ensures OnMessageStep(st, m, now).0.ready
  {
  }

  /** Closing does not reconnect: only the error event does. */
  lemma CloseDoesNotReconnect(st: ClientState)
    requires !st.reconnecting
    ensures !OnCloseStep(st).0.reconnecting && OnErrorStep(st).0.reconnecting
  {
  }

  /** A terminated client's heartbeat stops and changes nothing, until the terminate
      timer clears the flag. */
  lemma TerminatedHeartbeatStops(st: ClientState, now: int)
    ensures HeartbeatStep(TerminateStep(st).0, now) == (TerminateStep(st).0, [])
  {
  }

  /** Adding a symbol does not subscribe the filter to it: a trade for a symbol that did
      not match before still does not match. */
  lemma AddSymbolKeepsFilter(st: ClientState, s: string, t: string, p: string, q: string, now: int)
    requires t != [] && !Matches(st.symbols, Upper(t))
    ensures var st' := AddSymbolStep(st, s).0;
      OnMessageStep(st', Parsed(Text(t), Some("aggTrade"), p, q), now).1 == []
  {
  }

  /** The subscribe frame sent on open has one stream per symbol, in order. */
  lemma OpenSubscribesEverySymbol(st: ClientState)
    ensures var fx := OnOpenStep(st).1;
      |fx| == 1 && fx[0].Send? && fx[0].frame.Subscribe? && fx[0].frame.id == 1 &&
      |fx[0].frame.params| == |st.symbols| &&
      forall i :: 0 <= i < |st.symbols| ==> fx[0].frame.params[i] == Lower(st.symbols[i]) + "@aggTrade"
  {
  }

  /** Before the first event the heartbeat never reconnects: it changes nothing and
      checks again in a second, whatever the clock says. */
  lemma NoEventNeverStale(st: ClientState, now: int)
    requires !st.terminated && st.lastEvent == Infinity
    ensures HeartbeatStep(st, now) == (st, [Schedule(1000, Heartbeat)])
  {
  }

  // ---------------------------------------------------------------------------
  // The module state, updated in place

  class Client {
    var ready: bool
    var reconnecting: bool
    var terminated: bool
    var lastEvent: Stamp
    var symbols: seq<string>
    var socket: Socket

    function State(): ClientState
      reads this
    {
      ClientState(ready, reconnecting, terminated, lastEvent, symbols, socket)
    }

    constructor ()
      ensures State() == Initial
    {
      ready, reconnecting, terminated := false, false, false;
      lastEvent, symbols, socket := Infinity, [], NoSocket;
    }

    method StartHf() returns (fx: seq<Effect>)
      modifies this
      ensures (State(), fx) == StartHfStep(old(State()))
    {
      socket := Socket(Connecting);
      fx := [Connect(StreamUrl)];
    }

    method Print(now: int) returns (fx: seq<Effect>)
      modifies this
      ensures (State(), fx) == PrintStep(old(State()), now)
    {
      fx := [];
      if reconnecting {
        fx := [EmitRefine];
      } else if !ready {
        ready := true;
        lastEvent := At(now);
        fx := [EmitReady, Schedule(10000, Job.Heartbeat)];
      }
      reconnecting := false;
    }

    method OnMessage(m: Message, now: int) returns (fx: seq<Effect>)
      modifies this
      ensures (State(), fx) == OnMessageStep(old(State()), m, now)
    {
      fx := [];
      if m.Unparsable? {
        return;
      }
      if m.s.Falsy? || m.s == Text([]) {
        fx := Print(now);
        return;
      }
      if m.e == Some("aggTrade") {
        if !m.s.Text? {
          return;
        }
        var dataSymbol := Upper(m.s.text);
        if Matches(symbols, dataSymbol) {
          fx := [EmitTrade(TradeTick(dataSymbol, ParseFloatOf(m.p), ParseFloatOf(m.q)))];
        }
      }
      lastEvent := At(now);
    }

    method OnOpen() returns (fx: seq<Effect>)
      modifies this
      ensures (State(), fx) == OnOpenStep(old(State()))
    {
      socket := Socket(Open);
      var syms := SubscribeParams(symbols);
      fx := [Send(Subscribe(syms, 1))];
    }

    method OnClose() returns (fx: seq<Effect>)
      modifies this
      ensures (State(), fx) == OnCloseStep(old(State()))
    {
      socket := Socket(Closed);
      fx := [];
    }

    method Reconnect() returns (fx: seq<Effect>)
      modifies this
      ensures (State(), fx) == ReconnectStep(old(State()))
    {
      reconnecting := true;
      fx := [];
      if socket.NoSocket? {
        return;
      }
      socket := AfterClose(socket);
      fx := [CloseSocket, Schedule(1000, RestartStream)];
    }

    method OnError() returns (fx: seq<Effect>)
      modifies this
      ensures (State(), fx) == OnErrorStep(old(State()))
    {
      fx := Reconnect();
    }

    method Heartbeat(now: int) returns (fx: seq<Effect>)
      modifies this
      ensures (State(), fx) == HeartbeatStep(old(State()), now)
    {
      fx := [];
      if terminated {
        return;
      }
      if Stale(lastEvent, now) {
        if !reconnecting {
          fx := Reconnect();
        }
        assert fx == [] ==> fx + [Schedule(10000, Job.Heartbeat)] == [Schedule(10000, Job.Heartbeat)];
        fx := fx + [Schedule(10000, Job.Heartbeat)];
      } else {
        fx := [Schedule(1000, Job.Heartbeat)];
      }
    }

    method Terminate() returns (fx: seq<Effect>)
      modifies this
      ensures (State(), fx) == TerminateStep(old(State()))
    {
      fx := [];
      if socket.Socket? && socket.phase != Closed {
        socket := Socket(Closing);
        fx := [CloseSocket];
      }
      terminated := true;
      ready := false;
      reconnecting := false;
      fx := fx + [Schedule(500, Job.ClearTerminated)];
    }

    method ClearTerminated() returns (fx: seq<Effect>)
      modifies this
      ensures (State(), fx) == ClearTerminatedStep(old(State()))
    {
      terminated := false;
      fx := [];
    }

    method Init(syms: seq<string>) returns (fx: seq<Effect>)
      modifies this
      ensures (State(), fx) == InitStep(old(State()), syms)
    {
      fx := [];
      if socket.Socket? {
        fx := Terminate();
        ready := false;
      }
      symbols := syms;
      var started := StartHf();
      fx := fx + started + [Schedule(10000, Job.RetryInit)];
    }

    method RetryInit() returns (fx: seq<Effect>)
      modifies this
      ensures (State(), fx) == RetryInitStep(old(State()))
    {
      fx := [];
      if !ready {
        fx := Init(symbols);
      }
    }

    method AddSymbol(s: string) returns (fx: seq<Effect>)
      ensures State() == old(State())
      ensures (State(), fx) == AddSymbolStep(old(State()), s)
    {
      fx := if socket == Socket(Open) then [Send(AddMarket(s))] else [];
    }
  }
}
