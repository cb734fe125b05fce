/** The trading-signal list of src/services/signalService.js: signals pushed by a local
    signal server, filtered by symbol, test signals added by hand, and signals closed
    by id. The Svelte store is a sequence field; the socket, its URL and the POST of a
    test signal are not modelled beyond whether a socket exists. */
module Signals {
  import opened JsText

  /** A signal as the store holds it. `symbol` is `None` when an inbound signal has no
      `symbol` field. The `trailingSL`/`trailingTP` objects are not modelled. */
  datatype Signal = Signal(
    id: string,
    symbol: Option<string>,
    timeframe: string,
    entryTime: int,
    entryPrice: real,
    stopLoss: real,
    takeProfit: real,
    confidence: real,
    strategy: string,
    eventType: string)

  /** `list.map(s => s.id === id ? { ...s, eventType: 'close' } : s)` */
  function CloseById(list: seq<Signal>, id: string): (r: seq<Signal>)
    ensures |r| == |list|
    ensures forall i :: 0 <= i < |list| && list[i].id != id ==> r[i] == list[i]
    ensures forall i :: 0 <= i < |list| && list[i].id == id ==> r[i] == list[i].(eventType := "close")
  {
    if list == [] then []
    else [if list[0].id == id then list[0].(eventType := "close") else list[0]] + CloseById(list[1..], id)
  }

  /** Closing twice is closing once. */
  lemma CloseByIdIdempotent(list: seq<Signal>, id: string)
    ensures CloseById(CloseById(list, id), id) == CloseById(list, id)
  {
    var once := CloseById(list, id);
    var twice := CloseById(once, id);
    forall i | 0 <= i < |list| ensures twice[i] == once[i] {
      if list[i].id == id {
        assert once[i].id == id;
      }
    }
  }

  /** Closing leaves every field but `eventType` of every signal as it was, and every
      signal ends up closed exactly when it had the id or was closed already. */
  lemma CloseByIdKeepsFields(list: seq<Signal>, id: string, i: int)
    requires 0 <= i < |list|
    ensures var s := CloseById(list, id)[i];
      s.(eventType := list[i].eventType) == list[i] &&
      (s.eventType == "close" <==> list[i].id == id || list[i].eventType == "close")
  {
  }

  /** Closing by two ids gives the same list in either order. */
  lemma CloseByIdCommutes(list: seq<Signal>, a: string, b: string)
    ensures CloseById(CloseById(list, a), b) == CloseById(CloseById(list, b), a)
  {
    var ab := CloseById(CloseById(list, a), b);
    var ba := CloseById(CloseById(list, b), a);
    forall i | 0 <= i < |list| ensures ab[i] == ba[i] {
      assert CloseById(list, a)[i].id == list[i].id;
      assert CloseById(list, b)[i].id == list[i].id;
    }
  }

  /** Closing a list with a signal appended closes the list and the signal apart. */
  lemma CloseByIdAppend(list: seq<Signal>, extra: seq<Signal>, id: string)
    ensures CloseById(list + extra, id) == CloseById(list, id) + CloseById(extra, id)
  {
    var whole := CloseById(list + extra, id);
    var parts := CloseById(list, id) + CloseById(extra, id);
    assert |whole| == |parts|;
    forall i | 0 <= i < |whole| ensures whole[i] == parts[i] {
      if i < |list| {
        assert (list + extra)[i] == list[i];
      } else {
        assert (list + extra)[i] == extra[i - |list|];
      }
    }
  }

  /** The basic symbol filter: an empty list admits everything, otherwise the signal's
      symbol must be one of the listed ones (a missing symbol never is). */
  predicate Admits(filter: seq<string>, sig: Signal)
  {
    |filter| == 0 || (sig.symbol.Some? && sig.symbol.value in filter)
  }

  /** A received frame: `JSON.parse` throws, or yields a signal. */
  datatype Frame = Unparsable | Parsed(sig: Signal)

  /** The fields a caller may override in `sendTestSignal`; `None` is a missing field. */
  datatype Overrides = Overrides(
    symbol: Option<string>,
    timeframe: Option<string>,
    entryPrice: Option<real>,
    stopLoss: Option<real>,
    takeProfit: Option<real>,
    confidence: Option<real>,
    strategy: Option<string>)

  const NoOverrides := Overrides(None, None, None, None, None, None, None)

  /** `overrides.x || d` for a number: a missing or zero override gives the default. */
  function OrNumber(o: Option<real>, d: real): real
  {
    if o.Some? && o.value != 0.0 then o.value else d
  }

  /** `overrides.x || d` for a string: a missing or empty override gives the default. */
  function OrText(o: Option<string>, d: string): string
  {
    if o.Some? && o.value != "" then o.value else d
  }

  /** The signal `sendTestSignal` builds; `id` stands for the fresh UUID and `now` for
      `Date.now()`. Stop loss and take profit default to 0.2% below and 0.5% above the
      entry price. */
  function TestSignal(o: Overrides, id: string, now: int): (r: Signal)
    ensures r.id == id && r.entryTime == now && r.eventType == "open"
    ensures r.symbol.Some? && r.symbol.value == OrText(o.symbol, "")
    ensures r.entryPrice == OrNumber(o.entryPrice, 0.0)
    ensures o.stopLoss.None? ==> r.stopLoss == r.entryPrice * 998.0 / 1000.0
    ensures o.takeProfit.None? ==> r.takeProfit == r.entryPrice * 1005.0 / 1000.0
    ensures o.confidence.None? ==> r.confidence == 5.0 / 10.0
    ensures o.strategy.None? ==> r.strategy == "debug"
  {
    var price := OrNumber(o.entryPrice, 0.0);
    Signal(
      id,
      Some(OrText(o.symbol, "")),
      OrText(o.timeframe, ""),
      now,
      price,
      OrNumber(o.stopLoss, price * (1.0 - 0.002)),
      OrNumber(o.takeProfit, price * (1.0 + 0.005)),
      OrNumber(o.confidence, 0.5),
      OrText(o.strategy, "debug"),
      "open")
  }

  /** A test signal without overrides has zero prices and the default confidence and
      strategy, and it passes a symbol filter only if the filter is empty or lists `""`. */
  lemma DefaultTestSignal(id: string, now: int, filter: seq<string>)
    ensures var r := TestSignal(NoOverrides, id, now);
      r.entryPrice == 0.0 && r.stopLoss == 0.0 && r.takeProfit == 0.0 &&
      r.confidence == 0.5 && r.strategy == "debug" && r.timeframe == "" &&
      (Admits(filter, r) <==> |filter| == 0 || "" in filter)
  {
  }

  /** The store and the socket of the service. `filter` is the `symbols` argument the
      message listener of the current socket closes over; `pending` holds the test
      signals whose POST has not settled yet. */
  class SignalFeed {
    var trades: seq<Signal>
    var hasSocket: bool
    var filter: seq<string>
    var pending: seq<Signal>

    constructor ()
      ensures trades == [] && !hasSocket && filter == [] && pending == []
    {
      trades := [];
      hasSocket := false;
      filter := [];
      pending := [];
    }

    /** `init(symbols)`: an existing socket is closed and the list cleared; a new socket
        is opened whose listener filters by `symbols`. POSTs still in flight are not
        affected. */
    method Init(symbols: seq<string> := [])
      modifies this
      ensures hasSocket && filter == symbols
      ensures trades == if old(hasSocket) then [] else old(trades)
      ensures pending == old(pending)
    {
      if hasSocket {
        trades := [];
      }
      hasSocket := true;
      filter := symbols;
    }

    /** The `message` listener: a parsed signal that the filter admits is appended;
        anything else leaves the list alone. */
    method OnMessage(frame: Frame)
      requires hasSocket
      modifies this
      ensures hasSocket == old(hasSocket) && filter == old(filter) && pending == old(pending)
      ensures frame.Parsed? && Admits(filter, frame.sig) ==> trades == old(trades) + [frame.sig]
      ensures !(frame.Parsed? && Admits(filter, frame.sig)) ==> trades == old(trades)
    {
      if frame.Parsed? && Admits(filter, frame.sig) {
        trades := trades + [frame.sig];
      }
    }

    /** `sendTestSignal(overrides)` up to `await fetch`: the signal is built and POSTed.
        The list is not touched until the POST settles (`PostSettled`), so other events
        can change it in between. */
    method SendTestSignal(o: Overrides, id: string, now: int) returns (sent: Signal)
      modifies this
      ensures sent == TestSignal(o, id, now)
      ensures pending == old(pending) + [sent]
      ensures trades == old(trades) && hasSocket == old(hasSocket) && filter == old(filter)
    {
      sent := TestSignal(o, id, now);
      pending := pending + [sent];
    }

    /** The rest of `sendTestSignal` once the POST of `pending[i]` settles. POSTs may
        settle in any order. Whether it `succeeded` or failed (and the error was
        logged), the signal is appended to the list. */
    method PostSettled(i: nat, succeeded: bool) returns (sent: Signal)
      requires i < |pending|
      modifies this
      ensures sent == old(pending)[i]
      ensures trades == old(trades) + [sent]
      ensures pending == old(pending)[..i] + old(pending)[i + 1..]
      ensures hasSocket == old(hasSocket) && filter == old(filter)
    {
      sent := pending[i];
      trades := trades + [sent];
      pending := pending[..i] + pending[i + 1..];
    }

    /** `closeSignal(id)` */
    method CloseSignal(id: string)
      modifies this
      ensures trades == CloseById(old(trades), id)
      ensures hasSocket == old(hasSocket) && filter == old(filter) && pending == old(pending)
    {
      trades := CloseById(trades, id);
    }
  }
}
