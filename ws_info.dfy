/** The `/api/v3/ws-info` endpoint (api/v3/ws-info.js): from the comma-separated
    `symbols` query parameter it builds the combined-stream URL a client opens on the
    exchange. Logging and the CORS wrapper are not modelled. */
module WsInfo {
  import opened JsText
  import StreamClient

  /** `req.query.symbols`: missing, given once (a string), or given several times (the
      query parser then yields an array). */
  datatype QueryValue = Absent | Single(text: string) | Repeated(values: seq<string>)

  datatype Body =
    | Error(message: string)
    | Info(wsUrl: string, symbols: seq<string>, streams: seq<string>, instructions: string)

  datatype Response = Response(status: int, body: Body)

  const StreamBase: string := "wss://stream.binance.com:9443/ws/"
  const MissingMessage: string := "Missing required parameter: symbols (comma-separated list)"
  const NoSymbolsMessage: string := "No valid symbols provided"
  const Instructions: string := "Connect directly to this WebSocket URL from your client-side code"
  /** The message of the `TypeError` thrown by `symbols.split` on an array. */
  const NotAStringMessage: string := "symbols.split is not a function"

  /** The handler body. A missing or empty parameter is a 400; an array has no `split`,
      so the throw lands in the `catch` as a 500; a string is split on commas and each
      piece becomes the stream `<lower-cased piece>@aggTrade`, exactly the names the
      trade-stream client subscribes to. */
  function Handle(q: QueryValue): (r: Response)
    ensures r.status == 400 <==> q.Absent? || q == Single("")
    ensures r.status == 500 <==> q.Repeated?
    ensures r.status == 200 <==> q.Single? && q.text != ""
    ensures r.status == 400 ==> r.body == Error(MissingMessage)
    ensures r.status == 500 ==> r.body == Error(NotAStringMessage)
    ensures r.status == 200 ==>
      r.body.Info? && r.body.symbols == Split(q.text, ',') && r.body.instructions == Instructions &&
      r.body.wsUrl == StreamBase + Join(r.body.streams, '/')
  {
    match q
    case Absent => Response(400, Error(MissingMessage))
    case Repeated(_) => Response(500, Error(NotAStringMessage))
    case Single(s) =>
      if s == "" then Response(400, Error(MissingMessage))
      else
        var symbolList := Split(s, ',');
        if |symbolList| == 0 then Response(400, Error(NoSymbolsMessage))
        else
          var streams := Join(StreamClient.SubscribeParams(symbolList), '/');
          JoinSplit(streams, '/');
          Response(200, Info(StreamBase + streams, symbolList, Split(streams, '/'), Instructions))
  }

  /** The second 400 ("No valid symbols provided") is never sent: splitting a string
      always yields at least one piece. */
  lemma NoSymbolsUnreachable(q: QueryValue)
    ensures Handle(q).body != Error(NoSymbolsMessage)
  {
    if q.Single? && q.text != "" {
      assert |Split(q.text, ',')| >= 1;
    }
  }

  /** When no symbol contains `/`, there is one stream per symbol, in order, the `i`-th
      being the `i`-th symbol lower-cased with `@aggTrade` appended. */
  lemma {:induction false} StreamsFollowSymbols(s: string)
    requires s != ""
    requires NoneContains(Split(s, ','), '/')
    ensures var b := Handle(Single(s)).body;
      |b.streams| == |b.symbols| &&
      forall i :: 0 <= i < |b.symbols| ==> b.streams[i] == Lower(b.symbols[i]) + "@aggTrade"
  {
    var list := Split(s, ',');
    var names := StreamClient.SubscribeParams(list);
    forall i | 0 <= i < |names| ensures '/' !in names[i] {
      LowerKeepsChar(list[i], '/');
      assert names[i] == Lower(list[i]) + "@aggTrade";
    }
    SplitJoin(names, '/');
  }
}
