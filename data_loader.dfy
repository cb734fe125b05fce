/** Loading klines for the real-time test page (tests/real-time/lib/dataLoader.js):
    the projection of a raw exchange row onto a candle, and the `loading` flag that
    drops a request for older data while one is in flight. The fetch is split into
    the request (a URL) and the response, which arrives as an input. */
module DataLoader {
  import opened JsText

  /** A cell of a raw kline row as `JSON.parse` produces it. Klines hold numbers and
      numeric strings; numbers are modelled as integers. */
  datatype Json = JNum(n: int) | JStr(s: string) | JNull | JBool(b: bool)

  /** An element of a formatted row: a raw value, `undefined` (an index past the end
      of the raw row) or the result of `parseFloat`. */
  datatype Value = Raw(j: Json) | Undefined | Float(f: JsFloat)

  /** `x[i]` */
  function Cell(x: seq<Json>, i: nat): Value
  {
    if i < |x| then Raw(x[i]) else Undefined
  }

  /** The text `parseFloat` reads: `String(v)`. */
  function FloatText(v: Value): string
  {
    match v
    case Raw(JNum(n)) => IntToString(n)
    case Raw(JStr(s)) => s
    case Raw(JNull) => "null"
    case Raw(JBool(b)) => if b then "true" else "false"
    case Undefined => "undefined"
    case Float(f) => f.text
  }

  /** `parseFloat(x[i])` */
  function FloatAt(x: seq<Json>, i: nat): Value
  {
    Float(ParseFloatOf(FloatText(Cell(x, i))))
  }

  /** `format(x)`: open time, open, high, low, close and volume (raw index 7). */
  function Format(x: seq<Json>): (r: seq<Value>)
    ensures |r| == 6
    ensures r[0] == Cell(x, 0)
    ensures forall k :: 1 <= k <= 4 ==> r[k] == FloatAt(x, k)
    ensures r[5] == FloatAt(x, 7)
  {
    [Cell(x, 0), FloatAt(x, 1), FloatAt(x, 2), FloatAt(x, 3), FloatAt(x, 4), FloatAt(x, 7)]
  }

  /** Two raw rows that agree on indices 0 to 4 and 7 format alike: the close time
      (5), quote volume (6) and everything from index 8 on are dropped. */
  lemma FormatIgnoresOtherColumns(x: seq<Json>, y: seq<Json>)
    requires forall i :: 0 <= i <= 4 || i == 7 ==> Cell(x, i) == Cell(y, i)
    ensures Format(x) == Format(y)
  {
    assert Cell(x, 7) == Cell(y, 7);
    assert Cell(x, 0) == Cell(y, 0) && Cell(x, 1) == Cell(y, 1) && Cell(x, 2) == Cell(y, 2);
    assert Cell(x, 3) == Cell(y, 3) && Cell(x, 4) == Cell(y, 4);
  }

  /** A number-valued price reaches `parseFloat` as its decimal text. */
  lemma FormatReadsNumbersAsDecimal(x: seq<Json>, k: nat)
    requires 1 <= k <= 4 && k < |x| && x[k].JNum?
    ensures Format(x)[k] == Float(ParseFloatOf(IntToString(x[k].n)))
  {
  }

  /** `data.map((x) => this.format(x))` */
  function FormatRows(rows: seq<seq<Json>>): (r: seq<seq<Value>>)
    ensures |r| == |rows|
    ensures forall i :: 0 <= i < |rows| ==> r[i] == Format(rows[i])
  {
    seq(|rows|, i requires 0 <= i < |rows| => Format(rows[i]))
  }

  const BaseUrl: string := "https://api1.binance.com/api/v3/klines"
  const Symbol: string := "BTCUSDT"
  const Interval: string := "1m"

  /** The URL of `load`: base, symbol and interval. */
  const LoadUrl: string := BaseUrl + "?symbol=" + Symbol + "&interval=" + Interval

  /** The URL of `loadMore(endTime)`. */
  function MoreUrl(endTime: int): string
  {
    LoadUrl + "&endTime=" + IntToString(endTime)
  }

  /** The request for older data is the `load` URL with the end time appended, and the
      end time reads back from the text after `&endTime=`. */
  lemma MoreUrlCarriesEndTime(endTime: int)
    ensures var u := MoreUrl(endTime); var head := LoadUrl + "&endTime=";
      |head| <= |u| && u[..|head|] == head && ParseInt(u[|head|..]) == Some(endTime)
  {
    var head := LoadUrl + "&endTime=";
    ParseIntOfIntToString(endTime, []);
    assert MoreUrl(endTime)[|head|..] == IntToString(endTime) + [];
  }

  /** How the fetch of `loadMore` ends: the request or `json()` fails, the body is not
      an array (`data.map` throws), or the rows arrive. */
  datatype Response = Failed | NotRows | Rows(rows: seq<seq<Json>>)

  class Loader {
    var loading: bool

    constructor ()
      ensures !loading
    {
      loading := false;
    }

    /** The synchronous part of `loadMore(endTime)`: a call while loading returns at
        once; otherwise the flag is raised and the request issued. */
    method LoadMore(endTime: int) returns (request: Option<string>)
      modifies this
      ensures loading
      ensures old(loading) ==> request == None
      ensures !old(loading) ==> request == Some(MoreUrl(endTime))
    {
      if loading {
        return None;
      }
      loading := true;
      request := Some(MoreUrl(endTime));
    }

    /** The continuation of `loadMore`: the callback gets the formatted rows and only
        then is the flag lowered. When the fetch fails the promise rejects before that,
        the flag stays raised and every later `loadMore` is dropped. */
    method OnResponse(response: Response) returns (delivered: Option<seq<seq<Value>>>)
      modifies this
      ensures response.Rows? ==> delivered == Some(FormatRows(response.rows)) && !loading
      ensures !response.Rows? ==> delivered == None && loading == old(loading)
    {
      delivered := None;
      if response.Rows? {
        delivered := Some(FormatRows(response.rows));
        loading := false;
      }
    }
  }
}
