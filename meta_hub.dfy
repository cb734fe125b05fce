/** The parts of the chart's meta hub (src/core/metaHub.js) that hold state of their
    own: the drawing-tool selection with its magnet and drawing-mode flags, the index
    from candle time to candle, the auto-precision table and the key under which a
    y-transform is stored. The event bus, the data hub and the overlays are
    collaborators not shown; their data arrives as parameters. */
module MetaHub {
  import opened JsText

  // ---------------------------------------------------------------------------
  // Tool selection

  const Cursor: string := "Cursor"
  const Brush: string := "Brush"
  const Magnet: string := "Magnet"

  /** `tool`, `drawingMode` and `magnet` */
  datatype ToolState = ToolState(tool: string, drawingMode: bool, magnet: bool)

  const InitialTools := ToolState(Cursor, false, false)

  /** `toolSelected({type})`: choosing the active tool again drops back to the cursor
      with magnet and drawing mode off; choosing another tool makes it active and turns
      the magnet on when that tool is the magnet. */
  function SelectTool(s: ToolState, t: string): (r: ToolState)
    ensures s.tool == t ==> r == ToolState(Cursor, false, false)
    ensures s.tool != t ==> r.tool == t && r.drawingMode == s.drawingMode
    ensures s.tool != t ==> r.magnet == (s.magnet || t == Magnet)
  {
    if s.tool == t then s.(magnet := false, tool := Cursor, drawingMode := false)
    else s.(tool := t, magnet := if t == Magnet then true else s.magnet)
  }

  /** `drawingModeOff()`: nothing while the brush or the magnet is active, otherwise
      back to the cursor with drawing mode off. */
  function AfterDrawingModeOff(s: ToolState): (r: ToolState)
    ensures s.tool == Brush || s.tool == Magnet ==> r == s
    ensures s.tool != Brush && s.tool != Magnet ==> r == s.(tool := Cursor, drawingMode := false)
  {
    if s.tool == Brush then s
    else if s.tool == Magnet then s
    else s.(tool := Cursor, drawingMode := false)
  }

  /** `toggleMagnetOnCtrlKeyDown(event)` */
  function KeyDown(s: ToolState, ctrlKey: bool): (r: ToolState)
    ensures r.magnet == ctrlKey && r.tool == s.tool && r.drawingMode == s.drawingMode
  {
    s.(magnet := ctrlKey)
  }

  /** `resetMagnetOnCtrlUp(event)` */
  function KeyUp(s: ToolState): (r: ToolState)
    ensures !r.magnet && r.tool == s.tool && r.drawingMode == s.drawingMode
  {
    if s.magnet then s.(magnet := false) else s
  }

  /** Selecting a tool twice in a row returns to the cursor, magnet off. */
  lemma SelectTwiceResets(s: ToolState, t: string)
    requires s.tool != t
    ensures SelectTool(SelectTool(s, t), t) == InitialTools
  {
  }

  /** `drawingModeOff` is idempotent, and it never leaves the magnet tool. */
  lemma DrawingModeOffIdempotent(s: ToolState)
    ensures AfterDrawingModeOff(AfterDrawingModeOff(s)) == AfterDrawingModeOff(s)
    ensures s.tool == Magnet ==> AfterDrawingModeOff(s).tool == Magnet
  {
  }

  /** A tool event sequence as the hub receives it. */
  datatype ToolEvent = Select(t: string) | ModeOff | Down(ctrlKey: bool) | Up

  function Apply(s: ToolState, e: ToolEvent): ToolState
  {
    match e
    case Select(t) => SelectTool(s, t)
    case ModeOff => AfterDrawingModeOff(s)
    case Down(c) => KeyDown(s, c)
    case Up => KeyUp(s)
  }

  function Run(s: ToolState, es: seq<ToolEvent>): ToolState
    decreases |es|
  {
    if es == [] then s else Run(Apply(s, es[0]), es[1..])
  }

  /** None of these handlers ever turns drawing mode on: from the initial state it stays
      off whatever tool events arrive. */
  lemma {:induction false} DrawingModeStaysOff(s: ToolState, es: seq<ToolEvent>)
    requires !s.drawingMode
    ensures !Run(s, es).drawingMode
    decreases |es|
  {
    if es != [] {
      DrawingModeStaysOff(Apply(s, es[0]), es[1..]);
    }
  }

  /** Whatever came before, a run of tool events that ends in a key-up leaves the magnet
      off. */
  lemma {:induction false} MagnetOffAfterKeyUp(s: ToolState, es: seq<ToolEvent>)
    requires es != [] && es[|es| - 1] == Up
    ensures !Run(s, es).magnet
  {
    RunSnoc(s, es[..|es| - 1], Up);
    assert es[..|es| - 1] + [Up] == es;
  }

  lemma {:induction false} RunSnoc(s: ToolState, es: seq<ToolEvent>, e: ToolEvent)
    ensures Run(s, es + [e]) == Apply(Run(s, es), e)
    decreases |es|
  {
    if es != [] {
      assert (es + [e])[1..] == es[1..] + [e];
      RunSnoc(Apply(s, es[0]), es[1..], e);
    }
  }

  // ---------------------------------------------------------------------------
  // The OHLC map

  /** A candle of the main overlay: its time and the rest of the row. */
  datatype Bar = Bar(ts: int, values: seq<real>)

  /** `{ ref: data[i], index: i }` */
  datatype Entry = Entry(ref: Bar, index: nat)

  /** The map `calcOhlcMap` builds: each time maps to the row where it last occurs. */
  function OhlcMapOf(data: seq<Bar>): map<int, Entry>
  {
    if data == [] then map[]
    else
      var n := |data| - 1;
      OhlcMapOf(data[..n])[data[n].ts := Entry(data[n], n)]
  }

  /** The keys are exactly the times of the rows, and each entry is the last row with its
      time together with that row's index. */
  lemma {:induction false} OhlcMapLastOccurrence(data: seq<Bar>, t: int)
    ensures t in OhlcMapOf(data) <==> exists i :: 0 <= i < |data| && data[i].ts == t
    ensures t in OhlcMapOf(data) ==>
      var e := OhlcMapOf(data)[t];
      e.index < |data| && data[e.index] == e.ref && e.ref.ts == t &&
      forall j :: e.index < j < |data| ==> data[j].ts != t
  {
    if data != [] {
      var n := |data| - 1;
      OhlcMapLastOccurrence(data[..n], t);
      if data[n].ts != t {
        if exists i :: 0 <= i < |data| && data[i].ts == t {
          var i :| 0 <= i < |data| && data[i].ts == t;
          assert data[..n][i] == data[i];
        }
      }
    }
  }

  /** With distinct times every row is found at its own index. */
  lemma OhlcMapDistinct(data: seq<Bar>, i: int)
    requires forall a, b :: 0 <= a < b < |data| ==> data[a].ts != data[b].ts
    requires 0 <= i < |data|
    ensures data[i].ts in OhlcMapOf(data) && OhlcMapOf(data)[data[i].ts] == Entry(data[i], i)
  {
    OhlcMapLastOccurrence(data, data[i].ts);
  }

  // ---------------------------------------------------------------------------
  // Auto-precision table: grid id, then overlay id, to precision

  type PrecTable = map<int, map<int, int>>

  /** `(autoPrecisions[gridId] || [])[ovId]`, `None` for `undefined`. */
  function Prec(m: PrecTable, gridId: int, ovId: int): (r: Option<int>)
    ensures r.Some? <==> gridId in m && ovId in m[gridId]
    ensures r.Some? ==> r.value == m[gridId][ovId]
  {
    if gridId in m && ovId in m[gridId] then Some(m[gridId][ovId]) else None
  }

  /** The table after `setAutoPrec(gridId, ovId, prec)`. */
  function SetPrec(m: PrecTable, gridId: int, ovId: int, prec: int): PrecTable
  {
    var aps := if gridId in m then m[gridId] else map[];
    m[gridId := aps[ovId := prec]]
  }

  /** A precision reads back as set, and every other entry is left alone. */
  lemma SetThenGetPrec(m: PrecTable, gridId: int, ovId: int, prec: int, g: int, o: int)
    ensures Prec(SetPrec(m, gridId, ovId, prec), gridId, ovId) == Some(prec)
    ensures (g, o) != (gridId, ovId) ==> Prec(SetPrec(m, gridId, ovId, prec), g, o) == Prec(m, g, o)
  {
  }

  // ---------------------------------------------------------------------------
  // Storage keys of y-transforms

  /** `` `yts:${pane.uuid}:${scaleId}` `` */
  function HashKey(uuid: string, scaleId: string): string
  {
    "yts:" + uuid + ":" + scaleId
  }

  /** `let [type, uuid1, uuid2] = hash.split(':')`; a missing part is `None`. */
  function KeyParts(hash: string): (r: (string, Option<string>, Option<string>))
    ensures r.0 == Split(hash, ':')[0]
  {
    var parts := Split(hash, ':');
    (parts[0],
     if |parts| > 1 then Some(parts[1]) else None,
     if |parts| > 2 then Some(parts[2]) else None)
  }

  /** A key built by `store` reads back in `restore` as its type, pane uuid and scale id,
      provided neither the uuid nor the scale id contains `:`. */
  lemma KeyRoundTrip(uuid: string, scaleId: string)
    requires ':' !in uuid && ':' !in scaleId
    ensures KeyParts(HashKey(uuid, scaleId)) == ("yts", Some(uuid), Some(scaleId))
  {
    var xs := ["yts", uuid, scaleId];
    assert Join(xs[2..], ':') == scaleId;
    assert Join(xs[1..], ':') == uuid + [':'] + scaleId;
    assert Join(xs, ':') == "yts" + [':'] + (uuid + [':'] + scaleId);
    assert HashKey(uuid, scaleId) == Join(xs, ':');
    SplitJoin(xs, ':');
  }

  // ---------------------------------------------------------------------------
  // The hub

  class Hub {
    var tool: string
    var drawingMode: bool
    var magnet: bool
    var ohlcMap: map<int, Entry>
    var autoPrecisions: PrecTable

    function Tools(): ToolState
      reads this
    {
      ToolState(tool, drawingMode, magnet)
    }

    /** The constructor followed by `init`. */
    constructor ()
      ensures Tools() == InitialTools
      ensures ohlcMap == map[] && autoPrecisions == map[]
    {
      tool := Cursor;
      drawingMode := false;
      magnet := false;
      ohlcMap := map[];
      autoPrecisions := map[];
    }

    method ToolSelected(t: string)
      modifies this
      ensures Tools() == SelectTool(old(Tools()), t)
      ensures ohlcMap == old(ohlcMap) && autoPrecisions == old(autoPrecisions)
    {
      if tool == t {
        magnet := false;
        tool := Cursor;
        drawingMode := false;
        return;
      }
      tool := t;
      if tool == Magnet {
        magnet := true;
      }
    }

    method DrawingModeOff()
      modifies this
      ensures Tools() == AfterDrawingModeOff(old(Tools()))
      ensures ohlcMap == old(ohlcMap) && autoPrecisions == old(autoPrecisions)
    {
      if tool == Brush {
        return;
      }
      if tool == Magnet {
        return;
      }
      tool := Cursor;
      drawingMode := false;
    }

    method ToggleMagnetOnCtrlKeyDown(ctrlKey: bool)
      modifies this
      ensures Tools() == KeyDown(old(Tools()), ctrlKey)
      ensures ohlcMap == old(ohlcMap) && autoPrecisions == old(autoPrecisions)
    {
      magnet := ctrlKey;
    }

    method ResetMagnetOnCtrlUp()
      modifies this
      ensures Tools() == KeyUp(old(Tools()))
      ensures ohlcMap == old(ohlcMap) && autoPrecisions == old(autoPrecisions)
    {
      if magnet {
        magnet := false;
      }
    }

    /** `calcOhlcMap()` over the rows of the main overlay. */
    method CalcOhlcMap(data: seq<Bar>)
      modifies this
      ensures ohlcMap == OhlcMapOf(data)
      ensures Tools() == old(Tools()) && autoPrecisions == old(autoPrecisions)
    {
      var m: map<int, Entry> := map[];
      var i := 0;
      while i < |data|
        invariant 0 <= i <= |data|
        invariant m == OhlcMapOf(data[..i])
      {
        assert data[..i + 1][..i] == data[..i];
        m := m[data[i].ts := Entry(data[i], i)];
        i := i + 1;
      }
      assert data[..|data|] == data;
      ohlcMap := m;
    }

    method SetAutoPrec(gridId: int, ovId: int, prec: int)
      modifies this
      ensures autoPrecisions == SetPrec(old(autoPrecisions), gridId, ovId, prec)
      ensures Tools() == old(Tools()) && ohlcMap == old(ohlcMap)
    {
      var aps := if gridId in autoPrecisions then autoPrecisions[gridId] else map[];
      aps := aps[ovId := prec];
      autoPrecisions := autoPrecisions[gridId := aps];
    }

    method GetAutoPrec(gridId: int, ovId: int) returns (r: Option<int>)
      ensures r == Prec(autoPrecisions, gridId, ovId)
    {
      r := Prec(autoPrecisions, gridId, ovId);
    }
  }
}
