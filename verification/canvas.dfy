/** The pointer-to-stroke state machine of the drawing hook
    (apps/web/hooks/useCanvas.ts). Rendering is modelled as the list of
    line segments a call strokes onto the canvas. */
module Canvas {
  import opened Base
  import opened Strokes
  import opened Wire

  const DefaultColor: string := "#23ab2b"
  const DefaultWidth: int := 2

  /** The hook's props after destructuring with defaults. */
  datatype Config = Config(roomId: string, userId: string, userName: string, color: string, width: int)

  /** A destructuring default applies only when the prop is `undefined`. */
  function Configure(roomId: string, userId: string, userName: Option<string>, color: Option<string>, width: Option<int>): (c: Config)
    ensures c.roomId == roomId && c.userId == userId
    ensures c.userName == (if userName.Some? then userName.value else "")
    ensures c.color == (if color.Some? then color.value else DefaultColor)
    ensures c.width == (if width.Some? then width.value else DefaultWidth)
  {
    Config(roomId, userId, userName.GetOr(""), color.GetOr(DefaultColor), width.GetOr(DefaultWidth))
  }

  /** One `moveTo`/`lineTo` pair, stroked with the given style. */
  datatype Segment = Segment(from: Point, to: Point, color: string, width: int)

  /** `drawLine`: nothing for fewer than two points; otherwise one segment
      joining each consecutive pair, in order, all in the given style. */
  function DrawLine(points: seq<Point>, color: string, width: int): (r: seq<Segment>)
    ensures |points| < 2 ==> r == []
    ensures |points| >= 2 ==> |r| == |points| - 1
    ensures forall i :: 0 <= i < |r| ==> r[i] == Segment(points[i], points[i + 1], color, width)
  {
    if |points| < 2 then []
    else [Segment(points[0], points[1], color, width)] + DrawLine(points[1..], color, width)
  }

  /** The gesture state: the `isDrawing` flag and the point buffer. */
  datatype Pen = Pen(isDrawing: bool, points: seq<Point>)

  const Idle: Pen := Pen(false, [])

  /** The buffer is non-empty exactly while a gesture is in progress. */
  predicate PenInv(p: Pen) {
    p.isDrawing <==> p.points != []
  }

  /** `handleMouseDown`: start drawing with a buffer of exactly the down point. */
  function MouseDown(pen: Pen, p: Point): (r: Pen)
    ensures r.isDrawing && r.points == [p]
  {
    Pen(true, [p])
  }

  datatype MoveOutcome = MoveOutcome(pen: Pen, drawn: seq<Segment>)

  /** `handleMouseMove`: ignored unless drawing; otherwise appends the point
      and, when there is a previous one, draws the segment from it. */
  function MouseMove(pen: Pen, p: Point, cfg: Config): (r: MoveOutcome)
    ensures !pen.isDrawing ==> r.pen == pen && r.drawn == []
    ensures pen.isDrawing ==> r.pen == Pen(true, pen.points + [p])
    ensures pen.isDrawing && pen.points != [] ==>
              r.drawn == [Segment(pen.points[|pen.points| - 1], p, cfg.color, cfg.width)]
    ensures pen.points == [] ==> r.drawn == []
  {
    if !pen.isDrawing then MoveOutcome(pen, [])
    else
      var pts := pen.points + [p];
      if |pts| >= 2 then MoveOutcome(Pen(true, pts), DrawLine([pts[|pts| - 2], p], cfg.color, cfg.width))
      else MoveOutcome(Pen(true, pts), [])
  }

  /** The DRAW message that carries a stroke. */
  function DrawMessage(cfg: Config, stroke: Stroke, timestamp: string): Envelope {
    Empty.(
      kind := Value(Encode(Draw)),
      userId := Value(cfg.userId),
      userName := Value(cfg.userName),
      roomId := Value(cfg.roomId),
      message := Null,
      timestamp := Value(timestamp),
      participants := Null,
      id := Value(stroke.id),
      payload := Value(StrokePayload(stroke)))
  }

  /** `sent` is the message handed to `send`; `errorLogged` whether `send` threw. */
  datatype UpOutcome = UpOutcome(pen: Pen, sent: Envelope, errorLogged: bool)

  /** `handleMouseUp`, given the fresh stroke id and timestamp and whether
      the `send` call throws. No prior mouse-down is needed: the stroke holds
      whatever the buffer holds. */
  function MouseUp(pen: Pen, cfg: Config, strokeId: string, timestamp: string, sendThrows: bool): (r: UpOutcome)
    ensures r.pen == Idle
    ensures HasKind(r.sent, Draw) && IsWebSocketMessage(r.sent)
    ensures r.sent.payload == Value(StrokePayload(Stroke(strokeId, Pencil, pen.points, cfg.color, cfg.width, cfg.userId)))
    ensures r.sent.id == Value(r.sent.payload.value.stroke.id)
    ensures r.sent.userId == Value(cfg.userId) && r.sent.roomId == Value(cfg.roomId)
    ensures r.errorLogged == sendThrows
  {
    var stroke := Stroke(strokeId, Pencil, pen.points, cfg.color, cfg.width, cfg.userId);
    DecodeEncode(Draw);
    UpOutcome(Idle, DrawMessage(cfg, stroke, timestamp), sendThrows)
  }

  /** `drawFromRemote`: a received stroke goes through the same `drawLine`. */
  function DrawFromRemote(stroke: Stroke): (r: seq<Segment>)
    ensures |stroke.points| < 2 ==> r == []
    ensures |stroke.points| >= 2 ==> |r| == |stroke.points| - 1
    ensures forall i :: 0 <= i < |r| ==> r[i] == Segment(stroke.points[i], stroke.points[i + 1], stroke.color, stroke.width)
  {
    DrawLine(stroke.points, stroke.color, stroke.width)
  }

  /** A run of pointer moves: the final pen and every segment drawn, in order. */
  function ApplyMoves(pen: Pen, moves: seq<Point>, cfg: Config): MoveOutcome
    decreases |moves|
  {
    if moves == [] then MoveOutcome(pen, [])
    else
      var step := MouseMove(pen, moves[0], cfg);
      var rest := ApplyMoves(step.pen, moves[1..], cfg);
      MoveOutcome(rest.pen, step.drawn + rest.drawn)
  }

  /** Every handler keeps the buffer non-empty exactly while drawing. */
  lemma HandlersKeepPenInv(pen: Pen, p: Point, cfg: Config, strokeId: string, timestamp: string, sendThrows: bool)
    requires PenInv(pen)
    ensures PenInv(MouseDown(pen, p))
    ensures PenInv(MouseMove(pen, p, cfg).pen)
    ensures PenInv(MouseUp(pen, cfg, strokeId, timestamp, sendThrows).pen)
  {
  }

  /** While a gesture is in progress each move adds exactly one point and
      draws exactly one segment, from the previous last point. */
  lemma MoveDrawsOneSegment(pen: Pen, p: Point, cfg: Config)
    requires PenInv(pen) && pen.isDrawing
    ensures var r := MouseMove(pen, p, cfg);
            && |r.pen.points| == |pen.points| + 1
            && |r.drawn| == 1
            && r.drawn[0].from == pen.points[|pen.points| - 1] && r.drawn[0].to == p
  {
  }

  lemma DrawLineCons(x: Point, m: Point, rest: seq<Point>, color: string, width: int)
    ensures DrawLine([x, m] + rest, color, width) == [Segment(x, m, color, width)] + DrawLine([m] + rest, color, width)
  {
    assert ([x, m] + rest)[1..] == [m] + rest;
  }

  /** The segments drawn incrementally during a gesture are exactly what
      `drawLine` draws for the whole buffer, starting from its last point. */
  lemma {:induction false} MovesDrawTheBuffer(pts: seq<Point>, moves: seq<Point>, cfg: Config)
    requires pts != []
    ensures ApplyMoves(Pen(true, pts), moves, cfg).pen == Pen(true, pts + moves)
    ensures ApplyMoves(Pen(true, pts), moves, cfg).drawn == DrawLine([pts[|pts| - 1]] + moves, cfg.color, cfg.width)
    decreases |moves|
  {
    if moves == [] {
      assert pts + moves == pts;
    } else {
      var m := moves[0];
      var pts' := pts + [m];
      var step := MouseMove(Pen(true, pts), m, cfg);
      assert step.pen == Pen(true, pts');
      assert step.drawn == [Segment(pts[|pts| - 1], m, cfg.color, cfg.width)];
      var rest := ApplyMoves(step.pen, moves[1..], cfg);
      assert ApplyMoves(Pen(true, pts), moves, cfg) == MoveOutcome(rest.pen, step.drawn + rest.drawn);
      MovesDrawTheBuffer(pts', moves[1..], cfg);
      assert pts' + moves[1..] == pts + moves;
      assert [pts'[|pts'| - 1]] + moves[1..] == [m] + moves[1..];
      DrawLineCons(pts[|pts| - 1], m, moves[1..], cfg.color, cfg.width);
      assert [pts[|pts| - 1]] + moves == [pts[|pts| - 1], m] + moves[1..];
    }
  }

  /** A whole gesture (down, moves, up) draws locally exactly what every
      receiver draws from the emitted stroke: local and remote rendering
      agree segment for segment. */
  lemma GestureRendersLikeRemote(pen: Pen, down: Point, moves: seq<Point>, cfg: Config, strokeId: string, timestamp: string, sendThrows: bool)
    ensures var after := ApplyMoves(MouseDown(pen, down), moves, cfg);
            var up := MouseUp(after.pen, cfg, strokeId, timestamp, sendThrows);
            && up.sent.payload.value.stroke.points == [down] + moves
            && after.drawn == DrawFromRemote(up.sent.payload.value.stroke)
  {
    MovesDrawTheBuffer([down], moves, cfg);
  }

  /** The style the hook is given is the style it draws and sends: for every
      pen, a move draws in the given colour and width, and the stroke a
      mouse-up emits carries them, with the given name on the message. */
  lemma ConfiguredStyleReachesStroke(roomId: string, userId: string, userName: string, color: string, width: int,
                                     pen: Pen, p: Point, strokeId: string, timestamp: string, sendThrows: bool)
    ensures var cfg := Configure(roomId, userId, Some(userName), Some(color), Some(width));
            var up := MouseUp(pen, cfg, strokeId, timestamp, sendThrows).sent;
            && up.payload.value.stroke.color == color && up.payload.value.stroke.width == width
            && up.userName == Value(userName) && up.roomId == Value(roomId)
            && forall s :: s in MouseMove(pen, p, cfg).drawn ==> s.color == color && s.width == width
  {
  }

  /** A mouse-down starts a fresh gesture whatever came before: an
      interrupted gesture's buffer is dropped, so an immediate mouse-up
      emits a one-point stroke, and the next move draws from the down point. */
  lemma DownStartsFreshGesture(pen: Pen, p: Point, q: Point, cfg: Config, strokeId: string, timestamp: string, sendThrows: bool)
    ensures MouseUp(MouseDown(pen, p), cfg, strokeId, timestamp, sendThrows).sent.payload.value.stroke.points == [p]
    ensures MouseMove(MouseDown(pen, p), q, cfg).drawn == [Segment(p, q, cfg.color, cfg.width)]
    ensures MouseMove(MouseDown(pen, p), q, cfg).pen.points == [p, q]
  {
  }

  /** With the props the canvas component passes (no colour, width or name),
      strokes use the defaults `"#23ab2b"` and `2`; a mouse-up with no prior
      mouse-down emits a stroke with no points. */
  lemma DefaultsAndBareMouseUp(roomId: string, userId: string, strokeId: string, timestamp: string, sendThrows: bool)
    ensures var cfg := Configure(roomId, userId, None, None, None);
            var s := MouseUp(Idle, cfg, strokeId, timestamp, sendThrows).sent.payload.value.stroke;
            && s.color == "#23ab2b" && s.width == 2 && s.userId == userId
            && s.points == []
  {
  }
}
