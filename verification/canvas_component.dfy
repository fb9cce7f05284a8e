/**
 The web front end's `CanvasComponent`, reduced to the state its `update`
 touches: the selected tool, the buffer of clicked points and the canvas the
 lines are added to. `update` becomes a pure transition returning the next
 state and whether the component is to be rendered again.
 */
module CanvasComponent {
  import opened Optional
  import opened Vectors

  /** Rust's `u16`, the canvas's width and height. */
  newtype u16 = n: int | 0 <= n < 0x1_0000

  /** `CanvasMsg`: three tool buttons and a click on the canvas. */
  datatype CanvasMsg = DrawLine | DrawCircle | DrawRect | Click(point: Vector2)

  /** The `program_core::Canvas` as `update` uses it: its size and the
      (start, end) pairs handed to `add_line`, in the order they were added. */
  datatype Canvas = Canvas(width: u16, height: u16, lines: seq<(Vector2, Vector2)>)

  /** `current_drawable` holds the last tool message; `points` the clicks since
      the buffer was last cleared. */
  datatype State = State(canvas: Canvas, currentDrawable: Option<CanvasMsg>, points: seq<Vector2>)

  /** What `update` leaves behind: the next state and its boolean result. */
  datatype Step = Step(state: State, rerender: bool)

  /** `add_line(start, end, None, None, None)`: appends one line to the canvas. */
  function AddLine(c: Canvas, start: Vector2, end: Vector2): (r: Canvas)
    ensures r.width == c.width && r.height == c.height
    ensures r.lines == c.lines + [(start, end)]
  {
    c.(lines := c.lines + [(start, end)])
  }

  /** `create`: a 1200×800 canvas with nothing on it, no tool and no clicks. */
  function Create(): (s: State)
    ensures s.canvas.width == 1200 && s.canvas.height == 800
    ensures s.canvas.lines == []
    ensures s.currentDrawable == None && s.points == []
  {
    State(Canvas(1200, 800, []), None, [])
  }

  predicate LineToolActive(s: State) {
    s.currentDrawable.Some? && s.currentDrawable.value.DrawLine?
  }

  /** The first half of `update`: a tool message becomes the current tool, a
      click is appended to the buffer. */
  function Receive(s: State, msg: CanvasMsg): (r: State)
    ensures r.canvas == s.canvas
    ensures msg.Click? ==> r.currentDrawable == s.currentDrawable && r.points == s.points + [msg.point]
    ensures !msg.Click? ==> r.currentDrawable == Some(msg) && r.points == s.points
  {
    match msg
    case Click(p) => s.(points := s.points + [p])
    case _ => s.(currentDrawable := Some(msg))
  }

  /** `update`: after receiving the message, with the line tool active and at
      least two buffered points, one line from the first to the second point is
      added, the whole buffer is cleared and the result is true; otherwise
      nothing is added and the result is false. The canvas size never changes
      and lines are only ever appended. */
  function Update(s: State, msg: CanvasMsg): (r: Step)
    ensures r.state.canvas.width == s.canvas.width && r.state.canvas.height == s.canvas.height
    ensures r.state.currentDrawable == Receive(s, msg).currentDrawable
    ensures r.rerender <==> LineToolActive(Receive(s, msg)) && |Receive(s, msg).points| >= 2
    ensures r.rerender ==> r.state.points == []
    ensures r.rerender ==>
      r.state.canvas.lines == s.canvas.lines + [(Receive(s, msg).points[0], Receive(s, msg).points[1])]
    ensures !r.rerender ==> r.state == Receive(s, msg)
  {
    var s := Receive(s, msg);
    if LineToolActive(s) && |s.points| >= 2 then
      Step(s.(canvas := AddLine(s.canvas, s.points[0], s.points[1]), points := []), true)
    else
      Step(s, false)
  }

  /** A tool message selects that tool. Unless it is the line tool with two
      points already buffered, it changes nothing else and returns false. */
  lemma ToolMessageSelects(s: State, msg: CanvasMsg)
    requires !msg.Click?
    requires !(msg.DrawLine? && |s.points| >= 2)
    ensures Update(s, msg).state == s.(currentDrawable := Some(msg))
    ensures !Update(s, msg).rerender
  {
  }

  /** Choosing the line tool with two or more points buffered under another
      tool draws a line from the first two at once. */
  lemma SelectLineWithBufferedPoints(s: State)
    requires |s.points| >= 2
    ensures Update(s, DrawLine).rerender
    ensures Update(s, DrawLine).state.canvas.lines == s.canvas.lines + [(s.points[0], s.points[1])]
    ensures Update(s, DrawLine).state.points == []
  {
  }

  /** Without the line tool a click is appended to the buffer and nothing else changes. */
  lemma ClickWithoutLineTool(s: State, p: Vector2)
    requires !LineToolActive(s)
    ensures Update(s, Click(p)) == Step(s.(points := s.points + [p]), false)
  {
  }

  /** With the line tool and fewer than two points after the click, the click is
      only buffered. */
  lemma ClickBuffersFirstPoint(s: State, p: Vector2)
    requires LineToolActive(s) && |s.points| == 0
    ensures Update(s, Click(p)) == Step(s.(points := [p]), false)
  {
  }

  /** With the line tool and a point buffered, the next click adds the line from
      the buffered point to the clicked one and clears the buffer. */
  lemma ClickCompletesLine(s: State, p: Vector2)
    requires LineToolActive(s) && |s.points| >= 1
    ensures Update(s, Click(p)).rerender
    ensures Update(s, Click(p)).state.canvas.lines
      == s.canvas.lines + [(s.points[0], (s.points + [p])[1])]
    ensures Update(s, Click(p)).state.points == []
  {
  }

  /** The circle and rectangle tools never draw: the result is false, no line
      is added and the buffer only grows. */
  lemma OtherToolsNeverDraw(s: State, msg: CanvasMsg)
    requires !LineToolActive(Receive(s, msg))
    ensures !Update(s, msg).rerender
    ensures Update(s, msg).state.canvas == s.canvas
    ensures Update(s, msg).state.points[..|s.points|] == s.points
  {
  }

  /** The messages a run of the component has received, applied in order. */
  function Run(s: State, msgs: seq<CanvasMsg>): (r: State)
    ensures r.canvas.width == s.canvas.width && r.canvas.height == s.canvas.height
    ensures |r.canvas.lines| >= |s.canvas.lines|
    ensures r.canvas.lines[..|s.canvas.lines|] == s.canvas.lines
    decreases |msgs|
  {
    if |msgs| == 0 then s
    else
      var next := Update(s, msgs[0]).state;
      var r := Run(next, msgs[1..]);
      assert next.canvas.lines[..|s.canvas.lines|] == s.canvas.lines;
      assert r.canvas.lines[..|next.canvas.lines|][..|s.canvas.lines|] == r.canvas.lines[..|s.canvas.lines|];
      r
  }

  /** What holds in every state the component reaches: the current tool is
      never a click, and the line tool never has two points waiting. */
  predicate Reachable(s: State) {
    && (s.currentDrawable.Some? ==> !s.currentDrawable.value.Click?)
    && (LineToolActive(s) ==> |s.points| <= 1)
  }

  lemma UpdateKeepsReachable(s: State, msg: CanvasMsg)
    requires Reachable(s)
    ensures Reachable(Update(s, msg).state)
  {
  }

  lemma {:induction false} RunKeepsReachable(s: State, msgs: seq<CanvasMsg>)
    requires Reachable(s)
    ensures Reachable(Run(s, msgs))
    decreases |msgs|
  {
    if |msgs| > 0 {
      UpdateKeepsReachable(s, msgs[0]);
      RunKeepsReachable(Update(s, msgs[0]).state, msgs[1..]);
    }
  }

  /** Every state reached from `create` satisfies `Reachable`. */
  lemma CreateReachesOnlyReachable(msgs: seq<CanvasMsg>)
    ensures Reachable(Run(Create(), msgs))
  {
    RunKeepsReachable(Create(), msgs);
  }

  /** From a fresh component: choose the line tool, click twice, and exactly one
      line joins the two clicked points. */
  lemma LineToolTwoClicks(a: Vector2, b: Vector2)
    ensures Run(Create(), [DrawLine, Click(a), Click(b)]).canvas.lines == [(a, b)]
    ensures Run(Create(), [DrawLine, Click(a), Click(b)]).points == []
  {
    var msgs := [DrawLine, Click(a), Click(b)];
    var s1 := Update(Create(), DrawLine).state;
    var s2 := Update(s1, Click(a)).state;
    var s3 := Update(s2, Click(b)).state;
    assert msgs[1..] == [Click(a), Click(b)] && msgs[1..][1..] == [Click(b)] && msgs[1..][1..][1..] == [];
    assert Run(Create(), msgs) == Run(s1, msgs[1..]);
    assert Run(s1, msgs[1..]) == Run(s2, msgs[1..][1..]);
    assert Run(s2, msgs[1..][1..]) == Run(s3, []);
    assert s3.canvas.lines == [(a, b)] && s3.points == [];
  }
}
