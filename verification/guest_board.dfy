/**
  The guest drawing board ("Visitor History Wall"): pointer events record a
  stroke point by point; releasing the pointer commits the stroke to the saved
  log when it has more than one point; the clear button empties the log.

  `Step` says what each event does to the board's state; class `Board` keeps
  that state in fields and its handlers are proved to follow `Step`.
*/
module GuestBoard {

  const DefaultColor: string := "#a78bfa"
  const DefaultSize: int := 4

  /** A point in canvas coordinates (pointer position minus the canvas origin). */
  datatype Point = Point(x: real, y: real)

  datatype Stroke = Stroke(color: string, size: int, points: seq<Point>)

  datatype BoardState = BoardState(
    isDrawing: bool,
    currentStroke: seq<Point>,
    strokes: seq<Stroke>,
    color: string,
    size: int)

  /** The events the canvas and the controls deliver. */
  datatype Event =
    | PointerDown(p: Point)      // mouse down / touch start
    | PointerMove(p: Point)      // mouse move / touch move
    | PointerUp                  // mouse up, mouse leave / touch end
    | ClearPressed
    | ColorPicked(color: string)
    | SizePicked(size: int)

  /** A stroke worth keeping: more than one point. */
  predicate Committable(points: seq<Point>) { |points| > 1 }

  /** The state after one event. Apart from clearing, the log only ever gains one stroke
      at its end, and only a stroke of two or more points. */
  function Step(b: BoardState, e: Event): (r: BoardState)
    ensures e.ClearPressed? ==> r.strokes == []
    ensures !e.ClearPressed? ==>
      r.strokes == b.strokes ||
      (|r.strokes| == |b.strokes| + 1 && r.strokes[..|b.strokes|] == b.strokes &&
       |r.strokes[|b.strokes|].points| >= 2)
  {
    match e
    case PointerDown(p) => b.(isDrawing := true, currentStroke := [p])
    case PointerMove(p) => if !b.isDrawing then b else b.(currentStroke := b.currentStroke + [p])
    case PointerUp =>
      if !b.isDrawing then b
      else
        var strokes := if Committable(b.currentStroke)
          then b.strokes + [Stroke(b.color, b.size, b.currentStroke)]
          else b.strokes;
        b.(isDrawing := false, strokes := strokes, currentStroke := [])
    case ClearPressed => b.(strokes := [])
    case ColorPicked(c) => b.(color := c)
    case SizePicked(n) => b.(size := n)
  }

  /** The board after a sequence of events. */
  function Replay(b: BoardState, events: seq<Event>): (r: BoardState)
    ensures (forall k :: 0 <= k < |events| ==> !events[k].ColorPicked?) ==> r.color == b.color
    ensures (forall k :: 0 <= k < |events| ==> !events[k].SizePicked?) ==> r.size == b.size
    decreases |events|
  {
    if events == [] then b else Replay(Step(b, events[0]), events[1..])
  }

  /** Every stroke in the log has at least two points. */
  predicate AllCommittable(strokes: seq<Stroke>) {
    forall k :: 0 <= k < |strokes| ==> |strokes[k].points| >= 2
  }

  /** Starting from a log of real strokes (an empty one, say), every committed stroke has
      at least two points, whatever events arrive. */
  lemma {:induction false} ReplayCommitsOnlyStrokes(b: BoardState, events: seq<Event>)
    requires AllCommittable(b.strokes)
    ensures AllCommittable(Replay(b, events).strokes)
    decreases |events|
  {
    if events != [] {
      var b1 := Step(b, events[0]);
      assert AllCommittable(b1.strokes) by {
        if !events[0].ClearPressed? && b1.strokes != b.strokes {
          forall k | 0 <= k < |b1.strokes| ensures |b1.strokes[k].points| >= 2 {
            if k < |b.strokes| {
              assert b1.strokes[k] == b1.strokes[..|b.strokes|][k];
            }
          }
        }
      }
      ReplayCommitsOnlyStrokes(b1, events[1..]);
    }
  }

  /** Without a clear, the log before the events is a prefix of the log after them. */
  lemma {:induction false} ReplayOnlyAppends(b: BoardState, events: seq<Event>)
    requires forall k :: 0 <= k < |events| ==> !events[k].ClearPressed?
    ensures b.strokes <= Replay(b, events).strokes
    decreases |events|
  {
    if events != [] {
      var b1 := Step(b, events[0]);
      assert b.strokes <= b1.strokes;
      ReplayOnlyAppends(b1, events[1..]);
    }
  }

  /** A press, any number of moves and a release commit exactly one stroke holding all the
      points, in order, when there were two or more of them. */
  lemma {:induction false} GestureCommitsItsPoints(b: BoardState, p: Point, moves: seq<Point>)
    ensures var events := [PointerDown(p)] + MovesOf(moves) + [PointerUp];
      var r := Replay(b, events);
      && !r.isDrawing && r.currentStroke == []
      && (moves == [] ==> r.strokes == b.strokes)
      && (moves != [] ==> r.strokes == b.strokes + [Stroke(b.color, b.size, [p] + moves)])
  {
    var down := Step(b, PointerDown(p));
    ReplayMoves(down, moves);
    var events := [PointerDown(p)] + MovesOf(moves) + [PointerUp];
    assert events[0] == PointerDown(p);
    assert events[1..] == MovesOf(moves) + [PointerUp];
    ReplayConcat(down, MovesOf(moves), [PointerUp]);
  }

  function MovesOf(points: seq<Point>): (r: seq<Event>)
    ensures |r| == |points|
    ensures forall k :: 0 <= k < |points| ==> r[k] == PointerMove(points[k])
  {
    if points == [] then [] else [PointerMove(points[0])] + MovesOf(points[1..])
  }

  lemma {:induction false} ReplayConcat(b: BoardState, xs: seq<Event>, ys: seq<Event>)
    ensures Replay(b, xs + ys) == Replay(Replay(b, xs), ys)
    decreases |xs|
  {
    if xs == [] {
      assert xs + ys == ys;
    } else {
      assert (xs + ys)[0] == xs[0];
      assert (xs + ys)[1..] == xs[1..] + ys;
      ReplayConcat(Step(b, xs[0]), xs[1..], ys);
    }
  }

  /** While drawing, moves append their points to the current stroke in order. */
  lemma {:induction false} ReplayMoves(b: BoardState, points: seq<Point>)
    requires b.isDrawing
    ensures Replay(b, MovesOf(points)) == b.(currentStroke := b.currentStroke + points)
    decreases |points|
  {
    if points == [] {
      assert b.currentStroke + points == b.currentStroke;
    } else {
      var es := MovesOf(points);
      var b1 := Step(b, PointerMove(points[0]));
      assert b1 == b.(currentStroke := b.currentStroke + [points[0]]);
      assert es[0] == PointerMove(points[0]);
      assert es[1..] == MovesOf(points[1..]);
      assert Replay(b, es) == Replay(b1, MovesOf(points[1..]));
      ReplayMoves(b1, points[1..]);
      assert b.currentStroke + [points[0]] + points[1..] == b.currentStroke + points;
    }
  }

  // ---------------------------------------------------------------------------
  // The component's state

  class Board {
    var isDrawing: bool
    var currentStroke: seq<Point>
    var strokes: seq<Stroke>
    var color: string
    var size: int

    function State(): BoardState
      reads this
    {
      BoardState(isDrawing, currentStroke, strokes, color, size)
    }

    /** Mount with the log restored from storage (none stored: an empty log). */
    constructor (saved: seq<Stroke>)
      ensures State() == BoardState(false, [], saved, DefaultColor, DefaultSize)
    {
      isDrawing := false;
      currentStroke := [];
      strokes := saved;
      color := DefaultColor;
      size := DefaultSize;
    }

    /** `start`: begin a stroke at `p`, discarding any stroke in progress. */
    method Start(p: Point)
      modifies this`isDrawing, this`currentStroke
      ensures State() == Step(old(State()), PointerDown(p))
      ensures isDrawing && currentStroke == [p]
    {
      isDrawing := true;
      currentStroke := [p];
    }

    /** `move`: append `p` to the stroke while drawing; otherwise nothing changes. */
    method Move(p: Point)
      modifies this`currentStroke
      ensures State() == Step(old(State()), PointerMove(p))
      ensures !old(isDrawing) ==> currentStroke == old(currentStroke)
      ensures old(isDrawing) ==> currentStroke == old(currentStroke) + [p]
    {
      if !isDrawing {
        return;
      }
      currentStroke := currentStroke + [p];
    }

    /** `end`: stop drawing and commit the stroke when it has more than one point. */
    method End()
      modifies this`isDrawing, this`currentStroke, this`strokes
      ensures State() == Step(old(State()), PointerUp)
      ensures !old(isDrawing) ==> State() == old(State())
      ensures old(isDrawing) ==> !isDrawing && currentStroke == []
      ensures old(isDrawing) && |old(currentStroke)| > 1 ==>
        strokes == old(strokes) + [Stroke(color, size, old(currentStroke))]
      ensures old(isDrawing) && |old(currentStroke)| <= 1 ==> strokes == old(strokes)
    {
      if !isDrawing {
        return;
      }
      isDrawing := false;
      if |currentStroke| > 1 {
        strokes := strokes + [Stroke(color, size, currentStroke)];
      }
      currentStroke := [];
    }

    /** `clearBoard`: empty the log; a stroke in progress is unaffected. */
    method ClearBoard()
      modifies this`strokes
      ensures State() == Step(old(State()), ClearPressed)
      ensures strokes == []
    {
      strokes := [];
    }

    /** The colour picker. */
    method SetColor(c: string)
      modifies this`color
      ensures State() == Step(old(State()), ColorPicked(c))
    {
      color := c;
    }

    /** The size slider. */
    method SetSize(n: int)
      modifies this`size
      ensures State() == Step(old(State()), SizePicked(n))
    {
      size := n;
    }
  }
}
