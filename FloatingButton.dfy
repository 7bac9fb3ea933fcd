/**
 * The floating button overlay's touch handling: a press records where the
 * button and the finger were, a move drags the button once the finger has
 * gone more than the slop away in either axis, and a release counts as a
 * click (which opens the popup) only when no drag happened in between.
 */
module FloatingButton {

  /** MotionEvent action codes, as Android defines them. */
  const ActionDown := 0
  const ActionUp := 1
  const ActionMove := 2

  /** How far, in whole pixels along one axis, the finger may move before the press becomes a drag. */
  const DragSlop := 10

  /** Where the overlay is first placed, from the top-left corner. */
  const StartX := 0
  const StartY := 500

  datatype TouchEvent = TouchEvent(action: int, rawX: real, rawY: real)

  /** The window position and the touch listener's captured variables. */
  datatype Gesture = Gesture(
    x: int, y: int,
    initialX: int, initialY: int,
    initialTouchX: real, initialTouchY: real,
    isMoving: bool)

  /** What the listener returns, and whether it performed a click. */
  datatype Reaction = Reaction(handled: bool, clicked: bool)

  function Initial(): Gesture {
    Gesture(StartX, StartY, 0, 0, 0.0, 0.0, false)
  }

  /** Float to Int conversion: rounds toward zero. */
  function Truncate(r: real): (t: int)
    ensures r >= 0.0 ==> 0.0 <= t as real <= r < t as real + 1.0
    ensures r < 0.0 ==> t as real - 1.0 < r <= t as real <= 0.0
  {
    if r >= 0.0 then r.Floor else -((-r).Floor)
  }

  function Abs(n: int): nat {
    if n < 0 then -n else n
  }

  /** The finger's offset from where the press started, as the listener computes it. */
  function Dx(g: Gesture, e: TouchEvent): int {
    Truncate(e.rawX - g.initialTouchX)
  }

  function Dy(g: Gesture, e: TouchEvent): int {
    Truncate(e.rawY - g.initialTouchY)
  }

  predicate BeyondSlop(g: Gesture, e: TouchEvent) {
    Abs(Dx(g, e)) > DragSlop || Abs(Dy(g, e)) > DragSlop
  }

  /** One call of the touch listener. */
  function Step(g: Gesture, e: TouchEvent): (Gesture, Reaction) {
    if e.action == ActionDown then
      (g.(initialX := g.x, initialY := g.y, initialTouchX := e.rawX, initialTouchY := e.rawY, isMoving := false),
       Reaction(true, false))
    else if e.action == ActionMove then
      if g.isMoving || BeyondSlop(g, e) then
        (g.(x := g.initialX + Dx(g, e), y := g.initialY + Dy(g, e), isMoving := true), Reaction(true, false))
      else
        (g, Reaction(true, false))
    else if e.action == ActionUp then
      (g, Reaction(true, !g.isMoving))
    else
      (g, Reaction(false, false))
  }

  /** The state after the listener has seen every event of es in order. */
  function Run(g: Gesture, es: seq<TouchEvent>): Gesture
    decreases |es|
  {
    if es == [] then g else Run(Step(g, es[0]).0, es[1..])
  }

  predicate AllMoves(es: seq<TouchEvent>) {
    forall i :: 0 <= i < |es| ==> es[i].action == ActionMove
  }

  class FloatingButtonService {
    var x: int
    var y: int
    var initialX: int
    var initialY: int
    var initialTouchX: real
    var initialTouchY: real
    var isMoving: bool

    function State(): Gesture
      reads this
    {
      Gesture(x, y, initialX, initialY, initialTouchX, initialTouchY, isMoving)
    }

    /** onCreate: the layout position and the listener's variables start out as declared. */
    constructor ()
      ensures State() == Initial()
    {
      x, y := StartX, StartY;
      initialX, initialY := 0, 0;
      initialTouchX, initialTouchY := 0.0, 0.0;
      isMoving := false;
    }

    /** The touch listener. */
    method OnTouch(e: TouchEvent) returns (handled: bool, clicked: bool)
      modifies this
      ensures (State(), Reaction(handled, clicked)) == Step(old(State()), e)
    {
      clicked := false;
      if e.action == ActionDown {
        initialX := x;
        initialY := y;
        initialTouchX := e.rawX;
        initialTouchY := e.rawY;
        isMoving := false;
        handled := true;
      } else if e.action == ActionMove {
        var dx := Truncate(e.rawX - initialTouchX);
        var dy := Truncate(e.rawY - initialTouchY);
        if Abs(dx) > DragSlop || Abs(dy) > DragSlop {
          isMoving := true;
        }
        if isMoving {
          x := initialX + dx;
          y := initialY + dy;
        }
        handled := true;
      } else if e.action == ActionUp {
        if !isMoving {
          clicked := true;
        }
        handled := true;
      } else {
        handled := false;
      }
    }
  }

  /** Only press, move and release are consumed; any other action changes nothing. */
  lemma OtherActionsPassThrough(g: Gesture, e: TouchEvent)
    ensures Step(g, e).1.handled <==> e.action in {ActionDown, ActionUp, ActionMove}
    ensures !Step(g, e).1.handled ==> Step(g, e).0 == g && !Step(g, e).1.clicked
  {
  }

  /** A press anchors at the current position and does not move the button. */
  lemma PressAnchors(g: Gesture, e: TouchEvent)
    requires e.action == ActionDown
    ensures var h := Step(g, e).0;
      && h.x == g.x && h.y == g.y && h.initialX == g.x && h.initialY == g.y
      && h.initialTouchX == e.rawX && h.initialTouchY == e.rawY && !h.isMoving
  {
  }

  /** h has the anchors g has; only the anchors decide what a move does. */
  predicate SameAnchors(g: Gesture, h: Gesture) {
    h.initialX == g.initialX && h.initialY == g.initialY
    && h.initialTouchX == g.initialTouchX && h.initialTouchY == g.initialTouchY
  }

  /** The slice of moves after the first is a run of moves too. */
  lemma RestAreMoves(ms: seq<TouchEvent>)
    requires AllMoves(ms) && ms != []
    ensures AllMoves(ms[1..])
  {
    forall i | 0 <= i < |ms[1..]| ensures ms[1..][i].action == ActionMove {
      assert ms[1..][i] == ms[i + 1];
    }
  }

  /** Moves never change the anchors a press recorded. */
  lemma {:induction false} MovesKeepAnchors(g: Gesture, ms: seq<TouchEvent>)
    requires AllMoves(ms)
    ensures SameAnchors(g, Run(g, ms))
    decreases |ms|
  {
    if ms != [] {
      RestAreMoves(ms);
      MovesKeepAnchors(Step(g, ms[0]).0, ms[1..]);
    }
  }

  /** Over a run of moves the drag latches exactly when it was latched already or some move went beyond the slop. */
  lemma {:induction false} MovesLatch(g: Gesture, ms: seq<TouchEvent>)
    requires AllMoves(ms)
    ensures Run(g, ms).isMoving <==> g.isMoving || exists i :: 0 <= i < |ms| && BeyondSlop(g, ms[i])
    decreases |ms|
  {
    if ms != [] {
      var g1 := Step(g, ms[0]).0;
      RestAreMoves(ms);
      MovesLatch(g1, ms[1..]);
      assert SameAnchors(g, g1);
      if exists i :: 0 <= i < |ms[1..]| && BeyondSlop(g1, ms[1..][i]) {
        var i :| 0 <= i < |ms[1..]| && BeyondSlop(g1, ms[1..][i]);
        assert BeyondSlop(g, ms[i + 1]);
      }
      if exists i :: 0 <= i < |ms| && BeyondSlop(g, ms[i]) {
        var i :| 0 <= i < |ms| && BeyondSlop(g, ms[i]);
        if i > 0 {
          assert ms[1..][i - 1] == ms[i];
        }
      }
    }
  }

  /**
   * Over a run of moves an unlatched drag leaves the button where it was, and
   * a latched one leaves it at the anchor plus the last move's offset.
   */
  lemma {:induction false} MovesPosition(g: Gesture, ms: seq<TouchEvent>)
    requires AllMoves(ms)
    ensures var h := Run(g, ms);
      && (!h.isMoving ==> h.x == g.x && h.y == g.y)
      && (h.isMoving && |ms| > 0 ==>
            h.x == g.initialX + Dx(g, ms[|ms| - 1]) && h.y == g.initialY + Dy(g, ms[|ms| - 1]))
    decreases |ms|
  {
    if ms != [] {
      var g1 := Step(g, ms[0]).0;
      RestAreMoves(ms);
      MovesPosition(g1, ms[1..]);
      MovesLatch(g1, ms[1..]);
      assert SameAnchors(g, g1);
      assert Run(g, ms) == Run(g1, ms[1..]);
      if |ms| > 1 {
        assert ms[1..][|ms[1..]| - 1] == ms[|ms| - 1];
      }
    }
  }

  /**
   * A whole gesture, press then moves then release: the release clicks
   * exactly when every move stayed within the slop of the press point, and
   * a drag leaves the button displaced by the last move's truncated finger
   * offset from the press.
   */
  lemma TapOrDrag(p: Gesture, down: TouchEvent, ms: seq<TouchEvent>, up: TouchEvent)
    requires down.action == ActionDown && AllMoves(ms) && up.action == ActionUp
    ensures var g := Step(p, down).0;
      var h := Run(g, ms);
      var dragged := exists i :: 0 <= i < |ms| && BeyondSlop(g, ms[i]);
      && Step(h, up).1 == Reaction(true, !dragged)
      && Step(h, up).0 == h
      && (!dragged ==> h.x == p.x && h.y == p.y)
      && (dragged ==>
            h.x == p.x + Truncate(ms[|ms| - 1].rawX - down.rawX) && h.y == p.y + Truncate(ms[|ms| - 1].rawY - down.rawY))
  {
    var g := Step(p, down).0;
    MovesLatch(g, ms);
    MovesPosition(g, ms);
  }

  /** A press and release with no move in between always clicks. */
  lemma PlainTapClicks(p: Gesture, down: TouchEvent, up: TouchEvent)
    requires down.action == ActionDown && up.action == ActionUp
    ensures Step(Step(p, down).0, up).1.clicked
  {
  }
}
