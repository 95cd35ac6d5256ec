/** The per-frame game logic of the terror maze: a marker that follows the pointer
    once the pointer has touched the start point, a goal test that triggers the
    scare, and a wall test that sends the marker back to the start.

    The value `Game` is the abstract state of a `GameState` object; the functions
    `Restarted`, `Moved` and `Stepped` say what one call of `restart`,
    `mouse_motion_event` and `update` does to it, and the class methods are proved
    against them. */
module TerrorMaze {
  import opened Geometry

  /** Arming radius: the pointer must come closer than this to the start point. */
  const ArmingRadius: real := 10.0
  /** Per-axis tolerance of the goal test. */
  const Proximity: real := 20.0
  /** Side length of the player's square marker. */
  const QuadSize: real := 20.0

  /** The fixed maze layout: ten walls given as left, top, width, height. */
  function MazeWalls(): seq<Rect> {
    [ // start maze
      Rect(0.0, 0.0, 900.0, 30.0),
      Rect(0.0, 80.0, 800.0, 30.0),
      // first down maze
      Rect(800.0, 80.0, 30.0, 230.0),
      Rect(880.0, 0.0, 30.0, 370.0),
      // turn left maze
      Rect(0.0, 280.0, 800.0, 30.0),
      Rect(70.0, 340.0, 825.0, 30.0),
      // second down maze
      Rect(0.0, 300.0, 30.0, 500.0),
      Rect(70.0, 350.0, 30.0, 400.0),
      // turn right maze
      Rect(70.0, 740.0, 830.0, 30.0),
      Rect(0.0, 800.0, 900.0, 30.0) ]
  }

  /** The game state that matters to the game logic (the image and sound handles
      are left out). */
  datatype Game = Game(
    position: Point,   // mouse_position: where the marker is
    start: Point,      // initial_position
    goal: Point,       // end_position
    walls: seq<Rect>,
    isMoving: bool,    // the marker follows the pointer
    showScare: bool)   // the scare image replaces the marker

  /** What one frame produces: the new state and whether the scream was played. */
  datatype FrameOutcome = FrameOutcome(next: Game, screamed: bool)

  /** The state right after construction. */
  function Initial(): (g: Game)
    ensures g.start == Point(10.0, 60.0) && g.position == g.start
    ensures g.goal == Point(870.0, 790.0)
    ensures !g.isMoving && !g.showScare
    ensures g.walls == MazeWalls() && |g.walls| == 10
    ensures forall w :: w in g.walls ==> w.Proper()
  {
    var start := Point(10.0, 60.0);
    Game(start, start, Point(870.0, 790.0), MazeWalls(), false, false)
  }

  /** The goal test: the marker is closer than the tolerance to the goal on each
      axis separately, i.e. strictly inside the 40 by 40 square around the goal. */
  function ReachedEnd(p: Point, goal: Point): (r: bool)
    ensures r <==> goal.x - Proximity < p.x < goal.x + Proximity &&
                   goal.y - Proximity < p.y < goal.y + Proximity
  {
    Abs(p.x - goal.x) < Proximity && Abs(p.y - goal.y) < Proximity
  }

  /** The player's square marker, QuadSize on each side, centred on p. */
  function MarkerBox(p: Point): (b: Rect)
    ensures b.Contains(p) && b.Proper()
    ensures b.Right() - b.left == QuadSize && b.Bottom() - b.top == QuadSize
    ensures p.x - b.left == b.Right() - p.x && p.y - b.top == b.Bottom() - p.y
  {
    Rect(p.x - QuadSize / 2.0, p.y - QuadSize / 2.0, QuadSize, QuadSize)
  }

  /** The wall test: the marker at p overlaps some wall. */
  predicate Collides(p: Point, walls: seq<Rect>) {
    exists w :: w in walls && Overlaps(MarkerBox(p), w)
  }

  /** The pointer is within the arming radius of the start point (squared
      distance compared with the squared radius; see Geometry.SqrtThreshold). */
  predicate WithinArming(start: Point, pointer: Point) {
    SqDist(start, pointer) < ArmingRadius * ArmingRadius
  }

  /** restart: back to the start point, not following the pointer. */
  function Restarted(g: Game): Game {
    g.(position := g.start, isMoving := false)
  }

  /** mouse_motion_event with the pointer at p: arm when p is within the arming
      radius of the start; once armed, the marker jumps to p. */
  function Moved(g: Game, p: Point): Game {
    var armed := g.isMoving || WithinArming(g.start, p);
    g.(isMoving := armed, position := if armed then p else g.position)
  }

  /** update: the goal test first (playing the scream and raising the scare flag),
      then the wall test on the resulting state (restarting on a hit). */
  function Stepped(g: Game): FrameOutcome {
    var reached := ReachedEnd(g.position, g.goal);
    var scared := if reached then g.(showScare := true) else g;
    var next := if Collides(scared.position, scared.walls) then Restarted(scared) else scared;
    FrameOutcome(next, reached)
  }

  /** An input delivered by the platform's event loop. */
  datatype Event = PointerMove(p: Point) | Tick

  /** The state after the events evs, in order. */
  function Run(g: Game, evs: seq<Event>): Game
    decreases |evs|
  {
    if evs == [] then g
    else
      var g' := match evs[0]
        case PointerMove(p) => Moved(g, p)
        case Tick => Stepped(g).next;
      Run(g', evs[1..])
  }

  /** An unarmed marker sits on the start point. */
  predicate IdleAtStart(g: Game) {
    !g.isMoving ==> g.position == g.start
  }

  /** g and h are on the same level: same start point, goal and walls. */
  predicate SameLevel(g: Game, h: Game) {
    g.start == h.start && g.goal == h.goal && g.walls == h.walls
  }

  // ---------------------------------------------------------------------------
  // restart

  /** restart puts the marker at the start and disarms it; it leaves the scare
      flag, the walls, the goal and the start point as they were. */
  lemma RestartedResets(g: Game)
    ensures Restarted(g).position == g.start && !Restarted(g).isMoving
    ensures Restarted(g).showScare == g.showScare && SameLevel(Restarted(g), g)
  {
  }

  /** The state after restart does not depend on the position or the armed flag
      before it. */
  lemma RestartedForgetsHistory(g: Game, h: Game)
    requires SameLevel(g, h) && g.showScare == h.showScare
    ensures Restarted(g) == Restarted(h)
  {
  }

  // ---------------------------------------------------------------------------
  // mouse_motion_event

  /** Not armed and the pointer outside the arming radius: nothing changes. */
  lemma MovedGateClosed(g: Game, p: Point)
    requires !g.isMoving && !WithinArming(g.start, p)
    ensures Moved(g, p) == g
  {
  }

  /** Not armed and the pointer within the arming radius: the same event arms
      the marker and moves it to the pointer. */
  lemma MovedGateOpens(g: Game, p: Point)
    requires !g.isMoving && WithinArming(g.start, p)
    ensures Moved(g, p).isMoving && Moved(g, p).position == p
  {
  }

  /** A pointer move never disarms; once armed, the marker lands on the pointer.
      Only the position and the armed flag can change. */
  lemma MovedOnceArmed(g: Game, p: Point)
    ensures g.isMoving ==> Moved(g, p).isMoving && Moved(g, p).position == p
    ensures SameLevel(Moved(g, p), g) && Moved(g, p).showScare == g.showScare
  {
  }

  /** The arming gate is the comparison of the Euclidean distance (any
      non-negative square root of the squared distance) with the arming radius. */
  lemma ArmingIsDistanceBelowRadius(start: Point, p: Point, dist: real)
    requires dist >= 0.0 && dist * dist == SqDist(start, p)
    ensures WithinArming(start, p) <==> dist < ArmingRadius
  {
    SqrtThreshold(SqDist(start, p), dist);
  }

  /** The pointer on the start point arms the marker; a pointer exactly the
      arming radius away (at (20, 60)) does not, the comparison being strict. */
  lemma ArmingExamples()
    ensures Moved(Initial(), Point(10.0, 60.0)).isMoving
    ensures Moved(Initial(), Point(20.0, 60.0)) == Initial()
  {
  }

  // ---------------------------------------------------------------------------
  // update

  /** The scream is played exactly when the goal test holds at the start of the
      frame, and the scare flag is then raised; the flag is never lowered. */
  lemma SteppedScream(g: Game)
    ensures Stepped(g).screamed <==> ReachedEnd(g.position, g.goal)
    ensures Stepped(g).next.showScare == (g.showScare || Stepped(g).screamed)
  {
  }

  /** A wall hit sends the marker back to the start and disarms it; otherwise
      the position and the armed flag stay as they were. */
  lemma SteppedCollision(g: Game)
    ensures Collides(g.position, g.walls) ==>
      Stepped(g).next.position == g.start && !Stepped(g).next.isMoving
    ensures !Collides(g.position, g.walls) ==>
      Stepped(g).next.position == g.position && Stepped(g).next.isMoving == g.isMoving
    ensures SameLevel(Stepped(g).next, g)
  {
  }

  /** No de-duplication: a marker that stays in the goal area without touching a
      wall makes the next frame play the scream again. */
  lemma SteppedScreamsAgain(g: Game)
    requires ReachedEnd(g.position, g.goal) && !Collides(g.position, g.walls)
    ensures Stepped(g).screamed && Stepped(Stepped(g).next).screamed
  {
  }

  /** Over any sequence of pointer moves and frames, the scare flag never goes
      back to false and start, goal and walls never change. */
  lemma {:induction false} RunKeepsScareAndLevel(g: Game, evs: seq<Event>)
    ensures g.showScare ==> Run(g, evs).showScare
    ensures SameLevel(Run(g, evs), g)
    decreases |evs|
  {
    if evs != [] {
      var g' := match evs[0]
        case PointerMove(p) => Moved(g, p)
        case Tick => Stepped(g).next;
      match evs[0] {
        case PointerMove(p) => MovedOnceArmed(g, p);
        case Tick => SteppedScream(g); SteppedCollision(g);
      }
      RunKeepsScareAndLevel(g', evs[1..]);
    }
  }

  /** Every pointer move and every frame keeps an unarmed marker on the start
      point: a move that does not arm leaves the position alone, and a frame
      either restarts or leaves the position and the armed flag alone. */
  lemma {:induction false} RunKeepsIdleAtStart(g: Game, evs: seq<Event>)
    requires IdleAtStart(g)
    ensures IdleAtStart(Run(g, evs))
    decreases |evs|
  {
    if evs != [] {
      var g' := match evs[0]
        case PointerMove(p) => Moved(g, p)
        case Tick => Stepped(g).next;
      match evs[0] {
        case PointerMove(p) =>
        case Tick => SteppedCollision(g);
      }
      RunKeepsIdleAtStart(g', evs[1..]);
    }
  }

  /** While no pointer move comes within the arming radius, an unarmed marker on
      the start point stays there, unarmed, whatever frames run in between. */
  lemma {:induction false} RunStaysIdle(g: Game, evs: seq<Event>)
    requires !g.isMoving && g.position == g.start
    requires forall i :: 0 <= i < |evs| && evs[i].PointerMove? ==> !WithinArming(g.start, evs[i].p)
    ensures !Run(g, evs).isMoving && Run(g, evs).position == g.start
    decreases |evs|
  {
    if evs != [] {
      var g' := match evs[0]
        case PointerMove(p) => Moved(g, p)
        case Tick => Stepped(g).next;
      match evs[0] {
        case PointerMove(p) => MovedGateClosed(g, p);
        case Tick => SteppedCollision(g);
      }
      assert SameLevel(g', g) && !g'.isMoving && g'.position == g.start;
      forall i | 0 <= i < |evs[1..]| && evs[1..][i].PointerMove?
        ensures !WithinArming(g'.start, evs[1..][i].p)
      {
        assert evs[1..][i] == evs[i + 1];
      }
      RunStaysIdle(g', evs[1..]);
    }
  }

  /** Once armed, the marker stays armed through any non-empty sequence of
      pointer moves and ends on the last pointer position. */
  lemma {:induction false} RunTracksOnceArmed(g: Game, evs: seq<Event>)
    requires g.isMoving && evs != []
    requires forall i :: 0 <= i < |evs| ==> evs[i].PointerMove?
    ensures Run(g, evs).isMoving && Run(g, evs).position == evs[|evs| - 1].p
    decreases |evs|
  {
    var g' := Moved(g, evs[0].p);
    MovedOnceArmed(g, evs[0].p);
    if |evs| > 1 {
      RunTracksOnceArmed(g', evs[1..]);
    }
  }

  // ---------------------------------------------------------------------------
  // The wall test does not depend on the order of the walls

  lemma CollidesOrderIndependent(p: Point, walls: seq<Rect>, walls': seq<Rect>)
    requires multiset(walls) == multiset(walls')
    ensures Collides(p, walls) == Collides(p, walls')
  {
    if Collides(p, walls) {
      var w :| w in walls && Overlaps(MarkerBox(p), w);
      assert w in multiset(walls');
    }
    if Collides(p, walls') {
      var w :| w in walls' && Overlaps(MarkerBox(p), w);
      assert w in multiset(walls);
    }
  }

  // ---------------------------------------------------------------------------
  // The fixed maze

  /** The marker box at the start point, [0, 20] x [50, 70], touches no wall. */
  lemma StartBoxClear()
    ensures !Collides(Point(10.0, 60.0), MazeWalls())
  {
    var b := MarkerBox(Point(10.0, 60.0));
    assert b == Rect(0.0, 50.0, 20.0, 20.0);
    var ws := MazeWalls();
    forall i | 0 <= i < |ws| ensures !Overlaps(b, ws[i]) { }
  }

  /** The marker box at (400, 150), [390, 410] x [140, 160], touches no wall. */
  lemma UpperCorridorClear()
    ensures !Collides(Point(400.0, 150.0), MazeWalls())
  {
    var b := MarkerBox(Point(400.0, 150.0));
    assert b == Rect(390.0, 140.0, 20.0, 20.0);
    var ws := MazeWalls();
    forall i | 0 <= i < |ws| ensures !Overlaps(b, ws[i]) { }
  }

  /** The marker box at (400, 400), [390, 410] x [390, 410], touches no wall. */
  lemma MiddleCorridorClear()
    ensures !Collides(Point(400.0, 400.0), MazeWalls())
  {
    var b := MarkerBox(Point(400.0, 400.0));
    assert b == Rect(390.0, 390.0, 20.0, 20.0);
    var ws := MazeWalls();
    forall i | 0 <= i < |ws| ensures !Overlaps(b, ws[i]) { }
  }

  /** The marker box at (870, 785), [860, 880] x [775, 795], touches no wall. */
  lemma GoalApproachClear()
    ensures !Collides(Point(870.0, 785.0), MazeWalls())
  {
    var b := MarkerBox(Point(870.0, 785.0));
    assert b == Rect(860.0, 775.0, 20.0, 20.0);
    var ws := MazeWalls();
    forall i | 0 <= i < |ws| ensures !Overlaps(b, ws[i]) { }
  }

  /** The marker centred on the origin hits the top wall; centred on (400, 150)
      it sits in the open corridor. */
  lemma CollisionExamples()
    ensures Collides(Point(0.0, 0.0), MazeWalls())
    ensures !Collides(Point(400.0, 150.0), MazeWalls())
  {
    assert Overlaps(MarkerBox(Point(0.0, 0.0)), MazeWalls()[0]);
    UpperCorridorClear();
  }

  /** (865, 795) is in the goal area; (865, 765) is 25 units off on y. */
  lemma ReachedEndExamples()
    ensures ReachedEnd(Point(865.0, 795.0), Initial().goal)
    ensures !ReachedEnd(Point(865.0, 765.0), Initial().goal)
  {
  }

  /** The marker at the start point touches no wall, so a new game is not reset
      on its first frame. */
  lemma StartIsClear()
    ensures !Collides(Initial().start, Initial().walls)
    ensures Stepped(Initial()) == FrameOutcome(Initial(), false)
  {
    StartBoxClear();
  }

  /** At the goal point itself the marker's bottom edge (y = 800) touches the top
      edge of the bottom wall, which counts as an overlap: that frame plays the
      scream, raises the scare flag and also restarts, leaving the scare image
      shown over a disarmed marker back at the start. */
  lemma GoalPointTouchesFloor(g: Game)
    requires g.position == Point(870.0, 790.0) && g.goal == g.position
    requires g.walls == MazeWalls()
    ensures Collides(g.position, g.walls)
    ensures Stepped(g).screamed && Stepped(g).next.showScare
    ensures Stepped(g).next.position == g.start && !Stepped(g).next.isMoving
  {
    assert Overlaps(MarkerBox(g.position), g.walls[9]);
  }

  /** The goal area can be entered without touching a wall: at (870, 785) the
      scream plays and the marker stays where it is. */
  lemma GoalReachableWhenClear(g: Game)
    requires g.position == Point(870.0, 785.0) && g.goal == Point(870.0, 790.0)
    requires g.walls == MazeWalls()
    ensures Stepped(g) == FrameOutcome(g.(showScare := true), true)
  {
    GoalApproachClear();
  }

  /** Touching the start arms the marker; moving it to (400, 400) puts it in the
      open corridor between the walls at y 340..370 and y 740..770, so the next
      frame neither restarts nor screams. */
  lemma CorridorScenario()
    ensures var g := Run(Initial(), [PointerMove(Point(10.0, 60.0)),
                                     PointerMove(Point(400.0, 400.0)), Tick]);
            g.position == Point(400.0, 400.0) && g.isMoving && !g.showScare
  {
    var g1 := Moved(Initial(), Point(10.0, 60.0));
    var g2 := Moved(g1, Point(400.0, 400.0));
    assert g2.position == Point(400.0, 400.0) && g2.isMoving;
    MiddleCorridorClear();
    assert Run(Initial(), [PointerMove(Point(10.0, 60.0)),
                           PointerMove(Point(400.0, 400.0)), Tick])
        == Run(g1, [PointerMove(Point(400.0, 400.0)), Tick]);
  }

  // ---------------------------------------------------------------------------
  // GameState: the object the event loop drives

  class GameState {
    var mousePosition: Point
    var initialPosition: Point
    var isMoving: bool
    var walls: seq<Rect>
    var showScare: bool
    var endPosition: Point

    /** The abstract value of this object. */
    function State(): Game
      reads this
    {
      Game(mousePosition, initialPosition, endPosition, walls, isMoving, showScare)
    }

    /** new: the marker at the start point (10, 60), not moving, no scare, the
        goal at (870, 790) and the ten walls of the maze. */
    constructor ()
      ensures State() == Initial()
    {
      var start := Point(10.0, 60.0);
      mousePosition := start;
      initialPosition := start;
      isMoving := false;
      walls := MazeWalls();
      showScare := false;
      endPosition := Point(870.0, 790.0);
    }

    /** check_collision: tries the walls in order and stops at the first one the
        marker overlaps. */
    method CheckCollision() returns (hit: bool)
      ensures hit == Collides(mousePosition, walls)
    {
      var quad := MarkerBox(mousePosition);
      for i := 0 to |walls|
        invariant forall j :: 0 <= j < i ==> !Overlaps(quad, walls[j])
      {
        if Overlaps(quad, walls[i]) {
          return true;
        }
      }
      return false;
    }

    /** restart */
    method Restart()
      modifies this
      ensures State() == Restarted(old(State()))
    {
      mousePosition := initialPosition;
      isMoving := false;
    }

    /** update: screamed reports whether the scream sound was played. */
    method Update() returns (screamed: bool)
      modifies this
      ensures FrameOutcome(State(), screamed) == Stepped(old(State()))
    {
      screamed := false;
      if ReachedEnd(mousePosition, endPosition) {
        screamed := true;
        showScare := true;
      }
      var hit := CheckCollision();
      if hit {
        Restart();
      }
    }

    /** mouse_motion_event with the pointer at (x, y). */
    method MouseMotion(x: real, y: real)
      modifies this
      ensures State() == Moved(old(State()), Point(x, y))
    {
      if !isMoving {
        if WithinArming(initialPosition, Point(x, y)) {
          isMoving := true;
        }
      }
      if isMoving {
        mousePosition := Point(x, y);
      }
    }
  }
}
