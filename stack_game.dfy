/** A model of the stacking core of the 3D box game (src/game.ts).

    The game keeps a tower of layers.  The first layer is a fixed base; the
    top layer slides along one horizontal axis, one fixed step per animation
    frame.  The first click starts the animation loop; every later click
    drops a new full-size layer on top that slides along the other axis.
    The camera climbs with the tower.

    The three.js meshes become `Layer` records, the module-level `stack`,
    `gameStarted` and the camera's height become the fields of class `Game`,
    and the click handler and the frame callback become its methods.  Each
    method is tied to a pure transition function on `Session` values, and
    the properties of the game are proved about those functions. */
module StackGame {

  /** Width and depth of every layer (originalBoxSize). */
  const OriginalBoxSize: real := 3.0
  /** Height of one layer (boxHeight). */
  const BoxHeight: real := 1.0
  /** How far the top layer, and a climbing camera, move per frame. */
  const Speed: real := 0.15
  /** The camera's starting height, and its height above the second layer. */
  const InitCameraHeight: real := 4.0
  /** Where a newly spawned layer starts on its movement axis. */
  const SpawnOffset: real := -10.0

  /** The horizontal axis a layer moves along. */
  datatype Axis = X | Z

  function Opposite(a: Axis): (r: Axis)
    ensures r != a
  {
    if a == X then Z else X
  }

  /** A layer of the tower: the position of its mesh, its extent and the
      axis it moves along while it is on top. */
  datatype Layer = Layer(x: real, y: real, z: real, width: real, depth: real, direction: Axis)

  /** The coordinate of `l` along axis `a`. */
  function Along(l: Layer, a: Axis): real {
    if a == X then l.x else l.z
  }

  /** The height at which the layer with index `level` is placed. */
  function LevelHeight(level: nat): real {
    BoxHeight * level as real
  }

  /** The fixed base layer pushed first by gameInit. */
  const Base: Layer := Layer(0.0, LevelHeight(0), 0.0, OriginalBoxSize, OriginalBoxSize, X)

  /** The first moving layer pushed by gameInit: it stands at x = -10 but
      moves along z. */
  const FirstMover: Layer := Layer(SpawnOffset, LevelHeight(1), 0.0, OriginalBoxSize, OriginalBoxSize, Z)

  /** The layer a click places on top of `top` when the stack holds `level`
      layers. */
  function NextLayer(top: Layer, level: nat): (l: Layer)
    ensures l.direction == Opposite(top.direction)
    ensures Along(l, l.direction) == SpawnOffset && Along(l, top.direction) == 0.0
    ensures l.y == LevelHeight(level)
    ensures l.width == OriginalBoxSize && l.depth == OriginalBoxSize
  {
    var nextX := if top.direction == X then 0.0 else SpawnOffset;
    var nextZ := if top.direction == Z then 0.0 else SpawnOffset;
    Layer(nextX, LevelHeight(level), nextZ, OriginalBoxSize, OriginalBoxSize, Opposite(top.direction))
  }

  /** The top layer one frame later. */
  function Advance(l: Layer): (r: Layer)
    ensures Along(r, l.direction) == Along(l, l.direction) + Speed
    ensures Along(r, Opposite(l.direction)) == Along(l, Opposite(l.direction))
    ensures r.y == l.y && r.width == l.width && r.depth == l.depth && r.direction == l.direction
  {
    if l.direction == X then l.(x := l.x + Speed) else l.(z := l.z + Speed)
  }

  /** The height the camera climbs to while the stack holds `count` layers. */
  function CameraTarget(count: nat): real {
    BoxHeight * (count as real - 2.0) + InitCameraHeight
  }

  /** The camera's height one frame later: it never goes down, and it goes
      up, by exactly one step, precisely when it is below the target. */
  function CameraStep(cameraY: real, count: nat): (r: real)
    ensures cameraY <= r
    ensures r != cameraY <==> cameraY < CameraTarget(count)
    ensures r != cameraY ==> r == cameraY + Speed
  {
    if cameraY < CameraTarget(count) then cameraY + Speed else cameraY
  }

  /** A layer resting where it was placed: its height is its index and it
      has full size. */
  predicate InPlace(l: Layer, level: nat) {
    l.y == LevelHeight(level) && l.width == OriginalBoxSize && l.depth == OriginalBoxSize
  }

  /** A layer spawned by a click: still at 0 across its axis, and at or
      beyond the spawn point along it. */
  predicate OnTrack(l: Layer) {
    Along(l, Opposite(l.direction)) == 0.0 && Along(l, l.direction) >= SpawnOffset
  }

  /** The invariant of the tower. */
  predicate WellFormed(stack: seq<Layer>) {
    && |stack| >= 2
    && stack[0] == Base
    && stack[1].x == SpawnOffset && stack[1].z >= 0.0
    && (forall i :: 0 <= i < |stack| ==> InPlace(stack[i], i))
    && (forall i :: 0 <= i < |stack| - 1 ==> stack[i].direction != stack[i + 1].direction)
    && (forall i :: 2 <= i < |stack| ==> OnTrack(stack[i]))
  }

  /** The whole state of a game: whether it has started, the tower, and the
      camera's height. */
  datatype Session = Session(started: bool, stack: seq<Layer>, cameraY: real)

  /** The invariant of a game: a well-formed tower and a camera that is at
      least at its starting height and at most one step above its target. */
  predicate ValidSession(s: Session) {
    && WellFormed(s.stack)
    && InitCameraHeight <= s.cameraY < CameraTarget(|s.stack|) + Speed
  }

  /** The state gameInit leaves behind. */
  const Initial: Session := Session(false, [Base, FirstMover], InitCameraHeight)

  /** The click handler: the first click only starts the game, every later
      click pushes one new layer. */
  function ClickStep(s: Session): (t: Session)
    requires s.stack != []
    ensures t.started && t.cameraY == s.cameraY
    ensures !s.started ==> t.stack == s.stack
    ensures s.started ==> t.stack == s.stack + [NextLayer(s.stack[|s.stack| - 1], |s.stack|)]
  {
    if !s.started then s.(started := true)
    else s.(stack := s.stack + [NextLayer(s.stack[|s.stack| - 1], |s.stack|)])
  }

  /** The frame callback: the top layer advances and the camera may climb;
      every lower layer and the started flag stay as they are. */
  function AnimateStep(s: Session): (t: Session)
    requires s.stack != []
    ensures t.started == s.started && |t.stack| == |s.stack|
    ensures t.stack[..|s.stack| - 1] == s.stack[..|s.stack| - 1]
    ensures t.stack[|s.stack| - 1] == Advance(s.stack[|s.stack| - 1])
    ensures t.cameraY == CameraStep(s.cameraY, |s.stack|)
  {
    var n := |s.stack|;
    s.(stack := s.stack[..n - 1] + [Advance(s.stack[n - 1])],
       cameraY := CameraStep(s.cameraY, n))
  }

  /** What can happen to a game: a click, or a presented frame. */
  datatype Event = Click | Frame

  /** One event.  Frames only animate once the first click has registered
      the animation loop. */
  function Step(s: Session, e: Event): (t: Session)
    requires s.stack != []
    ensures |t.stack| >= |s.stack|
    ensures e == Frame && !s.started ==> t == s
  {
    match e
    case Click => ClickStep(s)
    case Frame => if s.started then AnimateStep(s) else s
  }

  /** The game after a sequence of events. */
  function Run(s: Session, events: seq<Event>): (t: Session)
    requires s.stack != []
    ensures |t.stack| >= |s.stack|
    decreases |events|
  {
    if events == [] then s else Run(Step(s, events[0]), events[1..])
  }

  /** The number of clicks in `events`. */
  function Clicks(events: seq<Event>): nat
    decreases |events|
  {
    if events == [] then 0
    else (if events[0] == Click then 1 else 0) + Clicks(events[1..])
  }

  /** How many layers `clicks` clicks add: all of them once the game has
      started, all but the first otherwise. */
  function LayersAdded(started: bool, clicks: nat): nat {
    if started || clicks == 0 then clicks else clicks - 1
  }

  /** Adjacent layers alternate, so the base and every even layer move along
      x and every odd layer along z. */
  lemma {:induction false} DirectionParity(stack: seq<Layer>, i: nat)
    requires WellFormed(stack) && i < |stack|
    ensures stack[i].direction == if i % 2 == 0 then X else Z
  {
    if i > 0 {
      DirectionParity(stack, i - 1);
      assert stack[i - 1].direction != stack[i].direction;
    }
  }

  lemma InitialIsValid()
    ensures ValidSession(Initial)
  {
  }

  /** A click keeps the invariant. */
  lemma ClickPreserves(s: Session)
    requires ValidSession(s)
    ensures ValidSession(ClickStep(s))
  {
  }

  /** A frame keeps the invariant. */
  lemma AnimatePreserves(s: Session)
    requires ValidSession(s)
    ensures ValidSession(AnimateStep(s))
  {
  }

  /** Every event keeps the invariant. */
  lemma StepPreserves(s: Session, e: Event)
    requires ValidSession(s)
    ensures ValidSession(Step(s, e))
  {
  }

  /** Every sequence of events keeps the invariant. */
  lemma {:induction false} RunPreserves(s: Session, events: seq<Event>)
    requires ValidSession(s)
    ensures ValidSession(Run(s, events))
    decreases |events|
  {
    if events != [] {
      StepPreserves(s, events[0]);
      RunPreserves(Step(s, events[0]), events[1..]);
    }
  }

  /** The game has started exactly when some click happened, and the tower
      grew by one layer per click except the click that started the game. */
  lemma {:induction false} RunCounts(s: Session, events: seq<Event>)
    requires s.stack != []
    ensures Run(s, events).started == (s.started || Clicks(events) > 0)
    ensures |Run(s, events).stack| == |s.stack| + LayersAdded(s.started, Clicks(events))
    decreases |events|
  {
    if events != [] {
      RunCounts(Step(s, events[0]), events[1..]);
    }
  }

  /** Nothing is undone: the started flag never resets, the tower never
      shrinks, every layer below the top keeps its place, and the camera
      never goes down. */
  lemma {:induction false} RunMonotone(s: Session, events: seq<Event>)
    requires s.stack != []
    ensures s.started ==> Run(s, events).started
    ensures |Run(s, events).stack| >= |s.stack|
    ensures Run(s, events).stack[..|s.stack| - 1] == s.stack[..|s.stack| - 1]
    ensures Run(s, events).cameraY >= s.cameraY
    decreases |events|
  {
    if events != [] {
      var u := Step(s, events[0]);
      RunMonotone(u, events[1..]);
      var t := Run(u, events[1..]);
      assert u.stack[..|s.stack| - 1] == s.stack[..|s.stack| - 1];
      assert t.stack[..|s.stack| - 1] == t.stack[..|u.stack| - 1][..|s.stack| - 1];
    }
  }

  /** What holds of every game reachable from gameInit: the counts, the
      heights, the alternation of directions and the untouched base. */
  lemma Reachable(events: seq<Event>)
    ensures var t := Run(Initial, events);
      && t.started == (Clicks(events) > 0)
      && |t.stack| == 2 + LayersAdded(false, Clicks(events))
      && t.stack[0] == Base
      && (forall i :: 0 <= i < |t.stack| ==> t.stack[i].y == i as real)
      && (forall i :: 0 <= i < |t.stack| - 1 ==> t.stack[i].direction != t.stack[i + 1].direction)
      && t.cameraY >= InitCameraHeight
  {
    InitialIsValid();
    RunPreserves(Initial, events);
    RunCounts(Initial, events);
    var t := Run(Initial, events);
    forall i | 0 <= i < |t.stack|
      ensures t.stack[i].y == i as real
    {
      assert InPlace(t.stack[i], i);
    }
  }

  /** Two clicks after gameInit: the first starts the game, the second puts
      a layer moving along x at x = -10 on the z-moving first mover; a third
      puts one moving along z at z = -10 on top of that. */
  lemma ThreeClicks()
    ensures Run(Initial, [Click, Click]).stack
            == [Base, FirstMover, Layer(SpawnOffset, 2.0, 0.0, OriginalBoxSize, OriginalBoxSize, X)]
    ensures Run(Initial, [Click, Click, Click]).stack
            == [Base, FirstMover, Layer(SpawnOffset, 2.0, 0.0, OriginalBoxSize, OriginalBoxSize, X),
                Layer(0.0, 3.0, SpawnOffset, OriginalBoxSize, OriginalBoxSize, Z)]
  {
  }

  /** The game of src/game.ts: the module-level state and its callbacks. */
  class Game {
    var started: bool
    var stack: seq<Layer>
    var cameraY: real

    /** The state of this game as a value. */
    function Snapshot(): Session
      reads this
    {
      Session(started, stack, cameraY)
    }

    ghost predicate Valid()
      reads this
    {
      ValidSession(Snapshot())
    }

    /** gameInit: the base, then the first moving layer; the camera starts
        at its initial height and the game has not started. */
    constructor Init()
      ensures Valid()
      ensures !started && cameraY == InitCameraHeight
      ensures stack == [Base, FirstMover]
    {
      started := false;
      stack := [];
      cameraY := InitCameraHeight;
      new;
      AddLayer(0.0, 0.0, OriginalBoxSize, OriginalBoxSize, X);
      AddLayer(SpawnOffset, 0.0, OriginalBoxSize, OriginalBoxSize, Z);
      InitialIsValid();
    }

    /** addLayer: push one layer at the height given by the current stack
        length; nothing else changes. */
    method AddLayer(x: real, z: real, width: real, depth: real, direction: Axis)
      modifies this
      ensures stack == old(stack) + [Layer(x, LevelHeight(|old(stack)|), z, width, depth, direction)]
      ensures started == old(started) && cameraY == old(cameraY)
    {
      var y := BoxHeight * |stack| as real;
      var layer := Layer(x, y, z, width, depth, direction);
      stack := stack + [layer];
    }

    /** The click handler. */
    method Click()
      requires Valid()
      modifies this
      ensures Valid()
      ensures Snapshot() == ClickStep(old(Snapshot()))
      ensures started && cameraY == old(cameraY)
      ensures stack == if old(started) then old(stack) + [NextLayer(old(stack)[|old(stack)| - 1], |old(stack)|)]
                       else old(stack)
    {
      if !started {
        started := true;
      } else {
        var topLayer := stack[|stack| - 1];
        var direction := topLayer.direction;
        var nextX := if direction == X then 0.0 else SpawnOffset;
        var nextZ := if direction == Z then 0.0 else SpawnOffset;
        var nextDirection := if direction == X then Z else X;
        AddLayer(nextX, nextZ, OriginalBoxSize, OriginalBoxSize, nextDirection);
      }
      ClickPreserves(old(Snapshot()));
    }

    /** The frame callback `animate`.  It runs only once the first click
        has registered the animation loop. */
    method Animate()
      requires Valid() && started
      modifies this
      ensures Valid()
      ensures Snapshot() == AnimateStep(old(Snapshot()))
      ensures started == old(started) && |stack| == |old(stack)|
      ensures stack[..|stack| - 1] == old(stack)[..|stack| - 1]
      ensures stack[|stack| - 1] == Advance(old(stack)[|stack| - 1])
      ensures cameraY == CameraStep(old(cameraY), |stack|)
    {
      var topLayer := stack[|stack| - 1];
      var moved := if topLayer.direction == X then topLayer.(x := topLayer.x + Speed)
                   else topLayer.(z := topLayer.z + Speed);
      stack := stack[..|stack| - 1] + [moved];
      if cameraY < BoxHeight * (|stack| as real - 2.0) + InitCameraHeight {
        cameraY := cameraY + Speed;
      }
      AnimatePreserves(old(Snapshot()));
    }
  }
}
