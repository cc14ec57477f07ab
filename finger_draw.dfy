/** The per-frame glue of the finger-drawing loop: the draw state (previous
    fingertip, canvas, colour, brush thickness), the pen-up/pen-down update
    applied to each frame's hand observation, and the keyboard commands. */
module FingerDraw {
  import opened HandGesture

  datatype Option<T> = None | Some(value: T)

  /** A pixel position, already truncated to integers. */
  datatype Point = Point(x: int, y: int)

  /** A stroke colour in OpenCV's blue-green-red channel order. */
  datatype Bgr = Bgr(b: int, g: int, r: int)

  const Red := Bgr(0, 0, 255)
  const Green := Bgr(0, 255, 0)
  const Blue := Bgr(255, 0, 0)

  const InitialThickness := 5
  const MinThickness := 1
  const MaxThickness := 30
  const ThicknessStep := 2

  /** One straight line drawn on the canvas. The canvas is modelled by the
      segments drawn on it since it was last all-zero, in drawing order. */
  datatype Segment = Segment(from: Point, to: Point, color: Bgr, thickness: int)

  /** What the detector reports for one frame: no hand, or one hand with its
      landmark y-values and its index fingertip in pixels. */
  datatype Observation = NoHand | Hand(landmarks: LandmarkYs, tip: Point)

  /** The loop's mutable variables as one value. `prev` is None while the pen is up. */
  datatype DrawState = DrawState(prev: Option<Point>, canvas: seq<Segment>, color: Bgr, thickness: int)

  /** One pass of the loop: a frame observation and the raw result of polling
      the keyboard (-1 when no key was pressed). */
  datatype Tick = Tick(obs: Observation, rawKey: int)

  /** Where a run of the loop ends: the final state, the number of ticks it
      processed, and whether it ended on the quit key (otherwise the frame
      source ran dry). */
  datatype Outcome = Outcome(final: DrawState, consumed: nat, quit: bool)

  /** Empty canvas, green, thickness 5, pen up. */
  const Initial := DrawState(None, [], Green, InitialThickness)

  /** The settings every reachable state keeps: a preset colour and a
      thickness within the clamp bounds. */
  predicate Settled(s: DrawState) {
    s.color in {Red, Green, Blue} && MinThickness <= s.thickness <= MaxThickness
  }

  predicate IsOpenFrame(o: Observation) {
    o.Hand? && HandOpen(o.landmarks)
  }

  // ---------------------------------------------------------------------------
  // Frame update

  /** The pen-up/pen-down update for one frame. It keeps the settings, only
      ever appends to the canvas, appends at most one segment, and leaves the
      pen down exactly when the hand is open. */
  function FrameStep(s: DrawState, o: Observation): (r: DrawState)
    ensures r.color == s.color && r.thickness == s.thickness
    ensures s.canvas <= r.canvas && |r.canvas| <= |s.canvas| + 1
    ensures r.prev.Some? <==> IsOpenFrame(o)
  {
    match o
    case NoHand => s.(prev := None)
    case Hand(ys, tip) =>
      if !HandOpen(ys) then s.(prev := None)
      else if s.prev.None? then s.(prev := Some(tip))
      else s.(prev := Some(tip), canvas := s.canvas + [Segment(s.prev.value, tip, s.color, s.thickness)])
  }

  // ---------------------------------------------------------------------------
  // Keyboard

  /** `cv2.waitKey(1) & 0xFF`: the low byte of the polled key code. */
  function KeyCode(raw: int): (k: int)
    ensures 0 <= k < 256
    ensures 0 <= raw < 256 ==> k == raw
    ensures raw == -1 ==> k == 255
    ensures (raw - k) % 256 == 0
  {
    raw % 256
  }

  /** `min(t + 2, 30)`: never above 30, never below where it started or 1,
      and strictly larger while below 30. */
  function Grow(t: int): (r: int)
    ensures r <= MaxThickness
    ensures MinThickness <= t ==> MinThickness <= r
    ensures t < MaxThickness ==> t < r
  {
    if t + ThicknessStep < MaxThickness then t + ThicknessStep else MaxThickness
  }

  /** `max(t - 2, 1)`: never below 1, never above 30 once within it, and
      strictly smaller while above 1. */
  function Shrink(t: int): (r: int)
    ensures MinThickness <= r
    ensures t <= MaxThickness ==> r <= MaxThickness
    ensures t > MinThickness ==> r < t
  {
    if t - ThicknessStep > MinThickness then t - ThicknessStep else MinThickness
  }

  /** The keys the loop reacts to. */
  predicate IsCommandKey(k: int) {
    k in {'q' as int, 'c' as int, 'r' as int, 'g' as int, 'b' as int,
          '+' as int, '=' as int, '-' as int, '_' as int}
  }

  /** The command for one key byte: the new state and whether to quit. No key
      moves the pen; the canvas is either kept or emptied; only `q` quits. */
  function KeyStep(s: DrawState, k: int): (r: (DrawState, bool))
    ensures r.0.prev == s.prev
    ensures r.0.canvas == s.canvas || r.0.canvas == []
    ensures r.1 <==> k == 'q' as int
  {
    if k == 'q' as int then (s, true)
    else if k == 'c' as int then (s.(canvas := []), false)
    else if k == 'r' as int then (s.(color := Red), false)
    else if k == 'g' as int then (s.(color := Green), false)
    else if k == 'b' as int then (s.(color := Blue), false)
    else if k == '+' as int || k == '=' as int then (s.(thickness := Grow(s.thickness)), false)
    else if k == '-' as int || k == '_' as int then (s.(thickness := Shrink(s.thickness)), false)
    else (s, false)
  }

  // ---------------------------------------------------------------------------
  // The loop

  /** One iteration: the frame's drawing first, then the key. The pen state
      is the one the frame left, and the iteration quits exactly on `q`. */
  function TickStep(s: DrawState, t: Tick): (r: (DrawState, bool))
    ensures r.0.prev.Some? <==> IsOpenFrame(t.obs)
    ensures r.1 <==> KeyCode(t.rawKey) == 'q' as int
  {
    KeyStep(FrameStep(s, t.obs), KeyCode(t.rawKey))
  }

  /** The loop over a finite stream of ticks: it stops after the first tick
      whose key is quit, or when the ticks run out. */
  function Run(s: DrawState, ticks: seq<Tick>): (r: Outcome)
    ensures r.consumed <= |ticks|
    ensures r.quit ==> 0 < r.consumed && KeyCode(ticks[r.consumed - 1].rawKey) == 'q' as int
    ensures !r.quit ==> r.consumed == |ticks|
    ensures forall i :: 0 <= i < r.consumed - 1 ==> KeyCode(ticks[i].rawKey) != 'q' as int
    ensures !r.quit ==> forall i :: 0 <= i < |ticks| ==> KeyCode(ticks[i].rawKey) != 'q' as int
    decreases |ticks|
  {
    if ticks == [] then Outcome(s, 0, false)
    else
      var (next, quit) := TickStep(s, ticks[0]);
      if quit then Outcome(next, 1, true)
      else
        var rest := Run(next, ticks[1..]);
        Outcome(rest.final, rest.consumed + 1, rest.quit)
  }

  /** Frames alone, with no key pressed in between. The settings are kept,
      the canvas only grows, and the pen ends down iff the last frame is open. */
  function RunFrames(s: DrawState, obs: seq<Observation>): (r: DrawState)
    ensures r.color == s.color && r.thickness == s.thickness
    ensures s.canvas <= r.canvas
    ensures obs == [] ==> r == s
    ensures obs != [] ==> (r.prev.Some? <==> IsOpenFrame(obs[|obs| - 1]))
    decreases |obs|
  {
    if obs == [] then s else RunFrames(FrameStep(s, obs[0]), obs[1..])
  }

  // ---------------------------------------------------------------------------
  // The session object: the loop's variables, updated in place

  class Session {
    var prev: Option<Point>
    var canvas: seq<Segment>
    var color: Bgr
    var thickness: int

    function State(): DrawState
      reads this
    {
      DrawState(prev, canvas, color, thickness)
    }

    ghost predicate Valid()
      reads this
    {
      Settled(State())
    }

    constructor ()
      ensures Valid()
      ensures State() == Initial
    {
      prev := None;
      canvas := [];
      color := Green;
      thickness := InitialThickness;
    }

    /** Apply one frame's hand observation. */
    method Frame(obs: Observation)
      requires Valid()
      modifies this
      ensures Valid()
      ensures State() == FrameStep(old(State()), obs)
    {
      if obs.Hand? {
        var open := IsHandOpen(obs.landmarks);
        if open {
          if prev.Some? {
            canvas := canvas + [Segment(prev.value, obs.tip, color, thickness)];
          }
          prev := Some(obs.tip);
        } else {
          prev := None;
        }
      } else {
        prev := None;
      }
    }

    /** Apply one key byte; `quit` reports the quit command. */
    method Key(k: int) returns (quit: bool)
      requires Valid()
      modifies this
      ensures Valid()
      ensures (State(), quit) == KeyStep(old(State()), k)
    {
      quit := false;
      if k == 'q' as int {
        quit := true;
      } else if k == 'c' as int {
        canvas := [];
      } else if k == 'r' as int {
        color := Red;
      } else if k == 'g' as int {
        color := Green;
      } else if k == 'b' as int {
        color := Blue;
      } else if k == '+' as int || k == '=' as int {
        thickness := Grow(thickness);
      } else if k == '-' as int || k == '_' as int {
        thickness := Shrink(thickness);
      }
    }

    /** One pass of the loop body. */
    method Step(t: Tick) returns (quit: bool)
      requires Valid()
      modifies this
      ensures Valid()
      ensures (State(), quit) == TickStep(old(State()), t)
    {
      Frame(t.obs);
      quit := Key(KeyCode(t.rawKey));
    }

    /** The main loop over the ticks the camera and keyboard deliver; returns
        how many ticks it processed and whether it stopped on the quit key. */
    method Loop(ticks: seq<Tick>) returns (processed: nat, quit: bool)
      requires Valid()
      modifies this
      ensures Valid()
      ensures Run(old(State()), ticks) == Outcome(State(), processed, quit)
    {
      ghost var start := State();
      processed := 0;
      quit := false;
      while processed < |ticks| && !quit
        invariant processed <= |ticks|
        invariant Valid()
        invariant quit ==> Run(start, ticks) == Outcome(State(), processed, true)
        invariant !quit ==>
          var rest := Run(State(), ticks[processed..]);
          Run(start, ticks) == Outcome(rest.final, rest.consumed + processed, rest.quit)
        decreases |ticks| - processed
      {
        assert ticks[processed..][0] == ticks[processed];
        assert ticks[processed..][1..] == ticks[processed + 1..];
        quit := Step(ticks[processed]);
        processed := processed + 1;
      }
    }
  }
}
