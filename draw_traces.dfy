/** Properties of the draw loop: the single-frame transition table, what a
    sequence of frames draws, the settings invariant, and the keyboard
    commands, stated over the step functions of FingerDraw. */
module DrawTraces {
  import opened HandGesture
  import opened FingerDraw

  // ---------------------------------------------------------------------------
  // One frame

  /** No hand, or a closed hand, lifts the pen and draws nothing. */
  lemma PenUp(s: DrawState, o: Observation)
    requires !IsOpenFrame(o)
    ensures FrameStep(s, o) == s.(prev := None)
  {
  }

  /** An open hand while the pen is up only records the fingertip. */
  lemma PenDownDrawsNothing(s: DrawState, o: Observation)
    requires IsOpenFrame(o) && s.prev.None?
    ensures FrameStep(s, o) == s.(prev := Some(o.tip))
  {
  }

  /** An open hand while the pen is down adds exactly one segment, from the
      previous point to the fingertip, in the current colour and thickness. */
  lemma PenDownDraws(s: DrawState, o: Observation)
    requires IsOpenFrame(o) && s.prev.Some?
    ensures FrameStep(s, o) ==
      s.(prev := Some(o.tip), canvas := s.canvas + [Segment(s.prev.value, o.tip, s.color, s.thickness)])
  {
  }

  /** A frame adds a segment exactly when this frame and the pen state left
      by the previous frame are both "open", and otherwise leaves the canvas
      as it was. */
  lemma FrameOnlyAppends(s: DrawState, o: Observation)
    ensures var r := FrameStep(s, o);
      (|r.canvas| == |s.canvas| + 1 <==> s.prev.Some? && IsOpenFrame(o)) &&
      (r.canvas == s.canvas <==> !(s.prev.Some? && IsOpenFrame(o)))
  {
  }

  // ---------------------------------------------------------------------------
  // A sequence of frames

  /** Frame i and the frame before it both show an open hand. */
  predicate OpenAfterOpen(obs: seq<Observation>, i: nat) {
    0 < i < |obs| && IsOpenFrame(obs[i - 1]) && IsOpenFrame(obs[i])
  }

  /** Indices of the open frames immediately preceded by an open frame. */
  function ConsecutiveOpen(obs: seq<Observation>): set<nat> {
    set i: nat | i < |obs| && OpenAfterOpen(obs, i)
  }

  /** The segments joining the fingertips of every pair of consecutive open
      frames, in order: a description of the drawing that does not mention
      the previous-point variable. */
  function Strokes(obs: seq<Observation>, color: Bgr, thickness: int): seq<Segment>
    decreases |obs|
  {
    if |obs| < 2 then []
    else
      var n := |obs|;
      Strokes(obs[..n - 1], color, thickness) +
        (if IsOpenFrame(obs[n - 2]) && IsOpenFrame(obs[n - 1])
         then [Segment(obs[n - 2].tip, obs[n - 1].tip, color, thickness)]
         else [])
  }

  /** There is one stroke per pair of consecutive open frames. */
  lemma {:induction false} StrokeCount(obs: seq<Observation>, color: Bgr, thickness: int)
    ensures |Strokes(obs, color, thickness)| == |ConsecutiveOpen(obs)|
    decreases |obs|
  {
    if |obs| < 2 {
      assert ConsecutiveOpen(obs) == {};
    } else {
      var n := |obs|;
      StrokeCount(obs[..n - 1], color, thickness);
      ConsecutiveOpenSnoc(obs);
    }
  }

  /** Extending a frame sequence by one frame adds its index to the
      consecutive-open set exactly when it and the frame before are open. */
  lemma ConsecutiveOpenSnoc(obs: seq<Observation>)
    requires |obs| >= 2
    ensures var n := |obs|;
      ConsecutiveOpen(obs) ==
        ConsecutiveOpen(obs[..n - 1]) + (if OpenAfterOpen(obs, n - 1) then {n - 1} else {})
  {
    var n := |obs|;
    var front := obs[..n - 1];
    forall i: nat | i < n - 1
      ensures OpenAfterOpen(obs, i) == OpenAfterOpen(front, i)
    {
      if 0 < i {
        assert front[i - 1] == obs[i - 1] && front[i] == obs[i];
      }
    }
  }

  /** The strokes drawn from a pen state: when the pen is down at `start`,
      that point acts as one more open frame before `obs`. */
  function StrokesAfter(start: Option<Point>, obs: seq<Observation>, color: Bgr, thickness: int): seq<Segment> {
    (if start.Some? && obs != [] && IsOpenFrame(obs[0])
     then [Segment(start.value, obs[0].tip, color, thickness)]
     else []) + Strokes(obs, color, thickness)
  }

  /** Running the frames one more frame is one more FrameStep. */
  lemma {:induction false} RunFramesSnoc(s: DrawState, obs: seq<Observation>, o: Observation)
    ensures RunFrames(s, obs + [o]) == FrameStep(RunFrames(s, obs), o)
    decreases |obs|
  {
    if obs != [] {
      assert (obs + [o])[1..] == obs[1..] + [o];
      RunFramesSnoc(FrameStep(s, obs[0]), obs[1..], o);
    }
  }

  /** From any pen state, a sequence of frames draws exactly the strokes
      between consecutive open frames (the pen-down point counting as an open
      frame before the first), in order, in the current colour and thickness,
      and leaves the pen down on the last fingertip iff the last frame is open. */
  lemma {:induction false} FramesDrawStrokes(s: DrawState, obs: seq<Observation>)
    ensures var r := RunFrames(s, obs);
      r.canvas == s.canvas + StrokesAfter(s.prev, obs, s.color, s.thickness) &&
      (obs != [] ==> r.prev == if IsOpenFrame(obs[|obs| - 1]) then Some(obs[|obs| - 1].tip) else None)
    decreases |obs|
  {
    if obs != [] {
      var n := |obs|;
      var front := obs[..n - 1];
      var o := obs[n - 1];
      assert obs == front + [o];
      FramesDrawStrokes(s, front);
      RunFramesSnoc(s, front, o);
      var c, t := s.color, s.thickness;
      if n == 1 {
        assert Strokes(obs, c, t) == [];
      } else {
        assert front[0] == obs[0] && front[n - 2] == obs[n - 2];
        var head := if s.prev.Some? && IsOpenFrame(obs[0]) then [Segment(s.prev.value, obs[0].tip, c, t)] else [];
        var last := if IsOpenFrame(obs[n - 2]) && IsOpenFrame(o) then [Segment(obs[n - 2].tip, o.tip, c, t)] else [];
        assert StrokesAfter(s.prev, obs, c, t) == StrokesAfter(s.prev, front, c, t) + last by {
          assert Strokes(obs, c, t) == Strokes(front, c, t) + last;
          assert head + (Strokes(front, c, t) + last) == (head + Strokes(front, c, t)) + last;
        }
      }
    }
  }

  /** Starting a session, the number of segments drawn by a sequence of
      frames is the number of open frames immediately preceded by an open
      frame. */
  lemma SegmentCountFromStart(obs: seq<Observation>)
    ensures |RunFrames(Initial, obs).canvas| == |ConsecutiveOpen(obs)|
  {
    FramesDrawStrokes(Initial, obs);
    assert StrokesAfter(None, obs, Initial.color, Initial.thickness) == Strokes(obs, Initial.color, Initial.thickness);
    StrokeCount(obs, Initial.color, Initial.thickness);
  }

  /** The frames of a tick sequence. */
  function Observations(ticks: seq<Tick>): seq<Observation> {
    seq(|ticks|, i requires 0 <= i < |ticks| => ticks[i].obs)
  }

  /** When no polled key is a command, the loop runs every tick and does
      exactly what the frames alone do. */
  lemma {:induction false} KeylessRunIsFrames(s: DrawState, ticks: seq<Tick>)
    requires forall i :: 0 <= i < |ticks| ==> !IsCommandKey(KeyCode(ticks[i].rawKey))
    ensures Run(s, ticks) == Outcome(RunFrames(s, Observations(ticks)), |ticks|, false)
    decreases |ticks|
  {
    if ticks != [] {
      IgnoredKeyChangesNothing(FrameStep(s, ticks[0].obs), KeyCode(ticks[0].rawKey));
      KeylessRunIsFrames(FrameStep(s, ticks[0].obs), ticks[1..]);
      assert Observations(ticks)[1..] == Observations(ticks[1..]);
    }
  }

  /** The endpoints of each segment, with colour and thickness forgotten. */
  function Ends(segs: seq<Segment>): seq<(Point, Point)> {
    seq(|segs|, i requires 0 <= i < |segs| => (segs[i].from, segs[i].to))
  }

  lemma EndsAppend(a: seq<Segment>, b: seq<Segment>)
    ensures Ends(a + b) == Ends(a) + Ends(b)
  {
  }

  /** Keys other than clear and quit (colour, thickness or no command) never
      move the pen or change where segments go: a run with such keys has the
      pen and the segment endpoints of the frames run alone. */
  lemma {:induction false} KeysKeepStrokeGeometry(s: DrawState, s': DrawState, ticks: seq<Tick>)
    requires s.prev == s'.prev && Ends(s.canvas) == Ends(s'.canvas)
    requires forall i :: 0 <= i < |ticks| ==> KeyCode(ticks[i].rawKey) != 'c' as int && KeyCode(ticks[i].rawKey) != 'q' as int
    ensures Run(s, ticks).final.prev == RunFrames(s', Observations(ticks)).prev
    ensures Ends(Run(s, ticks).final.canvas) == Ends(RunFrames(s', Observations(ticks)).canvas)
    decreases |ticks|
  {
    if ticks != [] {
      var o := ticks[0].obs;
      var f, f' := FrameStep(s, o), FrameStep(s', o);
      assert f.prev == f'.prev;
      if s.prev.Some? && IsOpenFrame(o) {
        EndsAppend(s.canvas, [Segment(s.prev.value, o.tip, s.color, s.thickness)]);
        EndsAppend(s'.canvas, [Segment(s'.prev.value, o.tip, s'.color, s'.thickness)]);
      }
      var k := KeyCode(ticks[0].rawKey);
      var next := KeyStep(f, k).0;
      assert next.canvas == f.canvas;
      KeysKeepStrokeGeometry(next, f', ticks[1..]);
      assert Observations(ticks)[1..] == Observations(ticks[1..]);
    }
  }

  /** With colour and thickness keys pressed at any point (but no clear and no
      quit), the loop runs every tick and draws a segment exactly between the
      fingertips of consecutive open frames, in order. */
  lemma StrokesDespiteKeys(s: DrawState, ticks: seq<Tick>)
    requires forall i :: 0 <= i < |ticks| ==> KeyCode(ticks[i].rawKey) != 'c' as int && KeyCode(ticks[i].rawKey) != 'q' as int
    ensures var r := Run(s, ticks);
      r.consumed == |ticks| &&
      Ends(r.final.canvas) == Ends(s.canvas) + Ends(StrokesAfter(s.prev, Observations(ticks), s.color, s.thickness)) &&
      |r.final.canvas| == |s.canvas| + |StrokesAfter(s.prev, Observations(ticks), s.color, s.thickness)|
  {
    var obs := Observations(ticks);
    KeysKeepStrokeGeometry(s, s, ticks);
    FramesDrawStrokes(s, obs);
    EndsAppend(s.canvas, StrokesAfter(s.prev, obs, s.color, s.thickness));
    assert |Ends(Run(s, ticks).final.canvas)| == |Run(s, ticks).final.canvas|;
  }

  // ---------------------------------------------------------------------------
  // Keyboard commands

  /** The mask keeps only the low byte: a key code carrying modifier bits
      above the byte still reads as its letter. */
  lemma ModifierBitsMasked()
    ensures KeyCode(0x10_0071) == 'q' as int
    ensures KeyCode(0x10_0000 + 'c' as int) == 'c' as int
  {
  }

  /** A key byte that is not one of the nine command keys changes nothing. */
  lemma IgnoredKeyChangesNothing(s: DrawState, k: int)
    requires !IsCommandKey(k)
    ensures KeyStep(s, k) == (s, false)
  {
  }

  /** Polling with no key pressed (-1) changes nothing. */
  lemma NoKeyChangesNothing(s: DrawState)
    ensures KeyStep(s, KeyCode(-1)) == (s, false)
  {
  }

  /** `c` empties the canvas, back to the session's initial canvas, and keeps
      the pen state, colour and thickness. */
  lemma ClearResetsOnlyCanvas(s: DrawState)
    ensures var (r, quit) := KeyStep(s, 'c' as int);
      !quit && r.canvas == Initial.canvas && r.prev == s.prev &&
      r.color == s.color && r.thickness == s.thickness
  {
  }

  /** `r`, `g`, `b` select exactly one preset each, whatever the previous
      colour, and touch nothing else. */
  lemma ColorKeysSelectPresets(s: DrawState)
    ensures KeyStep(s, 'r' as int) == (s.(color := Red), false)
    ensures KeyStep(s, 'g' as int) == (s.(color := Green), false)
    ensures KeyStep(s, 'b' as int) == (s.(color := Blue), false)
    ensures Red != Green && Green != Blue && Red != Blue
  {
  }

  /** No colour key among the ticks. */
  predicate NoColorKey(ticks: seq<Tick>) {
    forall i :: 0 <= i < |ticks| ==>
      KeyCode(ticks[i].rawKey) != 'r' as int && KeyCode(ticks[i].rawKey) != 'g' as int &&
      KeyCode(ticks[i].rawKey) != 'b' as int
  }

  /** Canvas `c` starts with the first `k` segments of `before`, and every
      segment after them is drawn in `color`. */
  predicate OldThenColored(c: seq<Segment>, before: seq<Segment>, color: Bgr, k: nat) {
    k <= |c| && c[..k] <= before && forall j :: k <= j < |c| ==> c[j].color == color
  }

  /** Until the next colour key, the colour stays put and the canvas stays an
      initial part of `before` followed only by segments in that colour: a
      frame's segment is appended after the coloured tail, a clear starts over
      from the empty canvas, every other key keeps it. */
  lemma {:induction false} NewSegmentsKeepColor(s: DrawState, ticks: seq<Tick>, before: seq<Segment>)
    requires NoColorKey(ticks)
    requires exists k :: OldThenColored(s.canvas, before, s.color, k)
    ensures Run(s, ticks).final.color == s.color
    ensures exists k :: OldThenColored(Run(s, ticks).final.canvas, before, s.color, k)
    decreases |ticks|
  {
    if ticks != [] {
      var k: nat :| OldThenColored(s.canvas, before, s.color, k);
      var f := FrameStep(s, ticks[0].obs);
      assert OldThenColored(f.canvas, before, s.color, k) by {
        if f.canvas != s.canvas {
          assert f.canvas == s.canvas + [Segment(s.prev.value, ticks[0].obs.tip, s.color, s.thickness)];
          assert f.canvas[..k] == s.canvas[..k];
        }
      }
      var (next, quit) := KeyStep(f, KeyCode(ticks[0].rawKey));
      if next.canvas == [] {
        assert OldThenColored(next.canvas, before, s.color, 0);
      } else {
        assert OldThenColored(next.canvas, before, s.color, k);
      }
      if !quit {
        assert NoColorKey(ticks[1..]) by {
          forall i | 0 <= i < |ticks[1..]| ensures ticks[1..][i] == ticks[i + 1] { }
        }
        NewSegmentsKeepColor(next, ticks[1..], before);
      }
    }
  }

  /** After `r` then `g`, and until the next colour key, the colour is green
      and the canvas is an initial part of the canvas from before the two keys
      followed only by green segments, whatever frames, thickness, clear or
      quit keys come between. */
  lemma LastColorKeyWins(s: DrawState, ticks: seq<Tick>)
    requires NoColorKey(ticks)
    ensures var afterG := KeyStep(KeyStep(s, 'r' as int).0, 'g' as int).0;
      var r := Run(afterG, ticks).final;
      r.color == Green && exists k :: OldThenColored(r.canvas, s.canvas, Green, k)
  {
    var afterG := KeyStep(KeyStep(s, 'r' as int).0, 'g' as int).0;
    assert OldThenColored(afterG.canvas, s.canvas, Green, |s.canvas|);
    NewSegmentsKeepColor(afterG, ticks, s.canvas);
  }

  /** `+` and `=` apply min(t + 2, 30), `-` and `_` apply max(t - 2, 1), and
      each changes nothing but the thickness. */
  lemma ThicknessKeysChangeOnlyThickness(s: DrawState)
    ensures KeyStep(s, '+' as int) == KeyStep(s, '=' as int) == (s.(thickness := Grow(s.thickness)), false)
    ensures KeyStep(s, '-' as int) == KeyStep(s, '_' as int) == (s.(thickness := Shrink(s.thickness)), false)
    ensures Grow(s.thickness) == if s.thickness + 2 < 30 then s.thickness + 2 else 30
    ensures Shrink(s.thickness) == if s.thickness - 2 > 1 then s.thickness - 2 else 1
  {
  }

  /** A key preserves the settings invariant. */
  lemma KeyKeepsSettled(s: DrawState, k: int)
    requires Settled(s)
    ensures Settled(KeyStep(s, k).0)
  {
  }

  // ---------------------------------------------------------------------------
  // The loop

  /** The quit key ends the loop after that tick's frame was drawn. */
  lemma QuitAfterDrawing(s: DrawState, ticks: seq<Tick>)
    requires ticks != [] && KeyCode(ticks[0].rawKey) == 'q' as int
    ensures Run(s, ticks) == Outcome(FrameStep(s, ticks[0].obs), 1, true)
  {
  }

  /** Any run of the loop keeps a preset colour and a thickness in [1, 30]. */
  lemma {:induction false} RunKeepsSettled(s: DrawState, ticks: seq<Tick>)
    requires Settled(s)
    ensures Settled(Run(s, ticks).final)
    decreases |ticks|
  {
    if ticks != [] {
      var next := TickStep(s, ticks[0]).0;
      KeyKeepsSettled(FrameStep(s, ticks[0].obs), KeyCode(ticks[0].rawKey));
      RunKeepsSettled(next, ticks[1..]);
    }
  }

  /** From the initial state, every run keeps thickness within [1, 30]. */
  lemma SessionThicknessInBounds(ticks: seq<Tick>)
    ensures MinThickness <= Run(Initial, ticks).final.thickness <= MaxThickness
  {
    RunKeepsSettled(Initial, ticks);
  }

  /** Running two tick sequences back to back, when the first does not quit. */
  lemma {:induction false} RunAppend(s: DrawState, a: seq<Tick>, b: seq<Tick>)
    requires !Run(s, a).quit
    ensures Run(s, a).consumed == |a|
    ensures var first := Run(s, a); var second := Run(first.final, b);
      Run(s, a + b) == Outcome(second.final, |a| + second.consumed, second.quit)
    decreases |a|
  {
    if a == [] {
      assert a + b == b;
    } else {
      assert (a + b)[0] == a[0];
      assert (a + b)[1..] == a[1..] + b;
      RunAppend(TickStep(s, a[0]).0, a[1..], b);
    }
  }

  /** Ticks whose key is an increase key. */
  predicate AllIncrease(ticks: seq<Tick>) {
    forall i :: 0 <= i < |ticks| ==> KeyCode(ticks[i].rawKey) in {'+' as int, '=' as int}
  }

  /** n increase presses from thickness t give min(t + 2n, 30), whatever the
      frames in between. */
  lemma {:induction false} RepeatedIncrease(s: DrawState, ticks: seq<Tick>)
    requires s.thickness <= MaxThickness
    requires AllIncrease(ticks)
    ensures !Run(s, ticks).quit
    ensures Run(s, ticks).final.thickness ==
      if s.thickness + ThicknessStep * |ticks| < MaxThickness
      then s.thickness + ThicknessStep * |ticks| else MaxThickness
    decreases |ticks|
  {
    if ticks != [] {
      var next := TickStep(s, ticks[0]).0;
      assert next.thickness == Grow(s.thickness);
      assert AllIncrease(ticks[1..]) by {
        forall i | 0 <= i < |ticks[1..]| ensures KeyCode(ticks[1..][i].rawKey) in {'+' as int, '=' as int} {
          assert ticks[1..][i] == ticks[i + 1];
        }
      }
      RepeatedIncrease(next, ticks[1..]);
    }
  }

  /** Ticks whose key is a decrease key. */
  predicate AllDecrease(ticks: seq<Tick>) {
    forall i :: 0 <= i < |ticks| ==> KeyCode(ticks[i].rawKey) in {'-' as int, '_' as int}
  }

  /** n decrease presses from thickness t give max(t - 2n, 1), whatever the
      frames in between. */
  lemma {:induction false} RepeatedDecrease(s: DrawState, ticks: seq<Tick>)
    requires MinThickness <= s.thickness
    requires AllDecrease(ticks)
    ensures !Run(s, ticks).quit
    ensures Run(s, ticks).final.thickness ==
      if s.thickness - ThicknessStep * |ticks| > MinThickness
      then s.thickness - ThicknessStep * |ticks| else MinThickness
    decreases |ticks|
  {
    if ticks != [] {
      var next := TickStep(s, ticks[0]).0;
      assert next.thickness == Shrink(s.thickness);
      assert AllDecrease(ticks[1..]) by {
        forall i | 0 <= i < |ticks[1..]| ensures KeyCode(ticks[1..][i].rawKey) in {'-' as int, '_' as int} {
          assert ticks[1..][i] == ticks[i + 1];
        }
      }
      RepeatedDecrease(next, ticks[1..]);
    }
  }

  /** Twenty `+` presses from the start give 30; one `-` after that gives 28. */
  lemma ThicknessExample(obs: Observation)
    ensures var plus := seq(20, _ => Tick(obs, '+' as int));
      Run(Initial, plus).final.thickness == 30 &&
      Run(Initial, plus + [Tick(obs, '-' as int)]).final.thickness == 28
  {
    var plus := seq(20, _ => Tick(obs, '+' as int));
    RepeatedIncrease(Initial, plus);
    RunAppend(Initial, plus, [Tick(obs, '-' as int)]);
  }

  // ---------------------------------------------------------------------------
  // A worked session

  /** Landmarks of an upright open hand: every fingertip above its pip joint. */
  const OpenHand: LandmarkYs := seq(NumLandmarks, i => if i in {8, 12, 16, 20} then 0.2 else 0.5)

  /** Landmarks of a fist seen level: every tip at the height of its pip joint. */
  const Fist: LandmarkYs := seq(NumLandmarks, _ => 0.5)

  /** No hand, open at (100,100), open at (110,105), closed: one segment from
      (100,100) to (110,105) in green, thickness 5, and the pen up again. */
  lemma WorkedSession()
    ensures var obs := [NoHand, Hand(OpenHand, Point(100, 100)),
                        Hand(OpenHand, Point(110, 105)), Hand(Fist, Point(120, 110))];
      RunFrames(Initial, obs) ==
        DrawState(None, [Segment(Point(100, 100), Point(110, 105), Green, 5)], Green, 5)
  {
    assert HandOpen(OpenHand) by {
      assert forall f :: 0 <= f < |Fingers| ==> Extended(OpenHand, f);
      assert CountExtended(OpenHand, 2) == 2;
    }
    assert !HandOpen(Fist) by {
      forall f | 0 <= f < |Fingers| ensures !Extended(Fist, f) {
        LevelFingerNotExtended(Fist, f);
      }
      assert CountExtended(Fist, 2) == 0;
      assert CountExtended(Fist, 4) == 0;
    }
    var obs := [NoHand, Hand(OpenHand, Point(100, 100)),
                Hand(OpenHand, Point(110, 105)), Hand(Fist, Point(120, 110))];
    var s1 := Initial;
    var s2 := Initial.(prev := Some(Point(100, 100)));
    var s3 := DrawState(Some(Point(110, 105)), [Segment(Point(100, 100), Point(110, 105), Green, 5)], Green, 5);
    assert RunFrames(Initial, obs) == RunFrames(s1, obs[1..]);
    assert RunFrames(s1, obs[1..]) == RunFrames(s2, obs[2..]);
    assert obs[2..][1..] == obs[3..];
    assert FrameStep(s2, obs[2]) == s3 by {
      assert s2.canvas + [Segment(Point(100, 100), Point(110, 105), Green, 5)] == s3.canvas;
    }
    assert RunFrames(s2, obs[2..]) == RunFrames(s3, obs[3..]);
    assert RunFrames(s3, obs[3..]) == RunFrames(s3.(prev := None), []);
  }
}
