# Finger drawer: model of the gesture-to-stroke loop

The program draws on a canvas with the index finger. Each frame, a hand
detector returns at most one hand. A heuristic classifies the hand as open or
closed. While the hand stays open, the program draws line segments between
successive fingertip positions. Single keys quit the program, clear the
canvas, pick one of three colours, or change the brush thickness.

This project models the glue logic in `finger_draw.py`:

- `hand_gesture.dfy` (module `HandGesture`): `is_hand_open`. It is a counting
  loop (`IsHandOpen`) proved against a specification (`HandOpen`). Lemmas
  relate that specification to the set of extended fingers, state the strict
  comparison and the threshold of three, and show that only the eight
  index/middle/ring/pinky tip and pip landmarks are read.
- `finger_draw.dfy` (module `FingerDraw`): the session state (previous point,
  canvas, colour, thickness) and its initial value. It also has the per-frame
  pen-up/pen-down update (`FrameStep`), the key command chain (`KeyStep`), the
  key-code masking (`KeyCode`), and the loop (`TickStep`, `Run`). The class
  `Session` holds the same variables as fields and updates them in place with
  `Frame`, `Key`, `Step` and `Loop`. Each method is proved against the
  matching function.
- `draw_traces.dfy` (module `DrawTraces`): properties over one frame, over
  sequences of frames, and over the key commands and whole runs.

Modelling choices:

- A landmark set is the sequence of its 21 normalised y-values (`real`). The
  classifier only compares them with `<`.
- The canvas is the sequence of segments drawn on it since it was last
  all-zero, in drawing order. Each segment records its endpoints, colour and
  thickness. The initial all-zero canvas and the cleared canvas are both `[]`.
- Colours are OpenCV BGR triples: red is `(0,0,255)`, green `(0,255,0)` and
  blue `(255,0,0)`.
- One pass of the loop is a `Tick`: the frame's observation plus the raw
  `cv2.waitKey(1)` result. The raw result is -1 when no key was pressed.
  `KeyCode` applies `& 0xFF`. For negative values this equals taking the
  value modulo 256, so -1 becomes 255, which is not a command.
- A camera read failing in the middle of the loop ends the loop. This is
  modelled as the tick sequence running out (`Outcome.quit == false`).

## Model

| member | source | states |
|---|---|---|
| HandGesture.IsHandOpen | finger_draw.py:34-55 | The counting loop returns exactly `HandOpen(ys)`: at least 3 of the pairs (8,6), (12,10), (16,14), (20,18) have tip y strictly below pip y |
| HandGesture.CountIsCardinality | finger_draw.py:45-52 | The loop's counter after k fingers equals the number of extended fingers among the first k |
| HandGesture.OpenIffAtLeastThreeExtended | finger_draw.py:54-55 | Open iff the set of extended fingers has at least 3 members (both directions) |
| HandGesture.OpenIffAtMostOneBent | finger_draw.py:54-55 | Open iff no two distinct fingers are both bent |
| HandGesture.OnlyTrackedLandmarksMatter | finger_draw.py:38-48 | Two landmark sets that agree on landmarks 6,8,10,12,14,16,18,20 are classified alike; the thumb (1-4), the wrist and the other joints are never read |
| HandGesture.CountAgrees | finger_draw.py:46-52 | The partial count depends only on the tracked tip and pip landmarks |
| HandGesture.LevelFingerNotExtended | finger_draw.py:51 | A tip level with its pip is not extended, because the comparison is strict |
| HandGesture.ThresholdBoundary | finger_draw.py:55 | Exactly three extended fingers give open; exactly two give closed |
| FingerDraw.KeyCode | finger_draw.py:122 | The masked key code is the low byte of the polled code for every input: a byte congruent to the input modulo 256. So it is the identity on bytes, turns "no key" (-1) into 255, and strips modifier bits above the byte |
| FingerDraw.FrameStep | finger_draw.py:80-110 | One frame keeps colour and thickness, keeps the old canvas as a prefix, appends at most one segment, and leaves the pen down iff the hand is open. Its case table is `PenUp`, `PenDownDrawsNothing` and `PenDownDraws`; over sequences it is specified by `FramesDrawStrokes` |
| FingerDraw.Grow | finger_draw.py:134-135 | Increase never goes above 30, never below 1 when starting from at least 1, and strictly increases while below 30. `RepeatedIncrease` gives its closed form |
| FingerDraw.Shrink | finger_draw.py:136-137 | Decrease never goes below 1, never above 30 when starting from at most 30, and strictly decreases while above 1. `ThicknessKeysChangeOnlyThickness` gives its value max(t - 2, 1); `RepeatedDecrease` gives the closed form max(t - 2n, 1) |
| FingerDraw.KeyStep | finger_draw.py:124-137 | No key moves the pen. The canvas is either kept or emptied. The loop is told to stop iff the key is `q`. The individual commands are `ClearResetsOnlyCanvas`, `ColorKeysSelectPresets`, `ThicknessKeysChangeOnlyThickness`, `IgnoredKeyChangesNothing` and `KeyKeepsSettled` |
| FingerDraw.TickStep | finger_draw.py:80-137 | One pass of the loop body leaves the pen down iff that frame shows an open hand, and quits iff the masked key is `q` |
| FingerDraw.Run | finger_draw.py:65-137 | The loop processes at most the ticks it is given. It ends on quit exactly at the first tick whose masked key is `q`. A run that does not quit has processed every tick and contains no `q` key. `RunAppend`, `RunKeepsSettled` and `KeylessRunIsFrames` relate it to its parts |
| FingerDraw.RunFrames | finger_draw.py:80-110 | Frames alone keep colour and thickness and only grow the canvas. An empty sequence changes nothing. Otherwise the pen ends down iff the last frame is open. `FramesDrawStrokes` gives the exact canvas |
| FingerDraw.Session.constructor | finger_draw.py:27-32 | The session starts with an empty canvas, green `(0,255,0)`, thickness 5, no previous point, and satisfies the settings invariant |
| FingerDraw.Session.Frame | finger_draw.py:80-110 | The in-place frame update (which calls `IsHandOpen`) produces `FrameStep` of the old state and keeps the settings invariant |
| FingerDraw.Session.Key | finger_draw.py:122-137 | The in-place key handling produces `KeyStep` of the old state, reports quit exactly as `KeyStep` does, and keeps colour a preset and thickness in [1, 30] |
| FingerDraw.Session.Step | finger_draw.py:80-137 | One loop body applies the frame first and then the masked key |
| FingerDraw.Session.Loop | finger_draw.py:65-137 | The `while` loop ends in the state, tick count and quit flag that `Run` gives, and keeps the settings invariant |
| DrawTraces.PenUp | finger_draw.py:107-110 | No hand or a closed hand sets the previous point to None and adds no segment |
| DrawTraces.PenDownDrawsNothing | finger_draw.py:102-106 | Open hand with no previous point: the previous point becomes the fingertip and nothing is drawn |
| DrawTraces.PenDownDraws | finger_draw.py:102-106 | Open hand with a previous point: exactly one segment is added, from the previous point to the fingertip, in the current colour and thickness; the fingertip becomes the previous point |
| DrawTraces.FrameOnlyAppends | finger_draw.py:102-110 | A frame grows the canvas by one segment iff the pen was down and the hand is open, and otherwise leaves the canvas exactly as it was |
| DrawTraces.StrokeCount | finger_draw.py:102-110 | The declarative stroke list has one segment per open frame that directly follows an open frame |
| DrawTraces.RunFramesSnoc | finger_draw.py:65-110 | Processing one more frame is one more frame update |
| DrawTraces.FramesDrawStrokes | finger_draw.py:102-110 | From any pen state, a frame sequence appends exactly the segments between the fingertips of consecutive open frames, in order and in the current colour and thickness. A down pen counts as an open frame at its point before the first frame. The pen ends on the last fingertip if the last frame is open and is up otherwise |
| DrawTraces.SegmentCountFromStart | finger_draw.py:102-110 | From the initial state, the number of segments equals the number of open frames immediately preceded by an open frame |
| DrawTraces.KeylessRunIsFrames | finger_draw.py:65-137 | If no polled key is a command, the loop processes every tick and does exactly what the frames alone do |
| DrawTraces.KeysKeepStrokeGeometry | finger_draw.py:80-137 | With no clear and no quit key, a run with keys between frames ends with the same pen state and the same segment endpoints as the frames alone |
| DrawTraces.StrokesDespiteKeys | finger_draw.py:80-137 | With colour and thickness keys pressed anywhere (but no clear and no quit), the loop processes every tick. It draws one segment per pair of consecutive open frames, with exactly their fingertips as endpoints, in order |
| DrawTraces.IgnoredKeyChangesNothing | finger_draw.py:124-137 | Any key byte other than q, c, r, g, b, +, =, -, _ changes nothing and does not quit |
| DrawTraces.ModifierBitsMasked | finger_draw.py:122 | A polled code with modifier bits above the byte (0x100071) still reads as `q`; the same holds for `c` |
| DrawTraces.NoKeyChangesNothing | finger_draw.py:122 | Polling with no key pressed changes nothing |
| DrawTraces.ClearResetsOnlyCanvas | finger_draw.py:126-127 | `c` resets the canvas to the initial empty canvas and leaves the previous point, colour and thickness unchanged |
| DrawTraces.ColorKeysSelectPresets | finger_draw.py:128-133 | `r`, `g`, `b` set the colour to exactly `(0,0,255)`, `(0,255,0)`, `(255,0,0)`, which are three distinct presets, and change nothing else |
| DrawTraces.ThicknessKeysChangeOnlyThickness | finger_draw.py:134-137 | `+` and `=` set thickness to min(t + 2, 30), `-` and `_` set it to max(t - 2, 1), and none of them changes anything else or quits |
| DrawTraces.LastColorKeyWins | finger_draw.py:128-131 | After `r` then `g`, and until the next colour key, the colour stays green and the canvas is an initial part of the canvas from before the two keys followed only by green segments, whatever frames, clears and other keys come between |
| DrawTraces.NewSegmentsKeepColor | finger_draw.py:102-137 | Until the next colour key, the colour does not change and the canvas is an initial part of the given earlier canvas followed only by segments in that colour (witnessed by `OldThenColored`), even across clears and quits |
| DrawTraces.KeyKeepsSettled | finger_draw.py:124-137 | Every key keeps colour a preset and thickness in [1, 30] |
| DrawTraces.QuitAfterDrawing | finger_draw.py:80-125 | A tick whose key is `q` ends the loop after that tick's frame has been drawn |
| DrawTraces.RunKeepsSettled | finger_draw.py:65-137 | Any run keeps colour a preset and thickness in [1, 30] |
| DrawTraces.SessionThicknessInBounds | finger_draw.py:134-137 | From the initial state, thickness stays within [1, 30] over any run |
| DrawTraces.RunAppend | finger_draw.py:65-137 | Running two tick sequences in a row, when the first does not quit, is running their concatenation |
| DrawTraces.RepeatedIncrease | finger_draw.py:134-135 | n increase presses from a thickness t of at most 30 give min(t + 2n, 30), whatever the frames in between |
| DrawTraces.RepeatedDecrease | finger_draw.py:136-137 | n decrease presses from a thickness t of at least 1 give max(t - 2n, 1) and never quit, whatever the frames in between |
| DrawTraces.ThicknessExample | finger_draw.py:134-137 | From the start, 20 presses of `+` give 30, and one `-` after that gives 28 |
| DrawTraces.WorkedSession | finger_draw.py:80-110 | Frames with no hand, then open at (100,100), open at (110,105), and closed give one green segment of thickness 5 from (100,100) to (110,105), with the pen up at the end |

## Left out

- Camera access, the failure to read the first frame (message and `exit()`) and the final cleanup (`release`, `destroyAllWindows`, `close`): these are I/O and resource handling. A failed read in the middle of the loop is modelled as the ticks running out.
- Hand detection and its configuration: a foreign call. Each frame's detection result is an input (`Observation`).
- Iterating over several detected hands: the detector is limited to one hand, so an observation holds at most one.
- Converting the normalised fingertip coordinates to pixels (float multiply and `int()` truncation): floating point. The integer fingertip pixel is an input.
- Pixel rasterisation by `cv2.line`: the canvas is the list of segments drawn on it, not a pixel buffer. Two different segment lists can therefore give the same pixels, and the model does not capture that.
- The cursor circle, the landmark overlay, the mirror flip, the colour conversion, the 0.7/0.3 blend, the thickness text, the window display and the console help text: these are rendering and UI with no effect on the modelled state.
