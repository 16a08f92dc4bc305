# Person-following autopilot for a Tello drone: a verified model

The repository flies a DJI Tello from a keyboard and a YOLO person detector.
This project models its decision-making core in Dafny:

- **The autopilot state machine** (`autopilot.py`). It has four states: OFF, SEARCH, CHASE and TRACK.
  - `update_detection` folds the largest person box into normalised guidance fields and a chase countdown of 7 ticks.
  - `update` turns the current state into yaw, up/down and forward/back deltas.
  - The pure functions on `Guidance` in `autopilot.dfy` are the specification. The class `Autopilot` updates its fields in place, as the source does, and each method's new fields are given in terms of those functions or of the old fields.
- **Region finding and pairing** (`distributions.py`).
  - `detect_high_intensity_regions` is proved to return the unique list of maximal runs of columns whose sum exceeds 10000.
  - `find_consecutive_pairs` is proved to emit only pairs meeting its three conditions, in increasing blue index. When blue ends are sorted, which they always are for the finder's own output, its result is characterised exactly.
- **The control loop of `main.py`**:
  - the detection thread's largest-person reduction;
  - the mode keys '1', '0' and '2';
  - the manual stick values;
  - `clamp`, the per-axis mixing and the `int()` conversion before `send_rc_control`.

  `ControlTick` is proved against `ControlStep`, which composes the autopilot's `Tick` with the mixing.
- **The earlier single-threaded loop of `WebApplication/main.py`**. Its per-pass state is the `InlineLoop` class:
  - the autopilot flag toggles on a rising edge of key '0';
  - the chase countdown restarts at 10;
  - chase commands are bang-bang, at full speed in either direction;
  - only up/down and yaw are clamped.

Python floats are modelled as exact reals. Python's `int()` is truncation toward zero. Keys are booleans. The detector's output is a sequence of labelled boxes. The frame size is a positive parameter.

## Model

| member | source | states |
|---|---|---|
| Detections.ReducePersonBox | main.py:209-222 | Every detection is kept in input order. The person box is None exactly when no "person" box has positive area. Otherwise it is the first person box of maximal area, because the comparison is strict and starts from 0. |
| Detections.FirstLargestPersonUnique | main.py:218-222 | At most one index is the first person box of maximal area, so the reduction's answer is determined. |
| AutopilotMachine.Autopilot.constructor | autopilot.py:56-65 | A fresh autopilot keeps the given speeds (default 100) and starts in OFF, with counter 0, target point (0.5, 0.5), box width 0 and mode 0. |
| AutopilotMachine.Autopilot.SetState | autopilot.py:71-72 | Only the state field changes: it becomes the given state. |
| AutopilotMachine.Autopilot.UpdateDetection | autopilot.py:74-84 | The new fields are exactly `AfterDetection` of the old ones. |
| AutopilotMachine.AfterDetection | autopilot.py:74-84 | With a box (x1, y1, x2, y2): `last_xmid = (x1+x2)/2/fw`, `last_ytop = 1 - y1/fh` (inverted, so 1 at the top of the frame), `box_width = (x2-x1)/fw`, the counter is 7, and SEARCH becomes CHASE; nothing else changes. Without a box, only the counter changes, to max(0, c-1). Given a counter in [0, 7], the new counter is in [0, 7] and equals 7 iff a box was given. The state becomes CHASE iff it was CHASE, or it was SEARCH and a box was given. The mode is untouched. |
| AutopilotMachine.RetreatIffBoxTopInBottomFifth | autopilot.py:39-78 | Because `last_ytop` is inverted, CHASE's retreat override (`last_ytop < 0.2`) fires, in exact arithmetic, exactly when the box top lies in the bottom fifth of the frame (`y1 > 0.8·fh`), not near the top edge. Python's floats can differ at the boundary (see Left out). |
| AutopilotMachine.NormalisedGuidance | autopilot.py:77-79 | A box inside the frame gives `last_xmid`, `last_ytop` and `box_width` in [0, 1]. |
| AutopilotMachine.CentredBoxGuidance | autopilot.py:77 | A horizontally centred box gives `last_xmid == 0.5`. |
| AutopilotMachine.CentringYawSign | autopilot.py:34 | With a positive yaw speed, the centring yaw is positive iff the target is right of centre, and zero iff it is centred. |
| AutopilotMachine.ApproachTermSign | autopilot.py:36-38 | The CHASE forward term is negative iff the box is wider than the frame. It is then three times the formula; otherwise it is `(1 - box_width) * speed_xy`, at most `speed_xy`. |
| AutopilotMachine.InFrameBoxNeverBacksOff | autopilot.py:36-38 | For a box inside the frame, the tripling backoff never applies. |
| AutopilotMachine.ChaseUpdate | autopilot.py:29-42 | With the counter at or below 0, the result is exactly SEARCH's, with the state set to SEARCH. Otherwise: mode is 2; yaw is the centring formula, 0 when centred; `last_ytop` below 0.2 (in exact arithmetic, the box top in the bottom fifth of the frame) forces fb = -45 and ud = -15 whatever the box width; otherwise ud is `(last_ytop - 0.65) * 2 * speed_z` and fb is the approach term. |
| AutopilotMachine.TrackUpdate | autopilot.py:48-52 | Mode is 3 and fb is always 0. Yaw is `(last_xmid - 0.5) * 2 * speed_yaw`, 0 when centred, and ud is `-(last_ytop - 0.5) * 2 * speed_z`. |
| AutopilotMachine.OffUpdate | autopilot.py:12-14 | OFF sends (0, 0, 0) and changes only the mode, to 0. |
| AutopilotMachine.SearchUpdate | autopilot.py:20-23 | SEARCH spins at `speed_yaw` with no climb and no forward motion, and changes only the mode, to 1. |
| AutopilotMachine.StateUpdate | autopilot.py:8-52 | Only CHASE with an expired counter changes state, and only to SEARCH. The mode written is the number of the resulting state. OFF outputs (0, 0, 0). SEARCH outputs (speed_yaw, 0, 0). TRACK never moves forward or back. |
| AutopilotMachine.Autopilot.Update | autopilot.py:86-88 | The new fields and the returned (yaw, ud, fb) are exactly `StateUpdate` of the old fields. The returned mode is the mode field. |
| AutopilotMachine.Tick | autopilot.py:74-88 | Over one `update_detection` plus `update`, the counter stays in [0, 7]. SEARCH goes to CHASE iff a box is seen. CHASE goes to SEARCH iff no box is seen and the counter was at most 1. CHASE/SEARCH never leave that pair. OFF and TRACK persist. |
| AutopilotMachine.RunKeepsCounterInRange | autopilot.py:80-84 | Over any sequence of ticks, the counter stays in [0, 7]. |
| AutopilotMachine.CounterResetIffLastBox | autopilot.py:80-84 | After one or more ticks, the counter is 7 exactly when the last tick saw a person box. |
| AutopilotMachine.ManualStatesPersist | autopilot.py:81-82 | No sequence of detections moves the autopilot out of OFF or TRACK. |
| AutopilotMachine.SilentTicksFallBackToSearch | autopilot.py:30-33 | From CHASE or SEARCH, with no detections, at least max(1, counter) ticks end in SEARCH, and the next output is the search rotation. |
| AutopilotMachine.EightSilentTicksEndChase | autopilot.py:30-33 | Eight ticks without a person always end a chase. |
| Distributions.DetectHighIntensityRegions | distributions.py:25-37 | The output is a run decomposition. Every region lies in range and is all above 10000. Regions are strictly increasing and separated by a low column. No region can be extended on either side. Every high column is covered. |
| Distributions.CoveringRegionUnique | distributions.py:28-37 | Each high column lies in exactly one region. |
| Distributions.NoRegionsIffNoHighColumn | distributions.py:36-37 | The result is empty iff no column is high; in particular, an empty distribution gives `[]`. |
| Distributions.RunDecompositionUnique | distributions.py:28-37 | Only one list satisfies the run-decomposition contract, so the finder's output is fully determined by it. |
| Distributions.RunDecompositionEndsNondecreasing | distributions.py:28-37 | The finder's regions have sorted ends, as the exact pairing contract needs. |
| Distributions.FirstStartAfter | distributions.py:56-68 | It returns the index of the first green region starting after a column, or the length of the list. |
| Distributions.FindConsecutivePairs | distributions.py:46-70 | Every pair is `(blue[i], green[j])`, where blue ends before green starts, `j == 0` or green j-1 ends before blue starts, and `i` is last or blue i+1 starts after green ends. The blue indices strictly increase, so each blue region appears at most once; the green indices do not decrease. The loop terminates on `i + j`. With sorted blue ends, the result is exactly the pointer-free `ExpectedPairs`. |
| ControlLoop.SelectedState | main.py:295-303 | '1' selects OFF; '0' selects SEARCH iff '1' is not pressed; '2' selects TRACK iff neither is pressed. With no key pressed nothing is selected. CHASE is never selected. |
| ControlLoop.WithModeKeys | main.py:295-303 | '1' sets OFF, else '0' sets SEARCH, else '2' sets TRACK; only the state field changes, and with no mode key the guidance is unchanged. |
| ControlLoop.Manual | main.py:317-320 | When both keys of a pair are pressed the first wins: 'd' over 'a' (±speed_xy), 'w' over 's' (speed_xy forward, -5·speed_xy backward), 'i' over 'k' (±speed_z), 'l' over 'j' (±speed_yaw). For positive speeds, the sign of each axis is positive iff its first key is pressed and negative iff only its second is. No key gives 0. |
| ControlLoop.ManualAxesIndependent | main.py:317-320 | Each manual axis depends only on its own two keys. |
| ControlLoop.Clamp | main.py:326-327 | The result lies in [-100, 100], equals the input when the input is in range, and otherwise is the bound on the input's side. |
| ControlLoop.ClampMonotone | main.py:326-327 | Clamping never reorders two values. |
| ControlLoop.ClampIdempotent | main.py:326-327 | Clamping twice is clamping once. |
| ControlLoop.Mix | main.py:330-333 | Each sent axis is the clamp into [-100, 100] of its input: `lr` of the manual value alone, `fb`, `ud` and `yaw` of the manual value plus the autopilot delta of the same axis. |
| ControlLoop.MixAxesIndependent | main.py:330-333 | `lr` depends only on the manual value. `fb`, `ud` and `yaw` each depend only on their own axis's manual value and autopilot delta. |
| ControlLoop.IdleKeysPassDeltas | main.py:330-333 | With no manual input, in-range autopilot deltas are sent unchanged and `lr` is 0. |
| ControlLoop.Truncate | main.py:342 | `int()` truncates toward zero: the result lies within 1 of the input, on the zero side. |
| ControlLoop.TruncateProperties | main.py:342 | `int()` keeps whole numbers and commutes with negation. |
| ControlLoop.ToRc | main.py:342 | Each axis is the mixed value truncated toward zero: equal to it when whole, otherwise strictly within 1 of it on the zero side. Mixed values in [-100, 100] give integers in [-100, 100]. |
| ControlLoop.BackwardKeyIsClamped | main.py:318 | At the default speed, 's' asks for -500, which the clamp brings to -100. |
| ControlLoop.ControlStep | main.py:295-342 | Every sent value is in [-100, 100]. `lr` reflects the keys alone. '1' gives OFF with mode 0; with no movement keys it sends all zeros. '0' (without '1') ends in CHASE iff a person box was published, else SEARCH. '2' alone gives TRACK with a purely manual fb. With no mode key, OFF and TRACK persist. The counter stays in [0, 7]. |
| ControlLoop.OffIgnoresDetections | main.py:295-342 | With OFF selected, the command sent does not depend on the detections. |
| ControlLoop.DetectionCell.constructor | main.py:189 | The shared cell starts with no boxes and no person box. |
| ControlLoop.DetectionCell.Publish | main.py:223-225 | Both published values are replaced together. |
| ControlLoop.DetectionPass | main.py:203-225 | With a frame, the cell holds every detection and the largest-person reduction. Without a frame, the cell is unchanged. |
| ControlLoop.ControlTick | main.py:295-342 | The autopilot's new fields and the four integers sent are exactly `ControlStep` of the old fields, the keys and the published person box. |
| InlineAutopilot.Toggle | WebApplication/main.py:131-135 | The flag flips iff key '0' is pressed now but was not on the previous pass. |
| InlineAutopilot.HeldKeyTogglesOnce | WebApplication/main.py:131-135 | Holding '0' over any number of passes toggles at most once: exactly once if it was released before. |
| InlineAutopilot.ReleasedKeyNeverToggles | WebApplication/main.py:131-135 | With '0' released, the flag never changes. |
| InlineAutopilot.Sighting | WebApplication/main.py:163-170 | With the autopilot on, a box sets the counter to 10, `last_xmid = (x1+x2)/2/fw` and `last_ytop = y1/fh` (not inverted). Without a box, the counter decrements only while positive. With the autopilot off, nothing changes. A counter in [0, 10] stays there. |
| InlineAutopilot.SightingRunKeepsCounterInRange | WebApplication/main.py:163-170 | Over any sequence of passes, the counter stays in [0, 10]. |
| InlineAutopilot.OffFreezesTracking | WebApplication/main.py:163-170 | With the autopilot off, the counter and target point never change. |
| InlineAutopilot.SilentTicksStartSearch | WebApplication/main.py:169-186 | With the autopilot on and at least as many passes without a box as the counter shows, the output is the search spin (speed_yaw, 0, mode 1). |
| InlineAutopilot.Auto | WebApplication/main.py:173-188 | Mode is 0 when off, 2 with a live counter, else 1. Off gives (0, 0). Search gives (speed_yaw, 0). Chase turns left at full speed iff the target is left of centre, else right. In a chase with a positive speed_z, ud is +speed_z iff `last_ytop` < 0.5, -speed_z iff > 0.5, and 0 at exactly 0.5. With `last_ytop = y1/fh` uninverted, +speed_z is sent when the box top is in the upper half of the frame; the source's comments call +speed_z "descend" (WebApplication/main.py:18, 178). |
| InlineAutopilot.CentredTargetStillTurns | WebApplication/main.py:176 | There is no dead zone: a centred target still turns right. |
| InlineAutopilot.ClampInt | WebApplication/main.py:196-197 | The result lies in [-100, 100], equals the input in range, and otherwise is the bound on the input's side. |
| InlineAutopilot.Commands | WebApplication/main.py:190-199 | `lr` is manual. `fb` is 3·speed_xy on 'w' or in a live chase, else -3·speed_xy on 's', else 0. Both are unclamped. `ud` and `yaw` are each the manual value (first key winning, ±speed) plus the autopilot value, clamped to [-100, 100]. |
| InlineAutopilot.ChaseForwardExceedsStickLimit | WebApplication/main.py:192 | At the default speed of 50, a live chase sends fb = 150, beyond the limit the other axes are held to. |
| InlineAutopilot.InlineLoop.constructor | WebApplication/main.py:117-124 | It starts with the autopilot off, key '0' released, counter 0, target point (0.5, 0.5), no detections and speeds defaulting to 50. |
| InlineAutopilot.InlineLoop.Detect | WebApplication/main.py:144-161 | When detection is due, the stored detections are replaced by the detector output, and the returned box is its largest-person reduction. Otherwise there is no box and the detections are kept. |
| InlineAutopilot.InlineLoop.UpdateTracking | WebApplication/main.py:163-170 | The new loop variables are exactly `Sighting` of the old ones. |
| InlineAutopilot.InlineLoop.Tick | WebApplication/main.py:131-199 | The toggle happens first, in every pass. Without a frame, the pass ends after the toggle with nothing sent. With a frame, the pass runs detection (only when due; otherwise no person box), then tracking, then sends `Commands` with `Auto`'s mode. The counter stays in [0, 10]. |

## Left out

- Threads, locks, events, joins and sleeps (main.py:188-270, 366-370). `DetectionCell` is a sequential last-write-wins stand-in for the shared dictionary. No scheduling is modelled.
- Tello SDK calls: connect, takeoff, land, battery, height and stream control. `ControlTick` returns the four integers that `send_rc_control` would receive. The pre-flight hold is not modelled: the `flying` flag, key '5', the takeoff event and `time.sleep(4)`.
- Loading YOLO and running inference. The detector output is an input sequence of labelled boxes; the class-id-to-name lookup is taken as done.
- Detector exceptions: neither script catches them (main.py:208, WebApplication/main.py:147), so the model has no error path.
- No fallback to the last-known command on a failed tick: neither script has one.
- Overlays, FPS smoothing, `imshow`/`waitKey`, the Flask MJPEG server and JPEG encoding: display and HTTP plumbing.
- `keyboard.is_pressed` polling: keys are boolean inputs. The quit keys (space, Esc) end the loop, and the shutdown sequence that follows is not modelled: it sends (0, 0, 0, 0), lands and closes the stream (main.py:366-379, WebApplication/main.py:215-224).
- The first-frame wait and the hard-coded 960x720 frame size in main.py. Frame width and height are positive parameters.
- The debug variables `x1, y1, x2` that main.py copies from the person box only to print them.
- The `name` property of `Autopilot`, which only feeds a print.
- In distributions.py: the unused mean/std threshold, the print, the plotting helper and the `__main__` image loop.
- rect_predict.py, depth_estimation.py, camera_stream.py, drone-server.py and the test drivers. They are image filtering, depth inference and I/O.
- The timing of detection in WebApplication/main.py (`now - last_detect >= 1/detect_hz`). Whether detection is due on a pass is an input.
- Floating-point rounding. Reals are exact, so a guidance value that Python computes with rounding is exact here, and a threshold branch or a sent integer can then differ from the program's. Two examples: in a 720-pixel-high frame a box with y1 = 576 gives `1 - 576/720` = 0.19999999999999996 in Python, so CHASE retreats there, while the model's `last_ytop` is exactly 0.2 and it does not retreat. And a box centred at 0.7 of a 960-pixel-wide frame (x1 + x2 = 1344) at speed_yaw 100 gives a yaw of 39.99999999999999, sent as 39, where `ToRc` sends 40.
- Distributions.FindConsecutivePairs: the exact characterisation (`ExpectedPairs`) is stated only for blue lists with non-decreasing ends. For arbitrary inputs, the contract gives the emission conditions and the index order but does not say which emittable pairs are skipped.
