/**
  The sequential part of main.py's control loop: the mode keys that switch
  the autopilot state, the manual stick values read from the keyboard, the
  `clamp` and per-axis mixing with the autopilot deltas, and the `int()`
  conversion of the values handed to `send_rc_control`.

  The detection thread's output reaches the control loop through a shared
  cell; here it is a plain object written by `DetectionPass` and read by
  `ControlTick`. Pressed keys are boolean inputs.
 */
module ControlLoop {
  import opened Common
  import opened Detections
  import opened AutopilotMachine

  /** The keys '1', '0' and '2' that select a state. */
  datatype ModeKeys = ModeKeys(key1: bool, key0: bool, key2: bool)

  /** The movement keys: D/A roll, W/S pitch, I/K throttle, L/J yaw. */
  datatype MoveKeys = MoveKeys(d: bool, a: bool, w: bool, s: bool, i: bool, k: bool, l: bool, j: bool)

  /** The stick values after mixing, before `int()`. */
  datatype Mixed = Mixed(lr: real, fb: real, ud: real, yaw: real)

  /**
    The state the mode keys ask for: '1' (OFF) wins over '0' (SEARCH), which
    wins over '2' (TRACK); with none of them pressed nothing is asked for.
   */
  function SelectedState(keys: ModeKeys): (r: Option<State>)
    ensures r == Some(Off) <==> keys.key1
    ensures r == Some(Search) <==> !keys.key1 && keys.key0
    ensures r == Some(Track) <==> !keys.key1 && !keys.key0 && keys.key2
    ensures r.None? <==> !keys.key1 && !keys.key0 && !keys.key2
    ensures r != Some(Chase)
  {
    if keys.key1 then Some(Off)
    else if keys.key0 then Some(Search)
    else if keys.key2 then Some(Track)
    else None
  }

  /** The guidance after the mode keys: the selected state, or the old one. */
  function WithModeKeys(g: Guidance, keys: ModeKeys): (r: Guidance)
    ensures r == g.(state := r.state)
    ensures keys.key1 ==> r.state == Off
    ensures !keys.key1 && keys.key0 ==> r.state == Search
    ensures !keys.key1 && !keys.key0 && keys.key2 ==> r.state == Track
    ensures !keys.key1 && !keys.key0 && !keys.key2 ==> r == g
  {
    match SelectedState(keys)
    case Some(s) => g.(state := s)
    case None => g
  }

  /** One manual axis: the positive key wins and gives `pos`, the other gives `neg`. */
  function Axis(positive: bool, negative: bool, pos: int, neg: int): int {
    if positive then pos else if negative then neg else 0
  }

  /**
    The manual stick values: 'd' beats 'a' at +-speed_xy, 'w' beats 's' with
    forward at speed_xy and backward at -5 speed_xy, 'i' beats 'k' at
    +-speed_z and 'l' beats 'j' at +-speed_yaw.
   */
  function Manual(keys: MoveKeys, sp: Speeds): (r: Axes)
    // The first key of each pair wins when both are pressed.
    ensures keys.d ==> r.lr == sp.xy
    ensures keys.w ==> r.fb == sp.xy
    ensures keys.i ==> r.ud == sp.z
    ensures keys.l ==> r.yaw == sp.yaw
    // The second key acts alone; backing off is five times faster than going forward.
    ensures !keys.d && keys.a ==> r.lr == -sp.xy
    ensures !keys.w && keys.s ==> r.fb == -5 * sp.xy
    ensures !keys.i && keys.k ==> r.ud == -sp.z
    ensures !keys.l && keys.j ==> r.yaw == -sp.yaw
    // For positive speeds the sign of each axis tells which key won.
    ensures sp.xy > 0 ==> (r.lr > 0 <==> keys.d) && (r.lr < 0 <==> !keys.d && keys.a)
    ensures sp.xy > 0 ==> (r.fb > 0 <==> keys.w) && (r.fb < 0 <==> !keys.w && keys.s)
    ensures sp.z > 0 ==> (r.ud > 0 <==> keys.i) && (r.ud < 0 <==> !keys.i && keys.k)
    ensures sp.yaw > 0 ==> (r.yaw > 0 <==> keys.l) && (r.yaw < 0 <==> !keys.l && keys.j)
    // An axis with neither key pressed is idle.
    ensures !keys.d && !keys.a ==> r.lr == 0
    ensures !keys.w && !keys.s ==> r.fb == 0
    ensures !keys.i && !keys.k ==> r.ud == 0
    ensures !keys.l && !keys.j ==> r.yaw == 0
  {
    Axes(
      Axis(keys.d, keys.a, sp.xy, -sp.xy),
      Axis(keys.w, keys.s, sp.xy, -5 * sp.xy),
      Axis(keys.i, keys.k, sp.z, -sp.z),
      Axis(keys.l, keys.j, sp.yaw, -sp.yaw))
  }

  /** Each manual axis reads only its own two keys. */
  lemma ManualAxesIndependent(k1: MoveKeys, k2: MoveKeys, sp: Speeds)
    ensures k1.d == k2.d && k1.a == k2.a ==> Manual(k1, sp).lr == Manual(k2, sp).lr
    ensures k1.w == k2.w && k1.s == k2.s ==> Manual(k1, sp).fb == Manual(k2, sp).fb
    ensures k1.i == k2.i && k1.k == k2.k ==> Manual(k1, sp).ud == Manual(k2, sp).ud
    ensures k1.l == k2.l && k1.j == k2.j ==> Manual(k1, sp).yaw == Manual(k2, sp).yaw
  {
  }

  /**
    `r` is `v` limited to [-100, 100]: in range, equal to `v` when `v` is in
    range, and otherwise the bound on `v`'s side.
   */
  predicate IsClampOf(v: real, r: real) {
    && -StickLimit as real <= r <= StickLimit as real
    && (-StickLimit as real <= v <= StickLimit as real ==> r == v)
    && (v > StickLimit as real ==> r == StickLimit as real)
    && (v < -StickLimit as real ==> r == -StickLimit as real)
  }

  /** `clamp` with its default bounds -100 and 100. */
  function Clamp(v: real): (r: real)
    ensures IsClampOf(v, r)
    ensures r != v ==> (v < r <==> r == -StickLimit as real) && (v > r <==> r == StickLimit as real)
  {
    if v > StickLimit as real then StickLimit as real
    else if v < -StickLimit as real then -StickLimit as real
    else v
  }

  /** Clamping is monotone: it never reorders two stick values. */
  lemma ClampMonotone(u: real, v: real)
    requires u <= v
    ensures Clamp(u) <= Clamp(v)
  {
  }

  /** A clamped value is left alone by a second clamp. */
  lemma ClampIdempotent(v: real)
    ensures Clamp(Clamp(v)) == Clamp(v)
  {
  }

  /**
    The four values main.py sends: `lr` is the clamped manual value alone,
    the other three each clamp the manual value plus the autopilot delta of
    the same axis.
   */
  function Mix(manual: Axes, d: Deltas): (r: Mixed)
    ensures IsClampOf(manual.lr as real, r.lr)
    ensures IsClampOf(manual.fb as real + d.fb, r.fb)
    ensures IsClampOf(manual.ud as real + d.ud, r.ud)
    ensures IsClampOf(manual.yaw as real + d.yaw, r.yaw)
  {
    Mixed(
      Clamp(manual.lr as real),
      Clamp(manual.fb as real + d.fb),
      Clamp(manual.ud as real + d.ud),
      Clamp(manual.yaw as real + d.yaw))
  }

  /**
    No cross-axis influence: `lr` ignores the autopilot, and each other mixed
    axis depends only on its own manual value and its own delta.
   */
  lemma MixAxesIndependent(m1: Axes, d1: Deltas, m2: Axes, d2: Deltas)
    ensures m1.lr == m2.lr ==> Mix(m1, d1).lr == Mix(m2, d2).lr
    ensures m1.fb == m2.fb && d1.fb == d2.fb ==> Mix(m1, d1).fb == Mix(m2, d2).fb
    ensures m1.ud == m2.ud && d1.ud == d2.ud ==> Mix(m1, d1).ud == Mix(m2, d2).ud
    ensures m1.yaw == m2.yaw && d1.yaw == d2.yaw ==> Mix(m1, d1).yaw == Mix(m2, d2).yaw
  {
  }

  /** With no manual input, in-range autopilot deltas pass through unchanged. */
  lemma IdleKeysPassDeltas(d: Deltas)
    requires -StickLimit as real <= d.yaw <= StickLimit as real
    requires -StickLimit as real <= d.ud <= StickLimit as real
    requires -StickLimit as real <= d.fb <= StickLimit as real
    ensures Mix(Axes(0, 0, 0, 0), d) == Mixed(0.0, d.fb, d.ud, d.yaw)
  {
  }

  /** Python's `int()` on a float: truncation toward zero. */
  function Truncate(v: real): (r: int)
    ensures v >= 0.0 ==> 0 <= r && r as real <= v < r as real + 1.0
    ensures v < 0.0 ==> r <= 0 && r as real - 1.0 < v <= r as real
  {
    if v >= 0.0 then v.Floor else -((-v).Floor)
  }

  /** Truncation keeps whole numbers and is odd: int(-v) == -int(v). */
  lemma TruncateProperties(v: real, n: int)
    ensures Truncate(n as real) == n
    ensures Truncate(-v) == -Truncate(v)
  {
  }

  predicate MixedInStickRange(m: Mixed) {
    && -StickLimit as real <= m.lr <= StickLimit as real
    && -StickLimit as real <= m.fb <= StickLimit as real
    && -StickLimit as real <= m.ud <= StickLimit as real
    && -StickLimit as real <= m.yaw <= StickLimit as real
  }

  /**
    The integers `send_rc_control` receives: each value truncated toward
    zero, so in-range values stay in range and whole values are sent as they are.
   */
  function ToRc(m: Mixed): (r: Axes)
    ensures MixedInStickRange(m) ==> InStickRange(r)
    ensures m.lr == r.lr as real || (m.lr > 0.0 && r.lr as real < m.lr < r.lr as real + 1.0)
              || (m.lr < 0.0 && r.lr as real - 1.0 < m.lr < r.lr as real)
    ensures m.fb == r.fb as real || (m.fb > 0.0 && r.fb as real < m.fb < r.fb as real + 1.0)
              || (m.fb < 0.0 && r.fb as real - 1.0 < m.fb < r.fb as real)
    ensures m.ud == r.ud as real || (m.ud > 0.0 && r.ud as real < m.ud < r.ud as real + 1.0)
              || (m.ud < 0.0 && r.ud as real - 1.0 < m.ud < r.ud as real)
    ensures m.yaw == r.yaw as real || (m.yaw > 0.0 && r.yaw as real < m.yaw < r.yaw as real + 1.0)
              || (m.yaw < 0.0 && r.yaw as real - 1.0 < m.yaw < r.yaw as real)
  {
    Axes(Truncate(m.lr), Truncate(m.fb), Truncate(m.ud), Truncate(m.yaw))
  }

  predicate InStickRange(c: Axes) {
    && -StickLimit <= c.lr <= StickLimit
    && -StickLimit <= c.fb <= StickLimit
    && -StickLimit <= c.ud <= StickLimit
    && -StickLimit <= c.yaw <= StickLimit
  }

  /**
    One pass of main.py's control loop as a value: mode keys, the published
    person box folded in by `update_detection`, `update`, then mixing and
    `int()`. The result pairs the new guidance with the command sent.
   */
  function ControlStep(g: Guidance, sp: Speeds, modeKeys: ModeKeys, moveKeys: MoveKeys,
                       personBox: Option<Box>, fw: int, fh: int): (r: (Guidance, Axes))
    requires fw > 0 && fh > 0
    ensures InStickRange(r.1)
    ensures r.1.lr == Truncate(Clamp(Manual(moveKeys, sp).lr as real))
    ensures modeKeys.key1 ==> r.0.state == Off && r.0.mode == 0
    ensures modeKeys.key1 && moveKeys == MoveKeys(false, false, false, false, false, false, false, false) ==>
      r.1 == Axes(0, 0, 0, 0)
    ensures !modeKeys.key1 && modeKeys.key0 ==> r.0.state == (if personBox.Some? then Chase else Search)
    ensures !modeKeys.key1 && !modeKeys.key0 && modeKeys.key2 ==>
      r.0.state == Track && r.1.fb == Truncate(Clamp(Manual(moveKeys, sp).fb as real))
    ensures SelectedState(modeKeys).None? && (g.state == Off || g.state == Track) ==> r.0.state == g.state
    ensures CounterInRange(g) ==> CounterInRange(r.0)
  {
    var t := Tick(WithModeKeys(g, modeKeys), sp, personBox, fw, fh);
    (t.0, ToRc(Mix(Manual(moveKeys, sp), t.1)))
  }

  /** With OFF selected, the command sent is the same whatever the detections. */
  lemma OffIgnoresDetections(g: Guidance, sp: Speeds, modeKeys: ModeKeys, moveKeys: MoveKeys,
                             b1: Option<Box>, b2: Option<Box>, fw: int, fh: int)
    requires fw > 0 && fh > 0 && modeKeys.key1
    ensures ControlStep(g, sp, modeKeys, moveKeys, b1, fw, fh).1 == ControlStep(g, sp, modeKeys, moveKeys, b2, fw, fh).1
  {
  }

  /**
    Backing off with 's' at the default speed asks for -500, which the clamp
    brings to the limit.
   */
  lemma BackwardKeyIsClamped(keys: MoveKeys)
    requires !keys.w && keys.s
    ensures Clamp(Manual(keys, Speeds(100, 100, 100)).fb as real) == -StickLimit as real
  {
  }

  /** The cell the detection thread publishes into and the control loop reads. */
  class DetectionCell {
    var boxes: seq<Detection>
    var personBox: Option<Box>

    constructor ()
      ensures boxes == [] && personBox == None
    {
      boxes := [];
      personBox := None;
    }

    method Publish(dets: seq<Detection>, box: Option<Box>)
      modifies this
      ensures boxes == dets && personBox == box
    {
      boxes := dets;
      personBox := box;
    }
  }

  /**
    One pass of the detection thread: with a frame, run the reduction over
    the detector output and publish both results; without one, publish
    nothing.
   */
  method DetectionPass(cell: DetectionCell, results: Option<seq<Detection>>)
    modifies cell
    ensures results.None? ==> cell.boxes == old(cell.boxes) && cell.personBox == old(cell.personBox)
    ensures results.Some? ==> cell.boxes == results.value && IsPersonReduction(results.value, cell.personBox)
  {
    if results.Some? {
      var dets, box := ReducePersonBox(results.value);
      cell.Publish(dets, box);
    }
  }

  /**
    One pass of the main loop: apply the mode keys, fold in the published
    person box, run the autopilot and mix in the manual keys.
   */
  method ControlTick(ap: Autopilot, cell: DetectionCell, modeKeys: ModeKeys, moveKeys: MoveKeys, fw: int, fh: int)
    returns (rc: Axes)
    requires fw > 0 && fh > 0
    modifies ap
    ensures (ap.View(), rc) == ControlStep(old(ap.View()), ap.Config(), modeKeys, moveKeys, cell.personBox, fw, fh)
  {
    ghost var g := ap.View();
    var selected := SelectedState(modeKeys);
    match selected {
      case Some(s) => ap.SetState(s);
      case None =>
    }
    assert ap.View() == WithModeKeys(g, modeKeys);
    var personBox := cell.personBox;
    ap.UpdateDetection(personBox, fw, fh);
    var yawAuto, udAuto, fbAuto, _ := ap.Update();
    var manual := Manual(moveKeys, ap.Config());
    rc := ToRc(Mix(manual, Deltas(yawAuto, udAuto, fbAuto)));
  }
}
