/**
  The single-threaded predecessor in WebApplication/main.py: one loop that
  toggles the autopilot on a rising edge of key '0', runs the detector when
  it is due, keeps a chase countdown and the last seen target point, and
  mixes bang-bang autopilot commands with the keyboard.

  Its conventions differ from autopilot.py: the countdown restarts at 10,
  the target's top is `y1 / fh` (not inverted), the autopilot turns and
  moves up or down at full speed with no proportional term, and only the
  up/down and yaw values are clamped.
 */
module InlineAutopilot {
  import opened Common
  import opened Detections

  /** Ticks a sighting keeps the loop chasing. */
  const ChaseFrames: int := 10

  /** Key '0' and the movement keys D/A, W/S, I/K, L/J. */
  datatype Keys = Keys(key0: bool, d: bool, a: bool, w: bool, s: bool, i: bool, k: bool, l: bool, j: bool)

  /** The shape of a camera frame. */
  datatype FrameSize = FrameSize(width: int, height: int)

  /** The loop variables carried from one tick to the next. */
  datatype LoopState = LoopState(
    autopilot: bool,
    key0Prev: bool,
    chaseCounter: int,
    lastXMid: real,
    lastYTop: real)

  /** The autopilot's yaw and up/down values and the mode shown (0 off, 1 search, 2 chase). */
  datatype AutoCommand = AutoCommand(yaw: int, ud: int, mode: int)

  /** What a tick with a frame sends to the drone, with the mode it shows. */
  datatype TickOutput = TickOutput(rc: Axes, mode: int)

  /** The loop variables before the first tick. */
  function Start(): LoopState {
    LoopState(false, false, 0, 0.5, 0.5)
  }

  predicate CounterInRange(s: LoopState) {
    0 <= s.chaseCounter <= ChaseFrames
  }

  /** The autopilot flag after a tick: it flips exactly on a rising edge of key '0'. */
  function Toggle(autopilot: bool, key0Prev: bool, key0: bool): (r: bool)
    ensures r != autopilot <==> key0 && !key0Prev
  {
    if key0 && !key0Prev then !autopilot else autopilot
  }

  /** The toggle step on the loop variables: the flag and the remembered key. */
  function ToggleStep(s: LoopState, key0: bool): LoopState {
    s.(autopilot := Toggle(s.autopilot, s.key0Prev, key0), key0Prev := key0)
  }

  /** The flag and remembered key after a sequence of key '0' readings. */
  function ToggleRun(s: LoopState, presses: seq<bool>): LoopState
    decreases |presses|
  {
    if presses == [] then s else ToggleRun(ToggleStep(s, presses[0]), presses[1..])
  }

  /** Holding key '0' down over several ticks toggles the autopilot once. */
  lemma {:induction false} HeldKeyTogglesOnce(s: LoopState, presses: seq<bool>)
    requires |presses| >= 1 && forall t :: 0 <= t < |presses| ==> presses[t]
    ensures ToggleRun(s, presses).autopilot == (if s.key0Prev then s.autopilot else !s.autopilot)
    ensures ToggleRun(s, presses).key0Prev
    decreases |presses|
  {
    if |presses| > 1 {
      var s1 := ToggleStep(s, presses[0]);
      HeldKeyTogglesOnce(s1, presses[1..]);
    }
  }

  /** With key '0' released throughout, the autopilot flag never changes. */
  lemma {:induction false} ReleasedKeyNeverToggles(s: LoopState, presses: seq<bool>)
    requires forall t :: 0 <= t < |presses| ==> !presses[t]
    ensures ToggleRun(s, presses).autopilot == s.autopilot
    decreases |presses|
  {
    if presses != [] {
      ReleasedKeyNeverToggles(ToggleStep(s, presses[0]), presses[1..]);
    }
  }

  /**
    The tracking update: with the autopilot on, a sighting restarts the
    countdown at 10 and records the box centre and top as fractions of the
    frame; without one the countdown steps down while positive. With the
    autopilot off nothing changes.
   */
  function Sighting(s: LoopState, personBox: Option<Box>, frame: FrameSize): (r: LoopState)
    requires frame.width > 0 && frame.height > 0
    ensures r.autopilot == s.autopilot && r.key0Prev == s.key0Prev
    ensures CounterInRange(s) ==> CounterInRange(r)
    ensures !s.autopilot ==> r == s
    ensures s.autopilot && personBox.Some? ==>
      && r.chaseCounter == ChaseFrames
      && r.lastXMid == ((personBox.value.x1 + personBox.value.x2) as real / 2.0) / frame.width as real
      && r.lastYTop == personBox.value.y1 as real / frame.height as real
    ensures personBox.None? ==> r.lastXMid == s.lastXMid && r.lastYTop == s.lastYTop
    ensures s.autopilot && personBox.None? ==>
      r.chaseCounter == (if s.chaseCounter > 0 then s.chaseCounter - 1 else s.chaseCounter)
  {
    if s.autopilot && personBox.Some? then
      var b := personBox.value;
      s.(lastXMid := ((b.x1 + b.x2) as real / 2.0) / frame.width as real,
         lastYTop := b.y1 as real / frame.height as real,
         chaseCounter := ChaseFrames)
    else if s.autopilot && s.chaseCounter > 0 then
      s.(chaseCounter := s.chaseCounter - 1)
    else
      s
  }

  /** The loop variables after a sequence of tracking updates. */
  function SightingRun(s: LoopState, boxes: seq<Option<Box>>, frame: FrameSize): LoopState
    requires frame.width > 0 && frame.height > 0
    decreases |boxes|
  {
    if boxes == [] then s else SightingRun(Sighting(s, boxes[0], frame), boxes[1..], frame)
  }

  /** The countdown never leaves [0, 10]. */
  lemma {:induction false} SightingRunKeepsCounterInRange(s: LoopState, boxes: seq<Option<Box>>, frame: FrameSize)
    requires frame.width > 0 && frame.height > 0 && CounterInRange(s)
    ensures CounterInRange(SightingRun(s, boxes, frame))
    decreases |boxes|
  {
    if boxes != [] {
      SightingRunKeepsCounterInRange(Sighting(s, boxes[0], frame), boxes[1..], frame);
    }
  }

  /** With the autopilot off the countdown and target point are frozen. */
  lemma {:induction false} OffFreezesTracking(s: LoopState, boxes: seq<Option<Box>>, frame: FrameSize)
    requires frame.width > 0 && frame.height > 0 && !s.autopilot
    ensures SightingRun(s, boxes, frame) == s
    decreases |boxes|
  {
    if boxes != [] {
      OffFreezesTracking(Sighting(s, boxes[0], frame), boxes[1..], frame);
    }
  }

  /**
    The autopilot's share of the command: off gives nothing (mode 0), an
    expired countdown gives the search spin (mode 1), and a live countdown
    turns toward the recorded point at full speed (mode 2).
   */
  function Auto(s: LoopState, sp: Speeds): (r: AutoCommand)
    ensures r.mode == (if !s.autopilot then 0 else if s.chaseCounter > 0 then 2 else 1)
    ensures r.mode == 0 ==> r.yaw == 0 && r.ud == 0
    ensures r.mode == 1 ==> r.yaw == sp.yaw && r.ud == 0
    ensures r.mode == 2 ==> r.yaw == (if s.lastXMid < 0.5 then -sp.yaw else sp.yaw)
    ensures r.mode == 2 && sp.z > 0 ==> (r.ud > 0 <==> s.lastYTop < 0.5) && (r.ud < 0 <==> s.lastYTop > 0.5)
    ensures r.mode == 2 ==> r.ud == sp.z || r.ud == -sp.z || r.ud == 0
  {
    if s.autopilot then
      if s.chaseCounter > 0 then
        var yaw := if s.lastXMid < 0.5 then -sp.yaw else sp.yaw;
        var ud := if s.lastYTop < 0.5 then sp.z else if s.lastYTop > 0.5 then -sp.z else 0;
        AutoCommand(yaw, ud, 2)
      else
        AutoCommand(sp.yaw, 0, 1)
    else
      AutoCommand(0, 0, 0)
  }

  /** There is no dead zone: a target dead centre still makes the chase turn right. */
  lemma CentredTargetStillTurns(s: LoopState, sp: Speeds)
    requires s.autopilot && s.chaseCounter > 0 && s.lastXMid == 0.5 && sp.yaw > 0
    ensures Auto(s, sp).yaw > 0
  {
  }

  /** `max(-100, min(100, v))` on integers. */
  function ClampInt(v: int): (r: int)
    ensures -StickLimit <= r <= StickLimit
    ensures -StickLimit <= v <= StickLimit ==> r == v
    ensures r != v ==> (v < r <==> r == -StickLimit) && (v > r <==> r == StickLimit)
  {
    if v > StickLimit then StickLimit else if v < -StickLimit then -StickLimit else v
  }

  /**
    The command sent: manual roll alone; forward at 3 speed_xy when 'w' is
    pressed or the chase is live, else backward at 3 speed_xy on 's'; manual
    plus autopilot up/down and yaw, clamped. Roll and pitch are not clamped.
   */
  function Commands(s: LoopState, sp: Speeds, keys: Keys): (r: Axes)
    // Roll is manual only, 'd' winning over 'a'.
    ensures keys.d ==> r.lr == sp.xy
    ensures !keys.d && keys.a ==> r.lr == -sp.xy
    ensures !keys.d && !keys.a ==> r.lr == 0
    // Pitch is unclamped; a live chase pushes forward even without 'w', and beats 's'.
    ensures keys.w || (s.autopilot && s.chaseCounter > 0) ==> r.fb == 3 * sp.xy
    ensures !keys.w && !(s.autopilot && s.chaseCounter > 0) && keys.s ==> r.fb == -3 * sp.xy
    ensures !keys.w && !(s.autopilot && s.chaseCounter > 0) && !keys.s ==> r.fb == 0
    // Throttle and yaw add the manual value to the autopilot's and clamp the sum.
    ensures -StickLimit <= r.ud <= StickLimit && -StickLimit <= r.yaw <= StickLimit
    ensures keys.i ==> r.ud == ClampInt(sp.z + Auto(s, sp).ud)
    ensures !keys.i && keys.k ==> r.ud == ClampInt(-sp.z + Auto(s, sp).ud)
    ensures !keys.i && !keys.k ==> r.ud == ClampInt(Auto(s, sp).ud)
    ensures keys.l ==> r.yaw == ClampInt(sp.yaw + Auto(s, sp).yaw)
    ensures !keys.l && keys.j ==> r.yaw == ClampInt(-sp.yaw + Auto(s, sp).yaw)
    ensures !keys.l && !keys.j ==> r.yaw == ClampInt(Auto(s, sp).yaw)
  {
    var auto := Auto(s, sp);
    var lr := if keys.d then sp.xy else if keys.a then -sp.xy else 0;
    var fb := if keys.w || (s.autopilot && s.chaseCounter > 0) then 3 * sp.xy
              else if keys.s then -3 * sp.xy else 0;
    var udManual := if keys.i then sp.z else if keys.k then -sp.z else 0;
    var yawManual := if keys.l then sp.yaw else if keys.j then -sp.yaw else 0;
    Axes(lr, fb, ClampInt(udManual + auto.ud), ClampInt(yawManual + auto.yaw))
  }

  /**
    At the default speed of 50 the live chase asks for 150 forward, beyond
    the 100 the other axes are held to, because pitch is sent unclamped.
   */
  lemma ChaseForwardExceedsStickLimit(s: LoopState, keys: Keys)
    requires s.autopilot && s.chaseCounter > 0
    ensures Commands(s, Speeds(50, 50, 50), keys).fb == 150 > StickLimit
  {
  }

  /**
    Once the countdown has run out the autopilot searches: after at least as
    many silent ticks as the countdown shows, the yaw sent is the search spin.
   */
  lemma {:induction false} SilentTicksStartSearch(s: LoopState, boxes: seq<Option<Box>>, frame: FrameSize, sp: Speeds)
    requires frame.width > 0 && frame.height > 0 && s.autopilot
    requires forall t :: 0 <= t < |boxes| ==> boxes[t].None?
    requires |boxes| >= s.chaseCounter
    ensures Auto(SightingRun(s, boxes, frame), sp) == AutoCommand(sp.yaw, 0, 1)
    decreases |boxes|
  {
    if boxes != [] {
      SilentTicksStartSearch(Sighting(s, boxes[0], frame), boxes[1..], frame, sp);
    }
  }

  /** The loop of `run_drone`: its speeds and the variables it updates in place. */
  class InlineLoop {
    const speeds: Speeds
    var autopilot: bool
    var key0Prev: bool
    var chaseCounter: int
    var lastXMid: real
    var lastYTop: real
    var detections: seq<Detection>

    /** The loop variables as a value. */
    function View(): LoopState
      reads this
    {
      LoopState(autopilot, key0Prev, chaseCounter, lastXMid, lastYTop)
    }

    predicate Valid()
      reads this
    {
      CounterInRange(View())
    }

    constructor (speedXY: int := 50, speedZ: int := 50, speedYaw: int := 50)
      ensures speeds == Speeds(speedXY, speedZ, speedYaw)
      ensures View() == Start() && detections == []
      ensures Valid()
    {
      speeds := Speeds(speedXY, speedZ, speedYaw);
      autopilot := false;
      key0Prev := false;
      chaseCounter := 0;
      lastXMid := 0.5;
      lastYTop := 0.5;
      detections := [];
    }

    /**
      The detection step: when due, replace the stored detections with the
      detector output and reduce it to its largest person box; otherwise
      there is no person box this pass.
     */
    method Detect(detected: Option<seq<Detection>>) returns (personBox: Option<Box>)
      modifies this
      ensures View() == old(View())
      ensures detected.None? ==> personBox.None? && detections == old(detections)
      ensures detected.Some? ==> detections == detected.value && IsPersonReduction(detected.value, personBox)
    {
      personBox := None;
      if detected.Some? {
        var dets, box := ReducePersonBox(detected.value);
        detections := dets;
        personBox := box;
      }
    }

    /** The chase-counter and target-point update of one pass. */
    method UpdateTracking(personBox: Option<Box>, frame: FrameSize)
      requires frame.width > 0 && frame.height > 0
      modifies this
      ensures View() == Sighting(old(View()), personBox, frame)
      ensures detections == old(detections)
    {
      var fw, fh := frame.width, frame.height;
      if autopilot && personBox.Some? {
        var b := personBox.value;
        lastXMid := ((b.x1 + b.x2) as real / 2.0) / fw as real;
        lastYTop := b.y1 as real / fh as real;
        chaseCounter := ChaseFrames;
      } else if autopilot && chaseCounter > 0 {
        chaseCounter := chaseCounter - 1;
      }
    }

    /**
      One pass of the loop. `frame` is None when the camera has no frame
      yet, which ends the pass right after the toggle; `detected` is the
      detector output when detection is due this pass, None otherwise.
     */
    method Tick(keys: Keys, frame: Option<FrameSize>, detected: Option<seq<Detection>>)
      returns (out: Option<TickOutput>, personBox: Option<Box>)
      requires Valid()
      requires frame.Some? ==> frame.value.width > 0 && frame.value.height > 0
      modifies this
      ensures Valid()
      ensures frame.None? ==>
        && out.None? && personBox.None?
        && View() == ToggleStep(old(View()), keys.key0)
        && detections == old(detections)
      ensures frame.Some? && detected.None? ==> personBox.None? && detections == old(detections)
      ensures frame.Some? && detected.Some? ==>
        detections == detected.value && IsPersonReduction(detected.value, personBox)
      ensures frame.Some? ==>
        && View() == Sighting(ToggleStep(old(View()), keys.key0), personBox, frame.value)
        && out == Some(TickOutput(Commands(View(), speeds, keys), Auto(View(), speeds).mode))
    {
      var key0Curr := keys.key0;
      if key0Curr && !key0Prev {
        autopilot := !autopilot;
      }
      key0Prev := key0Curr;
      if frame.None? {
        out, personBox := None, None;
        return;
      }
      personBox := Detect(detected);
      UpdateTracking(personBox, frame.value);
      var auto := Auto(View(), speeds);
      out := Some(TickOutput(Commands(View(), speeds, keys), auto.mode));
    }
  }
}
