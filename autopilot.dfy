/**
  The autopilot state machine of autopilot.py: four states (OFF, SEARCH,
  CHASE, TRACK), the guidance fields that `update_detection` folds a person
  box into, and the per-state command formulas that `update` dispatches to.

  The pure functions on `Guidance` are the specification; the class
  `Autopilot` updates its fields in place as the source does and is proved to
  follow them. Python floats are modelled as exact reals.
 */
module AutopilotMachine {
  import opened Common
  import opened Detections

  datatype State = Off | Search | Chase | Track

  /** The autopilot context fields that change at run time. */
  datatype Guidance = Guidance(
    state: State,
    lastXMid: real,
    lastYTop: real,
    boxWidth: real,
    chaseCounter: int,
    mode: int)

  /** The deltas in the order the states return them: (yaw, up/down, forward/back). */
  datatype Deltas = Deltas(yaw: real, ud: real, fb: real)

  /** Ticks a detection keeps the autopilot chasing. */
  const ChaseLookahead: int := 7
  /**
    CHASE retreats when `last_ytop` falls below this value. Since `last_ytop`
    is `1 - y1 / fh`, in exact arithmetic that is when the box top lies in the
    bottom fifth of the frame (see `RetreatIffBoxTopInBottomFifth`).
   */
  const RetreatBelow: real := 0.2

  /** The context a fresh `Autopilot` starts with. */
  function Initial(): Guidance {
    Guidance(Off, 0.5, 0.5, 0.0, 0, 0)
  }

  /** The mode number each state's update writes (0 OFF, 1 SEARCH, 2 CHASE, 3 TRACK). */
  function ModeOf(s: State): int {
    match s
    case Off => 0
    case Search => 1
    case Chase => 2
    case Track => 3
  }

  predicate CounterInRange(g: Guidance) {
    0 <= g.chaseCounter <= ChaseLookahead
  }

  /** The box lies inside a `fw` x `fh` frame. */
  predicate InFrame(b: Box, fw: int, fh: int) {
    0 <= b.x1 <= b.x2 <= fw && 0 <= b.y1 <= fh
  }

  /** `update_detection`: fold an optional person box into the guidance fields. */
  function AfterDetection(g: Guidance, personBox: Option<Box>, fw: int, fh: int): (r: Guidance)
    requires fw > 0 && fh > 0
    ensures personBox.Some? ==>
      var b := personBox.value;
      r == g.(lastXMid := ((b.x1 + b.x2) as real / 2.0) / fw as real,
              lastYTop := 1.0 - b.y1 as real / fh as real,
              boxWidth := (b.x2 - b.x1) as real / fw as real,
              chaseCounter := ChaseLookahead,
              state := if g.state == Search then Chase else g.state)
    ensures CounterInRange(g) ==> CounterInRange(r)
    ensures CounterInRange(g) ==> (r.chaseCounter == ChaseLookahead <==> personBox.Some?)
    ensures personBox.None? ==>
      r == g.(chaseCounter := if g.chaseCounter - 1 > 0 then g.chaseCounter - 1 else 0)
    ensures r.state == Chase <==> g.state == Chase || (g.state == Search && personBox.Some?)
    ensures r.state != Chase ==> r.state == g.state
    ensures r.mode == g.mode
  {
    match personBox
    case Some(b) =>
      g.(lastXMid := ((b.x1 + b.x2) as real / 2.0) / fw as real,
         lastYTop := 1.0 - b.y1 as real / fh as real,
         boxWidth := (b.x2 - b.x1) as real / fw as real,
         chaseCounter := ChaseLookahead,
         state := if g.state == Search then Chase else g.state)
    case None =>
      g.(chaseCounter := if g.chaseCounter - 1 > 0 then g.chaseCounter - 1 else 0)
  }

  /** A box inside the frame yields guidance values normalised to [0, 1]. */
  lemma NormalisedGuidance(g: Guidance, b: Box, fw: int, fh: int)
    requires fw > 0 && fh > 0 && InFrame(b, fw, fh)
    ensures var r := AfterDetection(g, Some(b), fw, fh);
      && 0.0 <= r.lastXMid <= 1.0
      && 0.0 <= r.lastYTop <= 1.0
      && 0.0 <= r.boxWidth <= 1.0
  {
    UnitFraction((b.x1 + b.x2) as real / 2.0, fw as real);
    UnitFraction(b.y1 as real, fh as real);
    UnitFraction((b.x2 - b.x1) as real, fw as real);
  }

  /** A quotient of a non-negative number by a positive one no smaller lies in [0, 1]. */
  lemma UnitFraction(x: real, w: real)
    requires 0.0 <= x <= w && w > 0.0
    ensures 0.0 <= x / w <= 1.0
  {
  }

  /**
    `last_ytop` is inverted: in exact arithmetic it drops below the retreat
    threshold exactly when the box top is lower than four fifths of the frame
    height, so the retreat fires for a box whose top is near the bottom edge.
   */
  lemma RetreatIffBoxTopInBottomFifth(g: Guidance, b: Box, fw: int, fh: int)
    requires fw > 0 && fh > 0
    ensures AfterDetection(g, Some(b), fw, fh).lastYTop < RetreatBelow <==> b.y1 as real > 0.8 * fh as real
  {
    var h := fh as real;
    var q := b.y1 as real / h;
    assert q * h == b.y1 as real;
    if q > 0.8 {
      ProductPositive(q - 0.8, h);
    } else {
      ProductNonNegative(0.8 - q, h);
    }
  }

  lemma ProductPositive(a: real, b: real)
    requires a > 0.0 && b > 0.0
    ensures a * b > 0.0
  {
  }

  /** A box centred horizontally in the frame gives `lastXMid == 0.5`. */
  lemma CentredBoxGuidance(g: Guidance, b: Box, fw: int, fh: int)
    requires fw > 0 && fh > 0 && b.x1 + b.x2 == fw
    ensures AfterDetection(g, Some(b), fw, fh).lastXMid == 0.5
  {
    var w := fw as real;
    assert (b.x1 + b.x2) as real / 2.0 == 0.5 * w;
    assert (0.5 * w) / w == 0.5;
  }

  /** OffState.update. */
  function OffUpdate(g: Guidance): (r: (Guidance, Deltas))
    ensures r.1 == Deltas(0.0, 0.0, 0.0)
    ensures r.0.mode == ModeOf(Off) && r.0 == g.(mode := r.0.mode)
  {
    (g.(mode := 0), Deltas(0.0, 0.0, 0.0))
  }

  /** SearchState.update: rotate at the configured yaw rate. */
  function SearchUpdate(g: Guidance, sp: Speeds): (r: (Guidance, Deltas))
    ensures r.1.yaw == sp.yaw as real && r.1.ud == 0.0 && r.1.fb == 0.0
    ensures r.0.mode == ModeOf(Search) && r.0 == g.(mode := r.0.mode)
  {
    (g.(mode := 1), Deltas(sp.yaw as real, 0.0, 0.0))
  }

  /** The centring yaw shared by CHASE and TRACK, `(last_xmid - 0.5) * 2 * speed_yaw`. */
  function CentringYaw(lastXMid: real, speedYaw: int): real {
    (lastXMid - 0.5) * 2.0 * speedYaw as real
  }

  /** A positive yaw rate turns right exactly when the subject is right of centre. */
  lemma CentringYawSign(lastXMid: real, speedYaw: int)
    requires speedYaw > 0
    ensures CentringYaw(lastXMid, speedYaw) > 0.0 <==> lastXMid > 0.5
    ensures CentringYaw(lastXMid, speedYaw) == 0.0 <==> lastXMid == 0.5
  {
    var d := lastXMid - 0.5;
    var s := 2.0 * speedYaw as real;
    assert CentringYaw(lastXMid, speedYaw) == d * s;
    if d > 0.0 {
      ProductNonNegative(d, s);
      assert d * s != 0.0;
    } else if d < 0.0 {
      ProductNonNegative(-d, s);
      assert d * s != 0.0;
    }
  }

  /** The up/down formula of CHASE, `(last_ytop - 0.65) * 2 * speed_z`. */
  function ChaseVertical(lastYTop: real, speedZ: int): real {
    (lastYTop - 0.65) * 2.0 * speedZ as real
  }

  /** The up/down formula of TRACK, `-(last_ytop - 0.5) * 2 * speed_z`. */
  function TrackVertical(lastYTop: real, speedZ: int): real {
    -(lastYTop - 0.5) * 2.0 * speedZ as real
  }

  /** The forward/back formula of CHASE before the sign check. */
  function ApproachBase(boxWidth: real, speedXY: int): real {
    (0.5 - 0.5 * boxWidth) * 2.0 * speedXY as real
  }

  /** The approach term of CHASE before the override: tripled when negative. */
  function ApproachTerm(boxWidth: real, speedXY: int): real {
    var fb := ApproachBase(boxWidth, speedXY);
    if fb < 0.0 then fb * 3.0 else fb
  }

  /** A product of two non-negative reals is non-negative. */
  lemma ProductNonNegative(a: real, b: real)
    requires a >= 0.0 && b >= 0.0
    ensures a * b >= 0.0
  {
  }

  /**
    With a positive speed the approach term moves forward at most `speedXY`
    for a box narrower than the frame and backs off, at three times the
    formula, only for a box wider than the whole frame.
   */
  lemma ApproachTermSign(boxWidth: real, speedXY: int)
    requires speedXY > 0
    ensures ApproachTerm(boxWidth, speedXY) < 0.0 <==> boxWidth > 1.0
    ensures boxWidth <= 1.0 ==> ApproachTerm(boxWidth, speedXY) == (1.0 - boxWidth) * speedXY as real
    ensures boxWidth > 1.0 ==> ApproachTerm(boxWidth, speedXY) == 3.0 * (1.0 - boxWidth) * speedXY as real
    ensures 0.0 <= boxWidth ==> ApproachTerm(boxWidth, speedXY) <= speedXY as real
  {
    var s := speedXY as real;
    var d := 1.0 - boxWidth;
    assert ApproachBase(boxWidth, speedXY) == d * s;
    if boxWidth > 1.0 {
      ProductNonNegative(-d, s);
      assert d * s != 0.0;
    } else {
      ProductNonNegative(d, s);
      if 0.0 <= boxWidth {
        ProductNonNegative(boxWidth, s);
        assert d * s == s - boxWidth * s;
      }
    }
  }

  /** A box inside the frame never triggers the backoff branch of CHASE. */
  lemma InFrameBoxNeverBacksOff(g: Guidance, b: Box, fw: int, fh: int, speedXY: int)
    requires fw > 0 && fh > 0 && InFrame(b, fw, fh) && speedXY > 0
    ensures ApproachTerm(AfterDetection(g, Some(b), fw, fh).boxWidth, speedXY) >= 0.0
  {
    NormalisedGuidance(g, b, fw, fh);
    ApproachTermSign(AfterDetection(g, Some(b), fw, fh).boxWidth, speedXY);
  }

  /**
    ChaseState.update: with the counter run out, fall back to SEARCH and
    return its output; otherwise steer towards the last guidance point, with
    the retreat override when `last_ytop` is below 0.2, that is, in exact
    arithmetic, when the box top lies in the bottom fifth of the frame.
   */
  function ChaseUpdate(g: Guidance, sp: Speeds): (r: (Guidance, Deltas))
    ensures g.chaseCounter <= 0 ==> r == SearchUpdate(g.(state := Search), sp)
    ensures g.chaseCounter > 0 ==> r.0 == g.(mode := 2)
    ensures g.chaseCounter > 0 ==> r.1.yaw == CentringYaw(g.lastXMid, sp.yaw)
    ensures g.chaseCounter > 0 && g.lastXMid == 0.5 ==> r.1.yaw == 0.0
    ensures g.chaseCounter > 0 && g.lastYTop < RetreatBelow ==> r.1.fb == -45.0 && r.1.ud == -15.0
    ensures g.chaseCounter > 0 && g.lastYTop >= RetreatBelow ==>
      && r.1.ud == ChaseVertical(g.lastYTop, sp.z)
      && r.1.fb == ApproachTerm(g.boxWidth, sp.xy)
  {
    if g.chaseCounter <= 0 then
      SearchUpdate(g.(state := Search), sp)
    else
      var yaw := CentringYaw(g.lastXMid, sp.yaw);
      var ud := ChaseVertical(g.lastYTop, sp.z);
      var fb := ApproachTerm(g.boxWidth, sp.xy);
      if g.lastYTop < RetreatBelow then
        (g.(mode := 2), Deltas(yaw, -15.0, -45.0))
      else
        (g.(mode := 2), Deltas(yaw, ud, fb))
  }

  /** TrackState.update: centre the subject without moving forward or back. */
  function TrackUpdate(g: Guidance, sp: Speeds): (r: (Guidance, Deltas))
    ensures r.0 == g.(mode := 3)
    ensures r.1.fb == 0.0
    ensures r.1.yaw == CentringYaw(g.lastXMid, sp.yaw)
    ensures r.1.ud == TrackVertical(g.lastYTop, sp.z)
    ensures g.lastXMid == 0.5 ==> r.1.yaw == 0.0
  {
    var yaw := CentringYaw(g.lastXMid, sp.yaw);
    var ud := TrackVertical(g.lastYTop, sp.z);
    (g.(mode := 3), Deltas(yaw, ud, 0.0))
  }

  /** `update`: dispatch on the current state. */
  function StateUpdate(g: Guidance, sp: Speeds): (r: (Guidance, Deltas))
    ensures r.0.state == (if g.state == Chase && g.chaseCounter <= 0 then Search else g.state)
    ensures r.0.mode == ModeOf(r.0.state)
    ensures r.0 == g.(state := r.0.state, mode := r.0.mode)
    ensures r.0.state == Off ==> r.1 == Deltas(0.0, 0.0, 0.0)
    ensures r.0.state == Search ==> r.1 == Deltas(sp.yaw as real, 0.0, 0.0)
    ensures r.0.state == Track ==> r.1.fb == 0.0
  {
    match g.state
    case Off => OffUpdate(g)
    case Search => SearchUpdate(g, sp)
    case Chase => ChaseUpdate(g, sp)
    case Track => TrackUpdate(g, sp)
  }

  /** One control tick: `update_detection` followed by `update`. */
  function Tick(g: Guidance, sp: Speeds, personBox: Option<Box>, fw: int, fh: int): (r: (Guidance, Deltas))
    requires fw > 0 && fh > 0
    ensures CounterInRange(g) ==> CounterInRange(r.0)
    ensures g.state == Search ==> (r.0.state == Chase <==> personBox.Some?)
    ensures g.state == Chase ==> (r.0.state == Search <==> personBox.None? && g.chaseCounter <= 1)
    ensures g.state == Chase || g.state == Search ==> r.0.state == Chase || r.0.state == Search
    ensures g.state == Off || g.state == Track ==> r.0.state == g.state
    ensures r.0.mode == ModeOf(r.0.state)
  {
    StateUpdate(AfterDetection(g, personBox, fw, fh), sp)
  }

  /** The guidance after a sequence of ticks seeing the given person boxes. */
  function Run(g: Guidance, sp: Speeds, boxes: seq<Option<Box>>, fw: int, fh: int): Guidance
    requires fw > 0 && fh > 0
    decreases |boxes|
  {
    if boxes == [] then g else Run(Tick(g, sp, boxes[0], fw, fh).0, sp, boxes[1..], fw, fh)
  }

  /** The chase counter never leaves [0, 7], whatever the detections. */
  lemma {:induction false} RunKeepsCounterInRange(g: Guidance, sp: Speeds, boxes: seq<Option<Box>>, fw: int, fh: int)
    requires fw > 0 && fh > 0 && CounterInRange(g)
    ensures CounterInRange(Run(g, sp, boxes, fw, fh))
    decreases |boxes|
  {
    if boxes != [] {
      RunKeepsCounterInRange(Tick(g, sp, boxes[0], fw, fh).0, sp, boxes[1..], fw, fh);
    }
  }

  /** After at least one tick the counter is 7 exactly when the last tick saw a person box. */
  lemma {:induction false} CounterResetIffLastBox(g: Guidance, sp: Speeds, boxes: seq<Option<Box>>, fw: int, fh: int)
    requires fw > 0 && fh > 0 && CounterInRange(g) && |boxes| > 0
    ensures Run(g, sp, boxes, fw, fh).chaseCounter == ChaseLookahead <==> boxes[|boxes| - 1].Some?
    decreases |boxes|
  {
    var g1 := Tick(g, sp, boxes[0], fw, fh).0;
    if |boxes| > 1 {
      CounterResetIffLastBox(g1, sp, boxes[1..], fw, fh);
    } else {
      assert boxes[1..] == [];
    }
  }

  /** OFF and TRACK are only left by an explicit `set_state`. */
  lemma {:induction false} ManualStatesPersist(g: Guidance, sp: Speeds, boxes: seq<Option<Box>>, fw: int, fh: int)
    requires fw > 0 && fh > 0 && (g.state == Off || g.state == Track)
    ensures Run(g, sp, boxes, fw, fh).state == g.state
    decreases |boxes|
  {
    if boxes != [] {
      ManualStatesPersist(Tick(g, sp, boxes[0], fw, fh).0, sp, boxes[1..], fw, fh);
    }
  }

  /**
    Without detections, CHASE falls back to SEARCH within as many ticks as the
    counter holds (at least one), and from then on the output is the search
    rotation.
   */
  lemma {:induction false} SilentTicksFallBackToSearch(g: Guidance, sp: Speeds, boxes: seq<Option<Box>>, fw: int, fh: int)
    requires fw > 0 && fh > 0
    requires g.state == Chase || g.state == Search
    requires forall k :: 0 <= k < |boxes| ==> boxes[k].None?
    requires |boxes| >= 1 && |boxes| >= g.chaseCounter
    ensures Run(g, sp, boxes, fw, fh).state == Search
    ensures Tick(Run(g, sp, boxes, fw, fh), sp, None, fw, fh).1 == Deltas(sp.yaw as real, 0.0, 0.0)
    decreases |boxes|
  {
    var g1 := Tick(g, sp, boxes[0], fw, fh).0;
    if |boxes| == 1 {
      assert boxes[1..] == [];
      assert g1.state == Search;
    } else {
      SilentTicksFallBackToSearch(g1, sp, boxes[1..], fw, fh);
    }
  }

  /** Scenario: eight ticks without a person while chasing always end in SEARCH. */
  lemma EightSilentTicksEndChase(g: Guidance, sp: Speeds, fw: int, fh: int)
    requires fw > 0 && fh > 0 && g.state == Chase && CounterInRange(g)
    ensures Run(g, sp, seq(8, _ => None), fw, fh).state == Search
  {
    SilentTicksFallBackToSearch(g, sp, seq(8, _ => None), fw, fh);
  }

  /** The autopilot object: configuration plus the guidance fields it updates in place. */
  class Autopilot {
    const speedXY: int
    const speedZ: int
    const speedYaw: int
    var lastXMid: real
    var lastYTop: real
    var boxWidth: real
    var chaseCounter: int
    var mode: int
    var state: State

    function Config(): Speeds {
      Speeds(speedXY, speedZ, speedYaw)
    }

    /** The guidance fields as a value. */
    function View(): Guidance
      reads this
    {
      Guidance(state, lastXMid, lastYTop, boxWidth, chaseCounter, mode)
    }

    constructor (speedXY: int := 100, speedZ: int := 100, speedYaw: int := 100)
      ensures Config() == Speeds(speedXY, speedZ, speedYaw)
      ensures View() == Initial()
    {
      this.speedXY := speedXY;
      this.speedZ := speedZ;
      this.speedYaw := speedYaw;
      lastXMid := 0.5;
      lastYTop := 0.5;
      boxWidth := 0.0;
      chaseCounter := 0;
      mode := 0;
      state := Off;
    }

    method SetState(s: State)
      modifies this
      ensures View() == old(View()).(state := s)
    {
      state := s;
    }

    method UpdateDetection(personBox: Option<Box>, fw: int, fh: int)
      requires fw > 0 && fh > 0
      modifies this
      ensures View() == AfterDetection(old(View()), personBox, fw, fh)
    {
      match personBox
      case Some(b) =>
        lastXMid := ((b.x1 + b.x2) as real / 2.0) / fw as real;
        lastYTop := 1.0 - b.y1 as real / fh as real;
        boxWidth := (b.x2 - b.x1) as real / fw as real;
        chaseCounter := ChaseLookahead;
        if state == Search {
          state := Chase;
        }
      case None =>
        chaseCounter := if chaseCounter - 1 > 0 then chaseCounter - 1 else 0;
    }

    /** `update`: run the current state's update and return its deltas with the mode. */
    method Update() returns (yaw: real, ud: real, fb: real, m: int)
      modifies this
      ensures (View(), Deltas(yaw, ud, fb)) == StateUpdate(old(View()), Config())
      ensures m == mode
    {
      ghost var g := View();
      match state {
      case Off =>
        mode := 0;
        yaw, ud, fb := 0.0, 0.0, 0.0;
      case Search =>
        mode := 1;
        yaw, ud, fb := speedYaw as real, 0.0, 0.0;
      case Chase =>
        mode := 2;
        if chaseCounter <= 0 {
          state := Search;
          mode := 1;
          yaw, ud, fb := speedYaw as real, 0.0, 0.0;
        } else {
          yaw := CentringYaw(lastXMid, speedYaw);
          ud := ChaseVertical(lastYTop, speedZ);
          fb := ApproachBase(boxWidth, speedXY);
          if fb < 0.0 {
            fb := fb * 3.0;
          }
          if lastYTop < RetreatBelow {
            fb := -45.0;
            ud := -15.0;
          }
          assert Deltas(yaw, ud, fb) == ChaseUpdate(g, Config()).1;
        }
      case Track =>
        mode := 3;
        yaw := CentringYaw(lastXMid, speedYaw);
        ud := TrackVertical(lastYTop, speedZ);
        fb := 0.0;
        assert Deltas(yaw, ud, fb) == TrackUpdate(g, Config()).1;
      }
      m := mode;
    }
  }
}
