/**
 * STouchInterface (STouchInterface.cpp): the runtime touch-interface widget.
 * Modelled: the opacity state machine its Tick runs (SetWidgetOpacity and
 * GetBaseOpacity), the widget visibility switch, the registration lists of
 * touch listeners and shape managers, and how a touch start is routed:
 * first to the virtual controls under the finger, then, when none takes
 * it, to the listeners in order of priority.
 *
 * What the controls and listeners answer (a hit test, the value OnPress
 * returns, whether a listener claims the touch) is passed in. The
 * OnActiveStateChanged and OnVisibilityStateChanged delegates are recorded
 * as the lists of values they are fired with (the subsystem binds both),
 * and each reset of a top-level control as its widget index.
 */
module TouchInterface {
  import opened Common
  import opened VirtualControlTypes
  import opened VirtualControlSetup

  /** OPACITY_LERP_RATE. */
  const OpacityLerpRate: real := 3.0

  /** ETouchInterfaceState. */
  datatype InterfaceState = Active | CountingDownToInactive | CountingDownToReset | Inactive | WaitForStart | CountingDownToStart

  /** The interface looks active (full opacity) in these two states. */
  predicate LooksActive(s: InterfaceState)
  {
    s == Active || s == CountingDownToInactive
  }

  /** FMath::Lerp. */
  function Lerp(a: real, b: real, alpha: real): (r: real)
    ensures alpha == 0.0 ==> r == a
    ensures alpha == 1.0 ==> r == b
  {
    a + Mul(alpha, b - a)
  }

  /** With an interpolation factor in [0,1], the result lies between the two ends. */
  lemma LerpBetween(a: real, b: real, alpha: real)
    requires 0.0 <= alpha <= 1.0
    ensures Min(a, b) <= Lerp(a, b, alpha) <= Max(a, b)
  {
    if a <= b {
      MulFraction(alpha, b - a);
    } else {
      MulFraction(alpha, a - b);
      MulNegated(alpha, a - b);
    }
  }

  lemma MulNegated(x: real, y: real)
    ensures Mul(x, -y) == -Mul(x, y)
  {
  }

  /** The timing settings the interface copies from its setup asset at construction. */
  datatype Timing = Timing(activeOpacity: real, inactiveOpacity: real, timeUntilDeactivated: real, timeUntilReset: real, startupDelay: real)

  /** The three fields the state machine moves: the state, the countdown and whether "active" was announced. */
  datatype Machine = Machine(state: InterfaceState, countdown: real, activeEventSent: bool)

  /** One step of the state machine: the next fields, the value OnActiveStateChanged fires with (if any), and whether top-level controls are reset. */
  datatype Transition = Transition(next: Machine, fired: Option<bool>, resetControls: bool)

  /** The state-machine half of SetWidgetOpacity, for `activeControls` active controls and a frame of `dt` seconds. */
  function Step(m: Machine, t: Timing, activeControls: int, dt: real): Transition
  {
    if activeControls > 0 then
      Transition(m.(state := Active, activeEventSent := true), if m.activeEventSent then None else Some(true), false)
    else match m.state
      case WaitForStart =>
        Transition(m.(state := CountingDownToStart, countdown := t.startupDelay), None, false)
      case CountingDownToStart =>
        var c := m.countdown - dt;
        if c <= 0.0 then Transition(Machine(Inactive, c, false), Some(false), false)
        else Transition(m.(countdown := c), None, false)
      case Active =>
        if activeControls == 0 then Transition(m.(state := CountingDownToInactive, countdown := t.timeUntilDeactivated), None, false)
        else Transition(m, None, false)
      case CountingDownToInactive =>
        var c := m.countdown - dt;
        if c > 0.0 then Transition(m.(countdown := c), None, false)
        else if t.timeUntilReset > 0.0 then Transition(m.(state := CountingDownToReset, countdown := t.timeUntilReset), None, false)
        else Transition(Machine(Inactive, c, false), Some(false), false)
      case CountingDownToReset =>
        var c := m.countdown - dt;
        if c <= 0.0 then Transition(Machine(Inactive, c, false), Some(false), true)
        else Transition(m.(countdown := c), None, false)
      case Inactive =>
        Transition(m, None, false)
  }

  /** The opacity half of SetWidgetOpacity, computed from the state before the step. */
  function NextOpacity(current: real, state: InterfaceState, t: Timing, dt: real): real
  {
    if state == WaitForStart || state == CountingDownToStart then 0.0
    else Lerp(current, BaseOpacity(state, t), OpacityLerpRate * dt)
  }

  /** GetBaseOpacity. */
  function BaseOpacity(state: InterfaceState, t: Timing): real
  {
    if LooksActive(state) then t.activeOpacity else t.inactiveOpacity
  }

  /** The base opacity is the active one exactly in the two active-looking states (when the two opacities differ). */
  lemma BaseOpacityIff(state: InterfaceState, t: Timing)
    requires t.activeOpacity != t.inactiveOpacity
    ensures BaseOpacity(state, t) == t.activeOpacity <==> (state == Active || state == CountingDownToInactive)
    ensures BaseOpacity(state, t) == t.inactiveOpacity <==> !(state == Active || state == CountingDownToInactive)
  {
  }

  /**
   * Any active control makes the state Active at once; "true" is announced
   * only when it was not already, and a second active frame announces
   * nothing.
   */
  lemma ActiveControlsActivate(m: Machine, t: Timing, activeControls: int, dt: real)
    requires activeControls > 0
    ensures var tr := Step(m, t, activeControls, dt);
      tr.next.state == Active && tr.next.activeEventSent && !tr.resetControls
      && (tr.fired == Some(true) <==> !m.activeEventSent)
      && (tr.fired == None <==> m.activeEventSent)
      && Step(tr.next, t, activeControls, dt).fired == None
  {
  }

  /** With no active control, Active starts the countdown to inactive at TimeUntilDeactivated. */
  lemma ActiveStartsCountdown(m: Machine, t: Timing, dt: real)
    requires m.state == Active
    ensures var tr := Step(m, t, 0, dt);
      tr.next == m.(state := CountingDownToInactive, countdown := t.timeUntilDeactivated) && tr.fired == None
  {
  }

  /**
   * When the countdown to inactive runs out, a positive TimeUntilReset
   * starts the countdown to reset; otherwise the interface goes inactive
   * and announces "false". While it runs, only the countdown moves.
   */
  lemma DeactivationExpiry(m: Machine, t: Timing, dt: real)
    requires m.state == CountingDownToInactive
    ensures var tr := Step(m, t, 0, dt);
      (m.countdown - dt <= 0.0 && t.timeUntilReset > 0.0 ==>
        tr.next.state == CountingDownToReset && tr.next.countdown == t.timeUntilReset && tr.fired == None)
      && (m.countdown - dt <= 0.0 && t.timeUntilReset <= 0.0 ==>
        tr.next.state == Inactive && !tr.next.activeEventSent && tr.fired == Some(false))
      && (m.countdown - dt > 0.0 ==>
        tr.next == m.(countdown := m.countdown - dt) && tr.fired == None)
      && !tr.resetControls
  {
  }

  /** When the countdown to reset runs out, the top-level controls are reset and the interface goes inactive, announcing "false". */
  lemma ResetExpiry(m: Machine, t: Timing, dt: real)
    requires m.state == CountingDownToReset
    ensures var tr := Step(m, t, 0, dt);
      (m.countdown - dt <= 0.0 ==>
        tr.resetControls && tr.next.state == Inactive && !tr.next.activeEventSent && tr.fired == Some(false))
      && (m.countdown - dt > 0.0 ==> !tr.resetControls && tr.next.state == CountingDownToReset)
  {
  }

  /**
   * The startup delay: WaitForStart moves to CountingDownToStart with the
   * full StartupDelay, the opacity stays 0 in both states, and the end of
   * the countdown makes the interface inactive.
   */
  lemma StartupSequence(m: Machine, t: Timing, dt: real, opacity: real)
    requires m.state == WaitForStart
    ensures var tr := Step(m, t, 0, dt);
      tr.next.state == CountingDownToStart && tr.next.countdown == t.startupDelay
      && NextOpacity(opacity, m.state, t, dt) == 0.0
      && NextOpacity(opacity, tr.next.state, t, dt) == 0.0
      && (t.startupDelay - dt <= 0.0 ==> Step(tr.next, t, 0, dt).next.state == Inactive)
      && (t.startupDelay - dt > 0.0 ==> Step(tr.next, t, 0, dt).next.state == CountingDownToStart)
  {
  }

  /**
   * Outside the startup states the opacity moves toward the base opacity:
   * a frame no longer than 1/3 s keeps it between the old opacity and the
   * base, and a frame of exactly 1/3 s reaches the base.
   */
  lemma OpacityApproachesBase(current: real, state: InterfaceState, t: Timing, dt: real)
    requires state != WaitForStart && state != CountingDownToStart
    requires 0.0 <= dt && OpacityLerpRate * dt <= 1.0
    ensures var o := NextOpacity(current, state, t, dt);
      Min(current, BaseOpacity(state, t)) <= o <= Max(current, BaseOpacity(state, t))
      && (OpacityLerpRate * dt == 1.0 ==> o == BaseOpacity(state, t))
  {
    LerpBetween(current, BaseOpacity(state, t), OpacityLerpRate * dt);
  }

  /** The machine never leaves Inactive without an active control. */
  lemma InactiveIsStable(m: Machine, t: Timing, dt: real)
    requires m.state == Inactive
    ensures Step(m, t, 0, dt) == Transition(m, None, false)
  {
  }

  // ---------------------------------------------------------------- Touch routing

  /** A registered touch listener (UTouchInterfaceListener) and its Priority. */
  datatype Listener = Listener(id: nat, priority: int)

  /**
   * The listeners, from index `i` on, that receive OnTouchStarted. Before
   * any listener has claimed the touch (`claimed` is None), each receives
   * it and the first that claims it sets the priority; after that, only
   * the following listeners of that priority receive it, and the first of
   * another priority ends the loop.
   */
  function Receivers(ls: seq<Listener>, claims: Listener -> bool, i: nat, claimed: Option<int>): seq<nat>
    requires i <= |ls|
    decreases |ls| - i
  {
    if i == |ls| then []
    else match claimed
      case Some(p) =>
        if ls[i].priority == p then [i] + Receivers(ls, claims, i + 1, claimed) else []
      case None =>
        [i] + Receivers(ls, claims, i + 1, if claims(ls[i]) then Some(ls[i].priority) else None)
  }

  /** The indices i, i+1, …, n-1. */
  function Range(i: nat, n: nat): (r: seq<nat>)
    requires i <= n
    ensures |r| == n - i && forall k :: 0 <= k < |r| ==> r[k] == i + k
    ensures forall k :: k in r <==> i <= k < n
    decreases n - i
  {
    if i == n then [] else [i] + Range(i + 1, n)
  }

  /** The end of the run of listeners of priority `p` starting at `i`. */
  function RunEnd(ls: seq<Listener>, i: nat, p: int): (e: nat)
    requires i <= |ls|
    ensures i <= e <= |ls|
    ensures forall k :: i <= k < e ==> ls[k].priority == p
    ensures e == |ls| || ls[e].priority != p
    decreases |ls| - i
  {
    if i == |ls| || ls[i].priority != p then i else RunEnd(ls, i + 1, p)
  }

  /** The first listener from `i` on that claims the touch, or |ls|. */
  function FirstClaim(ls: seq<Listener>, claims: Listener -> bool, i: nat): (f: nat)
    requires i <= |ls|
    ensures i <= f <= |ls|
    ensures forall k :: i <= k < f ==> !claims(ls[k])
    ensures f == |ls| || claims(ls[f])
    decreases |ls| - i
  {
    if i == |ls| || claims(ls[i]) then i else FirstClaim(ls, claims, i + 1)
  }

  lemma {:induction false} ReceiversAfterClaim(ls: seq<Listener>, claims: Listener -> bool, i: nat, p: int)
    requires i <= |ls|
    ensures Receivers(ls, claims, i, Some(p)) == Range(i, RunEnd(ls, i, p))
    decreases |ls| - i
  {
    if i < |ls| && ls[i].priority == p {
      ReceiversAfterClaim(ls, claims, i + 1, p);
    }
  }

  lemma {:induction false} ReceiversBeforeClaim(ls: seq<Listener>, claims: Listener -> bool, i: nat)
    requires i <= |ls|
    ensures var f := FirstClaim(ls, claims, i);
      Receivers(ls, claims, i, None) == Range(i, if f == |ls| then |ls| else RunEnd(ls, f + 1, ls[f].priority))
    decreases |ls| - i
  {
    if i < |ls| {
      if claims(ls[i]) {
        ReceiversAfterClaim(ls, claims, i + 1, ls[i].priority);
      } else {
        ReceiversBeforeClaim(ls, claims, i + 1);
      }
    }
  }

  /**
   * The dispatch of a touch start to the listeners: with no claim every
   * listener receives it; otherwise exactly the listeners up to the first
   * claimer, and after it only the unbroken run of listeners with the
   * claimer's priority.
   */
  lemma DispatchSpec(ls: seq<Listener>, claims: Listener -> bool)
    ensures var r := Receivers(ls, claims, 0, None);
      var f := FirstClaim(ls, claims, 0);
      (f == |ls| ==> r == Range(0, |ls|))
      && (f < |ls| ==>
            (forall k :: 0 <= k <= f ==> k in r)
            && (forall k :: f < k < |ls| && k in r ==> ls[k].priority == ls[f].priority)
            && (forall k :: f < k < |ls| && k !in r ==> exists j :: f < j <= k && ls[j].priority != ls[f].priority))
  {
    var f := FirstClaim(ls, claims, 0);
    ReceiversBeforeClaim(ls, claims, 0);
    if f < |ls| {
      var e := RunEnd(ls, f + 1, ls[f].priority);
      forall k | f < k < |ls| && k !in Range(0, e)
        ensures exists j :: f < j <= k && ls[j].priority != ls[f].priority
      {
        assert f < e <= k && ls[e].priority != ls[f].priority;
      }
    }
  }

  /** A virtual-control widget as the interface sees it: whether it is a child, and its type. */
  datatype ControlWidget = ControlWidget(name: string, isChild: bool, controlType: ControlType)

  /** The hit test of the widgets before `n` that are not touch regions, in order. */
  function PressedButtons(ws: seq<ControlWidget>, hit: nat -> bool, n: nat): seq<nat>
    requires n <= |ws|
  {
    if n == 0 then []
    else PressedButtons(ws, hit, n - 1) + (if hit(n - 1) && ws[n - 1].controlType != TouchRegion then [n - 1] else [])
  }

  /** The last touch region under the finger among the widgets before `n`, or -1. */
  function LastRegion(ws: seq<ControlWidget>, hit: nat -> bool, n: nat): (r: int)
    requires n <= |ws|
    ensures -1 <= r < n
    ensures r >= 0 ==> hit(r) && ws[r].controlType == TouchRegion
    ensures forall k :: r < k < n ==> !(hit(k) && ws[k].controlType == TouchRegion)
  {
    if n == 0 then -1
    else if hit(n - 1) && ws[n - 1].controlType == TouchRegion then n - 1
    else LastRegion(ws, hit, n - 1)
  }

  /** Some pressed control before `n` returned bBlockTouchRegion from OnPress. */
  predicate BlocksRegion(ws: seq<ControlWidget>, hit: nat -> bool, blocks: nat -> bool, n: nat)
    requires n <= |ws|
  {
    n > 0 && (BlocksRegion(ws, hit, blocks, n - 1) || (hit(n - 1) && ws[n - 1].controlType != TouchRegion && blocks(n - 1)))
  }

  /** The widgets OnTouchStarted presses: every non-region control under the finger, then the last region under it unless a pressed control blocks regions. */
  function PressedControls(ws: seq<ControlWidget>, hit: nat -> bool, blocks: nat -> bool): seq<nat>
  {
    var region := LastRegion(ws, hit, |ws|);
    PressedButtons(ws, hit, |ws|) + (if region >= 0 && !BlocksRegion(ws, hit, blocks, |ws|) then [region] else [])
  }

  lemma {:induction false} PressedButtonsSpec(ws: seq<ControlWidget>, hit: nat -> bool, n: nat)
    requires n <= |ws|
    ensures forall k :: 0 <= k < n ==> (k in PressedButtons(ws, hit, n) <==> hit(k) && ws[k].controlType != TouchRegion)
    ensures forall k :: k in PressedButtons(ws, hit, n) ==> k < n
  {
    if n > 0 {
      PressedButtonsSpec(ws, hit, n - 1);
    }
  }

  lemma {:induction false} BlocksRegionSpec(ws: seq<ControlWidget>, hit: nat -> bool, blocks: nat -> bool, n: nat)
    requires n <= |ws|
    ensures BlocksRegion(ws, hit, blocks, n) <==>
      exists k :: 0 <= k < n && hit(k) && ws[k].controlType != TouchRegion && blocks(k)
  {
    if n > 0 {
      BlocksRegionSpec(ws, hit, blocks, n - 1);
    }
  }

  /**
   * What a touch start presses: each control under the finger that is not
   * a touch region; and one touch region at most, the last one under the
   * finger, only when none of those controls blocks touch regions.
   */
  lemma PressedSpec(ws: seq<ControlWidget>, hit: nat -> bool, blocks: nat -> bool)
    ensures var p := PressedControls(ws, hit, blocks);
      (forall k :: 0 <= k < |ws| && ws[k].controlType != TouchRegion ==> (k in p <==> hit(k)))
      && (forall k :: 0 <= k < |ws| && ws[k].controlType == TouchRegion && k in p ==>
            hit(k) && k == LastRegion(ws, hit, |ws|)
            && forall j :: 0 <= j < |ws| && hit(j) && ws[j].controlType != TouchRegion ==> !blocks(j))
      && (forall k :: k in p ==> k < |ws|)
  {
    PressedButtonsSpec(ws, hit, |ws|);
    BlocksRegionSpec(ws, hit, blocks, |ws|);
  }

  class STouchInterface {
    var state: InterfaceState
    var countdown: real
    var activeEventSent: bool
    var currentOpacity: real
    var timing: Timing
    var visible: bool
    /** The Slate visibility (Visible or Hidden) set when not fading. */
    var slateVisible: bool
    var blockInput: bool
    var blockRecognizers: bool
    var gestureRecognizerEnabled: bool
    var shapeRecognizerEnabled: bool
    var numberOfActiveControl: int
    /** ChildWidgets. */
    var widgets: seq<ControlWidget>
    /** TouchInputComps and ShapeManagerComps. */
    var touchInputComps: seq<Listener>
    var shapeManagerComps: seq<nat>
    /** The values OnActiveStateChanged has been fired with, in order. */
    var activeStateEvents: seq<bool>
    /** The values OnVisibilityStateChanged has been fired with, in order. */
    var visibilityStateEvents: seq<bool>
    /** The widgets reset by the state machine, in order. */
    var resets: seq<nat>

    /** The fields the state machine reads and writes. */
    function MachineState(): Machine
      reads this
    {
      Machine(state, countdown, activeEventSent)
    }

    /**
     * Construct: the timing copied from the setup asset, inactive (or
     * waiting for the start when StartupDelay is positive), at the
     * inactive opacity, visible, nothing blocked, no listener registered.
     */
    constructor(setup: VirtualControlSetup, gestureEnabled: bool, shapeEnabled: bool, controlWidgets: seq<ControlWidget>)
      ensures timing == Timing(setup.activeOpacity, setup.inactiveOpacity, setup.timeUntilDeactivated, setup.timeUntilReset, setup.startupDelay)
      ensures state == (if setup.startupDelay > 0.0 then WaitForStart else Inactive)
      ensures !activeEventSent && currentOpacity == setup.inactiveOpacity
      ensures visible && slateVisible && !blockInput && !blockRecognizers
      ensures gestureRecognizerEnabled == gestureEnabled && shapeRecognizerEnabled == shapeEnabled
      ensures widgets == controlWidgets && touchInputComps == [] && shapeManagerComps == []
      ensures activeStateEvents == [] && visibilityStateEvents == [] && resets == []
    {
      timing := Timing(setup.activeOpacity, setup.inactiveOpacity, setup.timeUntilDeactivated, setup.timeUntilReset, setup.startupDelay);
      state := if setup.startupDelay > 0.0 then WaitForStart else Inactive;
      activeEventSent := false;
      currentOpacity := setup.inactiveOpacity;
      visible := true;
      slateVisible := true;
      blockInput := false;
      blockRecognizers := false;
      gestureRecognizerEnabled := gestureEnabled;
      shapeRecognizerEnabled := shapeEnabled;
      widgets := controlWidgets;
      touchInputComps := [];
      shapeManagerComps := [];
      activeStateEvents := [];
      visibilityStateEvents := [];
      resets := [];
    }

    /** GetBaseOpacity. */
    function GetBaseOpacity(): (o: real)
      reads this
      ensures o == BaseOpacity(state, timing)
    {
      if state == Active || state == CountingDownToInactive then timing.activeOpacity else timing.inactiveOpacity
    }

    /**
     * SetWidgetOpacity: the opacity moves (from the state before the step),
     * the state machine takes one step, the announced value is recorded, and
     * a reset resets every top-level control.
     */
    method SetWidgetOpacity(activeControls: int, dt: real)
      modifies this`currentOpacity, this`state, this`countdown, this`activeEventSent, this`activeStateEvents, this`resets
      ensures currentOpacity == NextOpacity(old(currentOpacity), old(state), timing, dt)
      ensures var tr := Step(old(MachineState()), timing, activeControls, dt);
        MachineState() == tr.next
        && activeStateEvents == old(activeStateEvents) + (match tr.fired case Some(v) => [v] case None => [])
        && resets == old(resets) + (if tr.resetControls then TopLevel(widgets, |widgets|) else [])
    {
      if state == WaitForStart || state == CountingDownToStart {
        currentOpacity := 0.0;
      } else {
        currentOpacity := Lerp(currentOpacity, GetBaseOpacity(), OpacityLerpRate * dt);
      }
      var tr := Step(MachineState(), timing, activeControls, dt);
      if tr.resetControls {
        ResetTopLevel();
      }
      state, countdown, activeEventSent := tr.next.state, tr.next.countdown, tr.next.activeEventSent;
      if tr.fired.Some? {
        activeStateEvents := activeStateEvents + [tr.fired.value];
      }
    }

    /** The reset loop of SetWidgetOpacity: every widget that is not a child is reset, in order. */
    method ResetTopLevel()
      modifies this`resets
      ensures resets == old(resets) + TopLevel(widgets, |widgets|)
    {
      for i := 0 to |widgets|
        invariant resets == old(resets) + TopLevel(widgets, i)
      {
        if !widgets[i].isChild {
          resets := resets + [i];
        }
      }
    }

    /**
     * SetWidgetVisibility: with a fade the opacity jumps to the base
     * opacity (or 0 when hiding) and the Slate visibility is kept; without
     * one the opacity is kept and the Slate visibility follows. The
     * visibility and block flags are set either way, and
     * OnVisibilityStateChanged fires with the new visibility.
     */
    method SetWidgetVisibility(inVisible: bool, fade: bool, inBlockInput: bool, inBlockGesture: bool)
      modifies this`currentOpacity, this`visible, this`slateVisible, this`blockInput, this`blockRecognizers,
               this`visibilityStateEvents
      ensures fade ==> currentOpacity == (if inVisible then BaseOpacity(state, timing) else 0.0) && slateVisible == old(slateVisible)
      ensures !fade ==> currentOpacity == old(currentOpacity) && slateVisible == inVisible
      ensures visible == inVisible && blockInput == inBlockInput && blockRecognizers == inBlockGesture
      ensures visibilityStateEvents == old(visibilityStateEvents) + [inVisible]
    {
      if fade {
        currentOpacity := if inVisible then GetBaseOpacity() else 0.0;
      } else {
        slateVisible := inVisible;
      }
      visible := inVisible;
      blockInput := inBlockInput;
      blockRecognizers := inBlockGesture;
      visibilityStateEvents := visibilityStateEvents + [inVisible];
    }

    /** RegisterTouchInputComponent: added, and true, only when not yet registered. */
    method RegisterTouchInputComponent(l: Listener) returns (added: bool)
      modifies this`touchInputComps
      ensures added <==> l !in old(touchInputComps)
      ensures touchInputComps == if added then old(touchInputComps) + [l] else old(touchInputComps)
    {
      if l !in touchInputComps {
        touchInputComps := touchInputComps + [l];
        return true;
      }
      return false;
    }

    /** UnregisterTouchInputComponent: removed, and true, only when registered. */
    method UnregisterTouchInputComponent(l: Listener) returns (removed: bool)
      modifies this`touchInputComps
      ensures removed <==> l in old(touchInputComps)
      ensures touchInputComps == Without(old(touchInputComps), l)
    {
      if l in touchInputComps {
        touchInputComps := Without(touchInputComps, l);
        return true;
      }
      return false;
    }

    /** SetTouchInputComponentList: the list is replaced by the given (already sorted) one. */
    method SetTouchInputComponentList(comps: seq<Listener>)
      modifies this`touchInputComps
      ensures touchInputComps == comps
    {
      touchInputComps := comps;
    }

    /** RegisterShapeManagerComponent. */
    method RegisterShapeManagerComponent(m: nat) returns (added: bool)
      modifies this`shapeManagerComps
      ensures added <==> m !in old(shapeManagerComps)
      ensures shapeManagerComps == if added then old(shapeManagerComps) + [m] else old(shapeManagerComps)
    {
      if m !in shapeManagerComps {
        shapeManagerComps := shapeManagerComps + [m];
        return true;
      }
      return false;
    }

    /** UnregisterShapeManagerComponent. */
    method UnregisterShapeManagerComponent(m: nat) returns (removed: bool)
      modifies this`shapeManagerComps
      ensures removed <==> m in old(shapeManagerComps)
      ensures shapeManagerComps == Without(old(shapeManagerComps), m)
    {
      if m in shapeManagerComps {
        shapeManagerComps := Without(shapeManagerComps, m);
        return true;
      }
      return false;
    }

    /**
     * OnTouchStarted, for the routing it does: unless input is blocked, the
     * controls under the finger are pressed (`hit` is IsInside, `blocks`
     * what OnPress returns) and counted as active; a press shows the
     * interface at full opacity. When nothing was pressed and a recognizer
     * is enabled and not blocked, the listeners receive the touch by
     * priority (`claims` is what their OnTouchStarted returns).
     */
    method OnTouchStarted(hit: nat -> bool, blocks: nat -> bool, claims: Listener -> bool) returns (pressed: seq<nat>, received: seq<nat>)
      modifies this`numberOfActiveControl, this`currentOpacity
      ensures pressed == if blockInput then [] else PressedControls(widgets, hit, blocks)
      ensures numberOfActiveControl == old(numberOfActiveControl) + |pressed|
      ensures currentOpacity == if pressed != [] then timing.activeOpacity else old(currentOpacity)
      ensures received == if pressed == [] && (gestureRecognizerEnabled || shapeRecognizerEnabled) && !blockRecognizers
        then Receivers(touchInputComps, claims, 0, None) else []
    {
      pressed := [];
      if !blockInput {
        pressed := PressControls(hit, blocks);
        numberOfActiveControl := numberOfActiveControl + |pressed|;
      }
      received := [];
      if pressed != [] {
        currentOpacity := timing.activeOpacity;
      } else if (gestureRecognizerEnabled || shapeRecognizerEnabled) && !blockRecognizers {
        received := DispatchToListeners(claims);
      }
    }

    /** OnTouchStarted's loop over the widgets, then the deferred touch region. */
    method PressControls(hit: nat -> bool, blocks: nat -> bool) returns (pressed: seq<nat>)
      ensures pressed == PressedControls(widgets, hit, blocks)
    {
      pressed := [];
      var processLast := -1;
      var blockRegion := false;
      for i := 0 to |widgets|
        invariant pressed == PressedButtons(widgets, hit, i)
        invariant processLast == LastRegion(widgets, hit, i)
        invariant blockRegion == BlocksRegion(widgets, hit, blocks, i)
      {
        if hit(i) {
          if widgets[i].controlType == TouchRegion {
            processLast := i;
          } else {
            if blocks(i) {
              blockRegion := true;
            }
            pressed := pressed + [i];
          }
        }
      }
      if processLast >= 0 && !blockRegion {
        pressed := pressed + [processLast];
      }
    }

    /** OnTouchStarted's loop over the listeners. */
    method DispatchToListeners(claims: Listener -> bool) returns (received: seq<nat>)
      ensures received == Receivers(touchInputComps, claims, 0, None)
    {
      received := DispatchOrder(touchInputComps, claims);
    }
  }

  /**
   * The listener loop on the list itself: every listener receives the touch
   * until one claims it; after that only listeners of the claimer's
   * priority do, and the first of another priority ends the loop.
   */
  method DispatchOrder(ls: seq<Listener>, claims: Listener -> bool) returns (received: seq<nat>)
    ensures received == Receivers(ls, claims, 0, None)
  {
    received := [];
    var blockLower := false;
    var priority := 0;
    var i := 0;
    while i < |ls|
      invariant 0 <= i <= |ls|
      invariant received + Receivers(ls, claims, i, if blockLower then Some(priority) else None)
        == Receivers(ls, claims, 0, None)
    {
      var l := ls[i];
      ghost var before := if blockLower then Some(priority) else None;
      if blockLower {
        if l.priority == priority {
          assert Receivers(ls, claims, i, before) == [i] + Receivers(ls, claims, i + 1, before);
          received := received + [i];
        } else {
          assert Receivers(ls, claims, i, before) == [];
          break;
        }
      } else {
        var after := if claims(l) then Some(l.priority) else None;
        assert Receivers(ls, claims, i, before) == [i] + Receivers(ls, claims, i + 1, after);
        received := received + [i];
        if claims(l) {
          blockLower := true;
          priority := l.priority;
        }
      }
      i := i + 1;
    }
  }

  /** The indices before `n` of the widgets that are not children. */
  function TopLevel(ws: seq<ControlWidget>, n: nat): (r: seq<nat>)
    requires n <= |ws|
    ensures forall k :: k in r <==> 0 <= k < n && !ws[k].isChild
  {
    if n == 0 then [] else TopLevel(ws, n - 1) + (if ws[n - 1].isChild then [] else [n - 1])
  }

  /** Registering keeps the list free of duplicates, and unregistering a fresh registration restores the list. */
  lemma RegistrationRoundTrip(comps: seq<Listener>, l: Listener)
    requires NoDuplicates(comps)
    ensures l !in comps ==> NoDuplicates(comps + [l]) && Without(comps + [l], l) == comps
    ensures NoDuplicates(Without(comps, l)) && l !in Without(comps, l)
  {
    if l !in comps {
      WithoutAppended(comps, l);
    }
    WithoutKeepsNoDuplicates(comps, l);
  }
}
