/**
 * UMotionManager (MotionManager.cpp): reads the device's motion sensors
 * each tick and turns a sharp sideways acceleration into a tap event.
 * A tap disarms the detector until a timer re-arms it, and latches its
 * side until the acceleration swings back through zero.
 *
 * The sensor reading, the timer manager and the delegates are outside the
 * model: the reading is an argument of Tick, the timer is recorded as
 * armed and its expiry is a method, and each tap broadcast is recorded.
 */
module MotionManager {
  import opened Common

  /** ETapType. */
  datatype TapType = Left | Right

  /** The detector's flags: bCanDetectTap, bLeftTapDetected, bRightTapDetected. */
  datatype TapState = TapState(canDetectTap: bool, leftTapDetected: bool, rightTapDetected: bool)

  /** One run of TapDetector on the sideways acceleration `y`: the new flags and the tap fired, if any. */
  function TapDetect(s: TapState, y: real, minDelta: real): (r: (TapState, Option<TapType>))
    ensures r.1.Some? ==> s.canDetectTap && !r.0.canDetectTap
    ensures r.1 == Some(Left) ==> r.0.leftTapDetected
    ensures r.1 == Some(Right) ==> r.0.rightTapDetected
    ensures r.1.None? && !(s.rightTapDetected && y >= 0.0) && !(s.leftTapDetected && y <= 0.0) ==> r.0 == s
  {
    if s.rightTapDetected && y >= 0.0 then (s.(rightTapDetected := false), None)
    else if s.leftTapDetected && y <= 0.0 then (s.(leftTapDetected := false), None)
    else if !s.canDetectTap then (s, None)
    else if y >= minDelta then (s.(leftTapDetected := true, canDetectTap := false), Some(Left))
    else if y <= -minDelta then (s.(rightTapDetected := true, canDetectTap := false), Some(Right))
    else (s, None)
  }

  /** A tap is fired only while the detector is armed, and firing disarms it. */
  lemma TapOnlyWhenArmed(s: TapState, y: real, minDelta: real)
    ensures !s.canDetectTap ==> TapDetect(s, y, minDelta).1.None?
    ensures TapDetect(s, y, minDelta).1.Some? ==> !TapDetect(s, y, minDelta).0.canDetectTap
  {
  }

  /**
   * With the detector armed and no latch to clear, an acceleration of at
   * least MinDelta fires Left, one of at most -MinDelta (and below MinDelta)
   * fires Right, and anything in between fires nothing.
   */
  lemma TapDirection(s: TapState, y: real, minDelta: real)
    requires s.canDetectTap && !(s.rightTapDetected && y >= 0.0) && !(s.leftTapDetected && y <= 0.0)
    ensures y >= minDelta ==> TapDetect(s, y, minDelta).1 == Some(Left)
    ensures y < minDelta && y <= -minDelta ==> TapDetect(s, y, minDelta).1 == Some(Right)
    ensures -minDelta < y < minDelta ==> TapDetect(s, y, minDelta) == (s, None)
  {
  }

  /** A latched side clears once the acceleration is back on the other side of zero, and that tick fires nothing. */
  lemma LatchClears(s: TapState, y: real, minDelta: real)
    ensures s.rightTapDetected && y >= 0.0 ==> TapDetect(s, y, minDelta) == (s.(rightTapDetected := false), None)
    ensures !(s.rightTapDetected && y >= 0.0) && s.leftTapDetected && y <= 0.0 ==>
      TapDetect(s, y, minDelta) == (s.(leftTapDetected := false), None)
  {
  }

  /** Until the timer re-arms the detector, no second tap follows a tap, whatever the acceleration. */
  lemma {:induction false} NoTapUntilRearmed(s: TapState, ys: seq<real>, minDelta: real)
    requires !s.canDetectTap
    ensures Quiet(s, ys, minDelta)
    decreases |ys|
  {
    if ys != [] {
      var r := TapDetect(s, ys[0], minDelta);
      assert r.1.None? && !r.0.canDetectTap;
      NoTapUntilRearmed(r.0, ys[1..], minDelta);
    }
  }

  /** No tap is fired over the ticks `ys`, and the detector stays disarmed. */
  predicate Quiet(s: TapState, ys: seq<real>, minDelta: real)
    decreases |ys|
  {
    ys == [] ||
    (var r := TapDetect(s, ys[0], minDelta); r.1.None? && !r.0.canDetectTap && Quiet(r.0, ys[1..], minDelta))
  }

  class MotionManagerComponent {
    var minDeltaToDetectTap: real
    var delayBetweenTapDetection: real
    var canDetectTap: bool
    var leftTapDetected: bool
    var rightTapDetected: bool
    var acceleration: Vec3
    /** The re-arming timer is set. */
    var tapTimerArmed: bool
    /** The taps broadcast on OnTapOnDevice, in order. */
    var taps: seq<TapType>

    function State(): TapState
      reads this
    {
      TapState(canDetectTap, leftTapDetected, rightTapDetected)
    }

    /** UMotionManager(): a tap needs an acceleration of 2, the detector re-arms after 0.25 s, and starts armed. */
    constructor()
      ensures minDeltaToDetectTap == 2.0 && delayBetweenTapDetection == 0.25
      ensures canDetectTap && !leftTapDetected && !rightTapDetected
      ensures !tapTimerArmed && taps == [] && acceleration == Zero3
    {
      minDeltaToDetectTap := 2.0;
      delayBetweenTapDetection := 0.25;
      canDetectTap := true;
      leftTapDetected := false;
      rightTapDetected := false;
      acceleration := Zero3;
      tapTimerArmed := false;
      taps := [];
    }

    /** TapDetector: updates the flags as TapDetect says, broadcasts the tap and sets the re-arming timer. */
    method TapDetector()
      modifies this`canDetectTap, this`leftTapDetected, this`rightTapDetected, this`tapTimerArmed, this`taps
      ensures var r := TapDetect(old(State()), acceleration.y, minDeltaToDetectTap);
        State() == r.0 &&
        taps == old(taps) + (if r.1.Some? then [r.1.value] else []) &&
        tapTimerArmed == (old(tapTimerArmed) || r.1.Some?)
    {
      var y := acceleration.y;
      if rightTapDetected && y >= 0.0 {
        rightTapDetected := false;
        return;
      }
      if leftTapDetected && y <= 0.0 {
        leftTapDetected := false;
        return;
      }
      if !canDetectTap {
        return;
      }
      if y >= minDeltaToDetectTap {
        leftTapDetected := true;
        canDetectTap := false;
        taps := taps + [Left];
        tapTimerArmed := true;
        return;
      }
      if y <= -minDeltaToDetectTap {
        rightTapDetected := true;
        canDetectTap := false;
        taps := taps + [Right];
        tapTimerArmed := true;
        return;
      }
    }

    /** The timer set by a tap expires: the detector is armed again. */
    method OnTapTimerElapsed()
      modifies this`canDetectTap, this`tapTimerArmed
      ensures canDetectTap && !tapTimerArmed
    {
      canDetectTap := true;
      tapTimerArmed := false;
    }

    /** TickComponent: takes the new reading when a player controller provides one, then runs the tap detector. */
    method TickComponent(reading: Option<Vec3>)
      modifies this`acceleration, this`canDetectTap, this`leftTapDetected, this`rightTapDetected, this`tapTimerArmed, this`taps
      ensures acceleration == (if reading.Some? then reading.value else old(acceleration))
      ensures var r := TapDetect(old(State()), acceleration.y, minDeltaToDetectTap);
        State() == r.0 &&
        taps == old(taps) + (if r.1.Some? then [r.1.value] else []) &&
        tapTimerArmed == (old(tapTimerArmed) || r.1.Some?)
    {
      if reading.Some? {
        acceleration := reading.value;
      }
      TapDetector();
    }
  }
}
