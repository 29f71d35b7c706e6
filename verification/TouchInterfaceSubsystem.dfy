/**
 * UTouchInterfaceSubsystem (TouchInterfaceSubsystem.cpp): the local
 * player's entry point to the touch interface. Modelled: the list of
 * registered touch listeners, kept free of repeats and ordered by
 * priority, the calls forwarded to the interface widget when there is
 * one, and the flag that tells touch input from other input.
 *
 * What the interface widget answers to a key change or a coordinate
 * conversion is passed in; the key changes it is asked for are recorded.
 * The multicast delegates the subsystem broadcasts are not modelled.
 */
module TouchInterfaceSubsystem {
  import opened Common
  import opened TouchInterface

  /** A ChangeInputKey call forwarded to the interface widget. */
  datatype KeyChange = KeyChange(controlName: string, horizontalInputKey: string, verticalInputKey: string)

  /** EInputDeviceConnectionState. */
  datatype ConnectionState = Connected | Disconnected | Invalid | Unknown

  /** The sort key that puts higher priorities first. */
  function NegPriority(l: Listener): real
  {
    -(l.priority as real)
  }

  /** Ordered by Priority, highest first. */
  predicate ByPriorityDescending(s: seq<Listener>)
  {
    forall i, j :: 0 <= i < j < |s| ==> s[i].priority >= s[j].priority
  }

  lemma SortedByNegPriority(s: seq<Listener>)
    requires SortedBy(s, NegPriority)
    ensures ByPriorityDescending(s)
  {
    forall i, j | 0 <= i < j < |s|
      ensures s[i].priority >= s[j].priority
    {
      assert NegPriority(s[i]) <= NegPriority(s[j]);
    }
  }

  /** A permutation of a repeat-free list plus one new element has no repeats. */
  lemma AddedKeepsNoDuplicates(a: seq<Listener>, b: seq<Listener>, x: Listener)
    requires NoDuplicates(a) && x !in a
    requires multiset(b) == multiset(a) + multiset{x}
    ensures NoDuplicates(b)
  {
    forall i, j | 0 <= i < j < |b|
      ensures b[i] != b[j]
    {
      var v := b[i];
      NoDuplicatesCount(a, v);
      assert multiset(b)[v] <= 1;
      if b[i] == b[j] {
        CountTwo(b, i, j);
      }
    }
  }

  lemma TailDescending(s: seq<Listener>)
    requires s != [] && ByPriorityDescending(s)
    ensures ByPriorityDescending(s[1..])
    ensures forall k :: 0 <= k < |s[1..]| ==> s[0].priority >= s[1..][k].priority
  {
    forall i, j | 0 <= i < j < |s[1..]|
      ensures s[1..][i].priority >= s[1..][j].priority
    {
      assert s[1..][i] == s[i + 1] && s[1..][j] == s[j + 1];
    }
    forall k | 0 <= k < |s[1..]|
      ensures s[0].priority >= s[1..][k].priority
    {
      assert s[1..][k] == s[k + 1];
    }
  }

  lemma ConsDescending(h: Listener, t: seq<Listener>)
    requires ByPriorityDescending(t)
    requires forall k :: 0 <= k < |t| ==> h.priority >= t[k].priority
    ensures ByPriorityDescending([h] + t)
  {
    var s := [h] + t;
    forall i, j | 0 <= i < j < |s|
      ensures s[i].priority >= s[j].priority
    {
      assert s[j] == t[j - 1];
      if i > 0 {
        assert s[i] == t[i - 1];
      }
    }
  }

  /** Removing an element keeps the priority order. */
  lemma {:induction false} WithoutKeepsOrder(s: seq<Listener>, x: Listener)
    requires ByPriorityDescending(s)
    ensures ByPriorityDescending(Without(s, x))
  {
    if s != [] {
      TailDescending(s);
      WithoutKeepsOrder(s[1..], x);
      var rest := Without(s[1..], x);
      assert Without(s, x) == (if s[0] == x then [] else [s[0]]) + rest;
      forall k | 0 <= k < |rest|
        ensures s[0].priority >= rest[k].priority
      {
        assert rest[k] in s[1..];
      }
      if s[0] != x {
        ConsDescending(s[0], rest);
      } else {
        assert Without(s, x) == rest;
      }
    }
  }

  class Subsystem {
    var registeredTouchManager: seq<Listener>
    /** The interface widget, once created (TouchInterface.IsValid()). */
    var touchInterface: STouchInterface?
    var isTouchInput: bool
    /** The key changes forwarded to the interface widget, in order. */
    var forwardedKeys: seq<KeyChange>

    /** Each listener is registered at most once, in order of priority. */
    predicate Valid()
      reads this
    {
      NoDuplicates(registeredTouchManager) && ByPriorityDescending(registeredTouchManager)
    }

    constructor()
      ensures Valid()
      ensures registeredTouchManager == [] && touchInterface == null && !isTouchInput && forwardedKeys == []
    {
      registeredTouchManager := [];
      touchInterface := null;
      isTouchInput := false;
      forwardedKeys := [];
    }

    /**
     * RegisterTouchManagerComponent: a new listener joins the list, which is
     * sorted by priority and handed to the interface widget. True only for
     * a new listener with an interface present.
     */
    method RegisterTouchManagerComponent(manager: Listener) returns (r: bool)
      requires Valid()
      modifies this`registeredTouchManager, touchInterface
      ensures Valid()
      ensures r <==> manager !in old(registeredTouchManager) && touchInterface != null
      ensures manager in old(registeredTouchManager) ==> registeredTouchManager == old(registeredTouchManager)
      ensures manager !in old(registeredTouchManager) ==>
        multiset(registeredTouchManager) == multiset(old(registeredTouchManager)) + multiset{manager}
      ensures r ==> touchInterface.touchInputComps == registeredTouchManager
      ensures !r && touchInterface != null ==> touchInterface.touchInputComps == old(touchInterface.touchInputComps)
    {
      if manager !in registeredTouchManager {
        var added := registeredTouchManager + [manager];
        if |added| > 1 {
          added := SortByKey(added, NegPriority);
          SortedByNegPriority(added);
        }
        AddedKeepsNoDuplicates(registeredTouchManager, added, manager);
        registeredTouchManager := added;
        if touchInterface != null {
          touchInterface.SetTouchInputComponentList(registeredTouchManager);
          return true;
        }
      }
      return false;
    }

    /**
     * UnregisterTouchManagerComponent: a registered listener leaves the
     * list; the result is the interface widget's own answer, false when
     * there is no widget or the listener was not registered.
     */
    method UnregisterTouchManagerComponent(manager: Listener) returns (r: bool)
      requires Valid()
      modifies this`registeredTouchManager, touchInterface
      ensures Valid()
      ensures registeredTouchManager == Without(old(registeredTouchManager), manager)
      ensures manager !in registeredTouchManager
      ensures r <==> (manager in old(registeredTouchManager) && touchInterface != null &&
                      manager in old(touchInterface.touchInputComps))
      ensures touchInterface != null && manager in old(registeredTouchManager) ==>
        touchInterface.touchInputComps == Without(old(touchInterface.touchInputComps), manager)
    {
      if manager in registeredTouchManager {
        WithoutKeepsNoDuplicates(registeredTouchManager, manager);
        WithoutKeepsOrder(registeredTouchManager, manager);
        registeredTouchManager := Without(registeredTouchManager, manager);
        if touchInterface != null {
          r := touchInterface.UnregisterTouchInputComponent(manager);
          return;
        }
      }
      return false;
    }

    /**
     * SetInputKey: with an interface widget, asks it to change the axis
     * keys and returns its answer; the button key is not passed on.
     */
    method SetInputKey(controlName: string, buttonInput: string, horizontalInputKey: string, verticalInputKey: string,
                       widgetAnswer: bool) returns (r: bool)
      modifies this`forwardedKeys
      ensures r <==> touchInterface != null && widgetAnswer
      ensures forwardedKeys == old(forwardedKeys) +
        (if touchInterface != null then [KeyChange(controlName, horizontalInputKey, verticalInputKey)] else [])
    {
      if touchInterface != null {
        forwardedKeys := forwardedKeys + [KeyChange(controlName, horizontalInputKey, verticalInputKey)];
        return widgetAnswer;
      }
      return false;
    }

    /** LocalToNormalized and NormalizedToLocal: the widget's conversion, or false and a zero vector without one. */
    method ConvertThroughInterface(widgetResult: Vec2) returns (ok: bool, position: Vec2)
      ensures ok <==> touchInterface != null
      ensures position == (if ok then widgetResult else Zero2)
    {
      if touchInterface != null {
        return true, widgetResult;
      }
      return false, Zero2;
    }

    /** HandleBeganTouchEvent: any finger marks the input as touch input. */
    method HandleBeganTouchEvent(fingerIndex: int)
      modifies this`isTouchInput
      ensures isTouchInput
    {
      isTouchInput := true;
    }

    /** HandleEndedTouchEvent: only the first finger ending clears the touch-input flag. */
    method HandleEndedTouchEvent(fingerIndex: int)
      modifies this`isTouchInput
      ensures isTouchInput == (old(isTouchInput) && fingerIndex != 0)
    {
      if fingerIndex == 0 {
        isTouchInput := false;
      }
    }

    /** HandleOnAnyKeyPressed: a key press that is not touch input hides the interface and blocks it. */
    method HandleOnAnyKeyPressed()
      modifies touchInterface
      ensures touchInterface != null && !isTouchInput ==>
        !touchInterface.visible && !touchInterface.slateVisible &&
        touchInterface.blockInput && touchInterface.blockRecognizers &&
        touchInterface.currentOpacity == old(touchInterface.currentOpacity)
      ensures touchInterface != null && isTouchInput ==> unchanged(touchInterface)
    {
      if touchInterface != null && !isTouchInput {
        touchInterface.SetWidgetVisibility(false, false, true, true);
      }
    }

    /** HandleOnTouch: a touch shows the interface and unblocks it. */
    method HandleOnTouch()
      modifies touchInterface
      ensures touchInterface != null ==>
        touchInterface.visible && touchInterface.slateVisible &&
        !touchInterface.blockInput && !touchInterface.blockRecognizers
    {
      if touchInterface != null {
        touchInterface.SetWidgetVisibility(true, false, false, false);
      }
    }

    /** HandleOnControllerConnexionChange: a connected gamepad hides the interface, a disconnected one shows it. */
    method HandleOnControllerConnexionChange(connectionState: ConnectionState)
      modifies touchInterface
      ensures touchInterface != null && connectionState == Connected ==>
        !touchInterface.visible && touchInterface.blockInput && touchInterface.blockRecognizers
      ensures touchInterface != null && connectionState == Disconnected ==>
        touchInterface.visible && !touchInterface.blockInput && !touchInterface.blockRecognizers
      ensures touchInterface != null && (connectionState == Invalid || connectionState == Unknown) ==>
        unchanged(touchInterface)
    {
      if touchInterface != null {
        match connectionState
        case Connected => touchInterface.SetWidgetVisibility(false, false, true, true);
        case Disconnected => touchInterface.SetWidgetVisibility(true, false, false, false);
        case Invalid =>
        case Unknown =>
      }
    }
  }
}
