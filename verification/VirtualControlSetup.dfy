/**
 * UVirtualControlSetup (VirtualControlSetup.cpp): the data asset holding a
 * touch interface's controls, with its name lookups, the unique-name
 * generator and the selected-control index used by the designer.
 */
module VirtualControlSetup {
  import opened Common
  import opened VirtualControlTypes

  function DigitChar(d: nat): char
    requires d < 10
  {
    "0123456789"[d]
  }

  /** The decimal digits of `n`, as "%d" prints them. */
  function NatToString(n: nat): (s: string)
    ensures |s| >= 1 && s[0] != '-'
    decreases n
  {
    if n < 10 then [DigitChar(n)] else NatToString(n / 10) + [DigitChar(n % 10)]
  }

  /** "%d" for any integer. */
  function IntToString(i: int): string
  {
    if i < 0 then "-" + NatToString(-i) else NatToString(i)
  }

  /** The prefix GetUniqueId and GetUniqueName use for each control type. */
  function TypeBaseName(t: ControlType): string
  {
    match t
    case Button => "New Button"
    case Joystick => "New Joystick"
    case TouchRegion => "New Touch Region"
  }

  /** "<type name>_<i>". */
  function GeneratedName(t: ControlType, i: nat): string
  {
    TypeBaseName(t) + "_" + NatToString(i)
  }

  /** DoesThisNameExistInControl: some control has this name (FName equality). */
  predicate NameExists(controls: seq<VirtualControl>, name: string)
  {
    controls != [] &&
    (NameExists(controls[..|controls| - 1], name) || SameName(controls[|controls| - 1].controlName, name))
  }

  lemma {:induction false} NameExistsIff(controls: seq<VirtualControl>, name: string)
    ensures NameExists(controls, name) <==> exists i :: 0 <= i < |controls| && SameName(controls[i].controlName, name)
  {
    if controls != [] {
      var init := controls[..|controls| - 1];
      NameExistsIff(init, name);
      if exists i :: 0 <= i < |controls| && SameName(controls[i].controlName, name) {
        var i :| 0 <= i < |controls| && SameName(controls[i].controlName, name);
        if i < |init| {
          assert init[i] == controls[i];
        }
      }
    }
  }

  /** The generated name for candidate `i` is already used. */
  predicate Taken(controls: seq<VirtualControl>, t: ControlType, i: nat)
  {
    NameExists(controls, GeneratedName(t, i))
  }

  /** The search of GetUniqueId from candidate `i` on: the first of i..99 not taken, or -1. */
  function UniqueIdFrom(controls: seq<VirtualControl>, t: ControlType, i: nat): int
    requires i <= 100
    decreases 100 - i
  {
    if i == 100 then -1
    else if !Taken(controls, t, i) then i
    else UniqueIdFrom(controls, t, i + 1)
  }

  function UniqueId(controls: seq<VirtualControl>, t: ControlType): int
  {
    UniqueIdFrom(controls, t, 0)
  }

  lemma {:induction false} UniqueIdFromSpec(controls: seq<VirtualControl>, t: ControlType, i: nat)
    requires i <= 100
    ensures var r := UniqueIdFrom(controls, t, i);
      (r == -1 <==> forall j :: i <= j < 100 ==> Taken(controls, t, j))
      && (r != -1 ==> i <= r < 100 && !Taken(controls, t, r) && forall j :: i <= j < r ==> Taken(controls, t, j))
    decreases 100 - i
  {
    if i == 100 {
    } else if !Taken(controls, t, i) {
      assert UniqueIdFrom(controls, t, i) == i;
    } else {
      UniqueIdFromSpec(controls, t, i + 1);
      var r := UniqueIdFrom(controls, t, i + 1);
      assert UniqueIdFrom(controls, t, i) == r;
      assert (forall j :: i <= j < 100 ==> Taken(controls, t, j)) <==> (forall j :: i + 1 <= j < 100 ==> Taken(controls, t, j));
      assert r != -1 ==> forall j :: i <= j < r ==> Taken(controls, t, j);
    }
  }

  /** GetUniqueId: the smallest i in 0..99 whose generated name is unused, or -1 when all 100 are taken. */
  lemma UniqueIdSpec(controls: seq<VirtualControl>, t: ControlType)
    ensures var r := UniqueId(controls, t);
      (r == -1 <==> forall j :: 0 <= j < 100 ==> Taken(controls, t, j))
      && (r != -1 ==> 0 <= r < 100 && !Taken(controls, t, r) && forall j :: 0 <= j < r ==> Taken(controls, t, j))
  {
    UniqueIdFromSpec(controls, t, 0);
  }

  /** GetUniqueName: "%s_%d" of the type name and the unique id (which may be -1). */
  function UniqueName(controls: seq<VirtualControl>, t: ControlType): string
  {
    TypeBaseName(t) + "_" + IntToString(UniqueId(controls, t))
  }

  /** Whenever an id was found, the unique name is not used by any control. */
  lemma UniqueNameIsFresh(controls: seq<VirtualControl>, t: ControlType)
    requires UniqueId(controls, t) >= 0
    ensures !NameExists(controls, UniqueName(controls, t))
  {
    UniqueIdSpec(controls, t);
    assert UniqueName(controls, t) == GeneratedName(t, UniqueId(controls, t));
  }

  /** GetControlIndexByName: the first control with this name, or -1. */
  function IndexByName(controls: seq<VirtualControl>, name: string): (i: int)
    ensures -1 <= i < |controls|
    ensures i == -1 <==> !NameExists(controls, name)
    ensures i >= 0 ==> (SameName(controls[i].controlName, name)
      && forall j :: 0 <= j < i ==> !SameName(controls[j].controlName, name))
    ensures i == -1 ==> forall j :: 0 <= j < |controls| ==> !SameName(controls[j].controlName, name)
  {
    if controls == [] then -1
    else
      var init := controls[..|controls| - 1];
      var i := IndexByName(init, name);
      assert forall j :: 0 <= j < |init| ==> init[j] == controls[j];
      if i >= 0 then i
      else if SameName(controls[|controls| - 1].controlName, name) then |controls| - 1
      else -1
  }

  /** GetLastIndex: the index of the last control, 0 for an empty list. */
  function LastIndex(count: nat): (i: int)
    ensures i == (if count == 0 then 0 else count - 1)
  {
    ClampInt(count - 1, 0, count)
  }

  class VirtualControlSetup {
    var virtualControls: seq<VirtualControl>
    var activeOpacity: real
    var inactiveOpacity: real
    var timeUntilDeactivated: real
    var timeUntilReset: real
    var activationDelay: real
    var startupDelay: real
    var calculatePortraitPositionAtRuntime: bool
    var currentSelectedControlIndex: int
    var currentSelectedControlType: ControlType

    /** The asset's defaults: fully opaque when active, 0.1 when not, no delays. */
    constructor()
      ensures virtualControls == []
      ensures activeOpacity == 1.0 && inactiveOpacity == 0.1
      ensures timeUntilDeactivated == 0.5 && timeUntilReset == 2.0
      ensures activationDelay == 0.0 && startupDelay == 0.0
      ensures !calculatePortraitPositionAtRuntime
      ensures currentSelectedControlIndex == 0 && currentSelectedControlType == Button
    {
      virtualControls := [];
      activeOpacity := 1.0;
      inactiveOpacity := 0.1;
      timeUntilDeactivated := 0.5;
      timeUntilReset := 2.0;
      activationDelay := 0.0;
      startupDelay := 0.0;
      calculatePortraitPositionAtRuntime := false;
      currentSelectedControlIndex := 0;
      currentSelectedControlType := Button;
    }

    /** GetSelectedControlType: the type of the control at the selected index. */
    function GetSelectedControlType(): (t: ControlType)
      reads this
      requires 0 <= currentSelectedControlIndex < |virtualControls|
      ensures exists i :: 0 <= i < |virtualControls| && i == currentSelectedControlIndex && virtualControls[i].controlType == t
    {
      virtualControls[currentSelectedControlIndex].controlType
    }

    function GetLastIndex(): (i: int)
      reads this
      ensures 0 <= i && (virtualControls != [] ==> i < |virtualControls|)
      ensures i == LastIndex(|virtualControls|)
    {
      LastIndex(|virtualControls|)
    }

    /** DoesThisNameExistInControl. */
    method DoesThisNameExistInControl(name: string) returns (found: bool)
      ensures found <==> NameExists(virtualControls, name)
    {
      for i := 0 to |virtualControls|
        invariant forall j :: 0 <= j < i ==> !SameName(virtualControls[j].controlName, name)
      {
        if SameName(virtualControls[i].controlName, name) {
          NameExistsIff(virtualControls, name);
          return true;
        }
      }
      NameExistsIff(virtualControls, name);
      return false;
    }

    /** GetUniqueId: tries "<type name>_0" to "<type name>_99" in order. */
    method GetUniqueId(t: ControlType) returns (id: int)
      ensures id == UniqueId(virtualControls, t)
      ensures id == -1 || (0 <= id < 100 && !NameExists(virtualControls, GeneratedName(t, id)))
    {
      UniqueIdSpec(virtualControls, t);
      var itr := 0;
      while itr < 100
        invariant 0 <= itr <= 100
        invariant UniqueIdFrom(virtualControls, t, itr) == UniqueId(virtualControls, t)
      {
        var used := DoesThisNameExistInControl(GeneratedName(t, itr));
        assert used == Taken(virtualControls, t, itr);
        if !used {
          return itr;
        }
        itr := itr + 1;
      }
      return -1;
    }

    method GetUniqueName(t: ControlType) returns (name: string)
      ensures name == UniqueName(virtualControls, t)
      ensures UniqueId(virtualControls, t) >= 0 ==> !NameExists(virtualControls, name)
    {
      var id := GetUniqueId(t);
      name := TypeBaseName(t) + "_" + IntToString(id);
      if id >= 0 {
        UniqueNameIsFresh(virtualControls, t);
      }
    }

    /** SelectLastControl: selects, and returns, the last index. */
    method SelectLastControl() returns (index: int)
      modifies this`currentSelectedControlIndex
      ensures index == currentSelectedControlIndex == LastIndex(|virtualControls|)
    {
      currentSelectedControlIndex := GetLastIndex();
      index := currentSelectedControlIndex;
    }

    /** GetSelectedControl: the selected control, or a default control when the index is negative. */
    function GetSelectedControl(): (c: VirtualControl)
      reads this
      requires currentSelectedControlIndex < |virtualControls|
      ensures currentSelectedControlIndex < 0 ==> c == DefaultControl()
      ensures currentSelectedControlIndex >= 0 ==> c in virtualControls
    {
      if currentSelectedControlIndex >= 0 then virtualControls[currentSelectedControlIndex] else DefaultControl()
    }

    /** GetControlIndexByName. */
    method GetControlIndexByName(name: string) returns (index: int)
      ensures index == IndexByName(virtualControls, name)
    {
      for i := 0 to |virtualControls|
        invariant forall j :: 0 <= j < i ==> !SameName(virtualControls[j].controlName, name)
      {
        if SameName(virtualControls[i].controlName, name) {
          IndexByNameIsFirst(virtualControls, name, i);
          return i;
        }
      }
      return -1;
    }
  }

  /** The first match is the one IndexByName reports. */
  lemma IndexByNameIsFirst(controls: seq<VirtualControl>, name: string, i: int)
    requires 0 <= i < |controls| && SameName(controls[i].controlName, name)
    requires forall j :: 0 <= j < i ==> !SameName(controls[j].controlName, name)
    ensures IndexByName(controls, name) == i
  {
  }
}
