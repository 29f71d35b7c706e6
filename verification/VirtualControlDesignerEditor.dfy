/**
 * FVirtualControlDesignerEditor (VirtualControlDesignerEditor.cpp), reduced to
 * its edits of the asset's control list and its own selection, orientation
 * and copy-cache state. The viewport, hierarchy, details and previewer tabs
 * are not modelled; the values the editor reads back from the viewport (a
 * control's on-screen position, a normalized canvas position, the default
 * textures) are parameters.
 */
module VirtualControlDesignerEditor {
  import opened Common
  import opened VirtualControlTypes
  import opened VirtualControlSetup
  import opened ControlLinks

  /** The layer types AddNewControl gives the default background (13) and thumb (14) layers. */
  const BackgroundLayerType: bv32 := 13
  const ThumbLayerType: bv32 := 14

  /** Sets the centre of the current orientation. */
  function WithCenter(c: VirtualControl, landscape: bool, center: Vec2): (r: VirtualControl)
    ensures landscape ==> r == c.(landscapeCenter := center)
    ensures !landscape ==> r == c.(portraitCenter := center)
  {
    if landscape then c.(landscapeCenter := center) else c.(portraitCenter := center)
  }

  /** The control AddNewControl appends: a typed control with the unique name, placed, with its default layers. */
  function NewControl(t: ControlType, name: string, landscape: bool, position: Vec2, background: Option<string>, thumb: Option<string>): (c: VirtualControl)
    ensures c.controlName == name && c.controlType == t
    ensures c.link == NoLink && !c.link.isChild && !c.IsParent()
    ensures (landscape ==> c.landscapeCenter == position) && (!landscape ==> c.portraitCenter == position)
    ensures |c.visualLayers| == (match t case Button => 1 case Joystick => 2 case TouchRegion => 0)
  {
    var base := WithCenter(ControlOfType(t).(controlName := name), landscape, position);
    match t
    case Button => base.(visualLayers := [VisualLayerOfResource(background, BackgroundLayerType, false, 80.0)])
    case Joystick => base.(visualLayers := [VisualLayerOfResource(background, BackgroundLayerType, false, 80.0),
                                           VisualLayerOfResource(thumb, ThumbLayerType, false, 80.0)])
    case TouchRegion => base
  }

  /** The copy AddNewControlFromCopyCache appends: renamed to the unique name of its type and unlinked. */
  function PastedControl(cs: seq<VirtualControl>, copied: VirtualControl): VirtualControl
  {
    copied.(controlName := UniqueName(cs, copied.controlType)).ClearLinkData()
  }

  /** The list without the control at `i` (TArray::RemoveAt). */
  function RemovedAt(cs: seq<VirtualControl>, i: int): (r: seq<VirtualControl>)
    requires 0 <= i < |cs|
    ensures |r| == |cs| - 1
    ensures forall j :: 0 <= j < i ==> r[j] == cs[j]
    ensures forall j :: i <= j < |r| ==> r[j] == cs[j + 1]
  {
    cs[..i] + cs[i + 1..]
  }

  /** Every control's portrait centre set to its landscape centre. */
  function PortraitFromLandscape(cs: seq<VirtualControl>): (r: seq<VirtualControl>)
    ensures |r| == |cs|
    ensures forall j :: 0 <= j < |cs| ==> r[j].portraitCenter == cs[j].landscapeCenter
    ensures forall j :: 0 <= j < |cs| ==> r[j].(portraitCenter := cs[j].portraitCenter) == cs[j]
  {
    seq(|cs|, j requires 0 <= j < |cs| => cs[j].(portraitCenter := cs[j].landscapeCenter))
  }

  /**
   * RemoveSelected's unlinking as written: a parent unlinks all its
   * children, else a child unlinks itself; a control that is both never
   * leaves its own parent's list.
   */
  function UnlinkedForRemovalAsWritten(cs: seq<VirtualControl>, c: VirtualControl, positions: string -> Vec2, landscape: bool): seq<VirtualControl>
  {
    if c.IsParent() then UnlinkAll(cs, c.controlName, positions, landscape)
    else if c.link.isChild then Unlinked(cs, c.controlName, positions(c.controlName), landscape)
    else cs
  }

  /**
   * RemoveSelected's unlinking, corrected: a parent unlinks all its
   * children, and then a child (read before any unlinking) unlinks itself.
   */
  function UnlinkedForRemoval(cs: seq<VirtualControl>, c: VirtualControl, positions: string -> Vec2, landscape: bool): seq<VirtualControl>
  {
    var parentDone := if c.IsParent() then UnlinkAll(cs, c.controlName, positions, landscape) else cs;
    if c.link.isChild then Unlinked(parentDone, c.controlName, positions(c.controlName), landscape) else parentDone
  }

  const FillNameMessage: string := "Fill control name"
  const NameExistsMessage: string := "This name already exist"

  /** The first control named `n` removed, when there is one. */
  function WithoutNamed(cs: seq<VirtualControl>, n: string): seq<VirtualControl>
  {
    var i := IndexByName(cs, n);
    if i >= 0 then RemovedAt(cs, i) else cs
  }

  /** The list RemoveSelected as written leaves: the control unlinked as written, then removed. */
  function AfterRemovalAsWritten(cs: seq<VirtualControl>, c: VirtualControl, positions: string -> Vec2, landscape: bool): seq<VirtualControl>
  {
    WithoutNamed(UnlinkedForRemovalAsWritten(cs, c, positions, landscape), c.controlName)
  }

  /** The list the corrected RemoveSelected leaves: the control unlinked, then the first control with its name removed. */
  function AfterRemoval(cs: seq<VirtualControl>, c: VirtualControl, positions: string -> Vec2, landscape: bool): seq<VirtualControl>
  {
    WithoutNamed(UnlinkedForRemoval(cs, c, positions, landscape), c.controlName)
  }

  /** The check VerifyTextCommitted makes, as written: non-empty and unequal, as text, to every control's name. */
  predicate TextAccepted(cs: seq<VirtualControl>, text: string)
  {
    text != [] && forall j :: 0 <= j < |cs| ==> cs[j].controlName != text
  }

  /** The name check a rename should pass: non-empty and not equal, as an FName, to any control's name. */
  predicate AcceptableName(cs: seq<VirtualControl>, text: string)
  {
    text != [] && !NameExists(cs, text)
  }

  class VirtualControlDesignerEditor {
    /** The asset being edited (VirtualControlSetupEdited). */
    const setup: VirtualControlSetup
    var landscapeOrientation: bool
    var copyAvailable: bool
    var controlDataCopied: VirtualControl
    var selectedControlName: string

    /** The editor starts in landscape, with nothing copied or selected. */
    constructor(edited: VirtualControlSetup)
      ensures setup == edited
      ensures landscapeOrientation && !copyAvailable
      ensures controlDataCopied == DefaultControl() && selectedControlName == NameNone
    {
      setup := edited;
      landscapeOrientation := true;
      copyAvailable := false;
      controlDataCopied := DefaultControl();
      selectedControlName := NameNone;
    }

    /** SelectControl: selects the first control with this name; nothing changes when there is none. */
    method SelectControl(name: string)
      modifies this`selectedControlName, setup`currentSelectedControlIndex
      ensures var i := IndexByName(setup.virtualControls, name);
        if i >= 0 then setup.currentSelectedControlIndex == i && selectedControlName == name
        else setup.currentSelectedControlIndex == old(setup.currentSelectedControlIndex) && selectedControlName == old(selectedControlName)
    {
      for index := 0 to |setup.virtualControls|
        invariant forall j :: 0 <= j < index ==> !SameName(setup.virtualControls[j].controlName, name)
        invariant setup.currentSelectedControlIndex == old(setup.currentSelectedControlIndex)
        invariant selectedControlName == old(selectedControlName)
      {
        if SameName(setup.virtualControls[index].controlName, name) {
          IndexByNameIsFirst(setup.virtualControls, name, index);
          setup.currentSelectedControlIndex := index;
          selectedControlName := name;
          return;
        }
      }
    }

    /** UnselectControl: no index and no name. */
    method UnselectControl()
      modifies this`selectedControlName, setup`currentSelectedControlIndex
      ensures setup.currentSelectedControlIndex == -1 && selectedControlName == NameNone
    {
      setup.currentSelectedControlIndex := -1;
      selectedControlName := NameNone;
    }

    /** AddNewControl: appends a new control of type `t` at `position` (already normalized) and selects it. */
    method AddNewControl(t: ControlType, position: Vec2, background: Option<string>, thumb: Option<string>)
      modifies setup`virtualControls, setup`currentSelectedControlIndex
      ensures setup.virtualControls ==
        old(setup.virtualControls) + [NewControl(t, UniqueName(old(setup.virtualControls), t), landscapeOrientation, position, background, thumb)]
      ensures setup.currentSelectedControlIndex == |old(setup.virtualControls)|
    {
      var name := setup.GetUniqueName(t);
      var control := NewControl(t, name, landscapeOrientation, position, background, thumb);
      setup.virtualControls := setup.virtualControls + [control];
      var _ := setup.SelectLastControl();
    }

    /** AddNewControlFromCopyCache: when a copy is available, appends it under a fresh name, unlinked, and selects it. */
    method AddNewControlFromCopyCache()
      modifies this`controlDataCopied, setup`virtualControls, setup`currentSelectedControlIndex
      ensures old(copyAvailable) ==>
        controlDataCopied == PastedControl(old(setup.virtualControls), old(controlDataCopied))
        && setup.virtualControls == old(setup.virtualControls) + [controlDataCopied]
        && setup.currentSelectedControlIndex == |old(setup.virtualControls)|
      ensures !old(copyAvailable) ==> unchanged(this, setup)
    {
      if copyAvailable {
        var name := setup.GetUniqueName(controlDataCopied.controlType);
        controlDataCopied := controlDataCopied.(controlName := name).ClearLinkData();
        setup.virtualControls := setup.virtualControls + [controlDataCopied];
        var _ := setup.SelectLastControl();
      }
    }

    /** PasteCopiedControl: pastes the copy at `position` (the cursor, normalized) and uses the copy up. */
    method PasteCopiedControl(position: Vec2)
      modifies this`controlDataCopied, this`copyAvailable, setup`virtualControls, setup`currentSelectedControlIndex
      ensures old(copyAvailable) ==>
        setup.virtualControls == old(setup.virtualControls)
          + [PastedControl(old(setup.virtualControls), WithCenter(old(controlDataCopied), landscapeOrientation, position))]
        && !copyAvailable
      ensures !old(copyAvailable) ==> unchanged(this, setup)
    {
      if copyAvailable {
        controlDataCopied := WithCenter(controlDataCopied, landscapeOrientation, position);
        AddNewControlFromCopyCache();
        copyAvailable := false;
      }
    }

    /** CopySelectedControlData: copies the selected control when a name is selected; reports whether it did. */
    method CopySelectedControlData() returns (copied: bool)
      requires setup.currentSelectedControlIndex < |setup.virtualControls|
      modifies this`controlDataCopied, this`copyAvailable
      ensures copied == copyAvailable == !IsNone(selectedControlName)
      ensures copied ==> controlDataCopied == setup.GetSelectedControl()
      ensures !copied ==> controlDataCopied == old(controlDataCopied)
    {
      if !IsNone(selectedControlName) {
        controlDataCopied := setup.GetSelectedControl();
        copyAvailable := true;
        return true;
      }
      copyAvailable := false;
      return false;
    }

    /** ClearCopyCache: nothing is copied afterwards. */
    method ClearCopyCache()
      modifies this`controlDataCopied, this`copyAvailable
      ensures !copyAvailable && controlDataCopied == DefaultControl()
    {
      copyAvailable := false;
      controlDataCopied := DefaultControl();
    }

    /**
     * DuplicateSelected: copies the selected control, moves the copy by
     * (0.05, 0.05) in the orientation the viewport shows, and pastes it. The
     * copy stays available.
     */
    method DuplicateSelected(viewportLandscape: bool)
      requires setup.currentSelectedControlIndex < |setup.virtualControls|
      modifies this`controlDataCopied, this`copyAvailable, setup`virtualControls, setup`currentSelectedControlIndex
      ensures copyAvailable == !IsNone(selectedControlName)
      ensures copyAvailable ==>
        var c := old(setup.GetSelectedControl());
        var center := if viewportLandscape then c.landscapeCenter else c.portraitCenter;
        setup.virtualControls == old(setup.virtualControls)
          + [PastedControl(old(setup.virtualControls), WithCenter(c, viewportLandscape, center.Plus(Vec2(0.05, 0.05))))]
      ensures !copyAvailable ==> setup.virtualControls == old(setup.virtualControls)
    {
      var copied := CopySelectedControlData();
      if copyAvailable {
        var c := controlDataCopied;
        var center := if viewportLandscape then c.landscapeCenter else c.portraitCenter;
        controlDataCopied := WithCenter(c, viewportLandscape, center.Plus(Vec2(0.05, 0.05)));
      }
      AddNewControlFromCopyCache();
    }

    /** NotifyOrientationChanged: records the orientation and drops the copy. */
    method NotifyOrientationChanged(inLandscapeMode: bool)
      modifies this`landscapeOrientation, this`copyAvailable
      ensures landscapeOrientation == inLandscapeMode && !copyAvailable
    {
      landscapeOrientation := inLandscapeMode;
      copyAvailable := false;
    }

    /**
     * NotifyControlPositionChanged: stores the normalized position in the
     * current orientation; a child also gets the offset the viewport
     * computes from its parent.
     */
    method NotifyControlPositionChanged(name: string, position: Vec2, offsetFromParent: Vec2)
      requires NameExists(setup.virtualControls, name)
      modifies setup`virtualControls
      ensures var cs := old(setup.virtualControls);
        var i := IndexByName(cs, name);
        var moved := WithCenter(cs[i], landscapeOrientation, position);
        setup.virtualControls == cs[i := if cs[i].link.isChild then moved.(link := moved.link.(parentOffset := offsetFromParent)) else moved]
    {
      var i := setup.GetControlIndexByName(name);
      var c := WithCenter(setup.virtualControls[i], landscapeOrientation, position);
      if c.link.isChild {
        c := c.(link := c.link.(parentOffset := offsetFromParent));
      }
      setup.virtualControls := setup.virtualControls[i := c];
    }

    /**
     * HandleOnCalculatePortraitPosition: with at least one control, every
     * portrait centre becomes the landscape centre; with none, nothing
     * happens (the source shows a failure notification).
     */
    method HandleOnCalculatePortraitPosition() returns (generated: bool)
      modifies setup`virtualControls
      ensures generated <==> old(setup.virtualControls) != []
      ensures setup.virtualControls == PortraitFromLandscape(old(setup.virtualControls))
    {
      ghost var cs := setup.virtualControls;
      if |setup.virtualControls| > 0 {
        for j := 0 to |setup.virtualControls|
          invariant |setup.virtualControls| == |cs|
          invariant forall k :: 0 <= k < j ==> setup.virtualControls[k] == PortraitFromLandscape(cs)[k]
          invariant forall k :: j <= k < |cs| ==> setup.virtualControls[k] == cs[k]
        {
          var control := setup.virtualControls[j];
          setup.virtualControls := setup.virtualControls[j := control.(portraitCenter := control.landscapeCenter)];
        }
        return true;
      }
      return false;
    }

    /**
     * VerifyTextCommitted, as written: rejects an empty name, and a name
     * equal to a control's name compared as text (case-sensitively);
     * `otherText` receives the message and is unchanged on acceptance.
     */
    method VerifyTextCommitted(text: string, otherText: string) returns (ok: bool, message: string)
      ensures ok <==> TextAccepted(setup.virtualControls, text)
      ensures ok ==> message == otherText
      ensures !ok ==> message == (if text == [] then FillNameMessage else NameExistsMessage)
    {
      if text == [] {
        return false, FillNameMessage;
      }
      for j := 0 to |setup.virtualControls|
        invariant forall k :: 0 <= k < j ==> setup.virtualControls[k].controlName != text
      {
        if text == setup.virtualControls[j].controlName {
          return false, NameExistsMessage;
        }
      }
      return true, otherText;
    }

    /** The name check with FName equality: what VerifyTextCommitted is meant to enforce. */
    method VerifyControlName(text: string, otherText: string) returns (ok: bool, message: string)
      ensures ok <==> AcceptableName(setup.virtualControls, text)
      ensures ok ==> message == otherText
      ensures !ok ==> message == (if text == [] then FillNameMessage else NameExistsMessage)
    {
      if text == [] {
        return false, FillNameMessage;
      }
      var exists_ := setup.DoesThisNameExistInControl(text);
      if exists_ {
        return false, NameExistsMessage;
      }
      return true, otherText;
    }

    /** LinkControl: every control named `child` gets the link fields, every control named `parent` lists `child`. */
    method LinkControl(parent: string, child: string, offset: Vec2)
      modifies setup`virtualControls
      ensures setup.virtualControls == Linked(old(setup.virtualControls), parent, child, offset)
    {
      ghost var cs := setup.virtualControls;
      for j := 0 to |setup.virtualControls|
        invariant |setup.virtualControls| == |cs|
        invariant forall k :: 0 <= k < j ==> setup.virtualControls[k] == LinkOne(cs[k], parent, child, offset)
        invariant forall k :: j <= k < |cs| ==> setup.virtualControls[k] == cs[k]
      {
        var control := setup.virtualControls[j];
        if SameName(control.controlName, child) {
          control := control.(link := control.link.(isChild := true, parentName := parent, parentOffset := offset));
        }
        if SameName(control.controlName, parent) {
          control := control.(link := control.link.(children := control.link.children + [child]));
        }
        setup.virtualControls := setup.virtualControls[j := control];
      }
    }

    /**
     * UnlinkControl: the child is cleared and placed at `position` (where the
     * viewport shows it), then its parent drops it. Each search is the
     * first-match loop of GetControlIndexByName.
     */
    method UnlinkControl(child: string, position: Vec2)
      modifies setup`virtualControls
      ensures setup.virtualControls == Unlinked(old(setup.virtualControls), child, position, landscapeOrientation)
    {
      var i := setup.GetControlIndexByName(child);
      if i >= 0 {
        var control := setup.virtualControls[i];
        var parentName := control.link.parentName;
        control := control.(link := control.link.(isChild := false, parentName := NameNone, parentOffset := Zero2));
        setup.virtualControls := setup.virtualControls[i := if landscapeOrientation then control.(landscapeCenter := position)
                                                               else control.(portraitCenter := position)];
        if !IsNone(parentName) {
          var p := setup.GetControlIndexByName(parentName);
          if p >= 0 {
            var parentControl := setup.virtualControls[p];
            setup.virtualControls := setup.virtualControls[p := parentControl.(link := parentControl.link.(children := RemoveName(parentControl.link.children, child)))];
          }
        }
      }
    }

    /** UnlinkAllControl: each control named `parent` unlinks every child it listed, each placed where `positions` says. */
    method UnlinkAllControl(parent: string, positions: string -> Vec2)
      modifies setup`virtualControls
      ensures setup.virtualControls == UnlinkAll(old(setup.virtualControls), parent, positions, landscapeOrientation)
    {
      ghost var cs := setup.virtualControls;
      var count := |setup.virtualControls|;
      for j := 0 to count
        invariant setup.virtualControls == UnlinkAllUpTo(cs, parent, j, positions, landscapeOrientation)
      {
        if SameName(setup.virtualControls[j].controlName, parent) {
          UnlinkEachControl(setup.virtualControls[j].link.children, positions);
        }
      }
    }

    /** The inner loop of UnlinkAllControl: UnlinkControl for each name of a copy of the parent's Children. */
    method UnlinkEachControl(childrenNames: seq<string>, positions: string -> Vec2)
      modifies setup`virtualControls
      ensures setup.virtualControls == UnlinkEach(old(setup.virtualControls), childrenNames, positions, landscapeOrientation)
    {
      ghost var prev := setup.virtualControls;
      for k := 0 to |childrenNames|
        invariant setup.virtualControls == UnlinkEach(prev, childrenNames[..k], positions, landscapeOrientation)
      {
        UnlinkControl(childrenNames[k], positions(childrenNames[k]));
        assert childrenNames[..k + 1][..k] == childrenNames[..k];
      }
      assert childrenNames[..|childrenNames|] == childrenNames;
    }

    /**
     * ChangeControlName: renames the first control named `controlName`,
     * swaps the name in its parent's Children and renames the parent in its
     * children's ParentName. Each GetVirtualControlRef lookup must succeed.
     */
    method ChangeControlName(controlName: string, newControlName: string)
      requires CanRename(setup.virtualControls, controlName, newControlName)
      modifies setup`virtualControls
      ensures setup.virtualControls == Renamed(old(setup.virtualControls), controlName, newControlName)
    {
      ghost var cs := setup.virtualControls;
      var i := setup.GetControlIndexByName(controlName);
      if i >= 0 {
        SwapNameInParent(i, controlName, newControlName);
        ghost var cs1 := setup.virtualControls;
        if setup.virtualControls[i].IsParent() {
          var childrenNames := setup.virtualControls[i].link.children;
          assert AllExist(cs1, childrenNames) by {
            forall k | 0 <= k < |childrenNames| ensures NameExists(cs1, childrenNames[k]) {
              SameNamesLookup(cs, cs1, childrenNames[k]);
            }
          }
          SetChildrenParentName(childrenNames, newControlName);
        }
        setup.virtualControls := setup.virtualControls[i := setup.virtualControls[i].(controlName := newControlName)];
      }
    }

    /** ChangeControlName's parent-side edit, through GetVirtualControlRef. */
    method SwapNameInParent(i: int, controlName: string, newControlName: string)
      requires 0 <= i < |setup.virtualControls|
      requires setup.virtualControls[i].link.isChild ==> NameExists(setup.virtualControls, setup.virtualControls[i].link.parentName)
      modifies setup`virtualControls
      ensures setup.virtualControls == SwapInParent(old(setup.virtualControls), i, controlName, newControlName)
    {
      if setup.virtualControls[i].link.isChild {
        var p := setup.GetControlIndexByName(setup.virtualControls[i].link.parentName);
        var parentControl := setup.virtualControls[p];
        setup.virtualControls := setup.virtualControls[p := parentControl.(link := parentControl.link.(
          children := RemoveName(parentControl.link.children, controlName) + [newControlName]))];
      }
    }

    /** ChangeControlName's child-side loop: each listed child, found by GetVirtualControlRef, gets the new ParentName. */
    method SetChildrenParentName(childrenNames: seq<string>, newControlName: string)
      requires AllExist(setup.virtualControls, childrenNames)
      modifies setup`virtualControls
      ensures setup.virtualControls == SetParentNames(old(setup.virtualControls), childrenNames, newControlName)
    {
      ghost var cs := setup.virtualControls;
      for k := 0 to |childrenNames|
        invariant setup.virtualControls == SetParentNames(cs, childrenNames[..k], newControlName)
      {
        assert childrenNames[..k + 1][..k] == childrenNames[..k];
        SameNamesLookup(cs, setup.virtualControls, childrenNames[k]);
        var c := setup.GetControlIndexByName(childrenNames[k]);
        var childControl := setup.virtualControls[c];
        setup.virtualControls := setup.virtualControls[c := childControl.(link := childControl.link.(parentName := newControlName))];
      }
      assert childrenNames[..|childrenNames|] == childrenNames;
    }

    /** RemoveControl: removes the first control with this name and selects the new last index. */
    method RemoveControl(controlName: string)
      modifies setup`virtualControls, setup`currentSelectedControlIndex
      ensures var cs := old(setup.virtualControls);
        var i := IndexByName(cs, controlName);
        if i >= 0 then setup.virtualControls == RemovedAt(cs, i) && setup.currentSelectedControlIndex == |cs| - 2
        else unchanged(setup)
    {
      var i := RemoveFirstNamed(controlName);
      if i >= 0 {
        setup.currentSelectedControlIndex := |setup.virtualControls| - 1;
      }
    }

    /** The search-and-RemoveAt shared by RemoveControl and RemoveSelected; returns the index removed, or -1. */
    method RemoveFirstNamed(controlName: string) returns (i: int)
      modifies setup`virtualControls
      ensures i == IndexByName(old(setup.virtualControls), controlName)
      ensures setup.virtualControls == if i >= 0 then RemovedAt(old(setup.virtualControls), i) else old(setup.virtualControls)
    {
      i := setup.GetControlIndexByName(controlName);
      if i >= 0 {
        setup.virtualControls := setup.virtualControls[..i] + setup.virtualControls[i + 1..];
      }
    }

    /**
     * RemoveSelected's unlinking step, corrected: a parent unlinks all its
     * children, and a child unlinks itself, both when the control is both.
     */
    method UnlinkForRemoval(control: VirtualControl, positions: string -> Vec2)
      modifies setup`virtualControls
      ensures setup.virtualControls == UnlinkedForRemoval(old(setup.virtualControls), control, positions, landscapeOrientation)
    {
      if control.IsParent() {
        UnlinkAllControl(control.controlName, positions);
      }
      if control.link.isChild {
        UnlinkControl(control.controlName, positions(control.controlName));
      }
    }

    /**
     * RemoveSelected: when a name is selected, unlinks the selected control
     * (all its children if it is a parent, and itself if it is a child),
     * removes the first control with its name and clears the index. The
     * selected name itself is kept.
     */
    method RemoveSelected(positions: string -> Vec2)
      requires setup.currentSelectedControlIndex < |setup.virtualControls|
      modifies setup`virtualControls, setup`currentSelectedControlIndex
      ensures IsNone(selectedControlName) ==> unchanged(setup)
      ensures !IsNone(selectedControlName) ==>
        var c := old(setup.GetSelectedControl());
        var unlinked := UnlinkedForRemoval(old(setup.virtualControls), c, positions, landscapeOrientation);
        var i := IndexByName(unlinked, c.controlName);
        setup.virtualControls == AfterRemoval(old(setup.virtualControls), c, positions, landscapeOrientation)
        && setup.currentSelectedControlIndex == (if i >= 0 then -1 else old(setup.currentSelectedControlIndex))
    {
      if !IsNone(selectedControlName) {
        var control := setup.GetSelectedControl();
        UnlinkForRemoval(control, positions);
        var i := RemoveFirstNamed(control.controlName);
        if i >= 0 {
          setup.currentSelectedControlIndex := -1;
        }
      }
    }

    /** CutSelected: copies the selected control and, when that succeeds, removes it. */
    method CutSelected(positions: string -> Vec2)
      requires setup.currentSelectedControlIndex < |setup.virtualControls|
      modifies this`controlDataCopied, this`copyAvailable, setup`virtualControls, setup`currentSelectedControlIndex
      ensures copyAvailable == !IsNone(selectedControlName)
      ensures copyAvailable ==> controlDataCopied == old(setup.GetSelectedControl())
      ensures copyAvailable ==> setup.virtualControls == AfterRemoval(old(setup.virtualControls), controlDataCopied, positions, landscapeOrientation)
      ensures !copyAvailable ==> setup.virtualControls == old(setup.virtualControls)
    {
      var copied := CopySelectedControlData();
      if copied {
        RemoveSelected(positions);
      }
    }
  }

  // ---------------------------------------------------------------- What the edits preserve

  /** A detached control with a name no control uses can be appended to a consistent list. */
  lemma AppendDetachedKeepsConsistent(cs: seq<VirtualControl>, c: VirtualControl)
    requires Consistent(cs)
    requires !NameExists(cs, c.controlName) && c.link == NoLink
    ensures Consistent(cs + [c])
  {
    var r := cs + [c];
    NameExistsIff(cs, c.controlName);
    forall i, j | 0 <= i < |r| && 0 <= j < |r| && i != j
      ensures !SameName(r[i].controlName, r[j].controlName)
    {
      if j == |cs| {
        assert !SameName(cs[i].controlName, c.controlName);
      } else if i == |cs| {
        assert !SameName(cs[j].controlName, c.controlName);
      }
    }
    forall p, k | 0 <= p < |r| && 0 <= k < |r[p].link.children|
      ensures LinkedChild(r, p, r[p].link.children[k])
    {
      assert r[p] == cs[p];
      var m := cs[p].link.children[k];
      assert LinkedChild(cs, p, m);
      IndexByNameIsFirst(r, m, IndexByName(cs, m));
    }
  }

  /**
   * AddNewControl: while a unique id is left, the new control's name is
   * unused and the list stays consistent.
   */
  lemma AddKeepsConsistent(cs: seq<VirtualControl>, t: ControlType, landscape: bool, position: Vec2, background: Option<string>, thumb: Option<string>)
    requires Consistent(cs) && UniqueId(cs, t) >= 0
    ensures var c := NewControl(t, UniqueName(cs, t), landscape, position, background, thumb);
      !NameExists(cs, c.controlName) && Consistent(cs + [c])
  {
    UniqueNameIsFresh(cs, t);
    AppendDetachedKeepsConsistent(cs, NewControl(t, UniqueName(cs, t), landscape, position, background, thumb));
  }

  /**
   * AddNewControlFromCopyCache: while a unique id is left, the pasted copy
   * is unlinked, its name is unused and the list stays consistent.
   */
  lemma PasteKeepsConsistent(cs: seq<VirtualControl>, copied: VirtualControl)
    requires Consistent(cs) && UniqueId(cs, copied.controlType) >= 0
    ensures var c := PastedControl(cs, copied);
      !NameExists(cs, c.controlName) && !c.link.isChild && !c.IsParent() && Consistent(cs + [c])
  {
    UniqueNameIsFresh(cs, copied.controlType);
    AppendDetachedKeepsConsistent(cs, PastedControl(cs, copied));
  }

  /** Generating portrait positions keeps the link graph, and a second generation changes nothing. */
  lemma PortraitFromLandscapeEffect(cs: seq<VirtualControl>)
    ensures Consistent(cs) ==> Consistent(PortraitFromLandscape(cs))
    ensures PortraitFromLandscape(PortraitFromLandscape(cs)) == PortraitFromLandscape(cs)
  {
    var r := PortraitFromLandscape(cs);
    assert forall j :: 0 <= j < |cs| ==> r[j].link == cs[j].link;
    if Consistent(cs) {
      forall p, k | 0 <= p < |r| && 0 <= k < |r[p].link.children|
        ensures LinkedChild(r, p, r[p].link.children[k])
      {
        var m := r[p].link.children[k];
        assert LinkedChild(cs, p, m);
        SameNamesLookup(cs, r, m);
      }
    }
  }

  /** No control lists a name matching `n` among its children. */
  predicate Unlisted(cs: seq<VirtualControl>, n: string)
  {
    forall p, k :: 0 <= p < |cs| && 0 <= k < |cs[p].link.children| ==> !SameName(cs[p].link.children[k], n)
  }

  /** Looking a name up after a RemoveAt: the index moves down past the removed control. */
  lemma RemovedAtLookup(cs: seq<VirtualControl>, i: int, n: string)
    requires 0 <= i < |cs| && !SameName(cs[i].controlName, n)
    ensures var c := IndexByName(cs, n);
      IndexByName(RemovedAt(cs, i), n) == (if c < i then c else c - 1)
  {
    var r := RemovedAt(cs, i);
    var c := IndexByName(cs, n);
    if c == -1 {
      assert IndexByName(r, n) == -1 by {
        forall j | 0 <= j < |r|
          ensures !SameName(r[j].controlName, n)
        {
          if j >= i {
            assert r[j] == cs[j + 1];
          }
        }
        NameExistsIff(r, n);
      }
    } else {
      var t := if c < i then c else c - 1;
      assert IndexByName(r, n) == t by {
        assert r[t] == cs[c];
        forall j | 0 <= j < t
          ensures !SameName(r[j].controlName, n)
        {
          if j >= i {
            assert r[j] == cs[j + 1];
          }
        }
        IndexByNameIsFirst(r, n, t);
      }
    }
  }

  /** Removing a control that no control lists keeps a consistent list consistent. */
  lemma RemovedAtKeepsConsistent(cs: seq<VirtualControl>, i: int)
    requires Consistent(cs) && 0 <= i < |cs| && Unlisted(cs, cs[i].controlName)
    ensures Consistent(RemovedAt(cs, i))
  {
    var r := RemovedAt(cs, i);
    forall a, b | 0 <= a < |r| && 0 <= b < |r| && a != b
      ensures !SameName(r[a].controlName, r[b].controlName)
    {
      assert r[a] == cs[if a < i then a else a + 1];
      assert r[b] == cs[if b < i then b else b + 1];
    }
    forall j | 0 <= j < |r|
      ensures Detached(r[j])
    {
      assert r[j] == cs[if j < i then j else j + 1];
    }
    forall p, k | 0 <= p < |r| && 0 <= k < |r[p].link.children|
      ensures LinkedChild(r, p, r[p].link.children[k])
    {
      var p' := if p < i then p else p + 1;
      assert r[p] == cs[p'];
      RemovedAtLinkedChild(cs, i, p', k);
    }
  }

  /** One listed child of a control that stays, after the RemoveAt. */
  lemma RemovedAtLinkedChild(cs: seq<VirtualControl>, i: int, p: int, k: int)
    requires Consistent(cs) && 0 <= i < |cs| && Unlisted(cs, cs[i].controlName)
    requires 0 <= p < |cs| && p != i && 0 <= k < |cs[p].link.children|
    ensures LinkedChild(RemovedAt(cs, i), if p < i then p else p - 1, cs[p].link.children[k])
  {
    var m := cs[p].link.children[k];
    assert LinkedChild(cs, p, m);
    assert !SameName(cs[i].controlName, m);
    RemovedAtKeepsLink(cs, i, p, m);
  }

  /** A parent-child link not involving the removed control survives the RemoveAt. */
  lemma RemovedAtKeepsLink(cs: seq<VirtualControl>, i: int, p: int, m: string)
    requires 0 <= i < |cs| && 0 <= p < |cs| && p != i
    requires LinkedChild(cs, p, m) && !SameName(cs[i].controlName, m)
    ensures LinkedChild(RemovedAt(cs, i), if p < i then p else p - 1, m)
  {
    var r := RemovedAt(cs, i);
    var c := IndexByName(cs, m);
    RemovedAtLookup(cs, i, m);
    var p', c' := if p < i then p else p - 1, if c < i then c else c - 1;
    assert r[p'] == cs[p] by {
      if p > i { assert r[p'] == cs[p' + 1]; }
    }
    assert r[c'] == cs[c] by {
      if c > i { assert r[c'] == cs[c' + 1]; }
    }
  }

  /**
   * The corrected RemoveSelected, for any selected control: the list stays
   * consistent and no control keeps the removed name.
   */
  lemma RemovalKeepsConsistent(cs: seq<VirtualControl>, sel: int, positions: string -> Vec2, landscape: bool)
    requires Consistent(cs) && 0 <= sel < |cs|
    ensures var r := AfterRemoval(cs, cs[sel], positions, landscape);
      Consistent(r) && !NameExists(r, cs[sel].controlName) && |r| == |cs| - 1
  {
    var c := cs[sel];
    var n := c.controlName;
    var parentDone := if c.IsParent() then UnlinkAll(cs, n, positions, landscape) else cs;
    if c.IsParent() {
      UnlinkAllEmptiesParent(cs, n, positions, landscape);
      UnlinkAllUpToNoNewChild(cs, n, |cs|, positions, landscape);
    }
    assert SameNames(cs, parentDone) && Consistent(parentDone);
    assert parentDone[sel].link.isChild ==> c.link.isChild;
    var u := UnlinkedForRemoval(cs, c, positions, landscape);
    if c.link.isChild {
      UnlinkedEffect(parentDone, n, positions(n), landscape);
      SameNamesLookup(cs, parentDone, n);
      UniqueLookup(parentDone, n, sel);
      UnlinkedAt(parentDone, n, positions(n), landscape, sel);
    }
    assert SameNames(cs, u) && Consistent(u) && !u[sel].link.isChild;
    SameNamesLookup(cs, u, n);
    UniqueLookup(u, n, sel);
    forall p, k | 0 <= p < |u| && 0 <= k < |u[p].link.children|
      ensures !SameName(u[p].link.children[k], n)
    {
      if SameName(u[p].link.children[k], n) {
        ListedOnlyByParent(u, n, p, k);
      }
    }
    RemovedAtKeepsConsistent(u, sel);
    var r := RemovedAt(u, sel);
    forall j | 0 <= j < |r|
      ensures !SameName(r[j].controlName, n)
    {
      var j' := if j < sel then j else j + 1;
      assert r[j] == u[j'];
    }
    NameExistsIff(r, n);
  }

  /** A three-level chain: "A" lists "B", "B" is A's child and lists "C", "C" is B's child. */
  function NestedChain(): seq<VirtualControl>
  {
    var d := DefaultControl();
    [ d.(controlName := "A", link := d.link.(children := ["B"])),
      d.(controlName := "B", link := d.link.(isChild := true, parentName := "A", children := ["C"])),
      d.(controlName := "C", link := d.link.(isChild := true, parentName := "B")) ]
  }

  /** The chain's names are pairwise distinct as FNames, and each is found at its own index. */
  lemma NestedChainNames()
    ensures !SameName("A", "B") && !SameName("A", "C") && !SameName("B", "C")
    ensures IndexByName(NestedChain(), "A") == 0
    ensures IndexByName(NestedChain(), "B") == 1
    ensures IndexByName(NestedChain(), "C") == 2
  {
    var cs := NestedChain();
    assert FoldCase("A") == "A" && FoldCase("B") == "B" && FoldCase("C") == "C";
    assert !SameName("A", "B") && !SameName("A", "C") && !SameName("B", "C");
    assert cs[0].controlName == "A" && cs[1].controlName == "B" && cs[2].controlName == "C";
    IndexByNameIsFirst(cs, "A", 0);
    IndexByNameIsFirst(cs, "B", 1);
    IndexByNameIsFirst(cs, "C", 2);
  }

  /** The three-level chain is a consistent link graph. */
  lemma NestedChainConsistent()
    ensures Consistent(NestedChain())
  {
    var cs := NestedChain();
    NestedChainNames();
    assert LinkedChild(cs, 0, "B");
    assert LinkedChild(cs, 1, "C");
  }

  /** UnlinkControl("C") on the chain leaves "A" alone: C's parent is "B". */
  lemma NestedUnlinkChildKeepsHead(position: Vec2, landscape: bool)
    ensures Unlinked(NestedChain(), "C", position, landscape)[0] == NestedChain()[0]
  {
    var cs := NestedChain();
    NestedChainNames();
    assert ParentIndex(cs, "C") == 1;
    UnlinkedAt(cs, "C", position, landscape, 0);
  }

  /** UnlinkAllControl("B") on the chain only unlinks "C": "A" keeps listing "B". */
  lemma NestedUnlinkAllKeepsHead(positions: string -> Vec2, landscape: bool)
    ensures var u := UnlinkAll(NestedChain(), "B", positions, landscape);
      SameNames(NestedChain(), u) && u[0] == NestedChain()[0]
  {
    var cs := NestedChain();
    NestedChainNames();
    var u1 := UnlinkAllUpTo(cs, "B", 1, positions, landscape);
    assert u1 == cs;
    var u2 := UnlinkAllUpTo(cs, "B", 2, positions, landscape);
    assert ["C"][..0] == [];
    assert u2 == UnlinkEach(cs, ["C"], positions, landscape);
    NestedUnlinkChildKeepsHead(positions("C"), landscape);
    assert u2[0] == cs[0];
  }

  /**
   * RemoveSelected as written, on the middle control of a consistent
   * three-level chain: "B" is removed, but "A" still lists it, so the link
   * graph is no longer consistent.
   */
  lemma NestedRemovalAsWrittenLeavesListing(positions: string -> Vec2, landscape: bool)
    ensures Consistent(NestedChain())
    ensures var r := AfterRemovalAsWritten(NestedChain(), NestedChain()[1], positions, landscape);
      |r| == 2 && r[0].controlName == "A" && r[0].link.children == ["B"]
      && !NameExists(r, "B") && !Consistent(r)
  {
    var cs := NestedChain();
    NestedChainConsistent();
    NestedChainNames();
    NestedUnlinkAllKeepsHead(positions, landscape);
    var u := UnlinkAll(cs, "B", positions, landscape);
    assert UnlinkedForRemovalAsWritten(cs, cs[1], positions, landscape) == u;
    SameNamesLookup(cs, u, "B");
    var r := AfterRemovalAsWritten(cs, cs[1], positions, landscape);
    assert r == RemovedAt(u, 1);
    assert r[0] == cs[0] && r[1].controlName == "C";
    assert !SameName(r[0].controlName, "B") && !SameName(r[1].controlName, "B");
    NameExistsIff(r, "B");
    assert !LinkedChild(r, 0, r[0].link.children[0]);
  }

  // ---------------------------------------------------------------- The name check

  /**
   * VerifyTextCommitted as written lets through a name that differs from an
   * existing one only in case; the rename it allows then leaves two controls
   * with the same FName.
   */
  lemma TextAcceptedAllowsDuplicate()
    ensures var cs := [DefaultControl().(controlName := "Jump"), DefaultControl().(controlName := "Run")];
      TextAccepted(cs, "jump") && NameExists(cs, "jump")
      && CanRename(cs, "Run", "jump") && !UniqueNames(Renamed(cs, "Run", "jump"))
  {
    var cs := [DefaultControl().(controlName := "Jump"), DefaultControl().(controlName := "Run")];
    assert SameName(cs[0].controlName, "jump");
    assert !SameName(cs[0].controlName, "Run");
    assert SameName(cs[1].controlName, "Run");
    IndexByNameIsFirst(cs, "Run", 1);
    RenamedAt(cs, "Run", "jump", 0);
    RenamedAt(cs, "Run", "jump", 1);
  }

  /** With the FName check, a rename keeps every control's name unique. */
  lemma AcceptableRenameKeepsNamesUnique(cs: seq<VirtualControl>, oldName: string, newName: string)
    requires UniqueNames(cs) && CanRename(cs, oldName, newName) && AcceptableName(cs, newName)
    ensures UniqueNames(Renamed(cs, oldName, newName))
  {
    var r := Renamed(cs, oldName, newName);
    var i := IndexByName(cs, oldName);
    NameExistsIff(cs, newName);
    forall a, b | 0 <= a < |r| && 0 <= b < |r| && a != b
      ensures !SameName(r[a].controlName, r[b].controlName)
    {
      RenamedAt(cs, oldName, newName, a);
      RenamedAt(cs, oldName, newName, b);
      if a == i {
        assert !SameName(cs[b].controlName, newName);
      } else if b == i {
        assert !SameName(cs[a].controlName, newName);
      }
    }
  }
}
