/**
 * The touch interface's control data model (VirtualControlSetup.h): the
 * visual-layer flags and their Accept test, the FVirtualControl record with
 * its parent/child link fields, and its default and typed constructors.
 *
 * Engine handles (input actions, sounds, brushes' resources, curves) are
 * kept by name; a null pointer is `None`. An FName is a string compared
 * ignoring case, as FName comparison does; NAME_None is the name "None".
 */
module VirtualControlTypes {
  import opened Common

  /** NAME_None. */
  const NameNone: string := "None"

  /** The case-folded form of a name (ASCII upper case). */
  function FoldCase(s: string): string
  {
    if s == [] then [] else [ToUpperChar(s[0])] + FoldCase(s[1..])
  }

  /** FName equality: names compare ignoring case. */
  predicate SameName(a: string, b: string)
  {
    FoldCase(a) == FoldCase(b)
  }

  /** FName::IsNone. */
  predicate IsNone(name: string)
  {
    SameName(name, NameNone)
  }

  datatype ControlType = Button | Joystick | TouchRegion

  datatype HitTestType = Square | Circle

  /** ELayerType: single-bit flags (None is 0). */
  datatype LayerFlag = NoLayer | Background | Thumb | Unpressed | Pressed | UnHovered | Hovered

  function FlagValue(f: LayerFlag): bv32
  {
    match f
    case NoLayer => 0x00
    case Background => 0x01
    case Thumb => 0x02
    case Unpressed => 0x04
    case Pressed => 0x08
    case UnHovered => 0x10
    case Hovered => 0x20
  }

  /** The bit of `f` is set in `layerType`. */
  predicate HasFlag(layerType: bv32, f: LayerFlag)
  {
    layerType & FlagValue(f) != 0
  }

  /** Every flag of `test` is set in `layerType`. */
  predicate AllSet(layerType: bv32, test: seq<LayerFlag>)
  {
    test == [] || (HasFlag(layerType, test[0]) && AllSet(layerType, test[1..]))
  }

  /** FVisualLayer::Accept: never for layer type 0, else iff every requested flag is set. */
  predicate Accept(layerType: bv32, test: seq<LayerFlag>)
  {
    layerType != 0 && AllSet(layerType, test)
  }

  lemma {:induction false} AcceptIff(layerType: bv32, test: seq<LayerFlag>)
    ensures Accept(layerType, test) <==>
      layerType != 0 && forall i :: 0 <= i < |test| ==> HasFlag(layerType, test[i])
  {
    AllSetIff(layerType, test);
  }

  lemma {:induction false} AllSetIff(layerType: bv32, test: seq<LayerFlag>)
    ensures AllSet(layerType, test) <==> forall i :: 0 <= i < |test| ==> HasFlag(layerType, test[i])
  {
    if test != [] {
      AllSetIff(layerType, test[1..]);
      assert forall i :: 1 <= i < |test| ==> test[1..][i - 1] == test[i];
    }
  }

  /** Testing for the None flag always fails, and an empty test accepts any non-zero type. */
  lemma AcceptEdgeCases(layerType: bv32, test: seq<LayerFlag>)
    ensures NoLayer in test ==> !Accept(layerType, test)
    ensures Accept(layerType, []) <==> layerType != 0
  {
    AcceptIff(layerType, test);
    if NoLayer in test {
      var i :| 0 <= i < |test| && test[i] == NoLayer;
      assert !HasFlag(layerType, test[i]);
    }
  }

  /** FSlateBrush, reduced to its resource and image size (the engine default size is 32x32). */
  datatype Brush = Brush(resource: Option<string>, imageSize: Vec2)

  const DefaultBrush: Brush := Brush(None, Vec2(32.0, 32.0))

  datatype VisualLayer = VisualLayer(brush: Brush, useBrushSize: bool, offset: Vec2, layerType: bv32, exposedLayerName: string)

  /** The FVisualLayer constructors taking a brush: the image size becomes the brush size when asked. */
  function VisualLayerOf(brush: Brush, layerType: bv32, useBrushSize: bool, brushSize: real): (l: VisualLayer)
    ensures l.layerType == layerType && l.useBrushSize == useBrushSize && l.offset == Zero2
    ensures l.brush.resource == brush.resource
    ensures l.brush.imageSize == (if useBrushSize then Vec2(brushSize, brushSize) else brush.imageSize)
  {
    VisualLayer(if useBrushSize then brush.(imageSize := Vec2(brushSize, brushSize)) else brush,
                useBrushSize, Zero2, layerType, NameNone)
  }

  /** The FVisualLayer constructors taking a texture or material: a default brush showing that resource. */
  function VisualLayerOfResource(resource: Option<string>, layerType: bv32, useBrushSize: bool, brushSize: real): VisualLayer
  {
    VisualLayerOf(DefaultBrush.(resource := resource), layerType, useBrushSize, brushSize)
  }

  /** A key of the float curve. */
  datatype CurveKey = CurveKey(time: real, value: real)

  /** The "Virtual Control" behaviour flags. */
  datatype Behaviour = Behaviour(startHidden: bool, recenterOnTouch: bool, blockTouchRegion: bool)

  /** The parent/child link fields: a child's parent and offset, a parent's children. */
  datatype Link = Link(isChild: bool, parentName: string, parentOffset: Vec2, moveWhenParentRecenter: bool, children: seq<string>)

  /** The "Virtual Control|Button" fields. */
  datatype ButtonSettings = ButtonSettings(buttonAction: Option<string>, buttonInputKey: string, pressedSound: Option<string>)

  /** The "Virtual Control|Joystick" fields. */
  datatype JoystickSettings = JoystickSettings(
    thumbSize: Vec2,
    horizontalInputKey: string,
    verticalInputKey: string,
    joystickAction: Option<string>,
    sendPressAndReleaseEvent: bool,
    inputScale: real,
    thumbValueCurve: seq<CurveKey>,
    useTurnRate: bool,
    turnRate: real,
    autoMove: bool,
    lockIcon: Brush,
    dragToSprint: bool,
    sprintButton: seq<VisualLayer>,
    sprintButtonVisualSize: Vec2,
    sprintInputKey: string,
    sprintAction: Option<string>)

  /**
   * FVirtualControl. The fields are those of the source, grouped by their
   * editor category (behaviour flags, link data, button, joystick); the
   * touch-region category holds the single flag `joystickMode`.
   */
  datatype VirtualControl = VirtualControl(
    controlName: string,
    behaviour: Behaviour,
    landscapeCenter: Vec2,
    portraitCenter: Vec2,
    link: Link,
    visualLayers: seq<VisualLayer>,
    visualSize: Vec2,
    interactionShape: HitTestType,
    interactionSize: Vec2,
    interactionRadiusSize: real,
    controlType: ControlType,
    controlEvent: Option<string>,
    button: ButtonSettings,
    joystick: JoystickSettings,
    joystickMode: bool)
  {
    /** A control with children. */
    predicate IsParent()
    {
      |link.children| > 0
    }

    /** ClearLinkData: the control is neither a child nor a parent afterwards; nothing else changes. */
    function ClearLinkData(): (c: VirtualControl)
      ensures !c.link.isChild && IsNone(c.link.parentName) && c.link.parentOffset == Zero2 && !c.IsParent()
      ensures !c.link.moveWhenParentRecenter
      ensures c.(link := link) == this
    {
      this.(link := NoLink)
    }
  }

  /** The link data of a control that is neither a child nor a parent. */
  const NoLink: Link := Link(false, NameNone, Zero2, false, [])

  /** The key an unset FKey holds. */
  const NoKey: string := "None"

  function Square2(v: real): Vec2
  {
    Vec2(v, v)
  }

  const DefaultJoystick: JoystickSettings := JoystickSettings(Square2(60.0), NoKey, NoKey, None, false, 1.0, [],
    false, 30.0, false, DefaultBrush, false, [], Square2(80.0), NoKey, None)

  /** FVirtualControl(): a 60x60 button named "NewControl" at the centre of the screen. */
  function DefaultControl(): (c: VirtualControl)
    ensures c.controlName == "NewControl" && c.controlType == Button
    ensures c.landscapeCenter == Vec2(0.5, 0.5) && c.portraitCenter == Vec2(0.5, 0.5)
    ensures !c.link.isChild && !c.IsParent() && IsNone(c.link.parentName) && c.link.parentOffset == Zero2
    ensures c.visualSize == Vec2(60.0, 60.0) && c.interactionSize == Vec2(60.0, 60.0)
    ensures c.interactionRadiusSize == 10.0 && c.joystick.inputScale == 1.0 && c.joystick.turnRate == 30.0
  {
    VirtualControl("NewControl", Behaviour(false, false, false), Vec2(0.5, 0.5), Vec2(0.5, 0.5),
      NoLink, [], Square2(60.0), Square, Square2(60.0), 10.0, Button, None,
      ButtonSettings(None, NoKey, None), DefaultJoystick, false)
  }

  /**
   * FVirtualControl(EControlType): per type, a name, a visual size, an
   * interaction size and radius and an input scale. A touch region's visual
   * size is left uninitialised by the source; here it is (0,0).
   */
  function ControlOfType(t: ControlType): (c: VirtualControl)
    ensures c.controlType == t
    ensures c.landscapeCenter == Vec2(0.5, 0.5) && c.portraitCenter == Vec2(0.5, 0.5)
    ensures !c.link.isChild && !c.IsParent() && IsNone(c.link.parentName) && c.link.parentOffset == Zero2
    ensures t == Button ==> (c.controlName == "NewButton" && c.visualSize == Vec2(60.0, 60.0)
      && c.interactionSize == Vec2(60.0, 60.0) && c.interactionRadiusSize == 30.0 && c.joystick.inputScale == 1.0)
    ensures t == Joystick ==> (c.controlName == "NewJoystick" && c.visualSize == Vec2(100.0, 100.0)
      && c.interactionSize == Vec2(60.0, 60.0) && c.interactionRadiusSize == 50.0 && c.joystick.inputScale == 1.0
      && c.joystick.thumbValueCurve == [CurveKey(0.0, 0.0), CurveKey(1.0, 1.0)])
    ensures t == TouchRegion ==> (c.controlName == "NewTouchRegion"
      && c.interactionSize == Vec2(300.0, 300.0) && c.interactionRadiusSize == 150.0 && c.joystick.inputScale == 30.0)
  {
    var base := VirtualControl("", Behaviour(false, false, false), Vec2(0.5, 0.5), Vec2(0.5, 0.5),
      NoLink, [], Zero2, Square, Zero2, 0.0, t, None,
      ButtonSettings(None, NoKey, None), DefaultJoystick, false);
    match t
    case Button =>
      base.(controlName := "NewButton", visualSize := Square2(60.0), interactionSize := Square2(60.0),
            interactionRadiusSize := 30.0)
    case Joystick =>
      base.(controlName := "NewJoystick", visualSize := Square2(100.0), interactionSize := Square2(60.0),
            interactionRadiusSize := 50.0,
            joystick := DefaultJoystick.(thumbValueCurve := [CurveKey(0.0, 0.0), CurveKey(1.0, 1.0)]))
    case TouchRegion =>
      base.(controlName := "NewTouchRegion", interactionSize := Vec2(300.0, 300.0),
            interactionRadiusSize := 150.0, joystick := DefaultJoystick.(inputScale := 30.0))
  }

  /** ClearLinkData is idempotent, and a freshly built control has nothing to clear. */
  lemma ClearLinkDataFixpoints(c: VirtualControl, t: ControlType)
    ensures c.ClearLinkData().ClearLinkData() == c.ClearLinkData()
    ensures DefaultControl().ClearLinkData() == DefaultControl()
    ensures ControlOfType(t).ClearLinkData() == ControlOfType(t)
  {
  }
}
