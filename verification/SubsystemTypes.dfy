/**
 * The blueprint-facing structs of the touch interface subsystem
 * (TouchInterfaceSubsystem.h): FTouchInterfaceInit, and the button,
 * joystick and touch-region descriptions with their conversions to and
 * from FVirtualControl.
 */
module SubsystemTypes {
  import opened Common
  import opened VirtualControlTypes

  /** FTouchInterfaceInit: how AddToPlayerScreen shows the interface. */
  datatype TouchInterfaceInit = TouchInterfaceInit(
    isVisible: bool, blockInput: bool, blockRecognizers: bool, loadConfiguration: bool,
    userIndex: int, configIndex: int)

  /** FTouchInterfaceInit(): visible, nothing blocked, no saved configuration loaded, indices 0. */
  function DefaultInit(): (s: TouchInterfaceInit)
    ensures s.isVisible && !s.blockInput && !s.blockRecognizers && !s.loadConfiguration
    ensures s.userIndex == 0 && s.configIndex == 0
  {
    TouchInterfaceInit(true, false, false, false, 0, 0)
  }

  /** FBaseVirtualControl: the fields every description shares. */
  datatype BaseControl = BaseControl(
    controlName: string,
    behaviour: Behaviour,
    landscapeCenter: Vec2,
    portraitCenter: Vec2,
    visualLayers: seq<VisualLayer>,
    visualSize: Vec2,
    interactionSize: Vec2)

  /** FBaseVirtualControl(): no name, centred, 60 x 60. */
  const DefaultBase: BaseControl :=
    BaseControl(NameNone, Behaviour(false, false, false), Vec2(0.5, 0.5), Vec2(0.5, 0.5), [], Square2(60.0), Square2(60.0))

  /** FVirtualButtonData. */
  datatype ButtonData = ButtonData(base: BaseControl, button: ButtonSettings)

  /** FVirtualJoystickData: its joystick fields are exactly FVirtualControl's joystick category. */
  datatype JoystickData = JoystickData(base: BaseControl, buttonInputKey: string, joystick: JoystickSettings)

  /** FTouchRegionData. */
  datatype TouchRegionData = TouchRegionData(
    base: BaseControl,
    horizontalInputKey: string,
    verticalInputKey: string,
    inputAction: Option<string>,
    inputSensibility: real)

  /** The control's shared fields, as a description holds them. */
  function BaseOf(c: VirtualControl): BaseControl
  {
    BaseControl(c.controlName, c.behaviour, c.landscapeCenter, c.portraitCenter, c.visualLayers, c.visualSize, c.interactionSize)
  }

  /** A default control carrying the shared fields of a description. */
  function WithBase(b: BaseControl): (c: VirtualControl)
    ensures BaseOf(c) == b
  {
    DefaultControl().(controlName := b.controlName, behaviour := b.behaviour,
      landscapeCenter := b.landscapeCenter, portraitCenter := b.portraitCenter,
      visualLayers := b.visualLayers, visualSize := b.visualSize, interactionSize := b.interactionSize)
  }

  // Buttons

  /** FVirtualButtonData::GetVirtualControl: a default control with the button's fields, of type Button. */
  function ButtonToControl(d: ButtonData): (c: VirtualControl)
    ensures c.controlType == Button && c.link == NoLink
    ensures BaseOf(c) == d.base && c.button == d.button
  {
    WithBase(d.base).(controlType := Button, button := d.button)
  }

  /** FVirtualButtonData(const FVirtualControl&). */
  function ButtonFromControl(c: VirtualControl): ButtonData
  {
    ButtonData(BaseOf(c), c.button)
  }

  /** A button description survives the trip through FVirtualControl unchanged. */
  lemma ButtonRoundTrip(d: ButtonData)
    ensures ButtonFromControl(ButtonToControl(d)) == d
  {
  }

  /** A button control that has no link and default joystick and touch-region data survives the opposite trip. */
  lemma ButtonControlRoundTrip(c: VirtualControl)
    requires c.controlType == Button && c.link == NoLink
    requires c == DefaultControl().(controlName := c.controlName, behaviour := c.behaviour,
      landscapeCenter := c.landscapeCenter, portraitCenter := c.portraitCenter, visualLayers := c.visualLayers,
      visualSize := c.visualSize, interactionSize := c.interactionSize, button := c.button)
    ensures ButtonToControl(ButtonFromControl(c)) == c
  {
  }

  // Joysticks

  /**
   * FVirtualJoystickData::GetVirtualControl as written: every joystick
   * field is copied, but the control type is set to Button.
   */
  function JoystickToControlAsWritten(d: JoystickData): VirtualControl
  {
    WithBase(d.base).(controlType := Button,
      button := DefaultControl().button.(buttonInputKey := d.buttonInputKey), joystick := d.joystick)
  }

  /** The conversion with the joystick type. */
  function JoystickToControl(d: JoystickData): (c: VirtualControl)
    ensures c.controlType == Joystick && c.link == NoLink
    ensures BaseOf(c) == d.base && c.joystick == d.joystick && c.button.buttonInputKey == d.buttonInputKey
  {
    WithBase(d.base).(controlType := Joystick,
      button := DefaultControl().button.(buttonInputKey := d.buttonInputKey), joystick := d.joystick)
  }

  /** FVirtualJoystickData(const FVirtualControl&). */
  function JoystickFromControl(c: VirtualControl): JoystickData
  {
    JoystickData(BaseOf(c), c.button.buttonInputKey, c.joystick)
  }

  /**
   * As written, a joystick description becomes a Button control, so the
   * interface builds a button widget for it; the data itself survives.
   */
  lemma JoystickBecomesButton(d: JoystickData)
    ensures JoystickToControlAsWritten(d).controlType == Button
    ensures JoystickFromControl(JoystickToControlAsWritten(d)) == d
    ensures JoystickToControlAsWritten(d) == JoystickToControl(d).(controlType := Button)
  {
  }

  /** A joystick description survives the trip through FVirtualControl, as a Joystick control. */
  lemma JoystickRoundTrip(d: JoystickData)
    ensures JoystickFromControl(JoystickToControl(d)) == d
    ensures JoystickToControl(d).controlType == Joystick
  {
  }

  // Touch regions

  /**
   * FTouchRegionData::GetVirtualControl: only the name, the centres and
   * the interaction size are copied from the shared fields; the action
   * becomes JoystickAction and the sensibility becomes InputScale.
   */
  function TouchRegionToControl(d: TouchRegionData): (c: VirtualControl)
    ensures c.controlType == TouchRegion && c.link == NoLink
    ensures c.controlName == d.base.controlName && c.interactionSize == d.base.interactionSize
    ensures c.landscapeCenter == d.base.landscapeCenter && c.portraitCenter == d.base.portraitCenter
    ensures c.joystick.joystickAction == d.inputAction && c.joystick.inputScale == d.inputSensibility
    ensures c.joystick.horizontalInputKey == d.horizontalInputKey && c.joystick.verticalInputKey == d.verticalInputKey
  {
    var c := DefaultControl();
    c.(controlName := d.base.controlName, landscapeCenter := d.base.landscapeCenter,
       portraitCenter := d.base.portraitCenter, interactionSize := d.base.interactionSize,
       controlType := TouchRegion,
       joystick := c.joystick.(horizontalInputKey := d.horizontalInputKey, verticalInputKey := d.verticalInputKey,
         joystickAction := d.inputAction, inputScale := d.inputSensibility))
  }

  /** FTouchRegionData(const FVirtualControl&): the other shared fields keep FBaseVirtualControl's defaults. */
  function TouchRegionFromControl(c: VirtualControl): TouchRegionData
  {
    TouchRegionData(
      DefaultBase.(controlName := c.controlName, landscapeCenter := c.landscapeCenter,
        portraitCenter := c.portraitCenter, interactionSize := c.interactionSize),
      c.joystick.horizontalInputKey, c.joystick.verticalInputKey, c.joystick.joystickAction, c.joystick.inputScale)
  }

  /**
   * A touch region survives the trip in every field it carries; the shared
   * fields it does not carry come back as defaults.
   */
  lemma TouchRegionRoundTrip(d: TouchRegionData)
    ensures var back := TouchRegionFromControl(TouchRegionToControl(d));
      back.base.controlName == d.base.controlName &&
      back.base.landscapeCenter == d.base.landscapeCenter && back.base.portraitCenter == d.base.portraitCenter &&
      back.base.interactionSize == d.base.interactionSize &&
      back.horizontalInputKey == d.horizontalInputKey && back.verticalInputKey == d.verticalInputKey &&
      back.inputAction == d.inputAction && back.inputSensibility == d.inputSensibility
    ensures d.base == DefaultBase.(controlName := d.base.controlName, landscapeCenter := d.base.landscapeCenter,
        portraitCenter := d.base.portraitCenter, interactionSize := d.base.interactionSize) ==>
      TouchRegionFromControl(TouchRegionToControl(d)) == d
  {
  }
}
