/**
 * STouchInterfaceDesignerViewport: the canvas of the touch interface
 * designer. The model keeps the designer size and orientation, the zoom,
 * the opacity preview and the scale factor; the conversions between
 * canvas space and normalized space are pure functions of the designer
 * size.
 *
 * Slate geometry (the panning offset kept under the pointer while
 * zooming), widget refreshes and editor notifications are not modelled.
 */
module TouchDesignerViewport {
  import opened Common
  import opened DeviceProfile
  import opened TouchInterfaceSettings

  function AsVector(size: IntVec): Vec2
  {
    Vec2(size.x as real, size.y as real)
  }

  /** The designer size with its sides exchanged. */
  function Swap(size: IntVec): (r: IntVec)
    ensures r.x == size.y && r.y == size.x
  {
    IntVec(size.y, size.x)
  }

  /** Two orientation changes restore the designer size. */
  lemma ToggleOrientationTwice(size: IntVec)
    ensures Swap(Swap(size)) == size
  {
  }

  // Canvas space <-> normalized space

  /** NormalizedToCanvasSpace: each component clamped to [0, 1], then scaled by the designer size. */
  function NormalizedToCanvasSpace(normalized: Vec2, size: IntVec): (r: Vec2)
    requires size.x >= 0 && size.y >= 0
    ensures 0.0 <= r.x <= size.x as real && 0.0 <= r.y <= size.y as real
  {
    var x := Clamp(normalized.x, 0.0, 1.0);
    var y := Clamp(normalized.y, 0.0, 1.0);
    MulFraction(x, size.x as real);
    MulFraction(y, size.y as real);
    Vec2(Mul(x, size.x as real), Mul(y, size.y as real))
  }

  /**
   * CanvasSpaceToNormalized as written: each component is divided by the
   * designer size and clamped to [0, size] rather than [0, 1].
   */
  function CanvasSpaceToNormalizedAsWritten(canvas: Vec2, size: IntVec): Vec2
    requires size.x > 0 && size.y > 0
  {
    Vec2(Clamp(Div(canvas.x, size.x as real), 0.0, size.x as real),
         Clamp(Div(canvas.y, size.y as real), 0.0, size.y as real))
  }

  /** The inverse the normalized space calls for: divide, then clamp to [0, 1]. */
  function CanvasSpaceToNormalized(canvas: Vec2, size: IntVec): (r: Vec2)
    requires size.x > 0 && size.y > 0
    ensures 0.0 <= r.x <= 1.0 && 0.0 <= r.y <= 1.0
  {
    Vec2(Clamp(Div(canvas.x, size.x as real), 0.0, 1.0),
         Clamp(Div(canvas.y, size.y as real), 0.0, 1.0))
  }

  predicate InUnitSquare(n: Vec2)
  {
    0.0 <= n.x <= 1.0 && 0.0 <= n.y <= 1.0
  }

  /** A point right of the canvas normalizes, as written, to 2 on a 1920-wide canvas. */
  lemma CanvasBeyondSizeLeavesUnitSquare()
    ensures CanvasSpaceToNormalizedAsWritten(Vec2(3840.0, 540.0), IntVec(1920, 1080)) == Vec2(2.0, 0.5)
    ensures !InUnitSquare(CanvasSpaceToNormalizedAsWritten(Vec2(3840.0, 540.0), IntVec(1920, 1080)))
  {
    assert Div(3840.0, 1920.0) == 2.0;
    assert Div(540.0, 1080.0) == 0.5;
  }

  /** Normalized to canvas and back returns the point, for the code as written (size at least 1). */
  lemma NormalizedRoundTripAsWritten(n: Vec2, size: IntVec)
    requires InUnitSquare(n) && size.x >= 1 && size.y >= 1
    ensures CanvasSpaceToNormalizedAsWritten(NormalizedToCanvasSpace(n, size), size) == n
  {
    MulDivCancel(n.x, size.x as real);
    MulDivCancel(n.y, size.y as real);
  }

  /** Normalized to canvas and back returns the point. */
  lemma NormalizedRoundTrip(n: Vec2, size: IntVec)
    requires InUnitSquare(n) && size.x > 0 && size.y > 0
    ensures CanvasSpaceToNormalized(NormalizedToCanvasSpace(n, size), size) == n
  {
    MulDivCancel(n.x, size.x as real);
    MulDivCancel(n.y, size.y as real);
  }

  /** Canvas to normalized and back returns the point for any point on the canvas. */
  lemma CanvasRoundTrip(c: Vec2, size: IntVec)
    requires size.x > 0 && size.y > 0
    requires 0.0 <= c.x <= size.x as real && 0.0 <= c.y <= size.y as real
    ensures NormalizedToCanvasSpace(CanvasSpaceToNormalized(c, size), size) == c
  {
    DivBackToCanvas(c.x, size.x as real);
    DivBackToCanvas(c.y, size.y as real);
  }

  lemma DivBackToCanvas(c: real, s: real)
    requires s > 0.0 && 0.0 <= c <= s
    ensures 0.0 <= Div(c, s) <= 1.0 && Mul(Div(c, s), s) == c
  {
  }

  // Screen sizes

  /** The designer width for a profile: 1080 times the screen's aspect ratio, rounded down. */
  function ProfileWidth(screenDefinition: Vec2): int
    requires screenDefinition.y != 0.0
  {
    Mul(1080.0, Div(screenDefinition.x, screenDefinition.y)).Floor
  }

  /** The width is the largest integer not above 1080 times the aspect ratio. */
  lemma ProfileWidthMatchesRatio(screenDefinition: Vec2)
    requires screenDefinition.y != 0.0
    ensures var w := ProfileWidth(screenDefinition) as real;
      w <= Mul(1080.0, Div(screenDefinition.x, screenDefinition.y)) < w + 1.0
  {
  }

  /** The 16/9 generic profile gives a 1920 x 1080 designer. */
  lemma Generic169Width()
    ensures ProfileWidth(Vec2(1920.0, 1080.0)) == 1920
  {
    assert Div(1920.0, 1080.0) == 16.0 / 9.0;
    assert Mul(1080.0, 16.0 / 9.0) == 1920.0;
  }

  /**
   * The designer size OnScreenSizeButtonClicked chooses: the profile's
   * width by 1080 when the profile is registered, 1920 by 1080 otherwise,
   * sides exchanged in portrait.
   */
  function ScreenSizeFor(profile: Option<DesignerDeviceProfile>, landscape: bool): (r: IntVec)
    requires profile.Some? ==> profile.value.screenDefinition.y != 0.0
    ensures var h := if landscape then r.y else r.x;
      var w := if landscape then r.x else r.y;
      h == 1080 && w == (if profile.Some? then ProfileWidth(profile.value.screenDefinition) else 1920)
  {
    var width := if profile.Some? then ProfileWidth(profile.value.screenDefinition) else 1920;
    if landscape then IntVec(width, 1080) else IntVec(1080, width)
  }

  /** The zoom after a wheel step: DesignerScale + 0.1 * delta, clamped to [0.1, 2]. */
  function ZoomedScale(scale: real, wheelDelta: real): (r: real)
    ensures 0.1 <= r <= 2.0
    ensures 0.1 <= scale + wheelDelta * 0.1 <= 2.0 ==> r == scale + wheelDelta * 0.1
  {
    Clamp(scale + wheelDelta * 0.1, 0.1, 2.0)
  }

  /** A profile the screen-size menu can switch to: its aspect ratio gives a positive width. */
  predicate UsableProfile(profile: Option<DesignerDeviceProfile>)
  {
    profile.Some? ==> profile.value.screenDefinition.y != 0.0 && ProfileWidth(profile.value.screenDefinition) > 0
  }

  /** A landscape screen definition (width at least a positive height) gives a width of at least 1080. */
  lemma LandscapeProfileWidth(screenDefinition: Vec2)
    requires 0.0 < screenDefinition.y <= screenDefinition.x
    ensures UsableProfile(Some(GenericProfile("", "", "", screenDefinition, "")))
    ensures ProfileWidth(screenDefinition) >= 1080
  {
    var ratio := Div(screenDefinition.x, screenDefinition.y);
    assert ratio >= 1.0 by {
      assert ratio * screenDefinition.y == screenDefinition.x;
    }
    ProfileWidthMatchesRatio(screenDefinition);
  }

  /** Every profile registered at start-up is usable: its screen is landscape with a positive height. */
  lemma InitialProfilesUsable()
    ensures forall k :: 0 <= k < |InitialRegistrations()| ==> UsableProfile(Some(ProfileOf(InitialRegistrations()[k])))
  {
    var regs := InitialRegistrations();
    forall k | 0 <= k < |regs|
      ensures UsableProfile(Some(ProfileOf(regs[k])))
    {
      var d := ProfileOf(regs[k]).screenDefinition;
      assert d == regs[k].screenDefinition;
      assert 0.0 < d.y <= d.x;
      LandscapeProfileWidth(d);
    }
  }

  /** Every entry of a registry holds a usable profile. */
  predicate AllUsable(entries: seq<Entry>)
  {
    forall k :: 0 <= k < |entries| ==> UsableProfile(Some(entries[k].profile))
  }

  /** Registering usable profiles into a registry of usable profiles keeps every entry usable. */
  lemma {:induction false} RegisterAllUsable(entries: seq<Entry>, regs: seq<Registration>)
    requires AllUsable(entries)
    requires forall k :: 0 <= k < |regs| ==> UsableProfile(Some(ProfileOf(regs[k])))
    ensures AllUsable(RegisterAll(entries, regs))
    decreases |regs|
  {
    if regs != [] {
      var init := regs[..|regs| - 1];
      var last := regs[|regs| - 1];
      RegisterAllUsable(entries, init);
      var prev := RegisterAll(entries, init);
      var r := Put(prev, last.deviceName, ProfileOf(last));
      assert UsableProfile(Some(ProfileOf(last)));
      forall k | 0 <= k < |r|
        ensures UsableProfile(Some(r[k].profile))
      {
        if r[k] != Entry(last.deviceName, ProfileOf(last)) {
          var j :| 0 <= j < |prev| && prev[j] == r[k];
        }
      }
    }
  }

  /**
   * After start-up from an empty registry, every device name's lookup meets
   * OnScreenSizeButtonClicked's requirement, so the menu can offer any name.
   */
  lemma StartupLookupUsable(name: string)
    ensures UsableProfile(Find(RegisterAll([], InitialRegistrations()), name))
  {
    InitialProfilesUsable();
    RegisterAllUsable([], InitialRegistrations());
  }

  class DesignerViewport {
    var designerSize: IntVec
    var isInLandscapeMode: bool
    var designerScale: real
    var previousDesignerScale: real
    var activeOpacity: real
    var inactiveOpacity: real
    var opacityInActiveState: bool
    var currentOpacity: real
    var enableDashedOutline: bool
    var designerHasCustomSize: bool
    var customWidth: int
    var customHeight: int
    var currentProfile: Option<DesignerDeviceProfile>
    var currentScaleFactor: Option<real>
    /** The project's touch interface settings (read-only here). */
    var settings: Settings

    /**
     * The designer is at least one unit on each side, the zoom is within
     * its clamp, and the previewed opacity is the one of the current state.
     */
    predicate Valid()
      reads this
    {
      designerSize.x > 0 && designerSize.y > 0 &&
      0.1 <= designerScale <= 2.0 &&
      100 <= customWidth <= 4096 && 100 <= customHeight <= 4096 &&
      currentOpacity == (if opacityInActiveState then activeOpacity else inactiveOpacity)
    }

    /** The scale factor the settings give for a designer size, in the editor. */
    function ScaleFor(size: IntVec, dpiScale: real, customScale: real): Option<real>
      reads this
    {
      GetScaleFactor(settings, AsVector(size), 1.0, true, dpiScale, customScale)
    }

    /**
     * Construct: a 1920 x 1080 landscape designer at zoom 1, showing the
     * active opacity of the edited setup, with the "Generic 16/9" profile.
     */
    constructor(registry: DeviceProfileRegistry, projectSettings: Settings, active: real, inactive: real,
                showDashedOutline: bool, dpiScale: real, customScale: real)
      ensures Valid()
      ensures designerSize == IntVec(1920, 1080) && isInLandscapeMode
      ensures designerScale == 1.0 && previousDesignerScale == 1.0
      ensures activeOpacity == active && inactiveOpacity == inactive
      ensures opacityInActiveState && currentOpacity == active
      ensures enableDashedOutline == showDashedOutline && !designerHasCustomSize
      ensures customWidth == 1920 && customHeight == 1080
      ensures settings == projectSettings
      ensures currentProfile == registry.GetProfile("Generic 16/9")
      ensures currentScaleFactor == GetScaleFactor(projectSettings, Vec2(1920.0, 1080.0), 1.0, true, dpiScale, customScale)
    {
      designerSize := IntVec(1920, 1080);
      isInLandscapeMode := true;
      designerScale := 1.0;
      previousDesignerScale := 1.0;
      activeOpacity := active;
      inactiveOpacity := inactive;
      opacityInActiveState := true;
      currentOpacity := active;
      enableDashedOutline := showDashedOutline;
      designerHasCustomSize := false;
      customWidth := 1920;
      customHeight := 1080;
      settings := projectSettings;
      currentProfile := registry.GetProfile("Generic 16/9");
      currentScaleFactor := GetScaleFactor(projectSettings, Vec2(1920.0, 1080.0), 1.0, true, dpiScale, customScale);
    }

    /** OnMouseWheel: the zoom moves by a tenth of the wheel delta and stays within [0.1, 2]. */
    method OnMouseWheel(wheelDelta: real)
      requires Valid()
      modifies this
      ensures Valid()
      ensures previousDesignerScale == old(designerScale)
      ensures designerScale == ZoomedScale(old(designerScale), wheelDelta)
      ensures designerSize == old(designerSize) && currentOpacity == old(currentOpacity)
      ensures unchanged(this`isInLandscapeMode, this`activeOpacity, this`inactiveOpacity, this`opacityInActiveState)
      ensures unchanged(this`customWidth, this`customHeight, this`currentProfile, this`currentScaleFactor, this`settings)
      ensures unchanged(this`enableDashedOutline, this`designerHasCustomSize)
    {
      previousDesignerScale := designerScale;
      designerScale := ZoomedScale(designerScale, wheelDelta);
    }

    /** ChangeOpacity: new active and inactive opacities; the preview follows the current state. */
    method ChangeOpacity(active: real, inactive: real)
      requires Valid()
      modifies this`activeOpacity, this`inactiveOpacity, this`currentOpacity
      ensures Valid()
      ensures activeOpacity == active && inactiveOpacity == inactive
      ensures currentOpacity == (if opacityInActiveState then active else inactive)
    {
      activeOpacity := active;
      inactiveOpacity := inactive;
      currentOpacity := if opacityInActiveState then active else inactive;
    }

    /** ToggleOpacityState: switches between previewing the active and the inactive opacity. */
    method ToggleOpacityState()
      requires Valid()
      modifies this`opacityInActiveState, this`currentOpacity
      ensures Valid()
      ensures opacityInActiveState == !old(opacityInActiveState)
      ensures currentOpacity == (if old(opacityInActiveState) then inactiveOpacity else activeOpacity)
    {
      opacityInActiveState := !opacityInActiveState;
      currentOpacity := if opacityInActiveState then activeOpacity else inactiveOpacity;
    }

    /** ToggleDashedOutline. */
    method ToggleDashedOutline()
      modifies this`enableDashedOutline
      ensures enableDashedOutline == !old(enableDashedOutline)
    {
      enableDashedOutline := !enableDashedOutline;
    }

    /** ToggleOrientation: exchanges the designer's sides and flips the mode; the scale factor is kept. */
    method ToggleOrientation()
      requires Valid()
      modifies this`designerSize, this`isInLandscapeMode
      ensures Valid()
      ensures designerSize == Swap(old(designerSize))
      ensures isInLandscapeMode == !old(isInLandscapeMode)
    {
      designerSize := Swap(designerSize);
      isInLandscapeMode := !isInLandscapeMode;
    }

    /**
     * OnScreenSizeButtonClicked: switches to a registered profile's size
     * (or the 1920 x 1080 fallback), leaves custom size mode and updates
     * the scale factor.
     */
    method OnScreenSizeButtonClicked(registry: DeviceProfileRegistry, profileName: string, dpiScale: real, customScale: real)
      requires Valid()
      requires UsableProfile(registry.GetProfile(profileName))
      modifies this`designerSize, this`currentProfile, this`designerHasCustomSize, this`currentScaleFactor
      ensures Valid()
      ensures !designerHasCustomSize
      ensures designerSize == ScreenSizeFor(registry.GetProfile(profileName), isInLandscapeMode)
      ensures currentProfile == (if registry.GetProfile(profileName).Some? then registry.GetProfile(profileName) else old(currentProfile))
      ensures currentScaleFactor == ScaleFor(designerSize, dpiScale, customScale)
    {
      designerHasCustomSize := false;
      var found := registry.GetProfile(profileName);
      if found.Some? {
        currentProfile := found;
      }
      designerSize := ScreenSizeFor(found, isInLandscapeMode);
      currentScaleFactor := ScaleFor(designerSize, dpiScale, customScale);
    }

    /** OnCustomScreenSizeButtonClicked and UpdateCustomScreenSize: the custom size, oriented. */
    method UseCustomSize(dpiScale: real, customScale: real)
      requires Valid()
      modifies this`designerSize, this`designerHasCustomSize, this`currentScaleFactor
      ensures Valid()
      ensures designerHasCustomSize
      ensures designerSize == (if isInLandscapeMode then IntVec(customWidth, customHeight) else IntVec(customHeight, customWidth))
      ensures currentScaleFactor == ScaleFor(designerSize, dpiScale, customScale)
    {
      designerHasCustomSize := true;
      designerSize := if isInLandscapeMode then IntVec(customWidth, customHeight) else IntVec(customHeight, customWidth);
      currentScaleFactor := ScaleFor(designerSize, dpiScale, customScale);
    }

    /** SetCustomWidth: the spin box keeps the width within [100, 4096]. */
    method SetCustomWidth(value: int, dpiScale: real, customScale: real)
      requires Valid() && 100 <= value <= 4096
      modifies this`customWidth, this`designerSize, this`currentScaleFactor
      ensures Valid()
      ensures customWidth == value
      ensures designerSize == (if isInLandscapeMode then IntVec(value, customHeight) else IntVec(customHeight, value))
      ensures currentScaleFactor == ScaleFor(designerSize, dpiScale, customScale)
    {
      customWidth := value;
      UpdateCustomScreenSize(dpiScale, customScale);
    }

    /** SetCustomHeight: the spin box keeps the height within [100, 4096]. */
    method SetCustomHeight(value: int, dpiScale: real, customScale: real)
      requires Valid() && 100 <= value <= 4096
      modifies this`customHeight, this`designerSize, this`currentScaleFactor
      ensures Valid()
      ensures customHeight == value
      ensures designerSize == (if isInLandscapeMode then IntVec(customWidth, value) else IntVec(value, customWidth))
      ensures currentScaleFactor == ScaleFor(designerSize, dpiScale, customScale)
    {
      customHeight := value;
      UpdateCustomScreenSize(dpiScale, customScale);
    }

    /** UpdateCustomScreenSize: the designer takes the custom size, oriented; custom mode is not entered. */
    method UpdateCustomScreenSize(dpiScale: real, customScale: real)
      requires 100 <= customWidth <= 4096 && 100 <= customHeight <= 4096
      requires 0.1 <= designerScale <= 2.0
      requires currentOpacity == (if opacityInActiveState then activeOpacity else inactiveOpacity)
      modifies this`designerSize, this`currentScaleFactor
      ensures Valid()
      ensures designerSize == (if isInLandscapeMode then IntVec(customWidth, customHeight) else IntVec(customHeight, customWidth))
      ensures currentScaleFactor == ScaleFor(designerSize, dpiScale, customScale)
    {
      designerSize := if isInLandscapeMode then IntVec(customWidth, customHeight) else IntVec(customHeight, customWidth);
      currentScaleFactor := ScaleFor(designerSize, dpiScale, customScale);
    }
  }
}
