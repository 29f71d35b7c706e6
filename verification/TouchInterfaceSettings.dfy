/**
 * UTouchInterfaceSettings (TouchInterfaceSettings.cpp): the project
 * settings of the touch interface, and the scale factor applied to the
 * virtual controls for a given viewport size.
 *
 * The engine's desktop DPI curve and a project's custom scaling class
 * are not modelled: the scale each gives for the viewport size is passed
 * in. A float division by zero
 * (a zero layout scale or design width) gives an infinite or NaN scale
 * in the engine; here it gives None.
 */
module TouchInterfaceSettings {
  import opened Common

  /** EScalingMode. */
  datatype ScalingMode = NoScaling | DPI | DesignSize | Custom

  datatype Settings = Settings(
    scalingMode: ScalingMode,
    designWidth: real,
    scaleMultiplier: real,
    /** Whether a custom scaling object is loaded. */
    customScalingLoaded: bool,
    shapeDotDistance: real,
    cornerDetectionThreshold: real,
    maxPoint: int,
    useTimer: bool,
    delayBetweenEndDrawAndComputation: real,
    minMatchingScoreToTriggerEvent: real)

  /** The constructor's defaults. */
  function DefaultSettings(): (s: Settings)
    ensures s.scalingMode == DesignSize && s.designWidth == 1920.0 && s.scaleMultiplier == 1.0
  {
    Settings(DesignSize, 1920.0, 1.0, false, 10.0, 0.6, 30, true, 1.5, 60.0)
  }

  /** 1 in the editor; at runtime 1 / LayoutScale, undoing the DPI scale the engine applies. */
  function UndoDPIScaling(layoutScale: real, inEditorMode: bool): (r: Option<real>)
    ensures r.None? <==> !inEditorMode && layoutScale == 0.0
  {
    if inEditorMode then Some(1.0) else if layoutScale == 0.0 then None else Some(Div(1.0, layoutScale))
  }

  /** The scale before ScaleMultiplier, per scaling mode. */
  function BaseScale(settings: Settings, size: Vec2, layoutScale: real, inEditorMode: bool, dpiScale: real, customScale: real): Option<real>
  {
    match settings.scalingMode
    case NoScaling => UndoDPIScaling(layoutScale, inEditorMode)
    case DesignSize =>
      if settings.designWidth == 0.0 then None
      else
        (match UndoDPIScaling(layoutScale, inEditorMode)
         case None => None
         case Some(undo) => Some(Mul(Div(Max(size.x, size.y), settings.designWidth), undo)))
    case DPI => if inEditorMode then Some(dpiScale) else Some(1.0)
    case Custom =>
      if !settings.customScalingLoaded then Some(1.0)
      else
        match UndoDPIScaling(layoutScale, inEditorMode)
        case None => None
        case Some(undo) => Some(Mul(customScale, undo))
  }

  /** GetScaleFactor: the mode's scale times ScaleMultiplier. */
  function GetScaleFactor(settings: Settings, size: Vec2, layoutScale: real, inEditorMode: bool, dpiScale: real, customScale: real): (r: Option<real>)
    ensures r.None? <==> BaseScale(settings, size, layoutScale, inEditorMode, dpiScale, customScale).None?
  {
    match BaseScale(settings, size, layoutScale, inEditorMode, dpiScale, customScale)
    case None => None
    case Some(scale) => Some(Mul(scale, settings.scaleMultiplier))
  }

  /** Disabled: the multiplier in the editor, the multiplier over LayoutScale at runtime. */
  lemma NoScalingFactor(settings: Settings, size: Vec2, layoutScale: real, dpiScale: real, customScale: real)
    requires settings.scalingMode == NoScaling
    ensures GetScaleFactor(settings, size, layoutScale, true, dpiScale, customScale) == Some(settings.scaleMultiplier)
    ensures layoutScale != 0.0 ==>
      GetScaleFactor(settings, size, layoutScale, false, dpiScale, customScale) == Some(Div(settings.scaleMultiplier, layoutScale))
  {
    MulOne(settings.scaleMultiplier);
    if layoutScale != 0.0 {
      MulByReciprocal(settings.scaleMultiplier, layoutScale);
    }
  }

  /** DesignSize: the larger side over DesignWidth, divided by LayoutScale at runtime, times the multiplier. */
  lemma DesignSizeFactor(settings: Settings, size: Vec2, layoutScale: real, dpiScale: real, customScale: real)
    requires settings.scalingMode == DesignSize && settings.designWidth != 0.0
    ensures GetScaleFactor(settings, size, layoutScale, true, dpiScale, customScale) ==
      Some(Mul(Div(Max(size.x, size.y), settings.designWidth), settings.scaleMultiplier))
    ensures layoutScale != 0.0 ==>
      GetScaleFactor(settings, size, layoutScale, false, dpiScale, customScale) ==
      Some(Mul(Div(Div(Max(size.x, size.y), settings.designWidth), layoutScale), settings.scaleMultiplier))
  {
    var w := Div(Max(size.x, size.y), settings.designWidth);
    MulOne(w);
    if layoutScale != 0.0 {
      MulByReciprocal(w, layoutScale);
    }
  }

  /** Custom with no loaded class, and DPI at runtime, give the multiplier; DPI in the editor scales it by the DPI curve. */
  lemma CustomAndDPIFactor(settings: Settings, size: Vec2, layoutScale: real, dpiScale: real, customScale: real)
    ensures settings.scalingMode == Custom && !settings.customScalingLoaded ==>
      GetScaleFactor(settings, size, layoutScale, true, dpiScale, customScale) == Some(settings.scaleMultiplier) &&
      GetScaleFactor(settings, size, layoutScale, false, dpiScale, customScale) == Some(settings.scaleMultiplier)
    ensures settings.scalingMode == DPI ==>
      GetScaleFactor(settings, size, layoutScale, false, dpiScale, customScale) == Some(settings.scaleMultiplier) &&
      GetScaleFactor(settings, size, layoutScale, true, dpiScale, customScale) == Some(Mul(dpiScale, settings.scaleMultiplier))
  {
    MulOne(settings.scaleMultiplier);
  }

  /** ScaleMultiplier scales the result linearly, in every mode. */
  lemma ScaleMultiplierIsLinear(settings: Settings, k: real, size: Vec2, layoutScale: real, inEditorMode: bool, dpiScale: real, customScale: real)
    ensures var scaled := settings.(scaleMultiplier := Mul(k, settings.scaleMultiplier));
      match GetScaleFactor(settings, size, layoutScale, inEditorMode, dpiScale, customScale)
      case None => GetScaleFactor(scaled, size, layoutScale, inEditorMode, dpiScale, customScale).None?
      case Some(s) => GetScaleFactor(scaled, size, layoutScale, inEditorMode, dpiScale, customScale) == Some(Mul(k, s))
  {
    var scaled := settings.(scaleMultiplier := Mul(k, settings.scaleMultiplier));
    assert BaseScale(scaled, size, layoutScale, inEditorMode, dpiScale, customScale) == BaseScale(settings, size, layoutScale, inEditorMode, dpiScale, customScale);
    match BaseScale(settings, size, layoutScale, inEditorMode, dpiScale, customScale)
    case None =>
    case Some(b) =>
      MulAssoc(b, k, settings.scaleMultiplier);
      MulAssoc(k, b, settings.scaleMultiplier);
  }

  /**
   * Outside the DPI mode, the runtime factor is the editor factor divided
   * by LayoutScale; in the editor the layout scale plays no part.
   */
  lemma RuntimeUndoesLayoutScale(settings: Settings, size: Vec2, layoutScale: real, other: real, dpiScale: real, customScale: real)
    requires settings.scalingMode != DPI && layoutScale != 0.0
    ensures GetScaleFactor(settings, size, other, true, dpiScale, customScale) == GetScaleFactor(settings, size, layoutScale, true, dpiScale, customScale)
    ensures var editor := GetScaleFactor(settings, size, layoutScale, true, dpiScale, customScale);
      var runtime := GetScaleFactor(settings, size, layoutScale, false, dpiScale, customScale);
      (runtime.Some? <==> editor.Some?) &&
      (settings.scalingMode == Custom && !settings.customScalingLoaded ==> runtime == editor) &&
      (!(settings.scalingMode == Custom && !settings.customScalingLoaded) && editor.Some? ==>
        runtime.value == Div(editor.value, layoutScale))
    ensures settings.scalingMode == DesignSize && settings.designWidth == 0.0 ==>
      GetScaleFactor(settings, size, layoutScale, true, dpiScale, customScale).None?
  {
    var m := settings.scaleMultiplier;
    var inv := Div(1.0, layoutScale);
    match settings.scalingMode
    case NoScaling =>
      MulOne(m);
      MulByReciprocal(m, layoutScale);
    case DesignSize =>
      if settings.designWidth != 0.0 {
        var w := Div(Max(size.x, size.y), settings.designWidth);
        MulOne(w);
        MulByReciprocal(w, layoutScale);
        DivThenMul(w, layoutScale, m);
      }
    case Custom =>
      if settings.customScalingLoaded {
        var c := customScale;
        MulOne(c);
        MulAssoc(c, inv, m);
        MulAssoc(inv, c, m);
        MulByReciprocal(Mul(c, m), layoutScale);
      }
  }

  /**
   * PostEditChangeProperty on ScalingMode: switching to Custom loads the
   * custom scaling class when it can be found (and drops the instance when
   * it cannot); any other mode drops the instance.
   */
  function OnScalingModeChanged(settings: Settings, classFound: bool): (r: Settings)
    ensures r.customScalingLoaded <==> r.scalingMode == Custom && classFound
    ensures r == settings.(customScalingLoaded := r.customScalingLoaded)
  {
    if settings.scalingMode == Custom then settings.(customScalingLoaded := classFound)
    else settings.(customScalingLoaded := false)
  }

  /** After the handler, Custom mode with no class found scales by the multiplier alone. */
  lemma MissingCustomClassFallsBack(settings: Settings, size: Vec2, layoutScale: real, inEditorMode: bool, dpiScale: real, customScale: real)
    requires settings.scalingMode == Custom
    ensures GetScaleFactor(OnScalingModeChanged(settings, false), size, layoutScale, inEditorMode, dpiScale, customScale) ==
      Some(settings.scaleMultiplier)
  {
    MulOne(settings.scaleMultiplier);
  }

  /** With the default settings, a 1920-wide design surface in the editor gets scale 1. */
  lemma DefaultDesignScale(size: Vec2, dpiScale: real, customScale: real)
    requires Max(size.x, size.y) == 1920.0
    ensures GetScaleFactor(DefaultSettings(), size, 1.0, true, dpiScale, customScale) == Some(1.0)
  {
  }
}
