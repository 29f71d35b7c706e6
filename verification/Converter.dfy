/**
 * STouchInterfaceConverter: turns an engine UTouchInterface asset (a list
 * of FTouchInputControl) into virtual controls. Positions given in pixels
 * of a reference screen become normalized; sizes given as fractions of
 * that screen become pixels. The converter widget keeps the conversion
 * settings, which its check boxes and size boxes change.
 *
 * Textures are named by their asset path; the preview widget, the zoom
 * pan and the delegates run on accept or cancel are not modelled.
 */
module TouchInterfaceConverter {
  import opened Common
  import opened VirtualControlTypes

  /** FConvertSettings. */
  datatype ConvertSettings = ConvertSettings(keepImage: bool, isInLandscape: bool, deleteAfterConversion: bool, sizeReference: IntVec)

  /** FConvertSettings(): keep the images, landscape, keep the asset, a 1920 x 1080 reference screen. */
  function DefaultConvertSettings(): (s: ConvertSettings)
    ensures s.keepImage && s.isInLandscape && !s.deleteAfterConversion && s.sizeReference == IntVec(1920, 1080)
  {
    ConvertSettings(true, true, false, IntVec(1920, 1080))
  }

  /** The reference width and height the size boxes allow. */
  predicate SizeInRange(size: IntVec)
  {
    1280 <= size.x <= 2560 && 720 <= size.y <= 1440
  }

  /** The engine's FTouchInputControl, as far as the conversion reads it. */
  datatype TouchInputControl = TouchInputControl(image1: Option<string>, image2: Option<string>, center: Vec2, visualSize: Vec2, thumbSize: Vec2)

  /** The default textures loaded from the designer settings (None when a path is not set). */
  datatype DefaultImages = DefaultImages(backgroundButton: Option<string>, backgroundJoystick: Option<string>, thumbJoystick: Option<string>)

  /** A position component: above 1 it is in pixels and is divided by the reference size; otherwise it is kept. */
  function ResolvePositionComponent(v: real, reference: real): real
    requires reference != 0.0
  {
    if v > 1.0 then Div(v, reference) else v
  }

  /** A size component: above 1 it is in pixels and is kept; otherwise it is scaled by the reference size. */
  function ResolveVisualComponent(v: real, reference: real): real
  {
    if v > 1.0 then v else Mul(v, reference)
  }

  /** ResolvePosition. */
  function ResolvePosition(value: Vec2, reference: IntVec): Vec2
    requires reference.x != 0 && reference.y != 0
  {
    Vec2(ResolvePositionComponent(value.x, reference.x as real), ResolvePositionComponent(value.y, reference.y as real))
  }

  /** ResolveVisual. */
  function ResolveVisual(value: Vec2, reference: IntVec): Vec2
  {
    Vec2(ResolveVisualComponent(value.x, reference.x as real), ResolveVisualComponent(value.y, reference.y as real))
  }

  /**
   * A position on the reference screen, in pixels or already normalized,
   * resolves into [0, 1]; a pixel position above 1 is that position over
   * the reference size.
   */
  lemma ResolvePositionIsNormalized(v: real, reference: real)
    requires reference >= 1.0 && 0.0 <= v <= reference
    ensures 0.0 <= ResolvePositionComponent(v, reference) <= 1.0
    ensures v <= 1.0 ==> ResolvePositionComponent(v, reference) == v
    ensures v > 1.0 ==> Mul(ResolvePositionComponent(v, reference), reference) == v
  {
    if v > 1.0 {
      DivInUnit(v, reference);
    }
  }

  lemma DivInUnit(v: real, reference: real)
    requires reference > 0.0 && 0.0 <= v <= reference
    ensures 0.0 <= Div(v, reference) <= 1.0 && Mul(Div(v, reference), reference) == v
  {
  }

  /**
   * A size resolves to pixels: a fraction of the reference screen becomes
   * that fraction of it, and the result is never below the smaller of the
   * input and the scaled input.
   */
  lemma ResolveVisualIsPixels(v: real, reference: real)
    requires reference >= 1.0 && 0.0 <= v
    ensures v > 1.0 ==> ResolveVisualComponent(v, reference) == v
    ensures v <= 1.0 ==> 0.0 <= ResolveVisualComponent(v, reference) <= reference
    ensures ResolveVisualComponent(v, reference) >= v
  {
    if v <= 1.0 {
      MulFraction(v, reference);
      assert Mul(v, reference) == v * reference;
      assert v * reference - v == v * (reference - 1.0);
      MulNonNegativeReal(v, reference - 1.0);
    }
  }

  /** A pixel position above 1 on the reference screen, resolved and then scaled back, is that position again. */
  lemma PositionThenVisualRoundTrip(v: real, reference: real)
    requires reference >= 1.0 && 1.0 < v <= reference
    ensures ResolveVisualComponent(ResolvePositionComponent(v, reference), reference) == v
  {
    DivInUnit(v, reference);
    if Div(v, reference) > 1.0 {
      assert false;
    }
  }

  /** The layer flags of a converted background (Background | Unpressed | Pressed) and thumb (Thumb | Unpressed | Pressed). */
  const BackgroundLayerType: bv32 := 13
  const ThumbLayerType: bv32 := 14

  /** The converted layers are drawn whether the control is pressed or not. */
  lemma ConvertedLayersAlwaysDrawn()
    ensures Accept(BackgroundLayerType, [Background, Unpressed]) && Accept(BackgroundLayerType, [Background, Pressed])
    ensures Accept(ThumbLayerType, [Thumb, Unpressed]) && Accept(ThumbLayerType, [Thumb, Pressed])
    ensures !Accept(BackgroundLayerType, [Thumb]) && !Accept(ThumbLayerType, [Background])
  {
    assert AllSet(BackgroundLayerType, [Background, Unpressed]) by {
      assert [Background, Unpressed][1..] == [Unpressed];
    }
    assert AllSet(BackgroundLayerType, [Background, Pressed]) by {
      assert [Background, Pressed][1..] == [Pressed];
    }
    assert AllSet(ThumbLayerType, [Thumb, Unpressed]) by {
      assert [Thumb, Unpressed][1..] == [Unpressed];
    }
    assert AllSet(ThumbLayerType, [Thumb, Pressed]) by {
      assert [Thumb, Pressed][1..] == [Pressed];
    }
  }

  /**
   * The layers of a converted control: a joystick (thumb image set) gets a
   * background and a thumb, a button a background only. Kept images take
   * precedence over the default textures.
   */
  function ConvertedLayers(c: TouchInputControl, keepImage: bool, images: DefaultImages): (r: seq<VisualLayer>)
    ensures |r| == (if c.image1.Some? then 2 else 1)
    ensures r[0].layerType == BackgroundLayerType
    ensures c.image1.Some? ==> r[1].layerType == ThumbLayerType
  {
    if keepImage then
      if c.image1.Some? then
        [VisualLayerOfResource(if c.image2.Some? then c.image2 else images.backgroundJoystick, BackgroundLayerType, false, 80.0),
         VisualLayerOfResource(c.image1, ThumbLayerType, false, 80.0)]
      else
        [VisualLayerOfResource(if c.image2.Some? then c.image2 else images.backgroundButton, BackgroundLayerType, false, 80.0)]
    else
      if c.image1.Some? then
        [VisualLayerOfResource(images.backgroundJoystick, BackgroundLayerType, false, 80.0),
         VisualLayerOfResource(images.thumbJoystick, ThumbLayerType, false, 80.0)]
      else
        [VisualLayerOfResource(images.backgroundButton, BackgroundLayerType, false, 80.0)]
  }

  /** One engine control converted: a default control with the resolved centre and sizes, the layers and the type. */
  function ConvertControl(c: TouchInputControl, settings: ConvertSettings, images: DefaultImages): VirtualControl
    requires settings.sizeReference.x != 0 && settings.sizeReference.y != 0
  {
    var d := DefaultControl();
    d.(landscapeCenter := ResolvePosition(c.center, settings.sizeReference),
       visualSize := ResolveVisual(c.visualSize, settings.sizeReference),
       joystick := d.joystick.(thumbSize := ResolveVisual(c.thumbSize, settings.sizeReference)),
       visualLayers := ConvertedLayers(c, settings.keepImage, images),
       controlType := if c.image1.Some? then Joystick else Button)
  }

  /**
   * A control with a thumb image becomes a joystick with two layers, any
   * other a button with one; kept images show the control's own textures.
   */
  lemma ConvertControlShape(c: TouchInputControl, settings: ConvertSettings, images: DefaultImages)
    requires settings.sizeReference.x != 0 && settings.sizeReference.y != 0
    ensures var v := ConvertControl(c, settings, images);
      (v.controlType == Joystick <==> c.image1.Some?) &&
      (v.controlType == Button <==> c.image1.None?) &&
      |v.visualLayers| == (if c.image1.Some? then 2 else 1)
    ensures var v := ConvertControl(c, settings, images);
      settings.keepImage && c.image1.Some? ==> v.visualLayers[1].brush.resource == c.image1
    ensures var v := ConvertControl(c, settings, images);
      settings.keepImage && c.image2.Some? ==> v.visualLayers[0].brush.resource == c.image2
    ensures var v := ConvertControl(c, settings, images);
      v.controlName == DefaultControl().controlName && v.link == NoLink &&
      v.portraitCenter == DefaultControl().portraitCenter
  {
  }

  /** GenerateVirtualControlData: one converted control per engine control, in order. */
  method GenerateVirtualControlData(controls: seq<TouchInputControl>, settings: ConvertSettings, images: DefaultImages)
    returns (r: seq<VirtualControl>)
    requires settings.sizeReference.x != 0 && settings.sizeReference.y != 0
    ensures |r| == |controls|
    ensures forall i :: 0 <= i < |controls| ==> r[i] == ConvertControl(controls[i], settings, images)
  {
    r := [];
    for i := 0 to |controls|
      invariant |r| == i
      invariant forall k :: 0 <= k < i ==> r[k] == ConvertControl(controls[k], settings, images)
    {
      r := r + [ConvertControl(controls[i], settings, images)];
    }
  }

  class Converter {
    var convertSettings: ConvertSettings
    /** SelectedTouchInterface->Controls. */
    var controls: seq<TouchInputControl>
    var images: DefaultImages
    /** The data last handed to the previewer. */
    var previewData: seq<VirtualControl>

    /** The reference size stays within the ranges the size boxes clamp to. */
    predicate Valid()
      reads this
    {
      SizeInRange(convertSettings.sizeReference)
    }

    /** The previewer shows one converted control per control of the asset, with the current settings. */
    predicate PreviewShowsConversion()
      reads this
      requires Valid()
    {
      |previewData| == |controls| &&
      forall i :: 0 <= i < |controls| ==> previewData[i] == ConvertControl(controls[i], convertSettings, images)
    }

    /** Construct: the default settings and the default textures. */
    constructor(selected: seq<TouchInputControl>, defaultImages: DefaultImages)
      ensures Valid()
      ensures convertSettings == DefaultConvertSettings() && controls == selected && images == defaultImages
      ensures previewData == []
    {
      convertSettings := DefaultConvertSettings();
      controls := selected;
      images := defaultImages;
      previewData := [];
    }

    /** UpdatePreviewData: the previewer shows the conversion of the selected asset with the current settings. */
    method UpdatePreviewData()
      requires Valid()
      modifies this`previewData
      ensures PreviewShowsConversion()
    {
      previewData := GenerateVirtualControlData(controls, convertSettings, images);
    }

    /** HandleOnKeepImageSettingChanged. */
    method HandleOnKeepImageSettingChanged(isChecked: bool)
      requires Valid()
      modifies this`convertSettings, this`previewData
      ensures Valid()
      ensures convertSettings == old(convertSettings).(keepImage := isChecked)
      ensures PreviewShowsConversion()
    {
      convertSettings := convertSettings.(keepImage := isChecked);
      UpdatePreviewData();
    }

    /** HandleOnIsInLandscapeSettingChanged. */
    method HandleOnIsInLandscapeSettingChanged(isChecked: bool)
      requires Valid()
      modifies this`convertSettings, this`previewData
      ensures Valid()
      ensures convertSettings == old(convertSettings).(isInLandscape := isChecked)
      ensures PreviewShowsConversion()
    {
      convertSettings := convertSettings.(isInLandscape := isChecked);
      UpdatePreviewData();
    }

    /** HandleOnDeleteAfterConversionSettingChanged: the preview is not refreshed. */
    method HandleOnDeleteAfterConversionSettingChanged(isChecked: bool)
      requires Valid()
      modifies this`convertSettings
      ensures Valid()
      ensures convertSettings == old(convertSettings).(deleteAfterConversion := isChecked)
    {
      convertSettings := convertSettings.(deleteAfterConversion := isChecked);
    }

    /** HandleOnWidthSettingChanged: the width is clamped to [1280, 2560]. */
    method HandleOnWidthSettingChanged(newValue: int)
      requires Valid()
      modifies this`convertSettings, this`previewData
      ensures Valid()
      ensures convertSettings == old(convertSettings).(sizeReference := IntVec(ClampInt(newValue, 1280, 2560), old(convertSettings).sizeReference.y))
      ensures 1280 <= newValue <= 2560 ==> convertSettings.sizeReference.x == newValue
      ensures PreviewShowsConversion()
    {
      convertSettings := convertSettings.(sizeReference := IntVec(ClampInt(newValue, 1280, 2560), convertSettings.sizeReference.y));
      UpdatePreviewData();
    }

    /** HandleOnHeightSettingChanged: the height is clamped to [720, 1440]. */
    method HandleOnHeightSettingChanged(newValue: int)
      requires Valid()
      modifies this`convertSettings, this`previewData
      ensures Valid()
      ensures convertSettings == old(convertSettings).(sizeReference := IntVec(old(convertSettings).sizeReference.x, ClampInt(newValue, 720, 1440)))
      ensures 720 <= newValue <= 1440 ==> convertSettings.sizeReference.y == newValue
      ensures PreviewShowsConversion()
    {
      convertSettings := convertSettings.(sizeReference := IntVec(convertSettings.sizeReference.x, ClampInt(newValue, 720, 1440)));
      UpdatePreviewData();
    }
  }
}
