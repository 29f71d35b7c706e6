/**
 * The list logic of FRasterImporterUI: the material-layer list rebuilt from
 * the landscape material, the landcover (landuse) entries added to the
 * dummy list and to every layer, the interactable/weight-blended flags set
 * when the user changes a landuse selection, and the two mutually exclusive
 * satellite-image check boxes.
 *
 * The widgets, and the shared pointers through which the source edits the
 * layers, are not modelled: layers and landuse entries are values.
 */
module RasterImporterUI {
  import opened Common
  import opened LandscapingStructs

  /** The landuse types of a landuse list, in order. */
  function Types(list: seq<Landuse>): (ts: seq<string>)
    ensures |ts| == |list|
    ensures forall i :: 0 <= i < |list| ==> ts[i] == list[i].landuseType
  {
    seq(|list|, i requires 0 <= i < |list| => list[i].landuseType)
  }

  /**
   * A fresh landuse entry for type `t`: inactive and interactable, except
   * that in a layer (`layerName` present) it is active when the layer's
   * name equals the type ignoring case.
   */
  function NewLanduse(t: string, layerName: Option<string>): Landuse
  {
    Landuse(t, layerName.Some? && EqualsIgnoreCase(layerName.value, t), true)
  }

  /**
   * The list after going through `types` and appending an entry for each
   * type the list does not hold yet (compared case-sensitively), skipping
   * empty types when `skipEmpty` holds.
   */
  function AppendMissing(list: seq<Landuse>, types: seq<string>, skipEmpty: bool, layerName: Option<string>): (r: seq<Landuse>)
    ensures |list| <= |r| && r[..|list|] == list
    decreases |types|
  {
    if types == [] then list
    else
      var prev := AppendMissing(list, types[..|types| - 1], skipEmpty, layerName);
      var t := types[|types| - 1];
      if (skipEmpty && t == "") || t in Types(prev) then prev else prev + [NewLanduse(t, layerName)]
  }

  /** The appended entries: the old list is kept as a prefix, and every new entry is fresh for a listed type. */
  lemma {:induction false} AppendMissingExtends(list: seq<Landuse>, types: seq<string>, skipEmpty: bool, layerName: Option<string>)
    ensures var r := AppendMissing(list, types, skipEmpty, layerName);
      && |list| <= |r| && r[..|list|] == list
      && forall k :: |list| <= k < |r| ==>
        && r[k] == NewLanduse(r[k].landuseType, layerName)
        && r[k].landuseType in types
        && !(skipEmpty && r[k].landuseType == "")
    decreases |types|
  {
    if types != [] {
      var init := types[..|types| - 1];
      AppendMissingExtends(list, init, skipEmpty, layerName);
      assert forall t :: t in init ==> t in types;
    }
  }

  /** Every listed type (other than a skipped empty one) is in the list afterwards. */
  lemma {:induction false} AppendMissingCovers(list: seq<Landuse>, types: seq<string>, skipEmpty: bool, layerName: Option<string>)
    ensures forall t :: t in types && !(skipEmpty && t == "") ==> t in Types(AppendMissing(list, types, skipEmpty, layerName))
    decreases |types|
  {
    if types != [] {
      var init := types[..|types| - 1];
      AppendMissingCovers(list, init, skipEmpty, layerName);
      var prev := AppendMissing(list, init, skipEmpty, layerName);
      var r := AppendMissing(list, types, skipEmpty, layerName);
      assert Types(r)[..|prev|] == Types(prev);
      forall t | t in types && !(skipEmpty && t == "")
        ensures t in Types(r)
      {
        if t in init {
          var k :| 0 <= k < |prev| && Types(prev)[k] == t;
          assert Types(r)[k] == t;
        } else {
          assert types == init + [types[|types| - 1]];
          assert t == types[|types| - 1];
          if t !in Types(prev) {
            assert Types(r)[|prev|] == t;
          }
        }
      }
    }
  }

  /** A list without repeated types keeps that property. */
  lemma {:induction false} AppendMissingNoDuplicates(list: seq<Landuse>, types: seq<string>, skipEmpty: bool, layerName: Option<string>)
    requires NoDuplicates(Types(list))
    ensures NoDuplicates(Types(AppendMissing(list, types, skipEmpty, layerName)))
    decreases |types|
  {
    if types != [] {
      var init := types[..|types| - 1];
      AppendMissingNoDuplicates(list, init, skipEmpty, layerName);
      var prev := AppendMissing(list, init, skipEmpty, layerName);
      var t := types[|types| - 1];
      if !((skipEmpty && t == "") || t in Types(prev)) {
        var r := prev + [NewLanduse(t, layerName)];
        assert Types(r) == Types(prev) + [t];
      }
    }
  }

  /** The dummy list after UpdateLandcoverTypes: non-empty types not yet listed are appended. */
  function AddDummies(list: seq<Landuse>, types: seq<string>): seq<Landuse>
  {
    AppendMissing(list, types, true, None)
  }

  /** A layer after UpdateLandcoverTypes: weight-blended iff it is the default layer, or an entry added for it is active. */
  function UpdatedLayer(layer: MaterialLayerSettings, types: seq<string>, defaultName: string): MaterialLayerSettings
  {
    var list := AppendMissing(layer.landuseList, types, false, Some(layer.name));
    layer.(weightBlended := layer.name == defaultName || exists k :: |layer.landuseList| <= k < |list| && list[k].active,
           landuseList := list)
  }

  /**
   * The dummy list gains each non-empty landcover type exactly when it
   * lacks it, as an inactive, interactable entry, and never holds a type
   * twice if it did not before.
   */
  lemma DummyRule(list: seq<Landuse>, types: seq<string>)
    ensures var r := AddDummies(list, types);
      && r[..|list|] == list
      && (forall t :: t in types && t != "" ==> t in Types(r))
      && (forall k :: |list| <= k < |r| ==> r[k] == Landuse(r[k].landuseType, false, true) && r[k].landuseType in types && r[k].landuseType != "")
      && (NoDuplicates(Types(list)) ==> NoDuplicates(Types(r)))
  {
    AppendMissingExtends(list, types, true, None);
    AppendMissingCovers(list, types, true, None);
    if NoDuplicates(Types(list)) {
      AppendMissingNoDuplicates(list, types, true, None);
    }
  }

  /**
   * A layer gains an entry for each landcover type it lacks; a new entry is
   * active iff the layer name equals the type ignoring case, and the layer
   * is weight-blended iff it is the default layer or a new entry is active.
   */
  lemma LayerRule(layer: MaterialLayerSettings, types: seq<string>, defaultName: string)
    ensures var r := UpdatedLayer(layer, types, defaultName);
      var n := |layer.landuseList|;
      && r.name == layer.name && r.landuseList[..n] == layer.landuseList
      && (forall t :: t in types ==> t in Types(r.landuseList))
      && (forall k :: n <= k < |r.landuseList| ==>
            var l := r.landuseList[k];
            l.interactable && l.landuseType in types && (l.active <==> EqualsIgnoreCase(layer.name, l.landuseType)))
      && (r.weightBlended <==> layer.name == defaultName || exists k :: n <= k < |r.landuseList| && r.landuseList[k].active)
      && (NoDuplicates(Types(layer.landuseList)) ==> NoDuplicates(Types(r.landuseList)))
  {
    var list := layer.landuseList;
    var r := UpdatedLayer(layer, types, defaultName);
    AppendMissingExtends(list, types, false, Some(layer.name));
    AppendMissingCovers(list, types, false, Some(layer.name));
    if NoDuplicates(Types(list)) {
      AppendMissingNoDuplicates(list, types, false, Some(layer.name));
    }
  }

  /**
   * The landuse types active in a landuse list, as keys of the engine's
   * string map, which compares them ignoring case (upper-cased here).
   */
  function ActiveIn(list: seq<Landuse>): set<string>
  {
    set j | 0 <= j < |list| && list[j].active :: ToUpper(list[j].landuseType)
  }

  /** The keys of the landuse types active in some layer. */
  function ActiveTypes(layers: seq<MaterialLayerSettings>): set<string>
    decreases |layers|
  {
    if layers == [] then {}
    else ActiveTypes(layers[..|layers| - 1]) + ActiveIn(layers[|layers| - 1].landuseList)
  }

  lemma {:induction false} ActiveTypesIff(layers: seq<MaterialLayerSettings>, t: string)
    ensures t in ActiveTypes(layers) <==>
      exists i, j :: 0 <= i < |layers| && 0 <= j < |layers[i].landuseList| &&
        layers[i].landuseList[j].active && ToUpper(layers[i].landuseList[j].landuseType) == t
    decreases |layers|
  {
    if layers != [] {
      var n := |layers| - 1;
      var init := layers[..n];
      ActiveTypesIff(init, t);
      if t in ActiveTypes(layers) {
        if t !in ActiveTypes(init) {
          var j :| 0 <= j < |layers[n].landuseList| && layers[n].landuseList[j].active && ToUpper(layers[n].landuseList[j].landuseType) == t;
        }
      }
      if exists i, j :: 0 <= i < |layers| && 0 <= j < |layers[i].landuseList| &&
          layers[i].landuseList[j].active && ToUpper(layers[i].landuseList[j].landuseType) == t {
        var i, j :| 0 <= i < |layers| && 0 <= j < |layers[i].landuseList| &&
          layers[i].landuseList[j].active && ToUpper(layers[i].landuseList[j].landuseType) == t;
        if i < n {
          assert init[i] == layers[i];
        }
      }
    }
  }

  /** An entry after a selection change: non-interactable iff its type is active elsewhere and it is inactive. */
  function SelectedLanduse(l: Landuse, active: set<string>): Landuse
  {
    l.(interactable := !(ToUpper(l.landuseType) in active && !l.active))
  }

  function SelectedLayer(layer: MaterialLayerSettings, active: set<string>): MaterialLayerSettings
  {
    var list := layer.landuseList;
    layer.(landuseList := seq(|list|, j requires 0 <= j < |list| => SelectedLanduse(list[j], active)),
           weightBlended := layer.weightBlended || exists j :: 0 <= j < |list| && list[j].active)
  }

  /** The layer list after UpdateOnLanduseSelectionChanged. */
  function SelectAll(layers: seq<MaterialLayerSettings>): seq<MaterialLayerSettings>
  {
    var active := ActiveTypes(layers);
    seq(|layers|, i requires 0 <= i < |layers| => SelectedLayer(layers[i], active))
  }

  lemma {:induction false} SelectedKeepsActive(layers: seq<MaterialLayerSettings>, active: set<string>)
    ensures ActiveTypes(seq(|layers|, i requires 0 <= i < |layers| => SelectedLayer(layers[i], active))) == ActiveTypes(layers)
    decreases |layers|
  {
    if layers != [] {
      var n := |layers| - 1;
      var r := seq(|layers|, i requires 0 <= i < |layers| => SelectedLayer(layers[i], active));
      SelectedKeepsActive(layers[..n], active);
      assert r[..n] == seq(n, i requires 0 <= i < n => SelectedLayer(layers[..n][i], active));
      assert ActiveIn(r[n].landuseList) == ActiveIn(layers[n].landuseList) by {
        var a := r[n].landuseList;
        var b := layers[n].landuseList;
        assert forall j :: 0 <= j < |a| ==> a[j].active == b[j].active && a[j].landuseType == b[j].landuseType;
      }
    }
  }

  /**
   * After a selection change, a landuse active in any layer is
   * non-interactable wherever it is inactive, every other entry is
   * interactable, and a layer holding an active entry is weight-blended.
   */
  lemma SelectionRule(layers: seq<MaterialLayerSettings>)
    ensures var r := SelectAll(layers);
      && |r| == |layers|
      && forall i :: 0 <= i < |r| ==>
        && r[i].name == layers[i].name
        && |r[i].landuseList| == |layers[i].landuseList|
        && (forall j :: 0 <= j < |r[i].landuseList| ==>
              var l := r[i].landuseList[j];
              && l.landuseType == layers[i].landuseList[j].landuseType
              && l.active == layers[i].landuseList[j].active
              && (l.interactable <==> l.active || ToUpper(l.landuseType) !in ActiveTypes(r))
              && (l.active ==> r[i].weightBlended))
        && (layers[i].weightBlended ==> r[i].weightBlended)
  {
    SelectedKeepsActive(layers, ActiveTypes(layers));
  }

  /** Changing the selection twice in a row changes nothing the second time. */
  lemma SelectAllIdempotent(layers: seq<MaterialLayerSettings>)
    ensures SelectAll(SelectAll(layers)) == SelectAll(layers)
  {
    var r := SelectAll(layers);
    SelectedKeepsActive(layers, ActiveTypes(layers));
    var rr := SelectAll(r);
    forall i | 0 <= i < |r|
      ensures rr[i] == r[i]
    {
      assert rr[i].landuseList == r[i].landuseList;
    }
  }

  /** The satellite image is never imported both as decal and as vertex colour. */
  predicate SatelliteChoiceExclusive(o: RasterImportOptions)
  {
    !(o.importSatImgAsDecal && o.importSatImgAsVertexColor)
  }

  /** The layer/landuse state of the raster import panel. */
  class RasterImporterUI {
    var layerDataList: seq<MaterialLayerSettings>
    var materialLayers: seq<string>
    var defaultLayer: Option<string>
    var availableLandcoverTypes: seq<string>
    var dummyLanduseList: seq<Landuse>
    /** The material layers handed to the GIS file manager. */
    var managerMaterialLayers: seq<string>
    /** The layer list handed to the landscaping infos actor. */
    var infosLayerDataList: seq<MaterialLayerSettings>
    var importOptions: RasterImportOptions

    constructor(landcoverTypes: seq<string>)
      ensures layerDataList == [] && materialLayers == [] && defaultLayer == None
      ensures availableLandcoverTypes == landcoverTypes && dummyLanduseList == []
      ensures managerMaterialLayers == [] && infosLayerDataList == []
      ensures importOptions == DefaultImportOptions && SatelliteChoiceExclusive(importOptions)
    {
      layerDataList := [];
      materialLayers := [];
      defaultLayer := None;
      availableLandcoverTypes := landcoverTypes;
      dummyLanduseList := [];
      managerMaterialLayers := [];
      infosLayerDataList := [];
      importOptions := DefaultImportOptions;
    }

    /**
     * UpdateLayerList: one fresh layer per material layer name, in order;
     * the first name becomes the default layer. All earlier landuse
     * mappings are dropped.
     */
    method UpdateLayerList(layerNames: seq<string>)
      modifies this
      ensures |layerDataList| == |layerNames| && materialLayers == layerNames
      ensures forall i :: 0 <= i < |layerNames| ==> layerDataList[i] == NewLayerSettings(layerNames[i])
      ensures layerNames != [] ==> defaultLayer == Some(layerNames[0]) && managerMaterialLayers == layerNames
      ensures layerNames == [] ==> defaultLayer == old(defaultLayer) && managerMaterialLayers == old(managerMaterialLayers)
      ensures availableLandcoverTypes == old(availableLandcoverTypes) && dummyLanduseList == old(dummyLanduseList)
      ensures infosLayerDataList == old(infosLayerDataList) && importOptions == old(importOptions)
    {
      layerDataList := [];
      materialLayers := [];
      var i := 0;
      while i < |layerNames|
        invariant 0 <= i <= |layerNames|
        invariant |layerDataList| == i && materialLayers == layerNames[..i]
        invariant forall k :: 0 <= k < i ==> layerDataList[k] == NewLayerSettings(layerNames[k])
        invariant defaultLayer == old(defaultLayer) && managerMaterialLayers == old(managerMaterialLayers)
        invariant availableLandcoverTypes == old(availableLandcoverTypes) && dummyLanduseList == old(dummyLanduseList)
        invariant infosLayerDataList == old(infosLayerDataList) && importOptions == old(importOptions)
      {
        layerDataList := layerDataList + [NewLayerSettings(layerNames[i])];
        materialLayers := materialLayers + [layerNames[i]];
        i := i + 1;
      }
      assert materialLayers == layerNames;
      if |materialLayers| > 0 {
        defaultLayer := Some(materialLayers[0]);
        managerMaterialLayers := materialLayers;
      }
    }

    /** The name UpdateLandcoverTypes compares layer names with: the default layer's, or "" when there is none. */
    function DefaultLayerName(): string
      reads this
    {
      if defaultLayer.Some? then defaultLayer.value else ""
    }

    /**
     * UpdateLandcoverTypes: the dummy list gains each non-empty landcover
     * type it lacks; every layer gains an entry for each landcover type it
     * lacks and has its weight-blended flag recomputed.
     */
    method UpdateLandcoverTypes()
      modifies this
      ensures dummyLanduseList == AddDummies(old(dummyLanduseList), availableLandcoverTypes)
      ensures |layerDataList| == |old(layerDataList)|
      ensures forall i :: 0 <= i < |layerDataList| ==>
        layerDataList[i] == UpdatedLayer(old(layerDataList)[i], availableLandcoverTypes, DefaultLayerName())
      ensures availableLandcoverTypes == old(availableLandcoverTypes) && defaultLayer == old(defaultLayer)
      ensures materialLayers == old(materialLayers) && managerMaterialLayers == old(managerMaterialLayers)
      ensures infosLayerDataList == old(infosLayerDataList) && importOptions == old(importOptions)
    {
      var dummies := AppendAll(dummyLanduseList, availableLandcoverTypes, true, None);
      var layers := layerDataList;
      var defaultName := DefaultLayerName();
      var i := 0;
      while i < |layers|
        invariant 0 <= i <= |layers| && |layers| == |old(layerDataList)|
        invariant forall k :: 0 <= k < i ==> layers[k] == UpdatedLayer(old(layerDataList)[k], availableLandcoverTypes, defaultName)
        invariant forall k :: i <= k < |layers| ==> layers[k] == old(layerDataList)[k]
        invariant unchanged(this)
      {
        var layer := UpdateLayer(layers[i], availableLandcoverTypes, defaultName);
        layers := layers[i := layer];
        i := i + 1;
      }
      dummyLanduseList := dummies;
      layerDataList := layers;
    }

    /**
     * UpdateOnLanduseSelectionChanged: collects the active landuse types,
     * then marks each entry interactable unless its type is active
     * somewhere and it is not, and weight-blends each layer with an
     * active entry. The result is handed to the infos actor.
     */
    method UpdateOnLanduseSelectionChanged()
      modifies this
      ensures layerDataList == SelectAll(old(layerDataList))
      ensures infosLayerDataList == layerDataList
      ensures availableLandcoverTypes == old(availableLandcoverTypes) && defaultLayer == old(defaultLayer)
      ensures dummyLanduseList == old(dummyLanduseList) && materialLayers == old(materialLayers)
      ensures managerMaterialLayers == old(managerMaterialLayers) && importOptions == old(importOptions)
    {
      var layers := layerDataList;
      var active := CollectActive(layers);
      var i := 0;
      while i < |layers|
        invariant 0 <= i <= |layers| && |layers| == |old(layerDataList)|
        invariant forall k :: 0 <= k < i ==> layers[k] == SelectedLayer(old(layerDataList)[k], active)
        invariant forall k :: i <= k < |layers| ==> layers[k] == old(layerDataList)[k]
        invariant unchanged(this)
      {
        var layer := SelectLayer(layers[i], active);
        layers := layers[i := layer];
        i := i + 1;
      }
      layerDataList := layers;
      infosLayerDataList := layers;
    }

    /** The decal check box: checking it clears the vertex-colour choice. */
    method SetImportAsDecal(checked: bool)
      modifies this`importOptions
      ensures importOptions.importSatImgAsDecal == checked
      ensures importOptions.importSatImgAsVertexColor == (old(importOptions).importSatImgAsVertexColor && !checked)
      ensures importOptions == old(importOptions).(importSatImgAsDecal := importOptions.importSatImgAsDecal,
                                                   importSatImgAsVertexColor := importOptions.importSatImgAsVertexColor)
      ensures SatelliteChoiceExclusive(old(importOptions)) ==> SatelliteChoiceExclusive(importOptions)
      ensures checked ==> SatelliteChoiceExclusive(importOptions)
    {
      importOptions := importOptions.(importSatImgAsDecal := checked);
      if importOptions.importSatImgAsDecal {
        importOptions := importOptions.(importSatImgAsVertexColor := false);
      }
    }

    /** The vertex-colour check box: checking it clears the decal choice. */
    method SetImportAsVertexColor(checked: bool)
      modifies this`importOptions
      ensures importOptions.importSatImgAsVertexColor == checked
      ensures importOptions.importSatImgAsDecal == (old(importOptions).importSatImgAsDecal && !checked)
      ensures importOptions == old(importOptions).(importSatImgAsDecal := importOptions.importSatImgAsDecal,
                                                   importSatImgAsVertexColor := importOptions.importSatImgAsVertexColor)
      ensures SatelliteChoiceExclusive(old(importOptions)) ==> SatelliteChoiceExclusive(importOptions)
      ensures checked ==> SatelliteChoiceExclusive(importOptions)
    {
      importOptions := importOptions.(importSatImgAsVertexColor := checked);
      if importOptions.importSatImgAsVertexColor {
        importOptions := importOptions.(importSatImgAsDecal := false);
      }
    }
  }

  /** The search loop: does the list hold an entry of type t (compared case-sensitively)? */
  method HasType(list: seq<Landuse>, t: string) returns (found: bool)
    ensures found <==> t in Types(list)
  {
    found := false;
    var k := 0;
    while k < |list|
      invariant 0 <= k <= |list|
      invariant !found ==> forall m :: 0 <= m < k ==> list[m].landuseType != t
      invariant found ==> t in Types(list)
      decreases |list| - k, !found
    {
      found := list[k].landuseType == t;
      if found {
        break;
      }
      k := k + 1;
    }
  }

  /** The append loop shared by the dummy list and the layers' landuse lists. */
  method AppendAll(list: seq<Landuse>, types: seq<string>, skipEmpty: bool, layerName: Option<string>) returns (r: seq<Landuse>)
    ensures r == AppendMissing(list, types, skipEmpty, layerName)
  {
    r := list;
    var i := 0;
    while i < |types|
      invariant 0 <= i <= |types|
      invariant r == AppendMissing(list, types[..i], skipEmpty, layerName)
    {
      assert types[..i + 1][..i] == types[..i];
      var t := types[i];
      if !(skipEmpty && t == "") {
        var found := HasType(r, t);
        if !found {
          r := r + [NewLanduse(t, layerName)];
        }
      }
      i := i + 1;
    }
    assert types[..|types|] == types;
  }

  /** The body of UpdateLandcoverTypes' layer loop, for one layer. */
  method UpdateLayer(layer0: MaterialLayerSettings, types: seq<string>, defaultName: string) returns (layer: MaterialLayerSettings)
    ensures layer == UpdatedLayer(layer0, types, defaultName)
  {
    layer := layer0.(weightBlended := layer0.name == defaultName);
    var list := AppendAll(layer.landuseList, types, false, Some(layer.name));
    var n := |layer0.landuseList|;
    var k := n;
    while k < |list|
      invariant n <= k <= |list|
      invariant layer == layer0.(weightBlended := layer.weightBlended)
      invariant layer.weightBlended == (layer0.name == defaultName || exists m :: n <= m < k && list[m].active)
    {
      if list[k].active {
        layer := layer.(weightBlended := true);
      }
      k := k + 1;
    }
    layer := layer.(landuseList := list);
  }

  /** The first loop of UpdateOnLanduseSelectionChanged: the types active in some layer. */
  method CollectActive(layers: seq<MaterialLayerSettings>) returns (active: set<string>)
    ensures active == ActiveTypes(layers)
  {
    active := {};
    var i := 0;
    while i < |layers|
      invariant 0 <= i <= |layers|
      invariant active == ActiveTypes(layers[..i])
    {
      assert layers[..i + 1][..i] == layers[..i];
      var list := layers[i].landuseList;
      ghost var before := active;
      var j := 0;
      while j < |list|
        invariant 0 <= j <= |list|
        invariant active == before + ActiveIn(list[..j])
      {
        assert forall m :: 0 <= m < j ==> list[..j + 1][m] == list[..j][m];
        if list[j].active {
          active := active + {ToUpper(list[j].landuseType)};
        }
        assert ActiveIn(list[..j + 1]) == ActiveIn(list[..j]) + (if list[j].active then {ToUpper(list[j].landuseType)} else {});
        j := j + 1;
      }
      assert list[..|list|] == list;
      i := i + 1;
    }
    assert layers[..|layers|] == layers;
  }

  /** The second loop of UpdateOnLanduseSelectionChanged, for one layer. */
  method SelectLayer(layer: MaterialLayerSettings, active: set<string>) returns (r: MaterialLayerSettings)
    ensures r == SelectedLayer(layer, active)
  {
    r := layer;
    var list := layer.landuseList;
    var j := 0;
    while j < |list|
      invariant 0 <= j <= |list| && |list| == |layer.landuseList|
      invariant r.name == layer.name && r.data == layer.data && r.tiling == layer.tiling
      invariant r.minWeight == layer.minWeight && r.noise == layer.noise && r.landuseList == layer.landuseList
      invariant forall m :: 0 <= m < j ==> list[m] == SelectedLanduse(layer.landuseList[m], active)
      invariant forall m :: j <= m < |list| ==> list[m] == layer.landuseList[m]
      invariant r.weightBlended == (layer.weightBlended || exists m :: 0 <= m < j && layer.landuseList[m].active)
    {
      var l := list[j];
      if ToUpper(l.landuseType) in active && !l.active {
        l := l.(interactable := false);
      } else {
        l := l.(interactable := true);
      }
      if l.active {
        r := r.(weightBlended := true);
      }
      list := list[j := l];
      j := j + 1;
    }
    r := r.(landuseList := list);
  }
}
