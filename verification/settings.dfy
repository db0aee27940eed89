/** The settings the tag/layer decorator reads each frame, and the three
    per-frame hooks that turn them into visibility flags, a layout
    orientation and a grid width. */
module TagLayerSettings {

  /** How the tag and layer labels share a row. The four named cases are the
      ones the area computation switches on; any other value of the host's
      enum is `OtherLayout`. */
  datatype Layout = TagInFront | LayerInfront | TagAbove | LayerAbove | OtherLayout

  /** The global part of the settings that this decorator reads. */
  datatype GlobalData = GlobalData(
    showTags: bool,
    showLayers: bool,
    applyChildLayers: bool,
    tagLayerLayout: Layout)

  /** The display flags of the style collection. They take effect only for an
      object that has a style. */
  datatype StyleData = StyleData(displayTags: bool, displayLayers: bool)

  datatype Settings = Settings(globalData: GlobalData, styleData: StyleData)

  /** What `OnDrawInit` stores for the frame. */
  datatype DrawInit = DrawInit(setChildLayers: bool, isVertical: bool)

  /** What `DrawerIsEnabled` stores for the frame, and its verdict. */
  datatype Visibility = Visibility(tagEnabled: bool, layerEnabled: bool, hasStyle: bool, enabled: bool)
  {
    predicate BothShown() { tagEnabled && layerEnabled }
  }

  /** The labels are stacked when one of them is placed above the other. */
  predicate IsVerticalLayout(layout: Layout)
  {
    layout == TagAbove || layout == LayerAbove
  }

  function OnDrawInit(settings: Settings): (r: DrawInit)
    ensures r.setChildLayers == settings.globalData.applyChildLayers
    ensures r.isVertical <==> settings.globalData.tagLayerLayout in {TagAbove, LayerAbove}
    ensures !r.isVertical <==> settings.globalData.tagLayerLayout in {TagInFront, LayerInfront, OtherLayout}
  {
    DrawInit(settings.globalData.applyChildLayers, IsVerticalLayout(settings.globalData.tagLayerLayout))
  }

  /** Resolves the frame's visibility. `hasStyle` is the answer of the host's
      style lookup for the object's name. A style can switch a global flag off
      but never on; the decorator is active iff some label survives. */
  function DrawerIsEnabled(settings: Settings, hasStyle: bool): (r: Visibility)
    ensures r.hasStyle == hasStyle
    ensures r.tagEnabled ==> settings.globalData.showTags
    ensures r.layerEnabled ==> settings.globalData.showLayers
    ensures !hasStyle ==> r.tagEnabled == settings.globalData.showTags
    ensures !hasStyle ==> r.layerEnabled == settings.globalData.showLayers
    ensures hasStyle && settings.styleData.displayTags ==> r.tagEnabled == settings.globalData.showTags
    ensures hasStyle && settings.styleData.displayLayers ==> r.layerEnabled == settings.globalData.showLayers
    ensures hasStyle && !settings.styleData.displayTags ==> !r.tagEnabled
    ensures hasStyle && !settings.styleData.displayLayers ==> !r.layerEnabled
    ensures r.enabled <==> r.tagEnabled || r.layerEnabled
  {
    var g := settings.globalData;
    var tag := if hasStyle then g.showTags && settings.styleData.displayTags else g.showTags;
    var layer := if hasStyle then g.showLayers && settings.styleData.displayLayers else g.showLayers;
    Visibility(tag, layer, hasStyle, tag || layer)
  }

  /** A style never widens visibility: whatever is shown for a styled object
      is also shown for the same object without a style. */
  lemma StyleOnlyNarrows(settings: Settings)
    ensures DrawerIsEnabled(settings, true).tagEnabled ==> DrawerIsEnabled(settings, false).tagEnabled
    ensures DrawerIsEnabled(settings, true).layerEnabled ==> DrawerIsEnabled(settings, false).layerEnabled
    ensures DrawerIsEnabled(settings, true).enabled ==> DrawerIsEnabled(settings, false).enabled
  {
  }

  /** Number of grid cells the decorator asks for: one cell group (3) when
      the labels are stacked or only one is shown, two groups (6) otherwise. */
  function GetGridCount(init: DrawInit, vis: Visibility): (n: int)
    ensures n == 3 || n == 6
    ensures init.isVertical ==> n == 3
    ensures vis.tagEnabled != vis.layerEnabled ==> n == 3
    ensures n == 6 <==> !init.isVertical && vis.tagEnabled == vis.layerEnabled
  {
    if init.isVertical || vis.tagEnabled != vis.layerEnabled then 3 else 6
  }

  /** For an object the decorator is drawn for, six cells are requested
      exactly when both labels are shown side by side, which happens under
      the two horizontal layouts and under any unhandled layout. */
  lemma GridCountOfEnabledDrawer(settings: Settings, hasStyle: bool)
    requires DrawerIsEnabled(settings, hasStyle).enabled
    ensures var vis := DrawerIsEnabled(settings, hasStyle);
            GetGridCount(OnDrawInit(settings), vis) == 6
            <==> vis.BothShown() && settings.globalData.tagLayerLayout in {TagInFront, LayerInfront, OtherLayout}
  {
  }

  datatype LabelStyle = TinyText | SmallDropdown

  /** Stacked labels share half a row each, so they are drawn in the small
      text style; otherwise the label looks like a dropdown. */
  function LabelStyleFor(init: DrawInit, vis: Visibility): (s: LabelStyle)
    ensures s == TinyText <==> init.isVertical && vis.tagEnabled && vis.layerEnabled
  {
    if init.isVertical && vis.BothShown() then TinyText else SmallDropdown
  }
}
