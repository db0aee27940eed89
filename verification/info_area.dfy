/** Where each label goes inside the row rectangle: the area computation and
    the drawing order of the two labels. */
module InfoArea {
  import opened Geometry
  import opened TagLayerSettings

  /** The area of one label. With a single label shown it gets the whole row;
      with both shown the row is halved across its width (front/back) or its
      height (above/below), and the layout decides which half is the tag's.
      A layout outside the four handled cases leaves the row as it is. */
  function GetInfoAreaRect(rect: Rect, isTag: bool, layout: Layout, bothShown: bool): (r: Rect)
    ensures !bothShown ==> r == rect
    ensures layout == OtherLayout ==> r == rect
    ensures layout in {TagInFront, LayerInfront} ==> r.y == rect.y && r.height == rect.height
    ensures layout in {TagAbove, LayerAbove} ==> r.x == rect.x && r.width == rect.width
  {
    if !bothShown then rect
    else match layout
      case TagInFront =>
        if isTag then rect.(width := rect.width * 0.5)
        else rect.(x := rect.x + rect.width * 0.5, width := rect.width * 0.5)
      case LayerInfront =>
        if !isTag then rect.(width := rect.width * 0.5)
        else rect.(x := rect.x + rect.width * 0.5, width := rect.width * 0.5)
      case TagAbove =>
        if isTag then rect.(height := rect.height * 0.5)
        else rect.(y := rect.y + rect.height * 0.5, height := rect.height * 0.5)
      case LayerAbove =>
        if !isTag then rect.(height := rect.height * 0.5)
        else rect.(y := rect.y + rect.height * 0.5, height := rect.height * 0.5)
      case OtherLayout => rect
  }

  /** Front/back layouts: the front label takes the left half starting at the
      row's x, the back label the right half starting at x + width/2; the two
      halves are adjacent, their widths add up to the row width, and together
      they partition the row. The tag is in front exactly under `TagInFront`. */
  lemma HorizontalSplit(rect: Rect, layout: Layout)
    requires layout == TagInFront || layout == LayerInfront
    ensures var tag := GetInfoAreaRect(rect, true, layout, true);
            var layer := GetInfoAreaRect(rect, false, layout, true);
            var front := if layout == TagInFront then tag else layer;
            var back := if layout == TagInFront then layer else tag;
            && front == Rect(rect.x, rect.y, rect.width / 2.0, rect.height)
            && back == Rect(rect.x + rect.width / 2.0, rect.y, rect.width / 2.0, rect.height)
            && front.x + front.width == back.x
            && front.width + back.width == rect.width
            && Partitions(rect, front, back)
            && Partitions(rect, tag, layer)
  {
  }

  /** Above/below layouts: the top label takes the upper half starting at the
      row's y, the lower label starts at y + height/2; the heights add up to
      the row height and the halves partition the row. The tag is on top
      exactly under `TagAbove`. */
  lemma VerticalSplit(rect: Rect, layout: Layout)
    requires layout == TagAbove || layout == LayerAbove
    ensures var tag := GetInfoAreaRect(rect, true, layout, true);
            var layer := GetInfoAreaRect(rect, false, layout, true);
            var top := if layout == TagAbove then tag else layer;
            var lower := if layout == TagAbove then layer else tag;
            && top == Rect(rect.x, rect.y, rect.width, rect.height / 2.0)
            && lower == Rect(rect.x, rect.y + rect.height / 2.0, rect.width, rect.height / 2.0)
            && top.y + top.height == lower.y
            && top.height + lower.height == rect.height
            && Partitions(rect, top, lower)
            && Partitions(rect, tag, layer)
  {
  }

  /** Which label comes first (left or top) follows the layout, and the two
      labels never share an origin unless the row has no extent to split. */
  lemma TagFirstExactly(rect: Rect, layout: Layout)
    requires layout != OtherLayout
    ensures var tag := GetInfoAreaRect(rect, true, layout, true);
            var layer := GetInfoAreaRect(rect, false, layout, true);
            && (rect.width > 0.0 && layout in {TagInFront, LayerInfront} ==> (tag.x < layer.x <==> layout == TagInFront))
            && (rect.height > 0.0 && layout in {TagAbove, LayerAbove} ==> (tag.y < layer.y <==> layout == TagAbove))
  {
  }

  /** One drawn label: which one it is and the area it is drawn in. */
  datatype LabelArea = LabelArea(isTag: bool, area: Rect)

  /** The labels `DrawInfo` draws for one row, in drawing order: the tag
      first if it is shown, then the layer if it is shown. */
  function DrawInfo(rect: Rect, vis: Visibility, layout: Layout): (labels: seq<LabelArea>)
    ensures |labels| == (if vis.tagEnabled then 1 else 0) + (if vis.layerEnabled then 1 else 0)
    ensures forall i :: 0 <= i < |labels| ==>
              (labels[i].isTag ==> vis.tagEnabled) && (!labels[i].isTag ==> vis.layerEnabled)
    ensures vis.tagEnabled ==> labels[0].isTag
    ensures vis.layerEnabled ==> !labels[|labels| - 1].isTag
    ensures forall i :: 0 <= i < |labels| ==>
              labels[i].area == GetInfoAreaRect(rect, labels[i].isTag, layout, vis.BothShown())
  {
    var both := vis.BothShown();
    (if vis.tagEnabled then [LabelArea(true, GetInfoAreaRect(rect, true, layout, both))] else [])
    + (if vis.layerEnabled then [LabelArea(false, GetInfoAreaRect(rect, false, layout, both))] else [])
  }

  /** A single label gets the whole row; under a handled layout two labels
      split the row between them without overlap. */
  lemma DrawnLabelsFillRow(rect: Rect, vis: Visibility, layout: Layout)
    requires vis.tagEnabled || vis.layerEnabled
    ensures var labels := DrawInfo(rect, vis, layout);
            && (|labels| == 1 ==> labels[0].area == rect)
            && (|labels| == 2 && layout != OtherLayout ==> Partitions(rect, labels[0].area, labels[1].area))
  {
    var labels := DrawInfo(rect, vis, layout);
    if |labels| == 2 && layout != OtherLayout {
      if layout == TagInFront || layout == LayerInfront {
        HorizontalSplit(rect, layout);
      } else {
        VerticalSplit(rect, layout);
      }
    }
  }

  /** Under a layout value the area switch does not handle, both shown labels
      are drawn over the whole row, on top of each other. */
  lemma UnhandledLayoutOverlaps(rect: Rect, vis: Visibility)
    requires vis.tagEnabled && vis.layerEnabled
    requires rect.width > 0.0 && rect.height > 0.0
    ensures var labels := DrawInfo(rect, vis, OtherLayout);
            && |labels| == 2
            && labels[0].area == rect && labels[1].area == rect
            && !Disjoint(labels[0].area, labels[1].area)
  {
    assert InRegion(rect, rect.x, rect.y);
  }

  /** The small text style is chosen exactly when each drawn label gets half
      the row height, that is, when the labels are stacked. */
  lemma TinyTextIffHalfHeight(settings: Settings, vis: Visibility, rect: Rect)
    requires vis.tagEnabled || vis.layerEnabled
    requires rect.height != 0.0
    ensures LabelStyleFor(OnDrawInit(settings), vis) == TinyText
            <==> (forall l :: l in DrawInfo(rect, vis, settings.globalData.tagLayerLayout) ==> l.area.height == rect.height / 2.0)
  {
    var layout := settings.globalData.tagLayerLayout;
    var labels := DrawInfo(rect, vis, layout);
    if LabelStyleFor(OnDrawInit(settings), vis) != TinyText {
      // Some label keeps the full row height.
      if vis.BothShown() {
        assert layout in {TagInFront, LayerInfront, OtherLayout};
        assert labels[0].area.height == rect.height;
      } else {
        assert labels[0].area == rect;
      }
      assert labels[0] in labels;
    }
  }
}
