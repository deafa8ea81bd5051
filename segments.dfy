/// Sizing of the segmented control that replaces the toolbar items in
/// segmented mode: every segment gets one uniform size, the widest padded
/// title, and the control is as wide as its segments plus a one-point border
/// around each of them.
module Segments {
  import opened Panels

  /// The narrowest a segment may be.
  const MinSegmentWidth: real := 42.0

  /// What is added to a measured title to size its segment.
  const SegmentInset: Size := Size(36.0, 12.0)

  /// The size a segment would need for panel `p` alone.
  function PaddedTitleSize(p: Panel): Size {
    Size(p.titleSize.width + SegmentInset.width, p.titleSize.height + SegmentInset.height)
  }

  /// The running maximum over `panels` in order, starting from
  /// (MinSegmentWidth, 0): a panel whose padded title is strictly wider than
  /// the running width replaces the running size by its padded title size.
  function MaxSegmentSizeOf(panels: seq<Panel>): Size
    decreases |panels|
  {
    if |panels| == 0 then Size(MinSegmentWidth, 0.0)
    else
      var m := MaxSegmentSizeOf(panels[..|panels| - 1]);
      var padded := PaddedTitleSize(panels[|panels| - 1]);
      if padded.width > m.width then padded else m
  }

  /// Panel k is the first panel whose padded title is widest, and wider
  /// than the minimum width; `r` is its padded title size.
  ghost predicate WidestAt(panels: seq<Panel>, k: int, r: Size) {
    && 0 <= k < |panels|
    && r == PaddedTitleSize(panels[k])
    && r.width > MinSegmentWidth
    && (forall j :: 0 <= j < k ==> PaddedTitleSize(panels[j]).width < r.width)
    && (forall j :: k < j < |panels| ==> PaddedTitleSize(panels[j]).width <= r.width)
  }

  /// A reference definition of the uniform segment size: the minimum size
  /// when no padded title is wider than the minimum width, otherwise the
  /// padded title size of the FIRST panel whose padded title is widest.
  ghost predicate IsSegmentSize(panels: seq<Panel>, r: Size) {
    || (r == Size(MinSegmentWidth, 0.0) &&
        forall j :: 0 <= j < |panels| ==> PaddedTitleSize(panels[j]).width <= MinSegmentWidth)
    || (exists k :: WidestAt(panels, k, r))
  }

  lemma SegmentSizeBounds(panels: seq<Panel>, r: Size)
    requires IsSegmentSize(panels, r)
    ensures r.width >= MinSegmentWidth
    ensures forall j :: 0 <= j < |panels| ==> PaddedTitleSize(panels[j]).width <= r.width
  {
    if exists k :: WidestAt(panels, k, r) {
      var k :| WidestAt(panels, k, r);
    }
  }

  /// The running maximum meets the reference definition.
  lemma {:induction false} MaxSegmentSizeIsFirstWidest(panels: seq<Panel>)
    ensures IsSegmentSize(panels, MaxSegmentSizeOf(panels))
    decreases |panels|
  {
    if |panels| > 0 {
      var n := |panels|;
      var init := panels[..n - 1];
      var m := MaxSegmentSizeOf(init);
      var padded := PaddedTitleSize(panels[n - 1]);
      MaxSegmentSizeIsFirstWidest(init);
      SegmentSizeBounds(init, m);
      assert forall j :: 0 <= j < n - 1 ==> init[j] == panels[j];
      if padded.width > m.width {
        assert MaxSegmentSizeOf(panels) == padded;
        assert WidestAt(panels, n - 1, padded);
      } else {
        assert MaxSegmentSizeOf(panels) == m;
        if m == Size(MinSegmentWidth, 0.0) &&
           forall j :: 0 <= j < n - 1 ==> PaddedTitleSize(init[j]).width <= MinSegmentWidth {
        } else {
          var k :| WidestAt(init, k, m);
          assert WidestAt(panels, k, m);
        }
      }
    }
  }

  /// The reference definition admits one size only, so it characterises the
  /// running maximum completely.
  lemma SegmentSizeIsUnique(panels: seq<Panel>, r1: Size, r2: Size)
    requires IsSegmentSize(panels, r1) && IsSegmentSize(panels, r2)
    ensures r1 == r2
  {
    SegmentSizeBounds(panels, r1);
    SegmentSizeBounds(panels, r2);
    if (exists k :: WidestAt(panels, k, r1)) && (exists k :: WidestAt(panels, k, r2)) {
      var k1 :| WidestAt(panels, k1, r1);
      var k2 :| WidestAt(panels, k2, r2);
      assert k1 == k2;
    }
  }

  /// The segment size as the pointwise bounds state it: at least the
  /// minimum width and every padded title width, equal to one of them, and
  /// with height 0 unless some padded title is wider than the minimum.
  lemma SegmentSizeProperties(panels: seq<Panel>)
    ensures var r := MaxSegmentSizeOf(panels);
      && r.width >= MinSegmentWidth
      && (forall j :: 0 <= j < |panels| ==> r.width >= PaddedTitleSize(panels[j]).width)
      && (r.width == MinSegmentWidth || exists j :: 0 <= j < |panels| && r == PaddedTitleSize(panels[j]))
      && ((forall j :: 0 <= j < |panels| ==> PaddedTitleSize(panels[j]).width <= MinSegmentWidth) ==> r == Size(MinSegmentWidth, 0.0))
  {
    var r := MaxSegmentSizeOf(panels);
    MaxSegmentSizeIsFirstWidest(panels);
    SegmentSizeBounds(panels, r);
  }

  /// Computes the uniform segment size with the running-maximum loop of both
  /// controllers.
  method MaxSegmentSize(panels: seq<Panel>) returns (maxSize: Size)
    ensures maxSize == MaxSegmentSizeOf(panels)
    ensures IsSegmentSize(panels, maxSize)
  {
    maxSize := Size(MinSegmentWidth, 0.0);
    for i := 0 to |panels|
      invariant maxSize == MaxSegmentSizeOf(panels[..i])
    {
      assert panels[..i + 1][..i] == panels[..i];
      var titleSize := panels[i].titleSize;
      if titleSize.width + SegmentInset.width > maxSize.width {
        var maxWidth := titleSize.width + SegmentInset.width;
        var maxHeight := titleSize.height + SegmentInset.height;
        maxSize := Size(maxWidth, maxHeight);
      }
    }
    assert panels[..|panels|] == panels;
    MaxSegmentSizeIsFirstWidest(panels);
  }

  /// One call of `setTag(tag, forSegment: segment)`.
  datatype TagWrite = TagWrite(segment: int, tag: int)

  /// The segmented control as a value: its frame size, the label and width
  /// of each segment, the tag writes issued on its cell in order, and the
  /// tag of the segment last selected programmatically.
  datatype SegmentedControl = SegmentedControl(
    frame: Size,
    labels: seq<string>,
    segmentWidths: seq<real>,
    tagWrites: seq<TagWrite>,
    selectedTag: Option<int>)

  /// The width of a control of `count` segments of `width` each.
  function ControlWidth(width: real, count: nat): real {
    width * (count as real) + (count as real) + 1.0
  }

  function Sum(xs: seq<real>): real
    decreases |xs|
  {
    if |xs| == 0 then 0.0 else Sum(xs[..|xs| - 1]) + xs[|xs| - 1]
  }

  /// The control's width is the sum of its segment widths plus one point for
  /// each of the `count + 1` borders around them.
  lemma {:induction false} ControlWidthIsSegmentsPlusBorders(width: real, count: nat)
    ensures ControlWidth(width, count) == Sum(seq(count, _ => width)) + (count as real) + 1.0
    decreases count
  {
    if count > 0 {
      ControlWidthIsSegmentsPlusBorders(width, count - 1);
      assert seq(count, _ => width)[..count - 1] == seq(count - 1, _ => width);
    }
  }

  /// The control the controller builds for `panels` with the given tag
  /// writes, before any segment is selected.
  function SegmentedControlFor(panels: seq<Panel>, tagWrites: seq<TagWrite>): SegmentedControl {
    var size := MaxSegmentSizeOf(panels);
    SegmentedControl(
      Size(ControlWidth(size.width, |panels|), size.height),
      seq(|panels|, k requires 0 <= k < |panels| => panels[k].title),
      seq(|panels|, _ => size.width),
      tagWrites,
      None)
  }

  /// The tag writes of the current controller: segment i is tagged i.
  function IdentityTags(count: nat): seq<TagWrite> {
    seq(count, k => TagWrite(k, k))
  }

  /// The tag writes of the legacy controller, whose counter is incremented
  /// before `setTag(i, forSegment: i)`: segments 1 to count, each with its
  /// own index.
  function ShiftedTags(count: nat): seq<TagWrite> {
    seq(count, k => TagWrite(k + 1, k + 1))
  }

  /// The control for `panels`: one segment per panel, labelled with the
  /// panel's title, every segment as wide as the uniform segment size, the
  /// control as high as that size and as wide as the segments and their
  /// borders.
  lemma SegmentedControlLayout(panels: seq<Panel>, tagWrites: seq<TagWrite>)
    ensures var c := SegmentedControlFor(panels, tagWrites);
      && |c.labels| == |panels| == |c.segmentWidths|
      && (forall k :: 0 <= k < |panels| ==> c.labels[k] == panels[k].title)
      && (forall k :: 0 <= k < |panels| ==> c.segmentWidths[k] == MaxSegmentSizeOf(panels).width)
      && (|panels| > 0 ==> IsSegmentSize(panels, Size(c.segmentWidths[0], c.frame.height)))
      && c.frame.width == Sum(c.segmentWidths) + (|panels| as real) + 1.0
      && c.selectedTag.None?
  {
    MaxSegmentSizeIsFirstWidest(panels);
    ControlWidthIsSegmentsPlusBorders(MaxSegmentSizeOf(panels).width, |panels|);
  }

  /// In the current controller every segment i is tagged once, with i.
  lemma IdentityTagsAreSegmentIndices(count: nat)
    ensures forall w :: w in IdentityTags(count) ==> w.tag == w.segment && 0 <= w.segment < count
    ensures forall i :: 0 <= i < count ==> TagWrite(i, i) in IdentityTags(count)
  {
    forall i | 0 <= i < count ensures TagWrite(i, i) in IdentityTags(count) {
      assert IdentityTags(count)[i] == TagWrite(i, i);
    }
  }

  /// In the legacy controller segment 0 is never tagged and the last tag
  /// write addresses segment `count`, one past the last segment.
  lemma ShiftedTagsMissFirstSegment(count: nat)
    requires count > 0
    ensures forall w :: w in ShiftedTags(count) ==> w.segment != 0
    ensures ShiftedTags(count)[count - 1] == TagWrite(count, count)
    ensures forall i :: 1 <= i < count ==> TagWrite(i, i) in ShiftedTags(count)
  {
    forall i | 1 <= i < count ensures TagWrite(i, i) in ShiftedTags(count) {
      assert ShiftedTags(count)[i - 1] == TagWrite(i, i);
    }
  }
}
