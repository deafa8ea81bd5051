/// The list of toolbar item identifiers the controller hands to its toolbar as
/// the default, allowed and selectable items.
module ToolbarLayout {
  import opened Panels

  /// The panel items in registration order.
  function PanelItems(panels: seq<Panel>): seq<ItemId> {
    seq(|panels|, k requires 0 <= k < |panels| => ItemOf(panels[k]))
  }

  /// One flexible space when the items are centred, none otherwise.
  function Padding(centered: bool): seq<ItemId> {
    if centered then [FlexibleSpace] else []
  }

  /// The toolbar layout: in segmented mode one item hosting the segmented
  /// control between two flexible spaces; otherwise one item per panel,
  /// between two flexible spaces when the items are centred.
  function ItemLayout(panels: seq<Panel>, segmented: bool, centered: bool): seq<ItemId> {
    if segmented then [FlexibleSpace, SegmentedControlItem, FlexibleSpace]
    else Padding(centered) + PanelItems(panels) + Padding(centered)
  }

  /// The layout rule stated item by item: in native mode the panel items
  /// appear in registration order, preceded and followed by exactly one
  /// flexible space when centred and by none otherwise, and the segmented
  /// control item never appears; in segmented mode the layout does not
  /// depend on the panels.
  lemma ItemLayoutRule(panels: seq<Panel>, segmented: bool, centered: bool)
    ensures segmented ==> ItemLayout(panels, segmented, centered) == [FlexibleSpace, SegmentedControlItem, FlexibleSpace]
    ensures !segmented ==>
      var ids := ItemLayout(panels, segmented, centered);
      var off := if centered then 1 else 0;
      && |ids| == |panels| + 2 * off
      && (forall k :: 0 <= k < |panels| ==> ids[off + k] == PanelItem(panels[k].id))
      && (centered ==> ids[0] == FlexibleSpace && ids[|ids| - 1] == FlexibleSpace)
      && (forall k :: off <= k < |ids| - off ==> ids[k].PanelItem?)
      && SegmentedControlItem !in ids
  {
    if !segmented {
      var ids := ItemLayout(panels, segmented, centered);
      var off := if centered then 1 else 0;
      forall k | 0 <= k < |panels| ensures ids[off + k] == PanelItem(panels[k].id) {
        assert ids[off + k] == PanelItems(panels)[k];
      }
      forall k | off <= k < |ids| - off ensures ids[k].PanelItem? {
        assert ids[k] == PanelItems(panels)[k - off];
      }
    }
  }

  /// The entry the controller preselects in native mode, at index 1 when
  /// centred and 0 otherwise, is the first panel's item.
  lemma NativeSelectionIsFirstPanel(panels: seq<Panel>, centered: bool)
    requires |panels| > 0
    ensures |ItemLayout(panels, false, centered)| > (if centered then 1 else 0)
    ensures ItemLayout(panels, false, centered)[if centered then 1 else 0] == PanelItem(panels[0].id)
  {
    ItemLayoutRule(panels, false, centered);
  }

  /// Every panel item of the layout names a registered panel. The toolbar
  /// delegate therefore finds the panel for each item it is asked about,
  /// provided no panel's identifier equals the flexible-space or the
  /// segmented-control identifier, which the delegate checks first.
  lemma LayoutItemsResolve(panels: seq<Panel>, segmented: bool, centered: bool, item: ItemId)
    requires item in ItemLayout(panels, segmented, centered) && item.PanelItem?
    ensures Lookup(panels, item.id).Some? && Lookup(panels, item.id).value.id == item.id
  {
    ItemLayoutRule(panels, segmented, centered);
    var ids := ItemLayout(panels, segmented, centered);
    var off := if centered then 1 else 0;
    var i :| 0 <= i < |ids| && ids[i] == item;
    assert off <= i < |ids| - off;
    assert ids[i] == PanelItems(panels)[i - off];
    assert panels[i - off].id == item.id;
  }

  /// Builds the layout as the current controller does, appending to a local
  /// list.
  method BuildItemIdentifiers(panels: seq<Panel>, segmented: bool, centered: bool)
    returns (ids: seq<ItemId>)
    ensures ids == ItemLayout(panels, segmented, centered)
  {
    ids := [];
    if segmented {
      ids := ids + [FlexibleSpace];
      ids := ids + [SegmentedControlItem];
      ids := ids + [FlexibleSpace];
    } else {
      if centered {
        ids := ids + [FlexibleSpace];
      }
      for i := 0 to |panels|
        invariant ids == Padding(centered) + PanelItems(panels[..i])
      {
        assert PanelItems(panels[..i + 1]) == PanelItems(panels[..i]) + [ItemOf(panels[i])];
        ids := ids + [ItemOf(panels[i])];
      }
      assert panels[..|panels|] == panels;
      if centered {
        ids := ids + [FlexibleSpace];
      }
    }
  }
}
