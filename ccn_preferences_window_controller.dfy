/// The legacy controller class, CCNPreferencesWindowController: the same
/// fields and operations as the current class, proved against the
/// transitions of ControllerState with Generation Legacy. It differs in the
/// toolbar condition (more than one panel), in the tags it writes on the
/// segmented control, in its fixed segmented-mode title, in its missing
/// empty-panels guards and in its click guards.
module CCNPreferencesWindow {
  import opened Panels
  import opened WindowFrame
  import opened ToolbarLayout
  import opened Segments
  import opened ControllerState

  /// Builds the segmented control as the legacy class does: segment i is
  /// labelled with panel i's title and given the uniform segment width, but
  /// the counter is incremented before each tag write, so the writes address
  /// segments 1 to n, each tagged with its own index.
  method BuildLegacySegmentedControl(panels: seq<Panel>) returns (control: SegmentedControl)
    ensures control == ControlFor(Legacy, panels)
  {
    var segmentSize := MaxSegmentSize(panels);
    var count := |panels|;
    var frame := Size(ControlWidth(segmentSize.width, count), segmentSize.height);
    var labels: seq<string> := seq(count, _ => "");
    var widths: seq<real> := seq(count, _ => 0.0);
    var tagWrites: seq<TagWrite> := [];
    var i := 0;
    for v := 0 to count
      invariant i == v
      invariant |labels| == count && |widths| == count
      invariant forall k :: 0 <= k < v ==> labels[k] == panels[k].title
      invariant forall k :: 0 <= k < v ==> widths[k] == segmentSize.width
      invariant tagWrites == ShiftedTags(v)
    {
      var viewController := panels[v];
      labels := labels[i := viewController.title];
      widths := widths[i := segmentSize.width];
      i := i + 1;
      tagWrites := tagWrites + [TagWrite(i, i)];
    }
    control := SegmentedControl(frame, labels, widths, tagWrites, None);
  }

  class CCNPreferencesWindowController {
    var toolbar: Option<Toolbar>
    var segmentedControl: Option<SegmentedControl>
    var toolbarDefaultItemIdentifiers: Option<seq<ItemId>>
    var viewControllers: seq<Panel>
    var activeViewController: Option<Panel>
    var showToolbarWithSingleViewController: bool
    var showToolbarItemsAsSegmentedControl: bool
    var centerToolbarItems: bool
    var allowsVibrancy: bool
    /// The fixed segmented-mode window title, LegacyDefaultTitle.
    const defaultTitle: string
    // The window the controller owns.
    var windowFrame: Rect
    var windowTitle: Option<string>
    var contentSubviews: seq<Subview>
    var windowVisible: bool

    function Snapshot(): State
      reads this
    {
      State(viewControllers, activeViewController, toolbarDefaultItemIdentifiers, toolbar, segmentedControl,
            showToolbarWithSingleViewController, showToolbarItemsAsSegmentedControl, centerToolbarItems,
            allowsVibrancy, defaultTitle, windowFrame, windowTitle, contentSubviews, windowVisible)
    }

    ghost predicate Valid()
      reads this
    {
      && defaultTitle == LegacyDefaultTitle
      && Inv(Legacy, Snapshot())
    }

    /// `frame` is the window's frame once it exists: the frame AppKit derives
    /// from the 420 x 230 content rectangle, or the one restored from the
    /// autosaved frame.
    constructor (frame: Rect)
      ensures Snapshot() == Initial(Legacy, frame)
      ensures Valid()
    {
      toolbar := None;
      segmentedControl := None;
      toolbarDefaultItemIdentifiers := None;
      viewControllers := [];
      activeViewController := None;
      showToolbarWithSingleViewController := true;
      showToolbarItemsAsSegmentedControl := false;
      centerToolbarItems := true;
      allowsVibrancy := false;
      defaultTitle := LegacyDefaultTitle;
      windowFrame := frame;
      windowTitle := None;
      contentSubviews := [];
      windowVisible := false;
      InitialSatisfiesInv(Legacy, frame);
    }

    // ----- Properties and their observers -----

    method SetViewControllers(panels: seq<Panel>)
      modifies this
      ensures Snapshot() == PanelsReplaced(Legacy, old(Snapshot()), panels)
      ensures old(Valid()) ==> Valid()
    {
      ghost var s := Snapshot();
      if Inv(Legacy, s) { PanelsReplacedPreservesInv(Legacy, s, panels); }
      viewControllers := panels;
      assert Snapshot() == s.(viewControllers := panels);
      SetupToolbar();
    }

    method SetShowToolbarWithSingleViewController(b: bool)
      modifies this
      ensures Snapshot() == SingleToolbarFlagSet(old(Snapshot()), b)
      ensures old(Valid()) ==> Valid()
    {
      showToolbarWithSingleViewController := b;
    }

    method SetShowToolbarItemsAsSegmentedControl(b: bool)
      modifies this
      ensures Snapshot() == ModeSet(Legacy, old(Snapshot()), b)
      ensures old(Valid()) ==> Valid()
    {
      ghost var s := Snapshot();
      if Inv(Legacy, s) { ModeSetPreservesInv(Legacy, s, b); }
      var oldValue := showToolbarItemsAsSegmentedControl;
      showToolbarItemsAsSegmentedControl := b;
      if b != oldValue {
        toolbarDefaultItemIdentifiers := None;
        ghost var t := Snapshot();
        assert t == s.(showToolbarItemsAsSegmentedControl := b, toolbarDefaultItemIdentifiers := None);
        SetCenterToolbarItems(true);
        assert Snapshot() == CenteringSet(Legacy, t, true);
        SetupToolbar();
      }
    }

    method SetCenterToolbarItems(b: bool)
      modifies this
      ensures Snapshot() == CenteringSet(Legacy, old(Snapshot()), b)
      ensures old(Valid()) ==> Valid()
    {
      ghost var s := Snapshot();
      if Inv(Legacy, s) { CenteringSetPreservesInv(Legacy, s, b); }
      var oldValue := centerToolbarItems;
      centerToolbarItems := b;
      if b != oldValue {
        toolbarDefaultItemIdentifiers := None;
        assert Snapshot() == s.(centerToolbarItems := b, toolbarDefaultItemIdentifiers := None);
        SetupToolbar();
      }
    }

    method SetAllowsVibrancy(b: bool)
      modifies this
      ensures Snapshot() == VibrancySet(old(Snapshot()), b)
      ensures old(Valid()) ==> Valid()
    {
      ghost var s := Snapshot();
      if Inv(Legacy, s) { VibrancySetPreservesInv(Legacy, s, b); }
      allowsVibrancy := b;
      assert Snapshot() == s.(allowsVibrancy := b);
      if activeViewController.Some? {
        ActivateViewController(activeViewController.value);
      }
    }

    // ----- Showing and hiding the window -----

    /// Shows the window on `requested`, or on the active or first panel;
    /// `centred` is the origin centring the window on screen gives it. The
    /// first panel is read without checking that one is registered.
    method ShowPreferencesWindow(requested: Option<Panel>, centred: Point)
      requires Valid() && CanSelectInitial(Legacy, Snapshot(), requested)
      modifies this
      ensures Snapshot() == WindowShown(Legacy, old(Snapshot()), requested, centred)
      ensures Valid() && windowVisible
    {
      ghost var s := Snapshot();
      WindowShownPreservesInv(Legacy, s, requested, centred);
      if windowVisible {
        SelectInitialPreferencesViewController(requested);
      } else {
        windowVisible := true;
        assert Snapshot() == s.(windowVisible := true);
        SelectInitialPreferencesViewController(requested);
        windowFrame := MovedTo(windowFrame, centred);
      }
    }

    /// Shows the window on the panel registered under `id`.
    method ShowPreferencesWindowWithIdentifier(id: PanelId, centred: Point)
      requires Valid() && CanSelectInitial(Legacy, Snapshot(), ViewControllerWithIdentifier(id))
      modifies this
      ensures Snapshot() == WindowShownFor(Legacy, old(Snapshot()), id, centred)
      ensures Valid() && windowVisible
    {
      var viewController := ViewControllerWithIdentifier(id);
      ShowPreferencesWindow(viewController, centred);
    }

    method SelectInitialPreferencesViewController(requested: Option<Panel>)
      requires CacheCoherent(Snapshot()) && CanSelectInitial(Legacy, Snapshot(), requested)
      modifies this
      ensures Snapshot() == InitialSelected(Legacy, old(Snapshot()), requested)
    {
      ghost var s := Snapshot();
      PreselectToolbarItem();
      assert Snapshot() == ToolbarPreselected(s);
      var initial := if requested.Some? then requested.value
        else if activeViewController.Some? then activeViewController.value
        else viewControllers[0];
      assert initial == InitialPanel(s, requested);
      ActivateViewController(initial);
    }

    /// The first half of the initial selection: the segment tagged 0, or
    /// the first panel's entry of the cached layout, is selected.
    method PreselectToolbarItem()
      requires CacheCoherent(Snapshot())
      modifies this
      ensures Snapshot() == ToolbarPreselected(old(Snapshot()))
    {
      if toolbar.Some? {
        if showToolbarItemsAsSegmentedControl {
          if segmentedControl.Some? {
            segmentedControl := Some(segmentedControl.value.(selectedTag := Some(0)));
          }
        } else if toolbarDefaultItemIdentifiers.Some? && |toolbarDefaultItemIdentifiers.value| > 0 {
          var ids := toolbarDefaultItemIdentifiers.value;
          toolbar := Some(toolbar.value.(selection := Some(ids[if centerToolbarItems then 1 else 0])));
        }
      }
    }

    method DismissPreferencesWindow()
      modifies this
      ensures Snapshot() == WindowDismissed(old(Snapshot()))
      ensures old(Valid()) ==> Valid()
    {
      windowVisible := false;
    }

    // ----- Toolbar and segmented control -----

    method SetupToolbar()
      modifies this
      ensures Snapshot() == ToolbarSetUp(Legacy, old(Snapshot()))
    {
      toolbar := None;
      toolbarDefaultItemIdentifiers := None;
      if showToolbarWithSingleViewController || showToolbarItemsAsSegmentedControl || |viewControllers| > 1 {
        if showToolbarItemsAsSegmentedControl {
          toolbar := Some(Toolbar(false, None));
          SetupSegmentedControl();
        } else {
          toolbar := Some(Toolbar(true, None));
        }
      }
    }

    method SetupSegmentedControl()
      modifies this`segmentedControl
      ensures segmentedControl == Some(ControlFor(Legacy, viewControllers))
    {
      var control := BuildLegacySegmentedControl(viewControllers);
      segmentedControl := Some(control);
    }

    // ----- Activation -----

    method ActivateViewController(p: Panel)
      modifies this
      ensures Snapshot() == Activated(old(Snapshot()), p)
    {
      if toolbar.Some? {
        toolbar := Some(toolbar.value.(selection := Some(ItemOf(p))));
      }
      var newWindowFrame := NewWindowFrame(windowFrame, p.frameSize, centerToolbarItems);
      windowTitle := Some(if showToolbarItemsAsSegmentedControl then defaultTitle else p.title);
      var views := contentSubviews;
      if activeViewController.Some? {
        views := RemoveFromSuperview(views, activeViewController.value.id);
      }
      // Adding a view to a superview first removes it from its current one.
      var newView := if allowsVibrancy then EffectView(Some(p.id)) else PanelView(p.id);
      contentSubviews := RemoveFromSuperview(views, p.id) + [newView];
      windowFrame := newWindowFrame;
      activeViewController := Some(p);
    }

    /// The first registered panel whose identifier string matches, if any.
    function ViewControllerWithIdentifier(id: PanelId): (r: Option<Panel>)
      reads this
      ensures IsFirstMatch(viewControllers, id, r)
    {
      Lookup(viewControllers, id)
    }

    // ----- Toolbar delegate -----

    /// Fills the cache by appending to it in place, then returns it,
    /// force-unwrapped.
    method ToolbarDefaultItemIdentifiers() returns (ids: seq<ItemId>)
      requires toolbarDefaultItemIdentifiers.Some? || |viewControllers| > 0
      modifies this
      ensures ids == DefaultItems(Legacy, old(Snapshot()))
      ensures Snapshot() == DefaultItemsQueried(old(Snapshot()))
      ensures old(Valid()) ==> Valid()
    {
      if toolbarDefaultItemIdentifiers.None? && |viewControllers| > 0 {
        AppendDefaultItemIdentifiers();
      }
      ids := toolbarDefaultItemIdentifiers.value;
    }

    /// The in-place filling of the cache: starting from an empty list,
    /// appends the layout's items one by one.
    method AppendDefaultItemIdentifiers()
      modifies this`toolbarDefaultItemIdentifiers
      ensures toolbarDefaultItemIdentifiers ==
        Some(ItemLayout(viewControllers, showToolbarItemsAsSegmentedControl, centerToolbarItems))
    {
      toolbarDefaultItemIdentifiers := Some([]);
      if showToolbarItemsAsSegmentedControl {
        toolbarDefaultItemIdentifiers := Some(toolbarDefaultItemIdentifiers.value + [FlexibleSpace]);
        toolbarDefaultItemIdentifiers := Some(toolbarDefaultItemIdentifiers.value + [SegmentedControlItem]);
        toolbarDefaultItemIdentifiers := Some(toolbarDefaultItemIdentifiers.value + [FlexibleSpace]);
        assert toolbarDefaultItemIdentifiers.value == [FlexibleSpace, SegmentedControlItem, FlexibleSpace];
      } else {
        if centerToolbarItems {
          toolbarDefaultItemIdentifiers := Some(toolbarDefaultItemIdentifiers.value + [FlexibleSpace]);
          assert toolbarDefaultItemIdentifiers.value == [] + [FlexibleSpace];
        }
        assert Padding(centerToolbarItems) + PanelItems(viewControllers[..0]) == Padding(centerToolbarItems);
        assert toolbarDefaultItemIdentifiers.value == Padding(centerToolbarItems);
        for i := 0 to |viewControllers|
          invariant toolbarDefaultItemIdentifiers ==
            Some(Padding(centerToolbarItems) + PanelItems(viewControllers[..i]))
        {
          assert PanelItems(viewControllers[..i + 1]) == PanelItems(viewControllers[..i]) + [ItemOf(viewControllers[i])];
          toolbarDefaultItemIdentifiers := Some(toolbarDefaultItemIdentifiers.value + [ItemOf(viewControllers[i])]);
          assert toolbarDefaultItemIdentifiers.value ==
            Padding(centerToolbarItems) + (PanelItems(viewControllers[..i]) + [ItemOf(viewControllers[i])]);
        }
        assert viewControllers[..|viewControllers|] == viewControllers;
        if centerToolbarItems {
          toolbarDefaultItemIdentifiers := Some(toolbarDefaultItemIdentifiers.value + [FlexibleSpace]);
        } else {
          assert Padding(false) + PanelItems(viewControllers) + Padding(false) == Padding(false) + PanelItems(viewControllers);
        }
      }
    }

    method ToolbarAllowedItemIdentifiers() returns (ids: seq<ItemId>)
      requires toolbarDefaultItemIdentifiers.Some? || |viewControllers| > 0
      modifies this
      ensures ids == DefaultItems(Legacy, old(Snapshot()))
      ensures Snapshot() == DefaultItemsQueried(old(Snapshot()))
      ensures old(Valid()) ==> Valid()
    {
      ids := ToolbarDefaultItemIdentifiers();
    }

    method ToolbarSelectableItemIdentifiers() returns (ids: seq<ItemId>)
      requires toolbarDefaultItemIdentifiers.Some? || |viewControllers| > 0
      modifies this
      ensures ids == DefaultItems(Legacy, old(Snapshot()))
      ensures Snapshot() == DefaultItemsQueried(old(Snapshot()))
      ensures old(Valid()) ==> Valid()
    {
      ids := ToolbarDefaultItemIdentifiers();
    }

    // ----- Actions -----

    method ToolbarItemAction(id: PanelId)
      modifies this
      ensures Snapshot() == ToolbarItemClicked(Legacy, old(Snapshot()), id)
      ensures old(Valid()) ==> Valid()
    {
      ghost var s := Snapshot();
      if Inv(Legacy, s) { ClicksPreserveInv(Legacy, s, id, 0); }
      if activeViewController.None? || activeViewController.value.id == id {
        return;
      }
      var viewController := ViewControllerWithIdentifier(id);
      if viewController.None? {
        return;
      }
      ActivateViewController(viewController.value);
    }

    /// A click on the segment whose cell reports `tag`.
    method SegmentedControlAction(tag: int)
      requires CanClickSegment(Legacy, Snapshot(), tag)
      modifies this
      ensures Snapshot() == SegmentClicked(Legacy, old(Snapshot()), tag)
      ensures old(Valid()) ==> Valid()
    {
      ghost var s := Snapshot();
      if Inv(Legacy, s) { ClicksPreserveInv(Legacy, s, "", tag); }
      if activeViewController.None? {
        return;
      }
      var viewController := viewControllers[tag];
      if activeViewController.value.id == viewController.id {
        return;
      }
      ActivateViewController(viewController);
    }
  }
}
