/// The current controller class, PreferencesWindowController: its fields, the
/// observers of its public properties, showing and hiding the window, the
/// toolbar delegate queries and the click handlers. Every method is proved
/// against the transition of ControllerState it performs, with
/// Generation Current.
module PreferencesWindow {
  import opened Panels
  import opened WindowFrame
  import opened ToolbarLayout
  import opened Segments
  import opened ControllerState

  /// Builds the segmented control as the current class does: segment i is
  /// labelled with panel i's title, given the uniform segment width and
  /// tagged i.
  method BuildSegmentedControl(panels: seq<Panel>) returns (control: SegmentedControl)
    ensures control == ControlFor(Current, panels)
  {
    var segmentSize := MaxSegmentSize(panels);
    var count := |panels|;
    var frame := Size(ControlWidth(segmentSize.width, count), segmentSize.height);
    var labels: seq<string> := seq(count, _ => "");
    var widths: seq<real> := seq(count, _ => 0.0);
    var tagWrites: seq<TagWrite> := [];
    for i := 0 to count
      invariant |labels| == count && |widths| == count
      invariant forall k :: 0 <= k < i ==> labels[k] == panels[k].title
      invariant forall k :: 0 <= k < i ==> widths[k] == segmentSize.width
      invariant tagWrites == IdentityTags(i)
    {
      labels := labels[i := panels[i].title];
      widths := widths[i := segmentSize.width];
      tagWrites := tagWrites + [TagWrite(i, i)];
    }
    control := SegmentedControl(frame, labels, widths, tagWrites, None);
  }

  class PreferencesWindowController {
    var toolbar: Option<Toolbar>
    var segmentedControl: Option<SegmentedControl>
    var toolbarDefaultItemIdentifiers: Option<seq<ItemId>>
    var viewControllers: seq<Panel>
    var activeViewController: Option<Panel>
    var showToolbarWithSingleViewController: bool
    var showToolbarItemsAsSegmentedControl: bool
    var centerToolbarItems: bool
    var allowsVibrancy: bool
    var defaultWindowTitle: string
    // The window the controller owns.
    var windowFrame: Rect
    var windowTitle: Option<string>
    var contentSubviews: seq<Subview>
    var windowVisible: bool

    function Snapshot(): State
      reads this
    {
      State(viewControllers, activeViewController, toolbarDefaultItemIdentifiers, toolbar, segmentedControl,
            showToolbarWithSingleViewController, showToolbarItemsAsSegmentedControl, centerToolbarItems,
            allowsVibrancy, defaultWindowTitle, windowFrame, windowTitle, contentSubviews, windowVisible)
    }

    ghost predicate Valid()
      reads this
    {
      Inv(Current, Snapshot())
    }

    /// `frame` is the window's frame once it exists: the frame AppKit derives
    /// from the 420 x 230 content rectangle, or the one restored from the
    /// autosaved frame.
    constructor (frame: Rect)
      ensures Snapshot() == Initial(Current, frame)
      ensures Valid()
    {
      toolbar := None;
      segmentedControl := None;
      toolbarDefaultItemIdentifiers := None;
      viewControllers := [];
      activeViewController := None;
      showToolbarWithSingleViewController := true;
      showToolbarItemsAsSegmentedControl := false;
      centerToolbarItems := true;
      allowsVibrancy := false;
      defaultWindowTitle := CurrentDefaultTitle;
      windowFrame := frame;
      windowTitle := None;
      contentSubviews := [];
      windowVisible := false;
      InitialSatisfiesInv(Current, frame);
    }

    // ----- Properties and their observers -----

    method SetViewControllers(panels: seq<Panel>)
      modifies this
      ensures Snapshot() == PanelsReplaced(Current, old(Snapshot()), panels)
      ensures old(Valid()) ==> Valid()
    {
      ghost var s := Snapshot();
      if Inv(Current, s) { PanelsReplacedPreservesInv(Current, s, panels); }
      viewControllers := panels;
      assert Snapshot() == s.(viewControllers := panels);
      SetupToolbar();
    }

    method SetShowToolbarWithSingleViewController(b: bool)
      modifies this
      ensures Snapshot() == SingleToolbarFlagSet(old(Snapshot()), b)
      ensures old(Valid()) ==> Valid()
    {
      showToolbarWithSingleViewController := b;
    }

    method SetShowToolbarItemsAsSegmentedControl(b: bool)
      modifies this
      ensures Snapshot() == ModeSet(Current, old(Snapshot()), b)
      ensures old(Valid()) ==> Valid()
    {
      ghost var s := Snapshot();
      if Inv(Current, s) { ModeSetPreservesInv(Current, s, b); }
      var oldValue := showToolbarItemsAsSegmentedControl;
      showToolbarItemsAsSegmentedControl := b;
      if b != oldValue {
        toolbarDefaultItemIdentifiers := None;
        ghost var t := Snapshot();
        assert t == s.(showToolbarItemsAsSegmentedControl := b, toolbarDefaultItemIdentifiers := None);
        SetCenterToolbarItems(true);
        assert Snapshot() == CenteringSet(Current, t, true);
        SetupToolbar();
      }
    }

    method SetCenterToolbarItems(b: bool)
      modifies this
      ensures Snapshot() == CenteringSet(Current, old(Snapshot()), b)
      ensures old(Valid()) ==> Valid()
    {
      ghost var s := Snapshot();
      if Inv(Current, s) { CenteringSetPreservesInv(Current, s, b); }
      var oldValue := centerToolbarItems;
      centerToolbarItems := b;
      if b != oldValue {
        toolbarDefaultItemIdentifiers := None;
        assert Snapshot() == s.(centerToolbarItems := b, toolbarDefaultItemIdentifiers := None);
        SetupToolbar();
      }
    }

    method SetAllowsVibrancy(b: bool)
      modifies this
      ensures Snapshot() == VibrancySet(old(Snapshot()), b)
      ensures old(Valid()) ==> Valid()
    {
      ghost var s := Snapshot();
      if Inv(Current, s) { VibrancySetPreservesInv(Current, s, b); }
      allowsVibrancy := b;
      assert Snapshot() == s.(allowsVibrancy := b);
      if activeViewController.Some? {
        ActivateViewController(activeViewController.value);
      }
    }

    method SetDefaultWindowTitle(title: string)
      modifies this
      ensures Snapshot() == DefaultTitleSet(old(Snapshot()), title)
      ensures old(Valid()) ==> Valid()
    {
      defaultWindowTitle := title;
    }

    // ----- Showing and hiding the window -----

    /// Shows the window on `requested`, or on the active or first panel;
    /// `centred` is the origin centring the window on screen gives it.
    method ShowPreferencesWindow(requested: Option<Panel>, centred: Point)
      requires Valid()
      modifies this
      ensures Snapshot() == WindowShown(Current, old(Snapshot()), requested, centred)
      ensures Valid() && windowVisible
    {
      ghost var s := Snapshot();
      WindowShownPreservesInv(Current, s, requested, centred);
      if windowVisible {
        SelectInitialPreferencesViewController(requested);
      } else {
        windowVisible := true;
        assert Snapshot() == s.(windowVisible := true);
        SelectInitialPreferencesViewController(requested);
        ghost var t := Snapshot();
        assert t == InitialSelected(Current, s.(windowVisible := true), requested);
        windowFrame := MovedTo(windowFrame, centred);
        assert Snapshot() == t.(windowFrame := MovedTo(t.windowFrame, centred));
      }
    }

    /// Shows the window on the panel registered under `id` (also the
    /// deprecated variant that takes the identifier as a plain string).
    method ShowPreferencesWindowWithIdentifier(id: PanelId, centred: Point)
      requires Valid()
      modifies this
      ensures Snapshot() == WindowShownFor(Current, old(Snapshot()), id, centred)
      ensures Valid() && windowVisible
    {
      ShowPreferencesWindow(ViewController(id), centred);
    }

    method SelectInitialPreferencesViewController(requested: Option<Panel>)
      requires CacheCoherent(Snapshot())
      modifies this
      ensures Snapshot() == InitialSelected(Current, old(Snapshot()), requested)
    {
      if |viewControllers| == 0 {
        return;
      }
      ghost var s := Snapshot();
      PreselectToolbarItem();
      assert Snapshot() == ToolbarPreselected(s);
      var initial := if requested.Some? then requested.value
        else if activeViewController.Some? then activeViewController.value
        else viewControllers[0];
      assert initial == InitialPanel(s, requested);
      ActivateViewController(initial);
    }

    /// The first half of the initial selection: the segment tagged 0, or
    /// the first panel's entry of the cached layout, is selected.
    method PreselectToolbarItem()
      requires CacheCoherent(Snapshot())
      modifies this
      ensures Snapshot() == ToolbarPreselected(old(Snapshot()))
    {
      if toolbar.Some? {
        if showToolbarItemsAsSegmentedControl {
          if segmentedControl.Some? {
            segmentedControl := Some(segmentedControl.value.(selectedTag := Some(0)));
          }
        } else if toolbarDefaultItemIdentifiers.Some? && |toolbarDefaultItemIdentifiers.value| > 0 {
          var ids := toolbarDefaultItemIdentifiers.value;
          toolbar := Some(toolbar.value.(selection := Some(ids[if centerToolbarItems then 1 else 0])));
        }
      }
    }

    method DismissPreferencesWindow()
      modifies this
      ensures Snapshot() == WindowDismissed(old(Snapshot()))
      ensures old(Valid()) ==> Valid()
    {
      windowVisible := false;
    }

    // ----- Toolbar and segmented control -----

    method SetupToolbar()
      modifies this
      ensures Snapshot() == ToolbarSetUp(Current, old(Snapshot()))
    {
      toolbar := None;
      toolbarDefaultItemIdentifiers := None;
      if !(showToolbarWithSingleViewController || showToolbarItemsAsSegmentedControl || |viewControllers| > 0) {
        return;
      }
      if showToolbarItemsAsSegmentedControl {
        toolbar := Some(Toolbar(false, None));
        SetupSegmentedControl();
      } else {
        toolbar := Some(Toolbar(true, None));
      }
    }

    method SetupSegmentedControl()
      modifies this`segmentedControl
      ensures segmentedControl == Some(ControlFor(Current, viewControllers))
    {
      var control := BuildSegmentedControl(viewControllers);
      segmentedControl := Some(control);
    }

    // ----- Activation -----

    method ActivateViewController(p: Panel)
      modifies this
      ensures Snapshot() == Activated(old(Snapshot()), p)
    {
      if toolbar.Some? {
        toolbar := Some(toolbar.value.(selection := Some(ItemOf(p))));
      }
      var newWindowFrame := NewWindowFrame(windowFrame, p.frameSize, centerToolbarItems);
      windowTitle := Some(if showToolbarItemsAsSegmentedControl then defaultWindowTitle else p.title);
      var views := contentSubviews;
      if activeViewController.Some? {
        views := RemoveFromSuperview(views, activeViewController.value.id);
      }
      // Adding a view to a superview first removes it from its current one.
      var newView := if allowsVibrancy then EffectView(Some(p.id)) else PanelView(p.id);
      contentSubviews := RemoveFromSuperview(views, p.id) + [newView];
      windowFrame := newWindowFrame;
      activeViewController := Some(p);
    }

    /// The first registered panel with the identifier, if any.
    function ViewController(id: PanelId): (r: Option<Panel>)
      reads this
      ensures IsFirstMatch(viewControllers, id, r)
    {
      Lookup(viewControllers, id)
    }

    /// Whether the active panel carries the identifier; never while no
    /// panel is active.
    predicate IsActiveViewController(id: PanelId): (r: bool)
      reads this
      ensures activeViewController.None? ==> !r
    {
      activeViewController.Some? && activeViewController.value.id == id
    }

    // ----- Toolbar delegate -----

    method ToolbarDefaultItemIdentifiers() returns (ids: seq<ItemId>)
      modifies this
      ensures ids == DefaultItems(Current, old(Snapshot()))
      ensures Snapshot() == DefaultItemsQueried(old(Snapshot()))
      ensures old(Valid()) ==> Valid()
    {
      if toolbarDefaultItemIdentifiers.None? && |viewControllers| > 0 {
        var built := BuildItemIdentifiers(viewControllers, showToolbarItemsAsSegmentedControl, centerToolbarItems);
        toolbarDefaultItemIdentifiers := Some(built);
      }
      ids := if toolbarDefaultItemIdentifiers.Some? then toolbarDefaultItemIdentifiers.value else [];
    }

    method ToolbarAllowedItemIdentifiers() returns (ids: seq<ItemId>)
      modifies this
      ensures ids == DefaultItems(Current, old(Snapshot()))
      ensures Snapshot() == DefaultItemsQueried(old(Snapshot()))
      ensures old(Valid()) ==> Valid()
    {
      ids := ToolbarDefaultItemIdentifiers();
    }

    method ToolbarSelectableItemIdentifiers() returns (ids: seq<ItemId>)
      modifies this
      ensures ids == DefaultItems(Current, old(Snapshot()))
      ensures Snapshot() == DefaultItemsQueried(old(Snapshot()))
      ensures old(Valid()) ==> Valid()
    {
      ids := ToolbarDefaultItemIdentifiers();
    }

    // ----- Actions -----

    method ToolbarItemAction(id: PanelId)
      modifies this
      ensures Snapshot() == ToolbarItemClicked(Current, old(Snapshot()), id)
      ensures old(Valid()) ==> Valid()
    {
      ghost var s := Snapshot();
      if Inv(Current, s) { ClicksPreserveInv(Current, s, id, 0); }
      if IsActiveViewController(id) {
        return;
      }
      var target := ViewController(id);
      if target.None? {
        return;
      }
      ActivateViewController(target.value);
    }

    /// A click on the segment whose cell reports `tag`.
    method SegmentedControlAction(tag: int)
      requires CanClickSegment(Current, Snapshot(), tag)
      modifies this
      ensures Snapshot() == SegmentClicked(Current, old(Snapshot()), tag)
      ensures old(Valid()) ==> Valid()
    {
      ghost var s := Snapshot();
      if Inv(Current, s) { ClicksPreserveInv(Current, s, "", tag); }
      var viewController := viewControllers[tag];
      if IsActiveViewController(viewController.id) {
        return;
      }
      ActivateViewController(viewController);
    }
  }
}
