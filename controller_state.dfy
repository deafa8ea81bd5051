/// The state of a preferences window controller and its transitions, as
/// values. Both controller classes (the current PreferencesWindowController
/// and the legacy CCNPreferencesWindowController) keep this state in their
/// fields; where the two classes behave differently, a transition takes the
/// Generation it describes.
module ControllerState {
  import opened Panels
  import opened WindowFrame
  import opened ToolbarLayout
  import opened Segments

  datatype Generation = Current | Legacy

  /// The window title the current class uses in segmented mode (the
  /// unlocalised value of its localised string).
  const CurrentDefaultTitle: string := "Preferences"

  /// The window title the legacy class uses in segmented mode.
  const LegacyDefaultTitle: string := "PreferencesWindow: default window title with segmented control in toolbar"

  /// The toolbar the controller installs: whether users may customise it
  /// (native mode) and the identifier of its selected item.
  datatype Toolbar = Toolbar(customizable: bool, selection: Option<ItemId>)

  /// A subview of the window's content view: a panel's view added directly,
  /// or a visual-effect view that wraps a panel's view or, once that view has
  /// been removed from it, nothing.
  datatype Subview = PanelView(id: PanelId) | EffectView(child: Option<PanelId>)

  datatype State = State(
    viewControllers: seq<Panel>,
    activeViewController: Option<Panel>,
    toolbarDefaultItemIdentifiers: Option<seq<ItemId>>,
    toolbar: Option<Toolbar>,
    segmentedControl: Option<SegmentedControl>,
    showToolbarWithSingleViewController: bool,
    showToolbarItemsAsSegmentedControl: bool,
    centerToolbarItems: bool,
    allowsVibrancy: bool,
    defaultWindowTitle: string,
    windowFrame: Rect,
    windowTitle: Option<string>,
    contentSubviews: seq<Subview>,
    windowVisible: bool)

  /// A freshly initialised controller whose window has frame `frame`.
  function Initial(g: Generation, frame: Rect): State {
    State([], None, None, None, None, true, false, true, false,
          if g.Current? then CurrentDefaultTitle else LegacyDefaultTitle,
          frame, None, [], false)
  }

  // ---------------------------------------------------------------------
  // Content view bookkeeping
  // ---------------------------------------------------------------------

  /// The panels whose views are in the content view, directly or wrapped.
  function AttachedIds(views: seq<Subview>): seq<PanelId>
    decreases |views|
  {
    if |views| == 0 then [] else ViewIds(views[0]) + AttachedIds(views[1..])
  }

  /// The panel whose view a subview shows, if any.
  function ViewIds(v: Subview): seq<PanelId> {
    match v
    case PanelView(id) => [id]
    case EffectView(child) => if child.Some? then [child.value] else []
  }

  /// The content view after the view of panel `id` is removed from its
  /// superview: a direct subview disappears, a wrapping effect view stays
  /// behind, empty.
  function RemoveFromSuperview(views: seq<Subview>, id: PanelId): seq<Subview>
    decreases |views|
  {
    if |views| == 0 then []
    else
      (match views[0]
       case PanelView(x) => if x == id then [] else [views[0]]
       case EffectView(child) => if child == Some(id) then [EffectView(None)] else [views[0]])
      + RemoveFromSuperview(views[1..], id)
  }

  function Without(ids: seq<PanelId>, id: PanelId): seq<PanelId>
    decreases |ids|
  {
    if |ids| == 0 then [] else (if ids[0] == id then [] else [ids[0]]) + Without(ids[1..], id)
  }

  lemma {:induction false} AttachedIdsOfConcat(a: seq<Subview>, b: seq<Subview>)
    ensures AttachedIds(a + b) == AttachedIds(a) + AttachedIds(b)
    decreases |a|
  {
    if |a| > 0 {
      assert (a + b)[0] == a[0];
      assert (a + b)[1..] == a[1..] + b;
      AttachedIdsOfConcat(a[1..], b);
      assert AttachedIds(a + b) == ViewIds(a[0]) + (AttachedIds(a[1..]) + AttachedIds(b));
    } else {
      assert a + b == b;
    }
  }

  lemma {:induction false} WithoutOfConcat(a: seq<PanelId>, b: seq<PanelId>, id: PanelId)
    ensures Without(a + b, id) == Without(a, id) + Without(b, id)
    decreases |a|
  {
    if |a| > 0 {
      assert (a + b)[0] == a[0];
      assert (a + b)[1..] == a[1..] + b;
      WithoutOfConcat(a[1..], b, id);
      var h := if a[0] == id then [] else [a[0]];
      assert Without(a + b, id) == h + (Without(a[1..], id) + Without(b, id));
    } else {
      assert a + b == b;
    }
  }

  /// Removing a panel's view from its superview detaches exactly that
  /// panel's view and keeps every other attached view in order.
  lemma {:induction false} RemoveFromSuperviewDetachesOnly(views: seq<Subview>, id: PanelId)
    ensures AttachedIds(RemoveFromSuperview(views, id)) == Without(AttachedIds(views), id)
    decreases |views|
  {
    if |views| > 0 {
      var head := match views[0]
        case PanelView(x) => if x == id then [] else [views[0]]
        case EffectView(child) => if child == Some(id) then [EffectView(None)] else [views[0]];
      var headIds := ViewIds(views[0]);
      RemoveFromSuperviewDetachesOnly(views[1..], id);
      AttachedIdsOfConcat(head, RemoveFromSuperview(views[1..], id));
      WithoutOfConcat(headIds, AttachedIds(views[1..]), id);
      assert AttachedIds(views) == headIds + AttachedIds(views[1..]);
      assert AttachedIds(head) == Without(headIds, id);
    }
  }

  // ---------------------------------------------------------------------
  // Toolbar setup and the observers that trigger it
  // ---------------------------------------------------------------------

  /// The segmented control the given generation builds for `panels`.
  function ControlFor(g: Generation, panels: seq<Panel>): SegmentedControl {
    SegmentedControlFor(panels, if g.Current? then IdentityTags(|panels|) else ShiftedTags(|panels|))
  }

  /// Whether setting up the toolbar installs one: the current class only
  /// needs some panel, the legacy class more than one, unless a toolbar is
  /// wanted for a single panel or segmented mode is on.
  predicate ToolbarShown(g: Generation, s: State) {
    || s.showToolbarWithSingleViewController
    || s.showToolbarItemsAsSegmentedControl
    || (if g.Current? then |s.viewControllers| > 0 else |s.viewControllers| > 1)
  }

  /// Setting up the toolbar: the old toolbar and the cached layout are
  /// dropped, then, when a toolbar is shown, a fresh toolbar (with nothing
  /// selected) is installed, and in segmented mode a fresh segmented control.
  function ToolbarSetUp(g: Generation, s: State): State {
    var cleared := s.(toolbar := None, toolbarDefaultItemIdentifiers := None);
    if !ToolbarShown(g, s) then cleared
    else if s.showToolbarItemsAsSegmentedControl then
      cleared.(toolbar := Some(Toolbar(false, None)),
               segmentedControl := Some(ControlFor(g, s.viewControllers)))
    else cleared.(toolbar := Some(Toolbar(true, None)))
  }

  /// Assigning the panels (the observer of `viewControllers`).
  function PanelsReplaced(g: Generation, s: State, panels: seq<Panel>): State {
    ToolbarSetUp(g, s.(viewControllers := panels))
  }

  /// Assigning the centring flag (the observer of `centerToolbarItems`).
  function CenteringSet(g: Generation, s: State, b: bool): State {
    if b == s.centerToolbarItems then s
    else ToolbarSetUp(g, s.(centerToolbarItems := b, toolbarDefaultItemIdentifiers := None))
  }

  /// Assigning the segmented-mode flag (the observer of
  /// `showToolbarItemsAsSegmentedControl`); a real change forces centring on,
  /// through the centring observer, before the toolbar is set up again.
  function ModeSet(g: Generation, s: State, b: bool): State {
    if b == s.showToolbarItemsAsSegmentedControl then s
    else
      var t := s.(showToolbarItemsAsSegmentedControl := b, toolbarDefaultItemIdentifiers := None);
      ToolbarSetUp(g, CenteringSet(g, t, true))
  }

  /// Assigning `showToolbarWithSingleViewController`, which has no observer.
  function SingleToolbarFlagSet(s: State, b: bool): State {
    s.(showToolbarWithSingleViewController := b)
  }

  /// Assigning the segmented-mode window title (current class only).
  function DefaultTitleSet(s: State, title: string): State {
    s.(defaultWindowTitle := title)
  }

  // ---------------------------------------------------------------------
  // Activation
  // ---------------------------------------------------------------------

  /// Activating panel `p`: the toolbar selects p's item, the window title
  /// becomes the default title in segmented mode and p's title otherwise, the
  /// previously active panel's view is removed from its superview, p's view
  /// is added (wrapped in an effect view when vibrancy is allowed; adding a
  /// view first removes it from any superview), the window is resized to p,
  /// and p is committed as the active panel last.
  function Activated(s: State, p: Panel): State {
    var toolbar := if s.toolbar.Some? then Some(s.toolbar.value.(selection := Some(ItemOf(p)))) else None;
    var title := if s.showToolbarItemsAsSegmentedControl then s.defaultWindowTitle else p.title;
    var kept := if s.activeViewController.Some?
      then RemoveFromSuperview(s.contentSubviews, s.activeViewController.value.id)
      else s.contentSubviews;
    var added := if s.allowsVibrancy then EffectView(Some(p.id)) else PanelView(p.id);
    s.(toolbar := toolbar,
       windowTitle := Some(title),
       contentSubviews := RemoveFromSuperview(kept, p.id) + [added],
       windowFrame := NewWindowFrame(s.windowFrame, p.frameSize, s.centerToolbarItems),
       activeViewController := Some(p))
  }

  /// Assigning the vibrancy flag (the observer of `allowsVibrancy`), which
  /// re-activates the active panel, if any.
  function VibrancySet(s: State, b: bool): State {
    var t := s.(allowsVibrancy := b);
    if t.activeViewController.Some? then Activated(t, t.activeViewController.value) else t
  }

  predicate IsActive(s: State, id: PanelId) {
    s.activeViewController.Some? && s.activeViewController.value.id == id
  }

  // ---------------------------------------------------------------------
  // Toolbar delegate queries
  // ---------------------------------------------------------------------

  /// The state after the toolbar asks for its default items: the layout is
  /// cached when nothing is cached and some panel is registered.
  function DefaultItemsQueried(s: State): State {
    if s.toolbarDefaultItemIdentifiers.None? && |s.viewControllers| > 0 then
      s.(toolbarDefaultItemIdentifiers :=
           Some(ItemLayout(s.viewControllers, s.showToolbarItemsAsSegmentedControl, s.centerToolbarItems)))
    else s
  }

  /// The answer to that query: the cached layout, or no items when nothing
  /// is cached. The legacy class force-unwraps the cache, so it cannot answer
  /// when nothing is cached and no panel is registered.
  function DefaultItems(g: Generation, s: State): seq<ItemId>
    requires g.Legacy? ==> s.toolbarDefaultItemIdentifiers.Some? || |s.viewControllers| > 0
  {
    var t := DefaultItemsQueried(s);
    if t.toolbarDefaultItemIdentifiers.Some? then t.toolbarDefaultItemIdentifiers.value else []
  }

  // ---------------------------------------------------------------------
  // Showing the window and choosing the initial panel
  // ---------------------------------------------------------------------

  /// The cache holds nothing or the layout of the current panels and flags.
  ghost predicate CacheCoherent(s: State) {
    s.toolbarDefaultItemIdentifiers.Some? ==>
      && |s.viewControllers| > 0
      && s.toolbarDefaultItemIdentifiers.value ==
           ItemLayout(s.viewControllers, s.showToolbarItemsAsSegmentedControl, s.centerToolbarItems)
  }

  /// Before activating the initial panel the toolbar's selection is reset:
  /// in segmented mode the segment tagged 0 is selected, otherwise the cached
  /// entry at index 1 (centred) or 0.
  function ToolbarPreselected(s: State): State
    requires CacheCoherent(s)
  {
    if s.toolbar.None? then s
    else if s.showToolbarItemsAsSegmentedControl then
      s.(segmentedControl :=
           if s.segmentedControl.Some? then Some(s.segmentedControl.value.(selectedTag := Some(0))) else None)
    else if s.toolbarDefaultItemIdentifiers.Some? && |s.toolbarDefaultItemIdentifiers.value| > 0 then
      var ids := s.toolbarDefaultItemIdentifiers.value;
      s.(toolbar := Some(s.toolbar.value.(selection := Some(ids[if s.centerToolbarItems then 1 else 0]))))
    else s
  }

  /// The initial panel: the requested one, else the active one, else the
  /// first registered one.
  function InitialPanel(s: State, requested: Option<Panel>): Panel
    requires requested.Some? || s.activeViewController.Some? || |s.viewControllers| > 0
  {
    if requested.Some? then requested.value
    else if s.activeViewController.Some? then s.activeViewController.value
    else s.viewControllers[0]
  }

  /// What the initial selection may assume: the legacy class reads the first
  /// panel without checking that there is one.
  predicate CanSelectInitial(g: Generation, s: State, requested: Option<Panel>) {
    g.Legacy? ==> requested.Some? || s.activeViewController.Some? || |s.viewControllers| > 0
  }

  /// Selecting the initial panel; the current class does nothing when no
  /// panel is registered.
  function InitialSelected(g: Generation, s: State, requested: Option<Panel>): State
    requires CacheCoherent(s) && CanSelectInitial(g, s, requested)
  {
    if g.Current? && |s.viewControllers| == 0 then s
    else Activated(ToolbarPreselected(s), InitialPanel(s, requested))
  }

  /// Showing the window: a visible window only selects the initial panel;
  /// a hidden one is made visible, selects it and is then centred on screen,
  /// where `centred` is the origin centring gives it.
  function WindowShown(g: Generation, s: State, requested: Option<Panel>, centred: Point): State
    requires CacheCoherent(s) && CanSelectInitial(g, s, requested)
  {
    if s.windowVisible then InitialSelected(g, s, requested)
    else
      var t := InitialSelected(g, s.(windowVisible := true), requested);
      t.(windowFrame := MovedTo(t.windowFrame, centred))
  }

  /// Showing the window on the panel registered under `id`, if any.
  function WindowShownFor(g: Generation, s: State, id: PanelId, centred: Point): State
    requires CacheCoherent(s) && CanSelectInitial(g, s, Lookup(s.viewControllers, id))
  {
    WindowShown(g, s, Lookup(s.viewControllers, id), centred)
  }

  /// Hiding the window; the active panel is kept for the next show.
  function WindowDismissed(s: State): State {
    s.(windowVisible := false)
  }

  // ---------------------------------------------------------------------
  // Clicks
  // ---------------------------------------------------------------------

  /// A click on the toolbar item `id`. The current class activates the
  /// registered panel unless it is already active; the legacy class only
  /// when some panel is active, its identifier differs and `id` is registered.
  function ToolbarItemClicked(g: Generation, s: State, id: PanelId): State {
    var target := Lookup(s.viewControllers, id);
    match g
    case Current =>
      if IsActive(s, id) || target.None? then s else Activated(s, target.value)
    case Legacy =>
      if s.activeViewController.Some? && s.activeViewController.value.id != id && target.Some?
      then Activated(s, target.value)
      else s
  }

  /// What a segment click may assume: the panels are indexed by the tag the
  /// cell reports, which the legacy class does only when a panel is active.
  predicate CanClickSegment(g: Generation, s: State, tag: int) {
    match g
    case Current => 0 <= tag < |s.viewControllers|
    case Legacy => s.activeViewController.Some? ==> 0 <= tag < |s.viewControllers|
  }

  /// A click on the segment whose cell reports `tag`.
  function SegmentClicked(g: Generation, s: State, tag: int): State
    requires CanClickSegment(g, s, tag)
  {
    match g
    case Current =>
      var p := s.viewControllers[tag];
      if IsActive(s, p.id) then s else Activated(s, p)
    case Legacy =>
      if s.activeViewController.None? then s
      else
        var p := s.viewControllers[tag];
        if s.activeViewController.value.id == p.id then s else Activated(s, p)
  }

  // ---------------------------------------------------------------------
  // The invariant
  // ---------------------------------------------------------------------

  /// The content view holds exactly the active panel's view.
  ghost predicate ContentShowsActive(s: State) {
    AttachedIds(s.contentSubviews) ==
      if s.activeViewController.Some? then [s.activeViewController.value.id] else []
  }

  /// An installed toolbar is customisable exactly in native mode, and in
  /// segmented mode a toolbar is installed and the segmented control is the
  /// one built for the current panels.
  ghost predicate ToolbarMatchesMode(g: Generation, s: State) {
    && (s.toolbar.Some? ==> s.toolbar.value.customizable == !s.showToolbarItemsAsSegmentedControl)
    && (s.showToolbarItemsAsSegmentedControl ==>
          && s.toolbar.Some?
          && s.segmentedControl.Some?
          && s.segmentedControl.value.(selectedTag := None) == ControlFor(g, s.viewControllers))
  }

  ghost predicate Inv(g: Generation, s: State) {
    CacheCoherent(s) && ContentShowsActive(s) && ToolbarMatchesMode(g, s)
  }

  lemma InitialSatisfiesInv(g: Generation, frame: Rect)
    ensures Inv(g, Initial(g, frame))
  {
  }

  // ---------------------------------------------------------------------
  // Properties
  // ---------------------------------------------------------------------

  /// Activation detaches the previously active panel's view and no other,
  /// and leaves the activated panel's view attached last.
  lemma ActivationDetachesOnlyPrevious(s: State, p: Panel)
    ensures var before := AttachedIds(s.contentSubviews);
      var kept := if s.activeViewController.Some? then Without(before, s.activeViewController.value.id) else before;
      AttachedIds(Activated(s, p).contentSubviews) == Without(kept, p.id) + [p.id]
  {
    var kept := if s.activeViewController.Some?
      then RemoveFromSuperview(s.contentSubviews, s.activeViewController.value.id)
      else s.contentSubviews;
    var added := if s.allowsVibrancy then EffectView(Some(p.id)) else PanelView(p.id);
    if s.activeViewController.Some? {
      RemoveFromSuperviewDetachesOnly(s.contentSubviews, s.activeViewController.value.id);
    }
    RemoveFromSuperviewDetachesOnly(kept, p.id);
    AttachedIdsOfConcat(RemoveFromSuperview(kept, p.id), [added]);
  }

  /// Activation selects p's toolbar item before the transition, sets the
  /// window title, resizes the window to p and commits p as active; the
  /// panels, the cache, the flags and the window's visibility are untouched.
  lemma ActivationEffects(s: State, p: Panel)
    ensures var t := Activated(s, p);
      && t.activeViewController == Some(p)
      && IsActive(t, p.id)
      && (t.toolbar.Some? <==> s.toolbar.Some?)
      && (t.toolbar.Some? ==> t.toolbar.value.selection == Some(PanelItem(p.id)))
      && t.windowTitle == Some(if s.showToolbarItemsAsSegmentedControl then s.defaultWindowTitle else p.title)
      && t.windowFrame.width == p.frameSize.width && t.windowFrame.height == p.frameSize.height
      && t.windowFrame.y + t.windowFrame.height == s.windowFrame.y + s.windowFrame.height
      && t.windowFrame == NewWindowFrame(s.windowFrame, p.frameSize, s.centerToolbarItems)
      && t.(toolbar := s.toolbar, windowTitle := s.windowTitle, contentSubviews := s.contentSubviews,
            windowFrame := s.windowFrame, activeViewController := s.activeViewController) == s
  {
  }

  lemma ActivationPreservesInv(g: Generation, s: State, p: Panel)
    requires Inv(g, s)
    ensures Inv(g, Activated(s, p))
  {
    ActivationDetachesOnlyPrevious(s, p);
  }

  lemma ToolbarSetUpPreservesInv(g: Generation, s: State)
    requires ContentShowsActive(s)
    ensures Inv(g, ToolbarSetUp(g, s))
  {
  }

  /// Setting up the toolbar clears the cache, installs a toolbar exactly
  /// when ToolbarShown holds, and in segmented mode installs the control
  /// built for the current panels.
  lemma ToolbarSetUpRule(g: Generation, s: State)
    ensures var t := ToolbarSetUp(g, s);
      && t.toolbarDefaultItemIdentifiers.None?
      && (t.toolbar.Some? <==> ToolbarShown(g, s))
      && (t.toolbar.Some? ==> t.toolbar.value.selection.None?)
      && (s.showToolbarItemsAsSegmentedControl ==> t.segmentedControl == Some(ControlFor(g, s.viewControllers)))
      && t.viewControllers == s.viewControllers && t.activeViewController == s.activeViewController
  {
  }

  /// With one panel, no toolbar wanted for a single panel and native mode,
  /// the current class still installs a toolbar and the legacy class does not.
  lemma SinglePanelToolbarDiffers(s: State)
    requires |s.viewControllers| == 1
    requires !s.showToolbarWithSingleViewController && !s.showToolbarItemsAsSegmentedControl
    ensures ToolbarSetUp(Current, s).toolbar.Some?
    ensures ToolbarSetUp(Legacy, s).toolbar.None?
  {
  }

  /// With no panels but a toolbar wanted for a single panel or segmented
  /// mode, the legacy class installs a toolbar whose item query it cannot
  /// answer: nothing is cached and no panel is registered, so the query's
  /// force-unwrap traps. A new legacy controller given no panels is in that
  /// state.
  lemma LegacyToolbarWithoutItems(s: State, frame: Rect)
    requires s.showToolbarWithSingleViewController || s.showToolbarItemsAsSegmentedControl
    ensures var t := PanelsReplaced(Legacy, s, []);
      t.toolbar.Some? && t.toolbarDefaultItemIdentifiers.None? && |t.viewControllers| == 0
    ensures var t := PanelsReplaced(Legacy, Initial(Legacy, frame), []);
      t.toolbar.Some? && t.toolbarDefaultItemIdentifiers.None? && |t.viewControllers| == 0
  {
  }

  /// With no panels, no toolbar wanted for a single panel and native mode,
  /// neither class installs a toolbar; otherwise the current class always
  /// does.
  lemma CurrentToolbarCondition(s: State)
    ensures ToolbarSetUp(Current, s).toolbar.None? <==>
      !s.showToolbarWithSingleViewController && !s.showToolbarItemsAsSegmentedControl && |s.viewControllers| == 0
  {
  }

  /// Replacing the panels clears the cache and installs the new panels.
  lemma PanelsReplacedInvalidates(g: Generation, s: State, panels: seq<Panel>)
    ensures PanelsReplaced(g, s, panels).toolbarDefaultItemIdentifiers.None?
    ensures PanelsReplaced(g, s, panels).viewControllers == panels
    ensures PanelsReplaced(g, s, panels).activeViewController == s.activeViewController
  {
  }

  /// Assigning the centring flag its current value changes nothing; a real
  /// change clears the cache and sets the flag.
  lemma CenteringSetRule(g: Generation, s: State, b: bool)
    ensures b == s.centerToolbarItems ==> CenteringSet(g, s, b) == s
    ensures b != s.centerToolbarItems ==>
      CenteringSet(g, s, b).toolbarDefaultItemIdentifiers.None? && CenteringSet(g, s, b).centerToolbarItems == b
  {
  }

  /// Assigning the segmented-mode flag its current value changes nothing; a
  /// real change clears the cache, sets the flag and turns centring on.
  lemma ModeSetRule(g: Generation, s: State, b: bool)
    ensures b == s.showToolbarItemsAsSegmentedControl ==> ModeSet(g, s, b) == s
    ensures b != s.showToolbarItemsAsSegmentedControl ==>
      && ModeSet(g, s, b).toolbarDefaultItemIdentifiers.None?
      && ModeSet(g, s, b).showToolbarItemsAsSegmentedControl == b
      && ModeSet(g, s, b).centerToolbarItems
  {
  }

  lemma PanelsReplacedPreservesInv(g: Generation, s: State, panels: seq<Panel>)
    requires Inv(g, s)
    ensures Inv(g, PanelsReplaced(g, s, panels))
  {
    ToolbarSetUpPreservesInv(g, s.(viewControllers := panels));
  }

  lemma CenteringSetPreservesInv(g: Generation, s: State, b: bool)
    requires Inv(g, s)
    ensures Inv(g, CenteringSet(g, s, b))
  {
    if b != s.centerToolbarItems {
      ToolbarSetUpPreservesInv(g, s.(centerToolbarItems := b, toolbarDefaultItemIdentifiers := None));
    }
  }

  lemma ModeSetPreservesInv(g: Generation, s: State, b: bool)
    requires Inv(g, s)
    ensures Inv(g, ModeSet(g, s, b))
  {
    if b != s.showToolbarItemsAsSegmentedControl {
      var t := s.(showToolbarItemsAsSegmentedControl := b, toolbarDefaultItemIdentifiers := None);
      assert ContentShowsActive(CenteringSet(g, t, true));
      ToolbarSetUpPreservesInv(g, CenteringSet(g, t, true));
    }
  }

  lemma VibrancySetPreservesInv(g: Generation, s: State, b: bool)
    requires Inv(g, s)
    ensures Inv(g, VibrancySet(s, b))
  {
    var t := s.(allowsVibrancy := b);
    if t.activeViewController.Some? {
      ActivationPreservesInv(g, t, t.activeViewController.value);
    }
  }

  /// The toolbar always receives the layout of the current panels and flags
  /// (no items without panels), whether it was cached or not, and the cache
  /// is filled only when it was unset and some panel is registered.
  lemma DefaultItemsAreLayout(g: Generation, s: State)
    requires CacheCoherent(s)
    requires g.Legacy? ==> s.toolbarDefaultItemIdentifiers.Some? || |s.viewControllers| > 0
    ensures DefaultItems(g, s) ==
      if |s.viewControllers| > 0
      then ItemLayout(s.viewControllers, s.showToolbarItemsAsSegmentedControl, s.centerToolbarItems)
      else []
    ensures var t := DefaultItemsQueried(s);
      && CacheCoherent(t)
      && (s.toolbarDefaultItemIdentifiers.Some? ==> t == s)
      && (|s.viewControllers| == 0 ==> t == s)
      && t.(toolbarDefaultItemIdentifiers := s.toolbarDefaultItemIdentifiers) == s
  {
  }

  lemma DefaultItemsQueriedPreservesInv(g: Generation, s: State)
    requires Inv(g, s)
    ensures Inv(g, DefaultItemsQueried(s))
  {
  }

  /// In native mode a coherent cache preselects the first panel's item.
  lemma PreselectionIsFirstPanel(s: State)
    requires CacheCoherent(s)
    requires s.toolbar.Some? && !s.showToolbarItemsAsSegmentedControl && s.toolbarDefaultItemIdentifiers.Some?
    ensures ToolbarPreselected(s).toolbar.value.selection == Some(PanelItem(s.viewControllers[0].id))
  {
    NativeSelectionIsFirstPanel(s.viewControllers, s.centerToolbarItems);
  }

  /// The initial panel is the requested one, else the active one, else the
  /// first registered one; the current class does nothing without panels.
  lemma InitialChoice(g: Generation, s: State, requested: Option<Panel>)
    requires CacheCoherent(s) && CanSelectInitial(g, s, requested)
    ensures g.Current? && |s.viewControllers| == 0 ==> InitialSelected(g, s, requested) == s
    ensures !(g.Current? && |s.viewControllers| == 0) ==>
      InitialSelected(g, s, requested).activeViewController ==
        Some(if requested.Some? then requested.value
             else if s.activeViewController.Some? then s.activeViewController.value
             else s.viewControllers[0])
  {
  }

  lemma InitialSelectedPreservesInv(g: Generation, s: State, requested: Option<Panel>)
    requires Inv(g, s) && CanSelectInitial(g, s, requested)
    ensures Inv(g, InitialSelected(g, s, requested))
  {
    if !(g.Current? && |s.viewControllers| == 0) {
      assert Inv(g, ToolbarPreselected(s));
      ActivationPreservesInv(g, ToolbarPreselected(s), InitialPanel(s, requested));
    }
  }

  lemma WindowShownPreservesInv(g: Generation, s: State, requested: Option<Panel>, centred: Point)
    requires Inv(g, s) && CanSelectInitial(g, s, requested)
    ensures Inv(g, WindowShown(g, s, requested, centred))
    ensures WindowShown(g, s, requested, centred).windowVisible
  {
    if s.windowVisible {
      InitialSelectedPreservesInv(g, s, requested);
    } else {
      InitialSelectedPreservesInv(g, s.(windowVisible := true), requested);
    }
  }

  /// Showing the window on an identifier that is not registered falls back
  /// to the active panel, then to the first registered one.
  lemma UnknownIdentifierFallsBack(g: Generation, s: State, id: PanelId, centred: Point)
    requires CacheCoherent(s) && |s.viewControllers| > 0
    requires forall k :: 0 <= k < |s.viewControllers| ==> s.viewControllers[k].id != id
    ensures WindowShownFor(g, s, id, centred).activeViewController ==
      Some(if s.activeViewController.Some? then s.activeViewController.value else s.viewControllers[0])
  {
    assert Lookup(s.viewControllers, id).None?;
  }

  /// Showing an already visible window without a request re-selects the
  /// active panel rather than the first one.
  lemma ShowAgainKeepsActive(g: Generation, s: State, centred: Point)
    requires CacheCoherent(s) && s.windowVisible && s.activeViewController.Some?
    ensures WindowShown(g, s, None, centred).activeViewController == s.activeViewController
  {
  }

  /// A toolbar click is a no-op on an unknown or already active target (and,
  /// in the legacy class, whenever no panel is active); otherwise it
  /// activates the registered panel, which is then active.
  lemma ToolbarClickGuards(g: Generation, s: State, id: PanelId)
    ensures s.activeViewController.None? ==> !IsActive(s, id)
    ensures IsActive(s, id) || Lookup(s.viewControllers, id).None? ==> ToolbarItemClicked(g, s, id) == s
    ensures g.Legacy? && s.activeViewController.None? ==> ToolbarItemClicked(g, s, id) == s
    ensures !IsActive(s, id) && Lookup(s.viewControllers, id).Some? &&
            (g.Current? || s.activeViewController.Some?) ==>
      && ToolbarItemClicked(g, s, id) == Activated(s, Lookup(s.viewControllers, id).value)
      && IsActive(ToolbarItemClicked(g, s, id), id)
  {
  }

  /// Clicking the same toolbar item twice activates at most once: the second
  /// click finds its target active.
  lemma {:induction false} ToolbarClickIsIdempotent(g: Generation, s: State, id: PanelId)
    ensures ToolbarItemClicked(g, ToolbarItemClicked(g, s, id), id) == ToolbarItemClicked(g, s, id)
  {
    var t := ToolbarItemClicked(g, s, id);
    if t != s {
      assert Lookup(s.viewControllers, id).Some?;
      assert IsActive(t, id);
    }
  }

  /// The two classes' toolbar clicks agree once some panel is active; with
  /// none active the legacy class ignores clicks and the current class
  /// activates any registered target.
  lemma ToolbarClickGenerationsDiffer(s: State, id: PanelId)
    ensures s.activeViewController.Some? ==> ToolbarItemClicked(Current, s, id) == ToolbarItemClicked(Legacy, s, id)
    ensures s.activeViewController.None? ==> ToolbarItemClicked(Legacy, s, id) == s
    ensures s.activeViewController.None? && Lookup(s.viewControllers, id).Some? ==>
      ToolbarItemClicked(Current, s, id).activeViewController == Lookup(s.viewControllers, id)
  {
  }

  /// A segment click activates the tagged panel unless a panel with its
  /// identifier is already active (and, in the legacy class, only when some
  /// panel is active); a second click on the same segment changes nothing.
  lemma SegmentClickRule(g: Generation, s: State, tag: int)
    requires CanClickSegment(g, s, tag)
    ensures g.Legacy? && s.activeViewController.None? ==> SegmentClicked(g, s, tag) == s
    ensures (g.Current? || s.activeViewController.Some?) ==>
      var p := s.viewControllers[tag];
      SegmentClicked(g, s, tag) == if IsActive(s, p.id) then s else Activated(s, p)
    ensures var t := SegmentClicked(g, s, tag); CanClickSegment(g, t, tag) && SegmentClicked(g, t, tag) == t
  {
  }

  lemma ClicksPreserveInv(g: Generation, s: State, id: PanelId, tag: int)
    requires Inv(g, s)
    ensures Inv(g, ToolbarItemClicked(g, s, id))
    ensures CanClickSegment(g, s, tag) ==> Inv(g, SegmentClicked(g, s, tag))
  {
    var target := Lookup(s.viewControllers, id);
    if target.Some? {
      ActivationPreservesInv(g, s, target.value);
    }
    if CanClickSegment(g, s, tag) && 0 <= tag < |s.viewControllers| {
      ActivationPreservesInv(g, s, s.viewControllers[tag]);
    }
  }
}
