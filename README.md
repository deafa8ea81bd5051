# CCNPreferencesWindowController in Dafny

CCNPreferencesWindowController is a macOS window controller for preference
windows. Each preferences panel (a view controller with an identifier, a
title and a content view) gets an item in the window's toolbar. The toolbar
shows either one item per panel or a single segmented control. Clicking an
item or a segment switches the window to that panel: the window is resized,
the title is updated and the content view is swapped.

The repository ships two generations of the controller:

- `PreferencesWindowController`, the current class, keyed by
  `NSToolbarItem.Identifier`;
- `CCNPreferencesWindowController`, the legacy class, keyed by `String`.

Each class is its own module here, because the current file declares a
typealias with the legacy class's name. Every AppKit object is reduced to
plain data: a panel to its identifier, title, measured title size and
window-frame size; the toolbar to its selection; the content view to the list
of its subviews.

Files:

- `panels.dfy` (module `Panels`): panels, toolbar item identifiers (flexible
  space, the segmented control's item, a panel's item), and lookup by
  identifier, which returns the first match.
- `window_frame.dfy` (module `WindowFrame`): the window frame computed when a
  panel is activated.
- `toolbar_layout.dfy` (module `ToolbarLayout`): the toolbar's item list.
- `segments.dfy` (module `Segments`): the uniform segment size and the
  geometry, labels and tags of the segmented control.
- `controller_state.dfy` (module `ControllerState`): both classes' state as one
  value, every operation as a transition function of that value, the
  invariant the controllers keep, and the lemmas. A `Generation` value
  (`Current` or `Legacy`) selects the few places where the classes differ.
- `preferences_window_controller.dfy` (module `PreferencesWindow`) and
  `ccn_preferences_window_controller.dfy` (module `CCNPreferencesWindow`):
  one class per source class. Their fields are named like the source's
  stored properties, their methods update those fields in place, and each
  method is proved to move its `Snapshot()` exactly as the corresponding
  transition function does. The property setters model the Swift `didSet`
  observers and keep `Valid()`. The segment-size loop, the segmented-control
  loops and the toolbar item-list loop are written as loops with invariants
  and proved against their specification functions.

The invariant (`ControllerState.Inv`) has three parts:

- The cached item list is either unset or exactly the layout of the current
  panels and flags.
- The window's content view holds exactly the active panel's view.
- In segmented mode a toolbar is installed and carries the control built for
  the current panels. An installed toolbar is customisable exactly in native
  mode.

Where the two classes differ, each module follows its own source:

- **Toolbar condition.** The legacy class needs more than one panel for a
  toolbar, the current class at least one.
- **Initial selection.** The legacy class has no guard against an empty panel
  list. It requires a panel to select: the requested one, the active one or
  the first registered one (`CanSelectInitial`).
- **Item list.** The legacy class appends into the force-unwrapped cache. It
  requires a cached list or a panel.
- **Click guards.** The legacy class ignores toolbar and segment clicks while
  no panel is active.
- **Segment tags.** The legacy class writes segment tags with a counter
  incremented before use, so the write for segment `i` goes to segment `i+1`.
  This is reproduced literally (`ShiftedTags`). `ShiftedTagsMissFirstSegment`
  states the consequence: segment 0 is never tagged, and the last write names
  a segment index equal to the panel count. The resulting tag values depend on
  the segmented cell's defaults, so a legacy segment click takes the tag the
  cell reports as its input.
- **Window title.** The legacy class uses a fixed default title, the current
  class a settable `defaultWindowTitle`.

Behaviour worth noting:

- With exactly one panel, native mode and `showToolbarWithSingleViewController`
  off, the current class still installs a toolbar. Its guard is "some panel",
  not "more than one". Only the legacy class suppresses the toolbar there
  (`SinglePanelToolbarDiffers`).
- Activation itself does not skip an already active panel: calling it twice
  detaches and re-attaches the view. The click handlers are what skip an
  active target (`ToolbarClickGuards`, `ToolbarClickIsIdempotent`,
  `SegmentClickRule`).
- Neither class guards against overlapping activations. In the source the
  write of `activeViewController` happens in the animation's completion
  handler, after the window frame and content have been switched; the model
  takes activation as one step ending with that write (see "## Left out").
- The legacy class can reach its own force-unwrap trap. Assigning an empty
  panel list while `showToolbarWithSingleViewController` (on by default) or
  segmented mode is on installs a toolbar with nothing cached and no panel;
  when AppKit asks that toolbar for its default items, the force-unwrap at
  CCNPreferencesWindowController.swift:482 traps
  (`LegacyToolbarWithoutItems`). The model's item query requires a cached
  list or a panel, so that call is outside what it covers.
- Both classes document `centerToolbarItems` as ignored in segmented mode,
  but the code still uses it there: it picks the window frame's horizontal
  anchor on activation, and changing it clears the cache and sets up the
  toolbar and segmented control again. The model follows the code
  (`CenteringSetRule`, `ActivationEffects`).

## Model

| member | source | states |
|---|---|---|
| Panels.Lookup | CCNPreferencesWindowController/Swift/PreferencesWindowController.swift:395-400 | the result is the first registered panel with the identifier, or none exactly when no panel has it (the legacy `viewControllerWithIdentifier` at CCNPreferencesWindowController.swift:400-405 is the same) |
| Panels.LookupFindsRegistered | CCNPreferencesWindowController/Swift/PreferencesWindowController.swift:395-400 | with unique identifiers, looking up a registered panel's identifier returns that panel |
| WindowFrame.NewWindowFrame | CCNPreferencesWindowController/Swift/PreferencesWindowController.swift:347-352 | the new frame has the panel's frame size and keeps the top edge; with centring it keeps the horizontal midpoint, otherwise the left edge |
| WindowFrame.NewWindowFrameIsUnique | CCNPreferencesWindowController/Swift/PreferencesWindowController.swift:350-352 | those four properties determine the new frame completely |
| WindowFrame.ResizeToSameSizeKeepsFrame | CCNPreferencesWindowController/Swift/PreferencesWindowController.swift:350-352 | resizing to the window's own size leaves the frame unchanged |
| ToolbarLayout.ItemLayoutRule | CCNPreferencesWindowController/Swift/PreferencesWindowController.swift:443-469 | segmented mode gives `[flex, segmented, flex]` whatever the panel count; native mode gives the panel identifiers in registration order, wrapped in one leading and one trailing flex exactly when centring is on |
| ToolbarLayout.NativeSelectionIsFirstPanel | CCNPreferencesWindowController/Swift/PreferencesWindowController.swift:235-237 | in native mode with some panel, the entry at index 1 (centred) or 0 exists and is the first panel's identifier |
| ToolbarLayout.LayoutItemsResolve | CCNPreferencesWindowController/Swift/PreferencesWindowController.swift:416 | every panel item in the layout resolves by lookup to a panel with that identifier |
| ToolbarLayout.BuildItemIdentifiers | CCNPreferencesWindowController/Swift/PreferencesWindowController.swift:443-469 | the appending loop returns exactly the item layout |
| Segments.SegmentSizeBounds | CCNPreferencesWindowController/Swift/PreferencesWindowController.swift:318-335 | any size meeting the segment-size specification is at least 42 wide and at least every title width plus 36 |
| Segments.MaxSegmentSizeIsFirstWidest | CCNPreferencesWindowController/Swift/PreferencesWindowController.swift:318-335 | the computed size is `(42, 0)` when no padded title is wider than 42, else the padded size (title width + 36, title height + 12) of the first widest panel, i.e. the last one that strictly raised the running maximum |
| Segments.SegmentSizeIsUnique | CCNPreferencesWindowController/Swift/PreferencesWindowController.swift:318-335 | the segment-size specification has one solution |
| Segments.SegmentSizeProperties | CCNPreferencesWindowController/Swift/PreferencesWindowController.swift:318-335 | width is at least 42 and every padded title width, equals 42 or some panel's padded size, and the height stays 0 unless some padded title is wider than 42 |
| Segments.MaxSegmentSize | CCNPreferencesWindowController/Swift/PreferencesWindowController.swift:318-335 | the running-maximum loop returns the specified segment size (the legacy loop at CCNPreferencesWindowController.swift:323-342 is the same) |
| Segments.ControlWidthIsSegmentsPlusBorders | CCNPreferencesWindowController/Swift/PreferencesWindowController.swift:303-304 | the control width `w*n + n + 1` is the sum of the n segment widths plus n + 1 border points |
| Segments.SegmentedControlLayout | CCNPreferencesWindowController/Swift/PreferencesWindowController.swift:301-315 | one segment per panel, labelled with its title, every segment the uniform width, the control as high as the segment size and as wide as the segments plus borders, nothing selected |
| Segments.IdentityTagsAreSegmentIndices | CCNPreferencesWindowController/Swift/PreferencesWindowController.swift:308-315 | the current class tags every segment i with i and writes no other tag |
| Segments.ShiftedTagsMissFirstSegment | CCNPreferencesWindowController/Swift/CCNPreferencesWindowController.swift:309-318 | the legacy counter never tags segment 0, tags segments 1..n-1 with their index, and its last write names segment n |
| ControllerState.RemoveFromSuperviewDetachesOnly | CCNPreferencesWindowController/Swift/PreferencesWindowController.swift:365-367 | removing a panel's view from the content view detaches that panel's view and no other |
| ControllerState.InitialSatisfiesInv | CCNPreferencesWindowController/Swift/PreferencesWindowController.swift:58-87 | a freshly created controller (no panels, nothing cached, no toolbar, no active panel) satisfies the invariant |
| ControllerState.ActivationDetachesOnlyPrevious | CCNPreferencesWindowController/Swift/PreferencesWindowController.swift:365-377 | activation detaches only the previously active panel's view and leaves the new panel's view attached last |
| ControllerState.ActivationEffects | CCNPreferencesWindowController/Swift/PreferencesWindowController.swift:340-393 | activation selects the panel's toolbar item, sets the title to the default title in segmented mode and the panel's title otherwise, sets the window frame by the frame formula (the panel's size, top edge kept, midpoint or left edge by the centring flag), commits the panel as active and changes nothing else |
| ControllerState.ActivationPreservesInv | CCNPreferencesWindowController/Swift/PreferencesWindowController.swift:340-393 | activation keeps the invariant |
| ControllerState.ToolbarSetUpPreservesInv | CCNPreferencesWindowController/Swift/PreferencesWindowController.swift:259-285 | setting up the toolbar restores the invariant from any state whose content shows the active panel |
| ControllerState.ToolbarSetUpRule | CCNPreferencesWindowController/Swift/PreferencesWindowController.swift:259-285 | setup clears the cache, installs an unselected toolbar exactly when the toolbar condition holds, builds the control for the current panels in segmented mode and keeps panels and active panel |
| ControllerState.SinglePanelToolbarDiffers | CCNPreferencesWindowController/Swift/CCNPreferencesWindowController.swift:256-260 | with one panel, native mode and no single-panel toolbar, the current class installs a toolbar and the legacy class does not |
| ControllerState.LegacyToolbarWithoutItems | CCNPreferencesWindowController/Swift/CCNPreferencesWindowController.swift:254-286 | with no panels and a single-panel toolbar or segmented mode, the legacy setup installs a toolbar with nothing cached and no panel, the state in which the default-item query's force-unwrap (:482) traps; a new controller given no panels reaches it |
| ControllerState.CurrentToolbarCondition | CCNPreferencesWindowController/Swift/PreferencesWindowController.swift:261-265 | the current class omits the toolbar exactly when there are no panels, native mode is on and no single-panel toolbar is wanted |
| ControllerState.PanelsReplacedInvalidates | CCNPreferencesWindowController/Swift/PreferencesWindowController.swift:63-67 | replacing the panels clears the cache, installs the new panels and keeps the active panel |
| ControllerState.CenteringSetRule | CCNPreferencesWindowController/Swift/PreferencesWindowController.swift:159-166 | assigning the centring flag its current value changes nothing; a real change clears the cache and sets the flag |
| ControllerState.ModeSetRule | CCNPreferencesWindowController/Swift/PreferencesWindowController.swift:143-151 | assigning the mode flag its current value changes nothing; a real change clears the cache, sets the flag and forces centring on |
| ControllerState.PanelsReplacedPreservesInv | CCNPreferencesWindowController/Swift/PreferencesWindowController.swift:63-67 | replacing the panels keeps the invariant |
| ControllerState.CenteringSetPreservesInv | CCNPreferencesWindowController/Swift/PreferencesWindowController.swift:159-166 | assigning the centring flag keeps the invariant |
| ControllerState.ModeSetPreservesInv | CCNPreferencesWindowController/Swift/PreferencesWindowController.swift:143-151 | assigning the mode flag keeps the invariant |
| ControllerState.VibrancySetPreservesInv | CCNPreferencesWindowController/Swift/PreferencesWindowController.swift:174-180 | assigning the vibrancy flag, which re-activates the active panel, keeps the invariant |
| ControllerState.DefaultItemsAreLayout | CCNPreferencesWindowController/Swift/PreferencesWindowController.swift:434-441 | the toolbar receives the layout of the current panels and flags, or `[]` with no panels; the cache is filled only when it was unset and some panel exists, and nothing else changes |
| ControllerState.DefaultItemsQueriedPreservesInv | CCNPreferencesWindowController/Swift/PreferencesWindowController.swift:434-441 | filling the cache keeps the invariant |
| ControllerState.PreselectionIsFirstPanel | CCNPreferencesWindowController/Swift/PreferencesWindowController.swift:231-239 | in native mode a coherent cache makes the preselected toolbar item the first panel's |
| ControllerState.InitialChoice | CCNPreferencesWindowController/Swift/PreferencesWindowController.swift:227-246 | the panel activated initially is the requested one, else the active one, else the first; the current class does nothing without panels |
| ControllerState.InitialSelectedPreservesInv | CCNPreferencesWindowController/Swift/PreferencesWindowController.swift:227-246 | the initial selection keeps the invariant |
| ControllerState.WindowShownPreservesInv | CCNPreferencesWindowController/Swift/PreferencesWindowController.swift:205-225 | showing the window keeps the invariant and leaves the window visible |
| ControllerState.UnknownIdentifierFallsBack | CCNPreferencesWindowController/Swift/PreferencesWindowController.swift:194-197 | showing the window on an unregistered identifier activates the active panel, else the first |
| ControllerState.ShowAgainKeepsActive | CCNPreferencesWindowController/Swift/PreferencesWindowController.swift:227-246 | showing a visible window without a request keeps the active panel |
| ControllerState.ToolbarClickGuards | CCNPreferencesWindowController/Swift/PreferencesWindowController.swift:481-510 | nothing is active while no panel is active; a click on an unknown or active target is a no-op (in the legacy class also while no panel is active); otherwise the looked-up panel is activated and becomes active |
| ControllerState.ToolbarClickIsIdempotent | CCNPreferencesWindowController/Swift/PreferencesWindowController.swift:481-487 | a second click on the same toolbar item changes nothing |
| ControllerState.ToolbarClickGenerationsDiffer | CCNPreferencesWindowController/Swift/CCNPreferencesWindowController.swift:498-507 | both classes agree once a panel is active; with none active the legacy class ignores the click and the current class activates the target |
| ControllerState.SegmentClickRule | CCNPreferencesWindowController/Swift/PreferencesWindowController.swift:489-498 | a segment click activates the tagged panel unless a panel with its identifier is active (legacy: only while some panel is active); a second click changes nothing |
| ControllerState.ClicksPreserveInv | CCNPreferencesWindowController/Swift/PreferencesWindowController.swift:481-498 | toolbar and segment clicks keep the invariant |
| PreferencesWindow.BuildSegmentedControl | CCNPreferencesWindowController/Swift/PreferencesWindowController.swift:287-316 | the segment loop builds exactly the specified control: labels, uniform widths and tags `i` for segment `i` |
| PreferencesWindow.PreferencesWindowController.constructor | CCNPreferencesWindowController/Swift/PreferencesWindowController.swift:78-87 | a new controller has the property defaults, nothing cached, no toolbar, no active panel and a hidden window with the given frame, and is valid |
| PreferencesWindow.PreferencesWindowController.SetViewControllers | CCNPreferencesWindowController/Swift/PreferencesWindowController.swift:63-67 | the fields become the panels-replaced state; validity is kept |
| PreferencesWindow.PreferencesWindowController.SetShowToolbarWithSingleViewController | CCNPreferencesWindowController/Swift/PreferencesWindowController.swift:135 | only the flag changes; validity is kept |
| PreferencesWindow.PreferencesWindowController.SetShowToolbarItemsAsSegmentedControl | CCNPreferencesWindowController/Swift/PreferencesWindowController.swift:143-151 | the fields become the mode-set state; validity is kept |
| PreferencesWindow.PreferencesWindowController.SetCenterToolbarItems | CCNPreferencesWindowController/Swift/PreferencesWindowController.swift:159-166 | the fields become the centring-set state; validity is kept |
| PreferencesWindow.PreferencesWindowController.SetAllowsVibrancy | CCNPreferencesWindowController/Swift/PreferencesWindowController.swift:174-180 | the flag is set and the active panel re-activated; validity is kept |
| PreferencesWindow.PreferencesWindowController.SetDefaultWindowTitle | CCNPreferencesWindowController/Swift/PreferencesWindowController.swift:338 | only the segmented-mode title changes; validity is kept |
| PreferencesWindow.PreferencesWindowController.ShowPreferencesWindow | CCNPreferencesWindowController/Swift/PreferencesWindowController.swift:205-225 | the fields become the window-shown state; the window is visible and validity is kept |
| PreferencesWindow.PreferencesWindowController.ShowPreferencesWindowWithIdentifier | CCNPreferencesWindowController/Swift/PreferencesWindowController.swift:194-197 | shows the window on the looked-up panel, if any; validity is kept |
| PreferencesWindow.PreferencesWindowController.SelectInitialPreferencesViewController | CCNPreferencesWindowController/Swift/PreferencesWindowController.swift:227-246 | the fields become the initially-selected state |
| PreferencesWindow.PreferencesWindowController.PreselectToolbarItem | CCNPreferencesWindowController/Swift/PreferencesWindowController.swift:231-239 | segment 0 is selected in segmented mode, the cached entry at index 1 or 0 otherwise |
| PreferencesWindow.PreferencesWindowController.DismissPreferencesWindow | CCNPreferencesWindowController/Swift/PreferencesWindowController.swift:252-255 | only the window's visibility changes; validity is kept |
| PreferencesWindow.PreferencesWindowController.SetupToolbar | CCNPreferencesWindowController/Swift/PreferencesWindowController.swift:259-285 | the fields become the toolbar-set-up state |
| PreferencesWindow.PreferencesWindowController.SetupSegmentedControl | CCNPreferencesWindowController/Swift/PreferencesWindowController.swift:287-316 | the control field holds the control built for the current panels |
| PreferencesWindow.PreferencesWindowController.ActivateViewController | CCNPreferencesWindowController/Swift/PreferencesWindowController.swift:340-393 | the fields become the activated state, with the active panel assigned last |
| PreferencesWindow.PreferencesWindowController.ViewController | CCNPreferencesWindowController/Swift/PreferencesWindowController.swift:395-400 | the result is the first registered panel with the identifier, or none |
| PreferencesWindow.PreferencesWindowController.IsActiveViewController | CCNPreferencesWindowController/Swift/PreferencesWindowController.swift:505-510 | false whenever no panel is active |
| PreferencesWindow.PreferencesWindowController.ToolbarDefaultItemIdentifiers | CCNPreferencesWindowController/Swift/PreferencesWindowController.swift:434-441 | returns the default items and fills the cache as specified; validity is kept |
| PreferencesWindow.PreferencesWindowController.ToolbarAllowedItemIdentifiers | CCNPreferencesWindowController/Swift/PreferencesWindowController.swift:471-474 | returns the same list as the default items |
| PreferencesWindow.PreferencesWindowController.ToolbarSelectableItemIdentifiers | CCNPreferencesWindowController/Swift/PreferencesWindowController.swift:476-479 | returns the same list as the default items |
| PreferencesWindow.PreferencesWindowController.ToolbarItemAction | CCNPreferencesWindowController/Swift/PreferencesWindowController.swift:481-487 | the fields become the toolbar-clicked state; validity is kept |
| PreferencesWindow.PreferencesWindowController.SegmentedControlAction | CCNPreferencesWindowController/Swift/PreferencesWindowController.swift:489-498 | the fields become the segment-clicked state for a tag indexing a panel; validity is kept |
| CCNPreferencesWindow.BuildLegacySegmentedControl | CCNPreferencesWindowController/Swift/CCNPreferencesWindowController.swift:288-321 | the loop with its pre-incremented counter builds the specified control with the shifted tag writes |
| CCNPreferencesWindow.CCNPreferencesWindowController.constructor | CCNPreferencesWindowController/Swift/CCNPreferencesWindowController.swift:69-78 | a new controller has the legacy property defaults, the fixed default title, nothing cached, no active panel and a hidden window with the given frame, and is valid |
| CCNPreferencesWindow.CCNPreferencesWindowController.SetViewControllers | CCNPreferencesWindowController/Swift/CCNPreferencesWindowController.swift:54-58 | the fields become the panels-replaced state under the legacy toolbar condition; validity is kept |
| CCNPreferencesWindow.CCNPreferencesWindowController.SetShowToolbarWithSingleViewController | CCNPreferencesWindowController/Swift/CCNPreferencesWindowController.swift:126 | only the flag changes; validity is kept |
| CCNPreferencesWindow.CCNPreferencesWindowController.SetShowToolbarItemsAsSegmentedControl | CCNPreferencesWindowController/Swift/CCNPreferencesWindowController.swift:134-142 | the fields become the mode-set state; validity is kept |
| CCNPreferencesWindow.CCNPreferencesWindowController.SetCenterToolbarItems | CCNPreferencesWindowController/Swift/CCNPreferencesWindowController.swift:150-157 | the fields become the centring-set state; validity is kept |
| CCNPreferencesWindow.CCNPreferencesWindowController.SetAllowsVibrancy | CCNPreferencesWindowController/Swift/CCNPreferencesWindowController.swift:165-171 | the flag is set and the active panel re-activated; validity is kept |
| CCNPreferencesWindow.CCNPreferencesWindowController.ShowPreferencesWindow | CCNPreferencesWindowController/Swift/CCNPreferencesWindowController.swift:191-211 | the fields become the window-shown state, given some panel to select; the window is visible and validity is kept |
| CCNPreferencesWindow.CCNPreferencesWindowController.ShowPreferencesWindowWithIdentifier | CCNPreferencesWindowController/Swift/CCNPreferencesWindowController.swift:179-183 | shows the window on the looked-up panel, if any; validity is kept |
| CCNPreferencesWindow.CCNPreferencesWindowController.SelectInitialPreferencesViewController | CCNPreferencesWindowController/Swift/CCNPreferencesWindowController.swift:213-240 | the fields become the initially-selected state, given some panel to select |
| CCNPreferencesWindow.CCNPreferencesWindowController.PreselectToolbarItem | CCNPreferencesWindowController/Swift/CCNPreferencesWindowController.swift:215-224 | segment 0 is selected in segmented mode, the cached entry at index 1 or 0 otherwise |
| CCNPreferencesWindow.CCNPreferencesWindowController.DismissPreferencesWindow | CCNPreferencesWindowController/Swift/CCNPreferencesWindowController.swift:246-250 | only the window's visibility changes; validity is kept |
| CCNPreferencesWindow.CCNPreferencesWindowController.SetupToolbar | CCNPreferencesWindowController/Swift/CCNPreferencesWindowController.swift:254-286 | the fields become the toolbar-set-up state under the legacy condition |
| CCNPreferencesWindow.CCNPreferencesWindowController.SetupSegmentedControl | CCNPreferencesWindowController/Swift/CCNPreferencesWindowController.swift:288-321 | the control field holds the legacy control built for the current panels |
| CCNPreferencesWindow.CCNPreferencesWindowController.ActivateViewController | CCNPreferencesWindowController/Swift/CCNPreferencesWindowController.swift:344-398 | the fields become the activated state, with the fixed title in segmented mode and the active panel assigned last |
| CCNPreferencesWindow.CCNPreferencesWindowController.ViewControllerWithIdentifier | CCNPreferencesWindowController/Swift/CCNPreferencesWindowController.swift:400-405 | the result is the first panel whose identifier string matches, or none |
| CCNPreferencesWindow.CCNPreferencesWindowController.ToolbarDefaultItemIdentifiers | CCNPreferencesWindowController/Swift/CCNPreferencesWindowController.swift:451-484 | given a cached list or a panel, returns the default items and fills the cache as specified; validity is kept |
| CCNPreferencesWindow.CCNPreferencesWindowController.AppendDefaultItemIdentifiers | CCNPreferencesWindowController/Swift/CCNPreferencesWindowController.swift:453-481 | appending into the cache field leaves it holding exactly the item layout |
| CCNPreferencesWindow.CCNPreferencesWindowController.ToolbarAllowedItemIdentifiers | CCNPreferencesWindowController/Swift/CCNPreferencesWindowController.swift:486-490 | returns the same list as the default items |
| CCNPreferencesWindow.CCNPreferencesWindowController.ToolbarSelectableItemIdentifiers | CCNPreferencesWindowController/Swift/CCNPreferencesWindowController.swift:492-496 | returns the same list as the default items |
| CCNPreferencesWindow.CCNPreferencesWindowController.ToolbarItemAction | CCNPreferencesWindowController/Swift/CCNPreferencesWindowController.swift:498-507 | the fields become the legacy toolbar-clicked state; validity is kept |
| CCNPreferencesWindow.CCNPreferencesWindowController.SegmentedControlAction | CCNPreferencesWindowController/Swift/CCNPreferencesWindowController.swift:509-522 | the fields become the legacy segment-clicked state; validity is kept |

## Left out

- Window creation, style masks, title-bar transparency, the toolbar separator, `NSApplication.activate` and frame autosave are AppKit calls with no logic of their own.
- `window.center()` is a screen computation; the origin it produces is the `centred` parameter of the show methods.
- Animation duration, timing function and alpha fades are visual and not modelled.
- The deferred commit of activation is not modelled. In the source, `activeViewController` is written only in the animation's completion handler (PreferencesWindowController.swift:391, CCNPreferencesWindowController.swift:396), and clicks and the vibrancy observer animate for 0.25 s, so during that time every guard still sees the previous panel. The model assumes each completion handler runs before the next event, making activation one step whose last write is the commit. Under that assumption only:
  - `ControllerState.ToolbarClickIsIdempotent` and the second-click clause of `ControllerState.SegmentClickRule` hold; in the source a second click on the same item during the animation activates it again.
  - `ControllerState.ClicksPreserveInv` keeps the content part of `Inv`; in the source, clicking B and then C before B's completion tries to remove the still-committed previous panel's view (already detached) instead of B's, leaving B's view attached beside C's.
- The window's initial frame is an input of the constructors: AppKit derives it from the 420 x 230 content rectangle with `frameRect(forContentRect:)`, and the window subclass may replace it with the autosaved frame (`setFrameFrom`).
- Text measurement of titles and `frameRect(forContentRect:)` are library calls; each panel carries its measured title size and its window-frame size as inputs.
- `CGFloat` arithmetic is modelled over `real`, without rounding.
- Localisation of the default title is not modelled; the current class's title starts as its unlocalised value "Preferences".
- First-responder transfer is focus handling with no controller state.
- The escape-key handler of both window subclasses (PreferencesWindowController.swift:542-552, CCNPreferencesWindowController.swift:551-561) hides the window with `orderOut` and `close`; its effect on the modelled state is that of `DismissPreferencesWindow`, and it is not modelled as a separate key event.
- Panel identifiers are assumed to differ from the two reserved toolbar identifiers: the flexible space ("NSToolbarFlexibleSpaceItem") and the segmented control ("CCNPreferencesToolbarSegmentedControl", legacy "PreferencesToolbarSegmentedControl"). In the source all three are strings of one type, and the item-for-identifier delegate tests the reserved ones before looking up a panel (PreferencesWindowController.swift:406-413, CCNPreferencesWindowController.swift:411-421). A panel carrying a reserved identifier would get a spacer or the segmented control instead of its own item. `ItemId` keeps the three kinds apart, so `ToolbarLayout.ItemLayoutRule` and `ToolbarLayout.LayoutItemsResolve` hold only under this assumption.
- The `NSToolbarItem` built by the item-for-identifier delegate (label, image, tooltip, target) is an AppKit object. The model keeps only the fact that every panel item in the layout resolves to a registered panel (`ToolbarLayout.LayoutItemsResolve`).
- The segmented control's display style and segment style are visual; the control keeps its frame, labels, segment widths, tag writes and selected tag.
- The cast of the control's cell to `NSSegmentedCell` is taken to succeed. The tag a clicked segment reports is the click's input, because the legacy tags depend on the cell's default tags.
- The missing-window paths are left out: the `preconditionFailure` of both classes' show methods when no window exists (PreferencesWindowController.swift:207, CCNPreferencesWindowController.swift:193), and activation's early return when the view controller or window is missing. The model's controller always has its window.
- The string-identifier `showPreferencesWindow(preferencesIdentifier:)` overload of the current class converts the string and behaves like `ShowPreferencesWindowWithIdentifier`.
- The example panels in the sample application are not part of this model.
