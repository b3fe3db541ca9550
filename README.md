# egui_collapsible_dock — a verified model of the collapsible dock and toolbar

`egui_collapsible_dock` adds VS Code–style collapsible side panels to egui.
A `CollapsibleDockPanel` sits on one edge: left, right, top or bottom. It
either shows a narrow strip of icon buttons or a full docking area. Between
the two it animates, and it remembers its collapse flag and size in egui's
memory store. A second, self-contained component, `CollapsibleToolbar`, keeps
a list of tabs with a selection state. That state changes when the user
clicks buttons on a collapsed strip, on a tab bar or on its close button.
Note that `src/collapsible_toolbar.rs` is not declared as a module of the
crate.

This project models both components in Dafny and proves properties of the
model:

- `common.dfy` holds the shared vocabulary:
  - `Option`;
  - egui `Id`s as derivation trees (`Id::new`, `id.with(..)`);
  - the "last clicked index" that both click loops leave behind.
- `dock_state.dfy` holds the per-edge state aggregate `CollapsibleDockState`:
  - its collapse and size mutators;
  - its `save_to_memory` / `load_from_memory` round trip against the store,
    modelled as `map<Id, CollapsibleDockState>`.
- `dock_animation.dfy` holds the pure decisions of a frame:
  - the ease-in-out-cubic curve;
  - the collapsed extent 14 + 2·6 = 26;
  - the validated and animated extents, with thresholds at 0.01 and 0.99;
  - the region request handed to egui: resizable or locked to the animated
    extent, and its `_collapsed` / `_expanded` id;
  - the content dispatch: the strip below 0.3, the dock above 0.7, a spinner
    in between.
- `dock_icons.dfy` holds the strip buttons and the string-to-icon lookups.
- `dock_panel.dfy` holds the panel itself, as a class whose methods update
  its fields. Its `Show` method is proved equal to a pure `Step` function,
  which takes the frame's inputs as parameters:
  - the animator's value;
  - the realised rectangle;
  - the clicked strip buttons;
  - the expand caret.

  The lemmas about `Step` state the per-frame promises: load once, early
  exit, resize hysteresis, strip clicks and write-back. A multi-frame lemma
  shows that collapse cycles do not lose a panel's size.
- `toolbar_title.dfy` holds the collapsed toolbar's short-title rule, on
  UTF-8 bytes.
- `toolbar.dfy` holds the toolbar's selection state machine. It has:
  - its two click loops, as methods proved against fold functions;
  - one frame, `Show`, proved against `ToolbarStep`, which draws the panel on
    every frame;
  - the frame as the source writes it, `ToolbarStepAsWritten`, which draws
    the content only when egui's `show_animated` does, and a multi-frame
    lemma showing that a collapsed toolbar then never reopens (see Findings);
  - the selection invariant: a tab is selected exactly while the toolbar is
    expanded, and a selected index is in range. Every frame preserves it for
    what is stored.

External inputs are parameters, and the store is a map that is passed in and
returned. The inputs are:

- egui's animator value (`animate_value_with_time`);
- the rectangle egui realised;
- which buttons reported a click;
- whether egui's `show_animated` calls a toolbar's content this frame, which
  it does only once the expansion animation has finished;
- the tab titles (`TabViewer::title`).

Sizes are `real`: only `+ − ×`, `min`, `max` and comparisons occur.

## Model

| member | source | states |
|---|---|---|
| `Common.LastClicked` | src/dock_collapsible.rs:677-698 | the index a click loop leaves behind; `LastClickedIsLargest` states what it is |
| `Common.LastClickedIsLargest` | src/dock_collapsible.rs:677-698 | the index a click loop remembers is the largest clicked index, and none exactly when no button was clicked |
| `DockState.DefaultDockState` | src/dock_collapsible.rs:40-77 | all four sides present: expanded, size 300, minimum 150, no maximum, resizable; duration 0.2; persistence on |
| `DockState.IsPanelCollapsed` | src/dock_collapsible.rs:93-95 | the side's collapse flag, false for a missing side |
| `DockState.GetPanelSize` | src/dock_collapsible.rs:129-134 | the side's size, 300 for a missing side |
| `DockState.SetPanelCollapsed` | src/dock_collapsible.rs:86-90 | sets the flag; changes no other field or side; no-op for a missing side |
| `DockState.TogglePanel` | src/dock_collapsible.rs:98-102 | flips the flag; keeps the size and every other side; no-op for a missing side |
| `DockState.ToggleTwice` | src/dock_collapsible.rs:98-102 | toggling twice gives back the whole state |
| `DockState.SubstituteSmall` | src/dock_collapsible.rs:108-113 | a request below 100 becomes 300; any other is kept |
| `DockState.SetPanelSize` | src/dock_collapsible.rs:105-126 | stores the substituted size, clamped to `max_size` when there is one; keeps the collapse flag, the other fields and the other sides |
| `DockState.SetPanelSizeIgnoresMinSize` | src/dock_collapsible.rs:105-126 | a request of at least 100 below `min_size` is stored as is: there is no lower clamp |
| `DockState.StoreKey` | src/dock_collapsible.rs:137-153 | the store key `id.with("dock_state")` is distinct from the panel id |
| `DockState.SaveToMemory` | src/dock_collapsible.rs:137-144 | writes the aggregate under the key only with persistence on; touches no other key |
| `DockState.LoadFromMemory` | src/dock_collapsible.rs:147-153 | returns the stored aggregate; for an absent key returns the default and inserts it |
| `DockState.SaveLoadRoundTrip` | src/dock_collapsible.rs:137-153 | with persistence on, loading after saving returns the saved state and leaves the store as the save left it |
| `DockState.SaveWithoutPersistence` | src/dock_collapsible.rs:137-144 | with persistence off, a save does not change what a later load returns |
| `DockState.LoadIsStable` | src/dock_collapsible.rs:147-153 | a second load returns the same state and changes the store no further |
| `DockState.LoadAbsentIsDefault` | src/dock_collapsible.rs:147-153 | loading an absent key yields all four sides expanded at size 300, with persistence on |
| `DockAnimation.Ease` | src/dock_collapsible.rs:8-14 | the ease-in-out-cubic curve; its range, fixed points, halves and monotonicity are the lemmas below |
| `DockAnimation.EaseFixedPoints` | src/dock_collapsible.rs:8-14 | ease(0) = 0, ease(0.5) = 0.5, ease(1) = 1 |
| `DockAnimation.EaseHalves` | src/dock_collapsible.rs:8-14 | the two branches of the curve: below 0.5 it stays in [0, 0.5), from 0.5 on it lies in [0.5, 1] |
| `DockAnimation.EaseRange` | src/dock_collapsible.rs:8-14 | maps [0, 1] into [0, 1], and (0, 1) into (0, 1) |
| `DockAnimation.EaseMonotone` | src/dock_collapsible.rs:8-14 | non-decreasing on [0, 1] |
| `DockAnimation.CollapsedSizeIs26` | src/dock_collapsible.rs:389-392 | the collapsed extent 14 + 2·6 is 26 |
| `DockAnimation.DefaultExpandedSize` | src/dock_collapsible.rs:397-399 | `max(2·min_size, 300)`: at least 300 and at least twice the minimum |
| `DockAnimation.ValidatedSize` | src/dock_collapsible.rs:397-406 | a saved size of at least 100 is used as is; a smaller one is replaced by the default expanded size; the result is at least 100 |
| `DockAnimation.AnimatedSize` | src/dock_collapsible.rs:409-417 | the drawn extent: 26, the validated size, or the eased interpolation between them; bounds and monotonicity are the lemmas below |
| `DockAnimation.AnimatedSizeBounds` | src/dock_collapsible.rs:409-417 | exactly 26 below 0.01; exactly the validated size above 0.99; always between the two, strictly in between while animating |
| `DockAnimation.AnimatedSizeMonotone` | src/dock_collapsible.rs:409-417 | the drawn extent grows with the animation value across both thresholds |
| `DockAnimation.IsResizable` | src/dock_collapsible.rs:437 | resizable only when not collapsed, configured resizable and the animation is above 0.99 (used by `Region` and `StepRegion`) |
| `DockAnimation.RegionId` | src/dock_collapsible.rs:420-424 | the region id is derived from the panel's state id |
| `DockAnimation.RegionIdsDiffer` | src/dock_collapsible.rs:420-424 | different sides, or the collapsed and expanded regimes of one side, get different region ids |
| `DockAnimation.Region` | src/dock_collapsible.rs:437-455 | resizable iff not collapsed, configured resizable and animation above 0.99; then bounds `[min_size, max_size or ∞]` with the validated size as default; otherwise min = max = default = animated extent |
| `DockAnimation.LockedRegionWithinBounds` | src/dock_collapsible.rs:447-454 | a locked region's extent lies between 26 and the validated size |
| `DockAnimation.ContentFor` | src/dock_collapsible.rs:459-470 | the icon strip iff below 0.3, the dock iff above 0.7, the spinner otherwise |
| `DockIcons.NewButton` | src/dock_collapsible.rs:170-177 | a button with its text, no icon, no tooltip, not selected |
| `DockIcons.WithIcon` | src/dock_collapsible.rs:179-182 | sets the icon and nothing else |
| `DockIcons.WithTooltip` | src/dock_collapsible.rs:184-187 | sets the tooltip and nothing else |
| `DockIcons.Selected` | src/dock_collapsible.rs:189-192 | sets the selected flag and nothing else |
| `DockIcons.HoverText` | src/dock_collapsible.rs:780-786 | the tooltip when there is one, else the button text |
| `DockIcons.SvgName` | src/dock_collapsible.rs:799-805 | a name exactly when the icon string starts with "svg:", and the icon is "svg:" followed by that name |
| `DockIcons.DrawnSvgIcon` | src/dock_collapsible.rs:1064-1120 | the seven tags `draw_custom_svg_icon` draws, anything else the dot; `SvgIconRoundTrip` and `DrawnSvgIconFallback` state it |
| `DockIcons.CustomButtonIcon` | src/dock_collapsible.rs:992-1016 | the six tags `render_custom_svg_button` recognises; `SvgIconRoundTrip` states it |
| `DockIcons.SvgIconRoundTrip` | src/dock_collapsible.rs:1078-1120 | every custom icon is found from its tag; the horizontal strip's lookup finds all but "Close" |
| `DockIcons.DrawnSvgIconFallback` | src/dock_collapsible.rs:1078-1120 | any name other than the seven tags falls back to the dot |
| `DockIcons.PhosphorIconFor` | src/dock_collapsible.rs:808-818 | the Phosphor glyph for a button text, the circle otherwise; `PhosphorLookup` states it |
| `DockIcons.HandGlyphFor` | src/dock_collapsible.rs:920-988 | the hand-drawn glyph for the three known texts, the dot otherwise; `VerticalStripIcon` uses it |
| `DockIcons.PhosphorLookup` | src/dock_collapsible.rs:808-818 | each of the eight glyphs is chosen exactly for its own text; every other text gets the circle |
| `DockIcons.HorizontalStripIcon` | src/dock_collapsible.rs:798-818 | a custom icon iff the icon is tagged "svg:", otherwise the Phosphor glyph for the text |
| `DockIcons.VerticalStripIcon` | src/dock_collapsible.rs:894-908 | the custom icon after "svg:", otherwise the hand-drawn glyph chosen from the text |
| `DockIcons.StripsAgreeOnCustomIcons` | src/dock_collapsible.rs:999-1016 | both strips show the same custom icon for a tag, except "Close", which only the vertical strip draws |
| `DockPanel.ApplyMinSize` | src/dock_collapsible.rs:252-261 | sets the minimum; replaces a size below 1.5·min by `max(2·min, 300)` and keeps any other; other fields and sides unchanged |
| `DockPanel.ApplyMinSizeLeavesRoom` | src/dock_collapsible.rs:252-261 | afterwards the size is at least 1.5·min, and at least 300 if it was replaced |
| `DockPanel.ApplyMaxSize` | src/dock_collapsible.rs:264-269 | sets the maximum of the panel's side only |
| `DockPanel.ApplyResizable` | src/dock_collapsible.rs:272-277 | sets the resizable flag of the panel's side only |
| `DockPanel.RealizedExtent` | src/dock_collapsible.rs:591-594 | the width for left/right panels, the height for top/bottom ones |
| `DockPanel.AdoptLoaded` | src/dock_collapsible.rs:321-337 | copies the loaded collapse flag, and the loaded size when at least 100, else `max(2·min_size, 300)`; only for the panel's side; min, max and resizable kept |
| `DockPanel.LoadPhase` | src/dock_collapsible.rs:320-340 | reads the store only while not loaded, then marks it loaded; afterwards returns the model and store untouched |
| `DockPanel.Highlighted` | src/dock_collapsible.rs:677-682 | a vertical-strip button is marked active exactly when the panel is not collapsed and it is the recorded active button; the highlighted index names a button; the horizontal strip highlights nothing |
| `DockPanel.StripPhase` | src/dock_collapsible.rs:650-748 | the top/bottom caret or a button click expands; a button click records the last clicked button as active; the size and other sides stay |
| `DockPanel.Reconcile` | src/dock_collapsible.rs:589-604 | write-back of a user resize only while the region is resizable and more than 5 units off, through `set_panel_size` (corrected guard, see Findings) |
| `DockPanel.ReconcileAsWritten` | src/dock_collapsible.rs:589-604 | the write-back as written: guarded by "not collapsed" only |
| `DockPanel.FramePhase` | src/dock_collapsible.rs:365-607 | requests the region for the frame-start collapse flag, dispatches the content and runs the strip clicks only for the strip; the new own-side state and active button are the strip's (or unchanged for the other contents) followed by the corrected write-back `Reconcile` |
| `DockPanel.Step` | src/dock_collapsible.rs:318-362 | one `show`: loaded afterwards; side, id and buttons kept; only the panel's side changes |
| `DockPanel.StepLoadsOnce` | src/dock_collapsible.rs:320-340 | once loaded, a frame's panel and view do not depend on the store |
| `DockPanel.FirstFrameAdoptsStoredSize` | src/dock_collapsible.rs:320-340 | the first frame adopts the stored flag, and the stored size or, below 100, at least 300 |
| `DockPanel.CollapsedWithoutButtonsIsHidden` | src/dock_collapsible.rs:345-348 | a collapsed panel without buttons draws nothing, writes nothing back and keeps its state |
| `DockPanel.StepSizeHysteresis` | src/dock_collapsible.rs:589-604 | a frame changes the size only if its region was resizable and the realised extent was more than 5 off, and then to `set_panel_size(actual)` |
| `DockPanel.StripClickExpands` | src/dock_collapsible.rs:723-743 | a strip click below animation 0.3 expands the panel and records the last clicked button as active |
| `DockPanel.StepPersists` | src/dock_collapsible.rs:358-359 | a drawn frame with persistence on stores the panel's final state under its key |
| `DockPanel.StepRegion` | src/dock_collapsible.rs:420-455 | a drawn frame's region has the regime's id; it is resizable iff expanded, configured and above 0.99; else locked between 26 and the validated size |
| `DockPanel.Run` | src/dock_collapsible.rs:285-293 | a sequence of frames, toggles and collapse changes keeps side, id, buttons and the other sides |
| `DockPanel.SizeSurvivesCollapseCycles` | src/dock_collapsible.rs:589-604 | any sequence of toggles, collapse changes and frames without a user resize leaves a loaded panel's size unchanged |
| `DockPanel.AsWrittenReconcileShrinksWhileExpanding` | src/dock_collapsible.rs:590-604 | half-way through expanding, the default left panel's region is locked to 163; the as-written write-back stores 163, the corrected one keeps 300 |
| `DockPanel.ClickedButton` | src/dock_collapsible.rs:677-698 | the button loop's result is the last clicked index below the button count |
| `DockPanel.CollapsibleDockPanel.constructor` | src/dock_collapsible.rs:219-231 | default state, no buttons, first button active, not yet loaded |
| `DockPanel.CollapsibleDockPanel.AddButton` | src/dock_collapsible.rs:246-249 | appends the button; nothing else changes |
| `DockPanel.CollapsibleDockPanel.WithMinSize` | src/dock_collapsible.rs:252-261 | the state becomes `ApplyMinSize` of the old one |
| `DockPanel.CollapsibleDockPanel.WithMaxSize` | src/dock_collapsible.rs:264-269 | the state becomes `ApplyMaxSize` of the old one |
| `DockPanel.CollapsibleDockPanel.Resizable` | src/dock_collapsible.rs:272-277 | the state becomes `ApplyResizable` of the old one |
| `DockPanel.CollapsibleDockPanel.IsCollapsed` | src/dock_collapsible.rs:280-282 | the collapse flag of the panel's side |
| `DockPanel.CollapsibleDockPanel.Toggle` | src/dock_collapsible.rs:285-287 | flips the flag, keeps the size, changes nothing else |
| `DockPanel.CollapsibleDockPanel.SetCollapsed` | src/dock_collapsible.rs:290-293 | sets the flag, keeps the size, changes nothing else |
| `DockPanel.CollapsibleDockPanel.GetSize` | src/dock_collapsible.rs:296-298 | the size of the panel's side |
| `DockPanel.CollapsibleDockPanel.SetSize` | src/dock_collapsible.rs:301-303 | the state becomes `SetPanelSize` of the old one; the flag is kept |
| `DockPanel.CollapsibleDockPanel.SetActiveButton` | src/dock_collapsible.rs:306-310 | records the index only when it names a button, otherwise changes nothing |
| `DockPanel.CollapsibleDockPanel.GetActiveButton` | src/dock_collapsible.rs:313-315 | the recorded active button |
| `DockPanel.CollapsibleDockPanel.Show` | src/dock_collapsible.rs:318-362 | the fields, store and view after the call are exactly `Step` of the old fields; all sides stay present |
| `DockPanel.CollapsibleDockPanel.ShowUnified` | src/dock_collapsible.rs:365-607 | the fields and view are exactly `FramePhase` of the old fields |
| `DockPanel.CollapsibleDockPanel.ShowCollapsedContent` | src/dock_collapsible.rs:650-748 | the fields and strip are exactly `StripPhase` of the old fields |
| `ToolbarTitle.FindSpace` | src/collapsible_toolbar.rs:322 | the index of the first space, or none exactly when the title has no space |
| `ToolbarTitle.ShortTitleAsWritten` | src/collapsible_toolbar.rs:322-326 | the prefix before the first space, else the first min(2, len) bytes, or a panic where that cut is not a character boundary |
| `ToolbarTitle.ShortTitleAsWrittenPanics` | src/collapsible_toolbar.rs:322-326 | the source panics exactly for a title without a space whose third byte continues a multi-byte character |
| `ToolbarTitle.IsCharBoundary` | src/collapsible_toolbar.rs:325 | `str::is_char_boundary`: the two ends, and every position whose byte does not continue a character |
| `ToolbarTitle.NextBoundary` | src/collapsible_toolbar.rs:325 | the end of the character starting at a byte: the next character boundary |
| `ToolbarTitle.TwoCharsEnd` | src/collapsible_toolbar.rs:325 | the end of the first two characters is a character boundary within the title |
| `ToolbarTitle.ShortTitle` | src/collapsible_toolbar.rs:322-326 | a prefix of the title ending on a character boundary: the part before the first space when there is one (corrected rule, see Findings) |
| `ToolbarTitle.ShortTitleIsTwoCharacters` | src/collapsible_toolbar.rs:324-326 | without a space, the short title is non-empty for a non-empty title and holds at most two characters, exactly two when shorter than the title |
| `ToolbarTitle.ShortTitleAgreesWithSource` | src/collapsible_toolbar.rs:322-326 | the corrected rule gives the source's label exactly when there is a space, the title has at most two bytes, or its first two bytes are whole characters |
| `ToolbarTitle.TwoByteFirstCharacterTitle` | src/collapsible_toolbar.rs:347-351 | for "éa" the source does not panic but labels the tab "é", while the short title is "éa" |
| `ToolbarTitle.SceneTreeTitle` | src/collapsible_toolbar.rs:347-351 | for "场景树" the source's label panics, while the short title is "场景" |
| `Toolbar.DefaultToolbarState` | src/collapsible_toolbar.rs:40-48 | no tabs, nothing selected, not expanded |
| `Toolbar.DefaultToolbarStateValid` | src/collapsible_toolbar.rs:40-48 | the default state satisfies the selection invariant |
| `Toolbar.New` | src/collapsible_toolbar.rs:73-83 | the side and default tabs given, persistence off, minimum size 200, resizable |
| `Toolbar.WithPersist` | src/collapsible_toolbar.rs:86-89 | sets the persistence flag and nothing else |
| `Toolbar.WithMinSize` | src/collapsible_toolbar.rs:104-107 | sets the minimum size and nothing else |
| `Toolbar.WithResizable` | src/collapsible_toolbar.rs:110-113 | sets the resizable flag and nothing else |
| `Toolbar.CollapsedExtent` | src/collapsible_toolbar.rs:187-233 | the collapsed extent: 16 for left and right, 35 for top and bottom (used by `SizeBounds`) |
| `Toolbar.SizeBounds` | src/collapsible_toolbar.rs:186-260 | range from 16 (left/right) or 35 (top/bottom) up to twice the minimum size; default the minimum size when expanded, the collapsed extent otherwise; resizable iff resizable and expanded |
| `Toolbar.SizeBoundsOrdered` | src/collapsible_toolbar.rs:200-202 | with a minimum size no smaller than the collapsed extent, the default extent lies in the range |
| `Toolbar.TabBarClick` | src/collapsible_toolbar.rs:387-397 | re-clicking the selected tab deselects and collapses; another tab is selected and expanded; the invariant is preserved |
| `Toolbar.Close` | src/collapsible_toolbar.rs:417-420 | deselects and collapses, which satisfies the invariant |
| `Toolbar.StripClick` | src/collapsible_toolbar.rs:332-335 | selects the tab and expands, which satisfies the invariant for an index in range |
| `Toolbar.TabBarClicks` | src/collapsible_toolbar.rs:377-397 | the tab-bar loop keeps the tabs and preserves the invariant |
| `Toolbar.TabBarFlags` | src/collapsible_toolbar.rs:377-383 | each button is drawn selected iff the selection, as the earlier clicks left it, names it |
| `Toolbar.StripClicks` | src/collapsible_toolbar.rs:317-336 | the collapsed-strip loop keeps the tabs and preserves the invariant |
| `Toolbar.StripLastClickWins` | src/collapsible_toolbar.rs:342-361 | the strip loop selects the last clicked tab and expands, and changes nothing without a click |
| `Toolbar.TabBarUnclicked` | src/collapsible_toolbar.rs:377-397 | tabs nobody clicked leave the tab-bar loop's state as it was |
| `Toolbar.TabBarSingleClick` | src/collapsible_toolbar.rs:387-397 | one click on the tab bar acts as a single `TabBarClick` on that tab |
| `Toolbar.TabBarNoClicks` | src/collapsible_toolbar.rs:377-383 | without clicks the tab bar changes nothing and draws exactly the selected tab as selected |
| `Toolbar.TabBarSelectionTail` | src/collapsible_toolbar.rs:387-397 | once the loop holds no selection or one behind it, it keeps that up to every later position |
| `Toolbar.TabBarFlagsAtMostOne` | src/collapsible_toolbar.rs:377-383 | the tab bar draws at most one tab as selected, whatever was clicked |
| `Toolbar.Titles` | src/collapsible_toolbar.rs:381 | each tab-bar button shows its tab's full title |
| `Toolbar.ShortLabels` | src/collapsible_toolbar.rs:321-328 | each collapsed-strip button shows its tab's short title |
| `Toolbar.StateKey` | src/collapsible_toolbar.rs:123 | the key `id.with("toolbar_state")` is distinct from the toolbar id |
| `Toolbar.LoadState` | src/collapsible_toolbar.rs:143-161 | the stored state, or one seeded with the default tabs, no selection and collapsed, which is inserted and satisfies the invariant |
| `Toolbar.SaveState` | src/collapsible_toolbar.rs:164-172 | always writes the state under the key; no other key changes |
| `Toolbar.WithDefaultTabs` | src/collapsible_toolbar.rs:129-131 | an empty tab list is replaced by the default tabs; the selection is kept and the invariant preserved |
| `Toolbar.ShowContent` | src/collapsible_toolbar.rs:266-302 | expanded: the state is the tab-bar fold, then the close button; the view has the titles, the tab bar's selected flags, and the selected tab's content exactly when it names a tab; collapsed: the strip fold and the short labels; the invariant is preserved |
| `Toolbar.FrameState` | src/collapsible_toolbar.rs:125-131 | the loaded selection and expansion, or none and collapsed when nothing is stored; the stored tabs, or the default tabs when none or an empty list is stored |
| `Toolbar.ToolbarStep` | src/collapsible_toolbar.rs:116-140 | one `show` with the panel drawn (corrected, see Findings): something is drawn, the final state is stored under its key and no other key changes |
| `Toolbar.ToolbarStepAsWritten` | src/collapsible_toolbar.rs:116-262 | one `show` through `show_animated`: the final state is stored under its key and no other key changes |
| `Toolbar.AsWrittenToolbarStep` | src/collapsible_toolbar.rs:185-262 | as written, a frame egui shows is the corrected frame; any other draws nothing and saves the loaded state; a collapsed one asks for the locked collapsed extent |
| `Toolbar.RunAsWritten` | src/collapsible_toolbar.rs:116-140 | a sequence of frames as written yields one view per frame and stores the toolbar's state |
| `Toolbar.CollapsedToolbarNeverOpens` | src/collapsible_toolbar.rs:204 | as written, a collapsed or new toolbar never draws anything and never expands, over any sequence of frames |
| `Toolbar.ToolbarStepKeepsSelectionValid` | src/collapsible_toolbar.rs:116-140 | a frame that loads a valid state, or none, ends in and stores a valid one |
| `Toolbar.ToolbarStepTabs` | src/collapsible_toolbar.rs:126-131 | the frame's tabs are the stored ones, or the default tabs when none or an empty list is stored |
| `Toolbar.StripClickReopens` | src/collapsible_toolbar.rs:305-364 | with the panel drawn, a strip click on a collapsed toolbar selects the last clicked tab, expands it, and the frame draws the strip of short labels |
| `Toolbar.ShowTabBar` | src/collapsible_toolbar.rs:367-424 | the in-place tab-bar loop computes `TabBarClicks`, the titles and the selected flags |
| `Toolbar.ShowCollapsedTabs` | src/collapsible_toolbar.rs:305-364 | the in-place strip loop computes `StripClicks` and the short labels |
| `Toolbar.Show` | src/collapsible_toolbar.rs:116-140 | view, bounds and store are exactly `ToolbarStep` (the corrected frame); a valid stored state stays valid |

## Left out

- Rendering is left out: egui painting, frames and margins, layouts and
  spacing, the spinner, separators, tooltips and the hand-drawn icon routines
  (src/dock_collapsible.rs:836-1341). The model keeps only which icon, label
  or highlight each button gets.
- The egui animator `animate_value_with_time` is left out. Its value is a
  frame input, so the 0.2-second duration (and the `animation_duration`
  field, which `show` does not read) is not modelled.
- egui's panel layout is left out. The model passes in the realised rectangle
  rather than deriving it from the requested region.
- Three egui_dock features are opaque. The `DockArea` that
  `show_expanded_content` draws is only the content kind `Dock`, and
  `with_dock_state` and `with_frame` are not modelled.
- Serialization is not modelled. On the toolbar side, the
  persisted-versus-temporary distinction is not modelled either: both kinds
  of store write the same map.
- f32 arithmetic is modelled as exact reals, `powi(3)` as a product, and
  `usize` as `nat`.
- The `println!` diagnostics are left out.
- `show_collapsed_button` is never called and is not modelled, except for its
  hover text, which `HoverText` shares with the called buttons.
- The toolbar's context-menu "close tab" entry (`TabViewer::closable`) has no
  effect in the source, so it is not modelled. `TabViewer::ui` is not
  modelled: the model records which tab's content is drawn.
- `src/lib.rs` (re-exports) and the demo programs are not part of this model.
- `DockPanel.Step` uses the corrected write-back guard `DockPanel.Reconcile`,
  and so do `DockPanel.FramePhase` and
  `DockPanel.CollapsibleDockPanel.ShowUnified`. The source's guard is kept as
  `DockPanel.ReconcileAsWritten` (see Findings).
- `Toolbar.ShortLabels` uses the corrected `ToolbarTitle.ShortTitle`. It
  differs from the source in two cases. Where the source would panic, the
  model draws the first two characters. Where the first character is two
  bytes long and the second starts at byte 2 (for example "éa"), the source
  draws one character and the model draws two (see Findings).
- `Toolbar.Show` and `Toolbar.ToolbarStep` draw the panel on every frame, as
  egui's plain `show` would. The source's `show_animated` is kept as
  `Toolbar.ToolbarStepAsWritten`, and the animated placeholder egui draws
  during the animation is not modelled (see Findings).
- egui's `show_animated` is not part of this model. Its behaviour (the
  content runs only once the expansion has finished) is the input
  `contentShown` together with the toolbar's expansion flag.

## Findings

| source | as written | input that shows it | evidently intended | confidence | as-written member | corrected member |
|---|---|---|---|---|---|---|
| src/dock_collapsible.rs:590-604 | the resize write-back runs whenever the frame started expanded, including during the expand animation, when the region is locked to the animated extent | default state, left panel, expanding at animation 0.5: the region is locked to 163, egui realises 163, and the stored size 300 becomes 163 (and can shrink further on later animation frames) | write back only when the region is resizable (not collapsed, resizable, animation above 0.99), i.e. only a user drag | medium, not executed | `DockPanel.ReconcileAsWritten` (counterexample `DockPanel.AsWrittenReconcileShrinksWhileExpanding`) | `DockPanel.Reconcile` (with `DockPanel.SizeSurvivesCollapseCycles`) |
| src/collapsible_toolbar.rs:322-326 | without a space, the label slices the title at byte `min(2, len)`, which Rust rejects with a panic when that byte is inside a multi-byte character; the same rule is at lines 347-351 | a tab titled "场景树" (E5 9C BA …), or any title without a space whose third byte continues a character, e.g. "aé"; without a panic, "éa" (C3 A9 61) is cut at byte 2 and labelled with one character, "é" | the first two characters, as the comment says: "场景", and "éa" | high, not executed | `ToolbarTitle.ShortTitleAsWritten` (counterexamples `ToolbarTitle.SceneTreeTitle` and `ToolbarTitle.TwoByteFirstCharacterTitle`, characterisation `ToolbarTitle.ShortTitleAsWrittenPanics`) | `ToolbarTitle.ShortTitle` (with `ToolbarTitle.ShortTitleIsTwoCharacters`, `ToolbarTitle.ShortTitleAgreesWithSource`) |
| src/collapsible_toolbar.rs:204 | the panel is drawn with `show_animated(ctx, state.is_expanded, ..)` (also at lines 227, 242 and 257), which calls the content only once the panel is fully expanded; the collapsed strip of lines 305-364 is never drawn, and the default state is collapsed | a new toolbar, with any clicks on any number of frames: it is never drawn and never expands | draw the panel on every frame (plain `show`, as src/dock_collapsible.rs:457 does), so that the 16- or 35-unit collapsed strip is shown and its clicks reopen the toolbar | medium, not executed; rests on egui's `show_animated`, which is not part of this model | `Toolbar.ToolbarStepAsWritten` (with `Toolbar.RunAsWritten` and `Toolbar.CollapsedToolbarNeverOpens`) | `Toolbar.ToolbarStep` (with `Toolbar.StripClickReopens`, used by `Toolbar.Show`) |
