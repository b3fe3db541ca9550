/** The collapsible toolbar: a selection state machine over a list of tabs,
    loaded from and saved to the egui memory store on every frame, and
    driven by clicks on the collapsed strip, the tab bar and its close
    button (src/collapsible_toolbar.rs). */
module Toolbar {
  import opened Common
  import opened ToolbarTitle

  datatype PanelSide = Left | Right | Top | Bottom

  /** `ToolbarState<Tab>`. */
  datatype ToolbarState<Tab> = ToolbarState(tabs: seq<Tab>, selectedTab: Option<nat>, isExpanded: bool)

  function DefaultToolbarState<Tab>(): (s: ToolbarState<Tab>)
    ensures s.tabs == [] && s.selectedTab.None? && !s.isExpanded
  {
    ToolbarState([], None, false)
  }

  /** A tab is selected exactly while the toolbar is expanded, and a selected
      index names one of the tabs. */
  predicate SelectionValid<Tab>(s: ToolbarState<Tab>)
  {
    && (s.selectedTab.Some? <==> s.isExpanded)
    && (s.selectedTab.Some? ==> s.selectedTab.value < |s.tabs|)
  }

  /** The default state satisfies the selection invariant. */
  lemma DefaultToolbarStateValid<Tab>()
    ensures SelectionValid(DefaultToolbarState<Tab>())
  {
  }

  /** The builder (frame styles left out). */
  datatype CollapsibleToolbar<Tab> = CollapsibleToolbar(
    side: PanelSide,
    defaultTabs: seq<Tab>,
    persist: bool,
    minSize: real,
    resizable: bool)

  const DefaultMinSize: real := 200.0

  function New<Tab>(side: PanelSide, defaultTabs: seq<Tab>): (t: CollapsibleToolbar<Tab>)
    ensures t.side == side && t.defaultTabs == defaultTabs
    ensures !t.persist && t.minSize == DefaultMinSize && t.resizable
  {
    CollapsibleToolbar(side, defaultTabs, false, DefaultMinSize, true)
  }

  function WithPersist<Tab>(t: CollapsibleToolbar<Tab>, persist: bool): (r: CollapsibleToolbar<Tab>)
    ensures r.persist == persist
    ensures r.side == t.side && r.defaultTabs == t.defaultTabs && r.minSize == t.minSize && r.resizable == t.resizable
  {
    t.(persist := persist)
  }

  function WithMinSize<Tab>(t: CollapsibleToolbar<Tab>, size: real): (r: CollapsibleToolbar<Tab>)
    ensures r.minSize == size
    ensures r.side == t.side && r.defaultTabs == t.defaultTabs && r.persist == t.persist && r.resizable == t.resizable
  {
    t.(minSize := size)
  }

  function WithResizable<Tab>(t: CollapsibleToolbar<Tab>, resizable: bool): (r: CollapsibleToolbar<Tab>)
    ensures r.resizable == resizable
    ensures r.side == t.side && r.defaultTabs == t.defaultTabs && r.persist == t.persist && r.minSize == t.minSize
  {
    t.(resizable := resizable)
  }

  // ---------------------------------------------------------------------
  // Size bounds of the egui panel

  /** The collapsed extent: a 16-unit strip at the sides, 35 units at the top
      and bottom. */
  function CollapsedExtent(side: PanelSide): real
  {
    if side == Left || side == Right then 16.0 else 35.0
  }

  datatype PanelBounds = PanelBounds(minExtent: real, maxExtent: real, defaultExtent: real, resizable: bool)

  function SizeBounds<Tab>(t: CollapsibleToolbar<Tab>, expanded: bool): (b: PanelBounds)
    ensures b.minExtent == CollapsedExtent(t.side) && b.maxExtent == t.minSize * 2.0
    ensures b.defaultExtent == (if expanded then t.minSize else CollapsedExtent(t.side))
    ensures b.resizable <==> t.resizable && expanded
  {
    var collapsed := CollapsedExtent(t.side);
    PanelBounds(collapsed, t.minSize * 2.0, if expanded then t.minSize else collapsed, t.resizable && expanded)
  }

  /** With a minimum size no smaller than the collapsed extent, the default
      extent lies within the range, expanded or not. */
  lemma SizeBoundsOrdered<Tab>(t: CollapsibleToolbar<Tab>, expanded: bool)
    requires t.minSize >= CollapsedExtent(t.side)
    ensures var b := SizeBounds(t, expanded);
            b.minExtent <= b.defaultExtent <= b.maxExtent
  {
  }

  // ---------------------------------------------------------------------
  // Click transitions

  /** A tab-bar click: on the selected tab it collapses the toolbar, on any
      other it selects that tab and expands. */
  function TabBarClick<Tab>(s: ToolbarState<Tab>, idx: nat): (r: ToolbarState<Tab>)
    ensures r.tabs == s.tabs
    ensures s.selectedTab == Some(idx) ==> r.selectedTab.None? && !r.isExpanded
    ensures s.selectedTab != Some(idx) ==> r.selectedTab == Some(idx) && r.isExpanded
    ensures SelectionValid(s) && idx < |s.tabs| ==> SelectionValid(r)
  {
    if s.selectedTab == Some(idx) then s.(selectedTab := None, isExpanded := false)
    else s.(selectedTab := Some(idx), isExpanded := true)
  }

  /** The close button of the tab bar. */
  function Close<Tab>(s: ToolbarState<Tab>): (r: ToolbarState<Tab>)
    ensures r.tabs == s.tabs && r.selectedTab.None? && !r.isExpanded
    ensures SelectionValid(r)
  {
    s.(isExpanded := false, selectedTab := None)
  }

  /** A click on a collapsed-strip button: selects that tab and expands. */
  function StripClick<Tab>(s: ToolbarState<Tab>, idx: nat): (r: ToolbarState<Tab>)
    ensures r.tabs == s.tabs && r.selectedTab == Some(idx) && r.isExpanded
    ensures idx < |s.tabs| ==> SelectionValid(r)
  {
    s.(selectedTab := Some(idx), isExpanded := true)
  }

  /** The tab-bar loop over the first `n` tabs: each clicked tab is handled
      against the state the earlier tabs left. */
  function TabBarClicks<Tab>(s: ToolbarState<Tab>, clicked: set<nat>, n: nat): (r: ToolbarState<Tab>)
    ensures r.tabs == s.tabs
    ensures SelectionValid(s) && n <= |s.tabs| ==> SelectionValid(r)
  {
    if n == 0 then s
    else
      var p := TabBarClicks(s, clicked, n - 1);
      if n - 1 in clicked then TabBarClick(p, n - 1) else p
  }

  /** Whether each of the first `n` tab-bar buttons is drawn selected: the
      loop tests the selection as the earlier clicks left it. */
  function TabBarFlags<Tab>(s: ToolbarState<Tab>, clicked: set<nat>, n: nat): (flags: seq<bool>)
    ensures |flags| == n
    ensures forall j :: 0 <= j < n ==> flags[j] == (TabBarClicks(s, clicked, j).selectedTab == Some(j))
  {
    if n == 0 then []
    else TabBarFlags(s, clicked, n - 1) + [TabBarClicks(s, clicked, n - 1).selectedTab == Some(n - 1)]
  }

  /** The collapsed-strip loop over the first `n` tabs. */
  function StripClicks<Tab>(s: ToolbarState<Tab>, clicked: set<nat>, n: nat): (r: ToolbarState<Tab>)
    ensures r.tabs == s.tabs
    ensures SelectionValid(s) && n <= |s.tabs| ==> SelectionValid(r)
  {
    if n == 0 then s
    else
      var p := StripClicks(s, clicked, n - 1);
      if n - 1 in clicked then StripClick(p, n - 1) else p
  }

  /** In the collapsed strip the last clicked tab wins, and no click leaves
      the state alone. */
  lemma {:induction false} StripLastClickWins<Tab>(s: ToolbarState<Tab>, clicked: set<nat>, n: nat)
    ensures var c := LastClicked(clicked, n);
            StripClicks(s, clicked, n) == (if c.Some? then StripClick(s, c.value) else s)
  {
    if n > 0 && n - 1 !in clicked {
      StripLastClickWins(s, clicked, n - 1);
    }
  }

  /** Tabs nobody clicked leave the loop's state as it was. */
  lemma {:induction false} TabBarUnclicked<Tab>(s: ToolbarState<Tab>, clicked: set<nat>, m: nat, n: nat)
    requires m <= n
    requires forall i :: m <= i < n ==> i !in clicked
    ensures TabBarClicks(s, clicked, n) == TabBarClicks(s, clicked, m)
    decreases n - m
  {
    if m < n {
      TabBarUnclicked(s, clicked, m, n - 1);
    }
  }

  /** A single click on the tab bar is one `TabBarClick`: re-clicking the
      selected tab collapses, clicking another selects it and expands. */
  lemma TabBarSingleClick<Tab>(s: ToolbarState<Tab>, idx: nat, n: nat)
    requires idx < n
    ensures TabBarClicks(s, {idx}, n) == TabBarClick(s, idx)
  {
    TabBarUnclicked(s, {idx}, 0, idx);
    TabBarUnclicked(s, {idx}, idx + 1, n);
  }

  /** Without clicks the tab bar changes nothing and draws exactly the
      selected tab as selected. */
  lemma TabBarNoClicks<Tab>(s: ToolbarState<Tab>, n: nat)
    ensures TabBarClicks(s, {}, n) == s
    ensures forall k :: 0 <= k < n ==> TabBarFlags(s, {}, n)[k] == (s.selectedTab == Some(k))
  {
    TabBarUnclicked(s, {}, 0, n);
    forall k | 0 <= k < n
      ensures TabBarFlags(s, {}, n)[k] == (s.selectedTab == Some(k))
    {
      TabBarUnclicked(s, {}, 0, k);
    }
  }

  /** Once the loop has handled a click it holds no selection or one below
      its position, and keeps that up to every later position. */
  lemma {:induction false} TabBarSelectionTail<Tab>(s: ToolbarState<Tab>, clicked: set<nat>, m: nat, n: nat)
    requires m <= n
    requires TabBarClicks(s, clicked, m).selectedTab.None? || TabBarClicks(s, clicked, m).selectedTab.value < m
    ensures TabBarClicks(s, clicked, n).selectedTab.None? || TabBarClicks(s, clicked, n).selectedTab.value < n
    decreases n - m
  {
    if m < n {
      TabBarSelectionTail(s, clicked, m + 1, n);
    }
  }

  /** The tab bar draws at most one tab as selected. */
  lemma TabBarFlagsAtMostOne<Tab>(s: ToolbarState<Tab>, clicked: set<nat>, n: nat)
    ensures var flags := TabBarFlags(s, clicked, n);
            forall j, k :: 0 <= j < k < n && flags[j] ==> !flags[k]
  {
    var flags := TabBarFlags(s, clicked, n);
    forall j, k | 0 <= j < k < n && flags[j]
      ensures !flags[k]
    {
      if i :| j <= i < k && i in clicked {
        TabBarSelectionTail(s, clicked, i + 1, k);
      } else {
        TabBarUnclicked(s, clicked, j, k);
      }
    }
  }

  // ---------------------------------------------------------------------
  // Labels

  function Titles<Tab>(tabs: seq<Tab>, title: Tab -> seq<byte>): (r: seq<seq<byte>>)
    ensures |r| == |tabs| && forall i :: 0 <= i < |tabs| ==> r[i] == title(tabs[i])
  {
    if tabs == [] then [] else Titles(tabs[..|tabs| - 1], title) + [title(tabs[|tabs| - 1])]
  }

  function ShortLabels<Tab>(tabs: seq<Tab>, title: Tab -> seq<byte>): (r: seq<seq<byte>>)
    ensures |r| == |tabs| && forall i :: 0 <= i < |tabs| ==> r[i] == ShortTitle(title(tabs[i]))
  {
    if tabs == [] then [] else ShortLabels(tabs[..|tabs| - 1], title) + [ShortTitle(title(tabs[|tabs| - 1]))]
  }

  // ---------------------------------------------------------------------
  // One frame

  type ToolbarStore<Tab> = map<Id, ToolbarState<Tab>>

  /** The store key `id.with("toolbar_state")`. */
  function StateKey(id: Id): (k: Id)
    ensures k != id
  {
    With(id, "toolbar_state")
  }

  /** `load_state`: the stored state, or one seeded with the default tabs,
      which is also inserted into the store. */
  function LoadState<Tab>(t: CollapsibleToolbar<Tab>, store: ToolbarStore<Tab>, key: Id): (r: (ToolbarState<Tab>, ToolbarStore<Tab>))
    ensures key in store ==> r == (store[key], store)
    ensures key !in store ==>
              && r.0 == ToolbarState(t.defaultTabs, None, false)
              && r.1 == store[key := r.0]
    ensures key !in store ==> SelectionValid(r.0)
  {
    if key in store then (store[key], store)
    else
      var seeded := ToolbarState(t.defaultTabs, None, false);
      (seeded, store[key := seeded])
  }

  /** `save_state`: always writes the state (persisted or temporary alike). */
  function SaveState<Tab>(store: ToolbarStore<Tab>, key: Id, s: ToolbarState<Tab>): (r: ToolbarStore<Tab>)
    ensures key in r && r[key] == s
    ensures r.Keys == store.Keys + {key}
    ensures forall k :: k in store && k != key ==> r[k] == store[k]
  {
    store[key := s]
  }

  /** An empty tab list is replaced by the default tabs. */
  function WithDefaultTabs<Tab>(t: CollapsibleToolbar<Tab>, s: ToolbarState<Tab>): (r: ToolbarState<Tab>)
    ensures s.tabs == [] ==> r.tabs == t.defaultTabs
    ensures s.tabs != [] ==> r.tabs == s.tabs
    ensures r.selectedTab == s.selectedTab && r.isExpanded == s.isExpanded
    ensures SelectionValid(s) ==> SelectionValid(r)
  {
    if s.tabs == [] then s.(tabs := t.defaultTabs) else s
  }

  /** What one frame's user did: clicks on collapsed-strip buttons, on
      tab-bar buttons and on the close button. `contentShown` says whether
      egui's `show_animated` calls the panel's content this frame: it does so
      only once the expansion animation has reached 1, which needs the panel
      to be expanded; while that animation runs and while the panel
      collapses it draws an empty placeholder, and once collapsed nothing. */
  datatype ToolbarInput = ToolbarInput(
    contentShown: bool,
    stripClicks: set<nat>,
    tabClicks: set<nat>,
    closeClicked: bool)

  /** What was drawn: the collapsed strip's labels, or the tab bar's titles
      with their selected flags and the tab whose content was drawn. */
  datatype ToolbarView =
    | CollapsedStrip(vertical: bool, labels: seq<seq<byte>>)
    | ExpandedTabs(titles: seq<seq<byte>>, selected: seq<bool>, shownTab: Option<nat>)

  datatype ToolbarResult<Tab> = ToolbarResult(
    state: ToolbarState<Tab>,
    bounds: PanelBounds,
    view: Option<ToolbarView>,
    store: ToolbarStore<Tab>)

  /** `show_content`: expanded, the tab bar, then the close button, then the
      selected tab's content; collapsed, the strip of short labels. */
  function ShowContent<Tab>(t: CollapsibleToolbar<Tab>, s: ToolbarState<Tab>, title: Tab -> seq<byte>, input: ToolbarInput): (r: (ToolbarState<Tab>, ToolbarView))
    ensures r.0.tabs == s.tabs
    ensures SelectionValid(s) ==> SelectionValid(r.0)
    ensures s.isExpanded ==>
              var s1 := TabBarClicks(s, input.tabClicks, |s.tabs|);
              && r.0 == (if input.closeClicked then Close(s1) else s1)
              && r.1.ExpandedTabs?
              && r.1.titles == Titles(s.tabs, title)
              && r.1.selected == TabBarFlags(s, input.tabClicks, |s.tabs|)
    ensures s.isExpanded && input.closeClicked ==> r.0.selectedTab.None? && !r.0.isExpanded
    ensures r.1.ExpandedTabs? ==>
              (r.1.shownTab.Some? <==> r.0.selectedTab.Some? && r.0.selectedTab.value < |s.tabs|)
              && (r.1.shownTab.Some? ==> r.1.shownTab == r.0.selectedTab)
    ensures SelectionValid(s) && r.1.ExpandedTabs? && r.1.shownTab.None? ==> r.0.selectedTab.None?
    ensures !s.isExpanded ==>
              && r.0 == StripClicks(s, input.stripClicks, |s.tabs|)
              && r.1 == CollapsedStrip(t.side == Left || t.side == Right, ShortLabels(s.tabs, title))
  {
    if s.isExpanded then
      var s1 := TabBarClicks(s, input.tabClicks, |s.tabs|);
      var s2 := if input.closeClicked then Close(s1) else s1;
      var shown := if s2.selectedTab.Some? && s2.selectedTab.value < |s2.tabs| then s2.selectedTab else None;
      (s2, ExpandedTabs(Titles(s.tabs, title), TabBarFlags(s, input.tabClicks, |s.tabs|), shown))
    else
      (StripClicks(s, input.stripClicks, |s.tabs|),
       CollapsedStrip(t.side == Left || t.side == Right, ShortLabels(s.tabs, title)))
  }

  /** The state a frame works on: the loaded one, with an empty tab list
      replaced by the default tabs. */
  function FrameState<Tab>(t: CollapsibleToolbar<Tab>, store: ToolbarStore<Tab>, id: Id): (s: ToolbarState<Tab>)
    ensures var key := StateKey(id);
            && s.tabs == (if key in store && store[key].tabs != [] then store[key].tabs else t.defaultTabs)
            && (key in store ==> s.selectedTab == store[key].selectedTab && s.isExpanded == store[key].isExpanded)
            && (key !in store ==> s.selectedTab.None? && !s.isExpanded)
  {
    WithDefaultTabs(t, LoadState(t, store, StateKey(id)).0)
  }

  /** `show` with the panel drawn on every frame (egui's plain `show`, as the
      dock panel uses it), so that the collapsed strip is on screen while the
      toolbar is collapsed: load, default the tabs, lay out the panel, handle
      the content's clicks and save. */
  function ToolbarStep<Tab>(t: CollapsibleToolbar<Tab>, store: ToolbarStore<Tab>, id: Id, title: Tab -> seq<byte>, input: ToolbarInput): (r: ToolbarResult<Tab>)
    ensures var key := StateKey(id);
            key in r.store && r.store[key] == r.state
    ensures forall k :: k in store && k != StateKey(id) ==> k in r.store && r.store[k] == store[k]
    ensures r.view.Some?
  {
    var key := StateKey(id);
    var st := LoadState(t, store, key).1;
    var s := FrameState(t, store, id);
    var (s', v) := ShowContent(t, s, title, input);
    ToolbarResult(s', SizeBounds(t, s.isExpanded), Some(v), SaveState(st, key, s'))
  }

  /** `show` as the source writes it, through `show_animated`: the content
      runs only while the toolbar is expanded and egui shows it; otherwise
      nothing is drawn and the loaded state is saved back. */
  function ToolbarStepAsWritten<Tab>(t: CollapsibleToolbar<Tab>, store: ToolbarStore<Tab>, id: Id, title: Tab -> seq<byte>, input: ToolbarInput): (r: ToolbarResult<Tab>)
    ensures var key := StateKey(id);
            key in r.store && r.store[key] == r.state
    ensures forall k :: k in store && k != StateKey(id) ==> k in r.store && r.store[k] == store[k]
  {
    var s := FrameState(t, store, id);
    if s.isExpanded && input.contentShown then ToolbarStep(t, store, id, title, input)
    else
      var key := StateKey(id);
      ToolbarResult(s, SizeBounds(t, s.isExpanded), None, SaveState(LoadState(t, store, key).1, key, s))
  }

  /** The selection invariant holds of everything the toolbar stores: a frame
      that loads a valid state (or none) saves a valid one. */
  lemma ToolbarStepKeepsSelectionValid<Tab>(t: CollapsibleToolbar<Tab>, store: ToolbarStore<Tab>, id: Id, title: Tab -> seq<byte>, input: ToolbarInput)
    requires StateKey(id) in store ==> SelectionValid(store[StateKey(id)])
    ensures SelectionValid(ToolbarStep(t, store, id, title, input).state)
    ensures SelectionValid(ToolbarStep(t, store, id, title, input).store[StateKey(id)])
  {
  }

  /** The tabs a frame works on: the stored ones, or the default tabs when
      none are stored or the stored list is empty; no click changes them. */
  lemma ToolbarStepTabs<Tab>(t: CollapsibleToolbar<Tab>, store: ToolbarStore<Tab>, id: Id, title: Tab -> seq<byte>, input: ToolbarInput)
    ensures var key := StateKey(id);
            var r := ToolbarStep(t, store, id, title, input);
            r.state.tabs == (if key in store && store[key].tabs != [] then store[key].tabs else t.defaultTabs)
  {
  }

  /** As written, a frame that egui shows is the frame of `show`; any other
      draws nothing, keeps the loaded state and asks for the locked extent of
      its expansion. */
  lemma AsWrittenToolbarStep<Tab>(t: CollapsibleToolbar<Tab>, store: ToolbarStore<Tab>, id: Id, title: Tab -> seq<byte>, input: ToolbarInput)
    ensures var s := FrameState(t, store, id);
            var r := ToolbarStepAsWritten(t, store, id, title, input);
            && (s.isExpanded && input.contentShown ==> r == ToolbarStep(t, store, id, title, input))
            && (!(s.isExpanded && input.contentShown) ==> r.view.None? && r.state == s)
            && (!s.isExpanded ==> !r.bounds.resizable && r.bounds.defaultExtent == CollapsedExtent(t.side))
  {
  }

  /** Frames of the toolbar as written, one per input, threading the store;
      the views of the frames in order. */
  function RunAsWritten<Tab>(t: CollapsibleToolbar<Tab>, store: ToolbarStore<Tab>, id: Id, title: Tab -> seq<byte>, inputs: seq<ToolbarInput>): (r: (ToolbarStore<Tab>, seq<Option<ToolbarView>>))
    ensures |r.1| == |inputs|
    ensures inputs != [] ==> StateKey(id) in r.0
    decreases |inputs|
  {
    if inputs == [] then (store, [])
    else
      var first := ToolbarStepAsWritten(t, store, id, title, inputs[0]);
      var rest := RunAsWritten(t, first.store, id, title, inputs[1..]);
      (rest.0, [first.view] + rest.1)
  }

  /** As written, a toolbar that is collapsed (or has no stored state yet, and
      so starts collapsed) is never drawn again and never expands, whatever
      the user does: its strip is the only way to reopen it. */
  lemma {:induction false} CollapsedToolbarNeverOpens<Tab>(t: CollapsibleToolbar<Tab>, store: ToolbarStore<Tab>, id: Id, title: Tab -> seq<byte>, inputs: seq<ToolbarInput>)
    requires StateKey(id) in store ==> !store[StateKey(id)].isExpanded
    ensures var r := RunAsWritten(t, store, id, title, inputs);
            && (StateKey(id) in r.0 ==> !r.0[StateKey(id)].isExpanded)
            && forall i :: 0 <= i < |r.1| ==> r.1[i].None?
    decreases |inputs|
  {
    if inputs != [] {
      var first := ToolbarStepAsWritten(t, store, id, title, inputs[0]);
      AsWrittenToolbarStep(t, store, id, title, inputs[0]);
      CollapsedToolbarNeverOpens(t, first.store, id, title, inputs[1..]);
      var rest := RunAsWritten(t, first.store, id, title, inputs[1..]);
      assert RunAsWritten(t, store, id, title, inputs).1 == [first.view] + rest.1;
    }
  }

  /** With the panel drawn on every frame, a strip click on a collapsed
      toolbar selects the last clicked tab and expands it again, and the
      frame draws the strip. */
  lemma StripClickReopens<Tab>(t: CollapsibleToolbar<Tab>, store: ToolbarStore<Tab>, id: Id, title: Tab -> seq<byte>, input: ToolbarInput, k: nat)
    requires !FrameState(t, store, id).isExpanded
    requires var tabs := FrameState(t, store, id).tabs;
             k < |tabs| && k in input.stripClicks && forall j :: k < j < |tabs| ==> j !in input.stripClicks
    ensures var r := ToolbarStep(t, store, id, title, input);
            && r.state.selectedTab == Some(k) && r.state.isExpanded
            && r.view == Some(CollapsedStrip(t.side == Left || t.side == Right, ShortLabels(FrameState(t, store, id).tabs, title)))
  {
    var s := FrameState(t, store, id);
    LastClickedIsLargest(input.stripClicks, |s.tabs|);
    StripLastClickWins(s, input.stripClicks, |s.tabs|);
  }

  // ---------------------------------------------------------------------
  // The imperative frame

  /** The tab-bar loop, updating the state in place. */
  method ShowTabBar<Tab>(s: ToolbarState<Tab>, title: Tab -> seq<byte>, clicked: set<nat>)
    returns (r: ToolbarState<Tab>, titles: seq<seq<byte>>, selected: seq<bool>)
    ensures r == TabBarClicks(s, clicked, |s.tabs|)
    ensures titles == Titles(s.tabs, title) && selected == TabBarFlags(s, clicked, |s.tabs|)
  {
    r := s;
    titles, selected := [], [];
    var idx := 0;
    while idx < |s.tabs|
      invariant 0 <= idx <= |s.tabs|
      invariant r == TabBarClicks(s, clicked, idx)
      invariant titles == Titles(s.tabs[..idx], title)
      invariant selected == TabBarFlags(s, clicked, idx)
    {
      var isSelected := r.selectedTab == Some(idx);
      titles := titles + [title(s.tabs[idx])];
      selected := selected + [isSelected];
      if idx in clicked {
        if isSelected {
          r := r.(selectedTab := None, isExpanded := false);
        } else {
          r := r.(selectedTab := Some(idx), isExpanded := true);
        }
      }
      assert s.tabs[..idx + 1][..idx] == s.tabs[..idx];
      idx := idx + 1;
    }
    assert s.tabs[..idx] == s.tabs;
  }

  /** The collapsed-strip loop, updating the state in place. */
  method ShowCollapsedTabs<Tab>(s: ToolbarState<Tab>, title: Tab -> seq<byte>, clicked: set<nat>)
    returns (r: ToolbarState<Tab>, labels: seq<seq<byte>>)
    ensures r == StripClicks(s, clicked, |s.tabs|)
    ensures labels == ShortLabels(s.tabs, title)
  {
    r := s;
    labels := [];
    var idx := 0;
    while idx < |s.tabs|
      invariant 0 <= idx <= |s.tabs|
      invariant r == StripClicks(s, clicked, idx)
      invariant labels == ShortLabels(s.tabs[..idx], title)
    {
      labels := labels + [ShortTitle(title(s.tabs[idx]))];
      if idx in clicked {
        r := r.(selectedTab := Some(idx), isExpanded := true);
      }
      assert s.tabs[..idx + 1][..idx] == s.tabs[..idx];
      idx := idx + 1;
    }
    assert s.tabs[..idx] == s.tabs;
  }

  /** `show`, with the store passed in and returned, and the panel drawn on
      every frame. */
  method Show<Tab>(t: CollapsibleToolbar<Tab>, store: ToolbarStore<Tab>, id: Id, title: Tab -> seq<byte>, input: ToolbarInput)
    returns (view: Option<ToolbarView>, bounds: PanelBounds, store': ToolbarStore<Tab>)
    ensures var r := ToolbarStep(t, store, id, title, input);
            view == r.view && bounds == r.bounds && store' == r.store
    ensures (StateKey(id) in store ==> SelectionValid(store[StateKey(id)])) ==> SelectionValid(store'[StateKey(id)])
  {
    var key := StateKey(id);
    var loaded := LoadState(t, store, key);
    var state := loaded.0;
    store' := loaded.1;
    if state.tabs == [] {
      state := state.(tabs := t.defaultTabs);
    }
    bounds := SizeBounds(t, state.isExpanded);
    if state.isExpanded {
      var titles, selected;
      state, titles, selected := ShowTabBar(state, title, input.tabClicks);
      if input.closeClicked {
        state := state.(isExpanded := false, selectedTab := None);
      }
      var shown := if state.selectedTab.Some? && state.selectedTab.value < |state.tabs| then state.selectedTab else None;
      view := Some(ExpandedTabs(titles, selected, shown));
    } else {
      var labels;
      state, labels := ShowCollapsedTabs(state, title, input.stripClicks);
      view := Some(CollapsedStrip(t.side == Left || t.side == Right, labels));
    }
    store' := SaveState(store', key, state);
    if key !in store || SelectionValid(store[key]) {
      ToolbarStepKeepsSelectionValid(t, store, id, title, input);
    }
  }
}
