/** One collapsible dock panel: its builder, its accessors and the per-frame
    `show` step that loads state once, asks egui for a region, dispatches the
    content, takes strip clicks, reconciles a user resize and writes the state
    back (src/dock_collapsible.rs, lines 195-362, 365-607, 649-748). */
module DockPanel {
  import opened Common
  import opened DockState
  import opened DockAnimation
  import opened DockIcons

  // ---------------------------------------------------------------------
  // Builder updates of the panel's own side

  /** `with_min_size`: sets the minimum, and replaces a size below 1.5 times
      the minimum by the default expanded size `max(2 * min, 300)`. */
  function ApplyMinSize(d: CollapsibleDockState, side: PanelSide, minSize: real): (r: CollapsibleDockState)
    ensures side !in d.panels ==> r == d
    ensures SameExceptSide(d, r, side)
    ensures side in d.panels ==>
              var p, q := d.panels[side], r.panels[side];
              && q.minSize == minSize
              && (p.size < minSize * 1.5 ==> q.size == DefaultExpandedSize(minSize))
              && (p.size >= minSize * 1.5 ==> q.size == p.size)
              && q.collapsed == p.collapsed && q.maxSize == p.maxSize && q.resizable == p.resizable
  {
    if side in d.panels then
      var p := d.panels[side];
      var size := if p.size < minSize * 1.5 then DefaultExpandedSize(minSize) else p.size;
      d.(panels := d.panels[side := p.(minSize := minSize, size := size)])
    else d
  }

  /** `with_min_size` never leaves the size below 1.5 times the new minimum,
      nor below 300 when it had to replace it. */
  lemma ApplyMinSizeLeavesRoom(d: CollapsibleDockState, side: PanelSide, minSize: real)
    requires side in d.panels && minSize >= 0.0
    ensures var q := ApplyMinSize(d, side, minSize).panels[side];
            q.size >= minSize * 1.5 && (q.size != d.panels[side].size ==> q.size >= DefaultPanelSize)
  {
  }

  /** `with_max_size`. */
  function ApplyMaxSize(d: CollapsibleDockState, side: PanelSide, maxSize: real): (r: CollapsibleDockState)
    ensures side !in d.panels ==> r == d
    ensures SameExceptSide(d, r, side)
    ensures side in d.panels ==> r.panels[side] == d.panels[side].(maxSize := Some(maxSize))
  {
    if side in d.panels then d.(panels := d.panels[side := d.panels[side].(maxSize := Some(maxSize))])
    else d
  }

  /** `resizable`. */
  function ApplyResizable(d: CollapsibleDockState, side: PanelSide, resizable: bool): (r: CollapsibleDockState)
    ensures side !in d.panels ==> r == d
    ensures SameExceptSide(d, r, side)
    ensures side in d.panels ==> r.panels[side] == d.panels[side].(resizable := resizable)
  {
    if side in d.panels then d.(panels := d.panels[side := d.panels[side].(resizable := resizable)])
    else d
  }

  // ---------------------------------------------------------------------
  // A pure snapshot of a panel and the frame inputs

  /** The fields of `CollapsibleDockPanel` that the frame step reads or
      writes (the docking content and the frame style are opaque here). */
  datatype PanelModel = PanelModel(
    side: PanelSide,
    stateId: Id,
    state: CollapsibleDockState,
    buttons: seq<CollapsibleButton>,
    previousCollapsed: bool,
    stateLoaded: bool,
    activeButton: Option<nat>)

  datatype Rect = Rect(width: real, height: real)

  /** The extent of the realised region along the panel's axis. */
  function RealizedExtent(side: PanelSide, r: Rect): (e: real)
    ensures side == Left || side == Right ==> e == r.width
    ensures side == Top || side == Bottom ==> e == r.height
  {
    match side
    case Left => r.width
    case Right => r.width
    case Top => r.height
    case Bottom => r.height
  }

  /** What the world tells one frame: the animator's value, the rectangle
      egui realised, the strip buttons whose response was clicked, and
      whether the top/bottom strip's expand caret was clicked. */
  datatype FrameInput = FrameInput(
    animation: real,
    realized: Rect,
    clicked: set<nat>,
    expandClicked: bool)

  /** What was drawn inside the region. `vertical` strips (left/right) mark
      the active button; horizontal ones never do. */
  datatype Content = IconStrip(vertical: bool, highlighted: Option<nat>) | Dock | Spinner

  datatype FrameView = FrameView(region: RegionRequest, content: Content)

  datatype StepResult = StepResult(panel: PanelModel, store: DockStore, view: Option<FrameView>)

  const HysteresisThreshold: real := 5.0

  predicate IsVertical(side: PanelSide) { side == Left || side == Right }

  // ---------------------------------------------------------------------
  // Frame phases

  /** Copies the loaded collapse flag and size of this side only, replacing an
      implausible size by `max(2 * min_size, 300)`. */
  function AdoptLoaded(ours: CollapsibleDockState, side: PanelSide, loaded: CollapsibleDockState): (r: CollapsibleDockState)
    ensures SameExceptSide(ours, r, side)
    ensures side !in loaded.panels || side !in ours.panels ==> r == ours
    ensures side in loaded.panels && side in ours.panels ==>
              var p, q := ours.panels[side], r.panels[side];
              && q.collapsed == loaded.panels[side].collapsed
              && q.size == ValidatedSize(loaded.panels[side].size, p.minSize)
              && q.minSize == p.minSize && q.maxSize == p.maxSize && q.resizable == p.resizable
  {
    if side in loaded.panels && side in ours.panels then
      var l, p := loaded.panels[side], ours.panels[side];
      var size := if l.size >= SizeFloor then l.size else DefaultExpandedSize(p.minSize);
      ours.(panels := ours.panels[side := p.(collapsed := l.collapsed, size := size)])
    else ours
  }

  /** The lazy load at the start of `show`: it reads the store only while
      `state_loaded` is false, and sets it. */
  function LoadPhase(m: PanelModel, store: DockStore): (r: (PanelModel, DockStore))
    ensures m.stateLoaded ==> r == (m, store)
    ensures r.0.stateLoaded
    ensures r.0.side == m.side && r.0.stateId == m.stateId && r.0.buttons == m.buttons
    ensures r.0.activeButton == m.activeButton
    ensures SameExceptSide(m.state, r.0.state, m.side)
    ensures !m.stateLoaded ==>
              var (loaded, st) := LoadFromMemory(store, m.stateId);
              && r.1 == st
              && r.0.state == AdoptLoaded(m.state, m.side, loaded)
              && r.0.previousCollapsed == IsPanelCollapsed(r.0.state, m.side)
  {
    if m.stateLoaded then (m, store)
    else
      var (loaded, st) := LoadFromMemory(store, m.stateId);
      var state := AdoptLoaded(m.state, m.side, loaded);
      (m.(state := state, previousCollapsed := IsPanelCollapsed(state, m.side), stateLoaded := true), st)
  }

  /** The button the vertical strip marks as active: the recorded one, unless
      the panel is collapsed. */
  function Highlighted(m: PanelModel): (h: Option<nat>)
    ensures h.Some? ==> !IsPanelCollapsed(m.state, m.side) && h == m.activeButton
    ensures h.Some? ==> h.value < |m.buttons|
    ensures !IsVertical(m.side) ==> h.None?
    ensures IsVertical(m.side) && !IsPanelCollapsed(m.state, m.side) && m.activeButton.Some? && m.activeButton.value < |m.buttons| ==> h == m.activeButton
  {
    if IsVertical(m.side) && !IsPanelCollapsed(m.state, m.side) && m.activeButton.Some? && m.activeButton.value < |m.buttons|
    then m.activeButton else None
  }

  /** The collapsed icon strip: the top/bottom expand caret expands the
      panel; a click on a button expands it and records that button as
      active (the last clicked one, as the loop leaves it). */
  function StripPhase(m: PanelModel, input: FrameInput): (r: (PanelModel, Content))
    ensures r.1 == IconStrip(IsVertical(m.side), Highlighted(m))
    ensures r.0.side == m.side && r.0.stateId == m.stateId && r.0.buttons == m.buttons
    ensures r.0.stateLoaded == m.stateLoaded && r.0.previousCollapsed == m.previousCollapsed
    ensures SameExceptSide(m.state, r.0.state, m.side)
    ensures GetPanelSize(r.0.state, m.side) == GetPanelSize(m.state, m.side)
    ensures LastClicked(input.clicked, |m.buttons|).Some? ==>
              r.0.activeButton == LastClicked(input.clicked, |m.buttons|)
    ensures LastClicked(input.clicked, |m.buttons|).None? ==> r.0.activeButton == m.activeButton
    ensures m.side in m.state.panels ==>
              var expand := LastClicked(input.clicked, |m.buttons|).Some? || (!IsVertical(m.side) && input.expandClicked);
              IsPanelCollapsed(r.0.state, m.side) == (IsPanelCollapsed(m.state, m.side) && !expand)
  {
    var content := IconStrip(IsVertical(m.side), Highlighted(m));
    var s1 := if !IsVertical(m.side) && input.expandClicked then SetPanelCollapsed(m.state, m.side, false) else m.state;
    var c := LastClicked(input.clicked, |m.buttons|);
    if c.Some? then (m.(state := SetPanelCollapsed(s1, m.side, false), activeButton := c), content)
    else (m.(state := s1), content)
  }

  /** Write-back of a user resize: only while the region is resizable, and
      only when the realised extent is more than 5 units off the stored size;
      the new size then goes through `set_panel_size`. */
  function Reconcile(d: CollapsibleDockState, side: PanelSide, resizable: bool, actual: real): (r: CollapsibleDockState)
    ensures !resizable ==> r == d
    ensures Abs(actual - GetPanelSize(d, side)) <= HysteresisThreshold ==> r == d
    ensures resizable && Abs(actual - GetPanelSize(d, side)) > HysteresisThreshold ==> r == SetPanelSize(d, side, actual)
  {
    if resizable && Abs(actual - GetPanelSize(d, side)) > HysteresisThreshold then SetPanelSize(d, side, actual)
    else d
  }

  /** The write-back as the source writes it: guarded by "not collapsed" only,
      so it also fires while the region is locked mid-animation. */
  function ReconcileAsWritten(d: CollapsibleDockState, side: PanelSide, collapsed: bool, actual: real): (r: CollapsibleDockState)
    ensures collapsed ==> r == d
    ensures Abs(actual - GetPanelSize(d, side)) <= HysteresisThreshold ==> r == d
    ensures !collapsed && Abs(actual - GetPanelSize(d, side)) > HysteresisThreshold ==> r == SetPanelSize(d, side, actual)
  {
    if !collapsed && Abs(actual - GetPanelSize(d, side)) > HysteresisThreshold then SetPanelSize(d, side, actual)
    else d
  }

  /** `show_panel_unified` for a panel that is to be drawn. */
  function FramePhase(m: PanelModel, collapsed: bool, input: FrameInput): (r: (PanelModel, FrameView))
    requires m.side in m.state.panels
    ensures r.1.region == Region(m.stateId, m.side, m.state.panels[m.side], collapsed, input.animation)
    ensures ContentFor(input.animation) == StripContent ==> r.1.content == StripPhase(m, input).1
    ensures ContentFor(input.animation) == DockContent ==> r.1.content == Dock
    ensures ContentFor(input.animation) == SpinnerContent ==> r.1.content == Spinner
    ensures r.0.side == m.side && r.0.stateId == m.stateId && r.0.buttons == m.buttons
    ensures r.0.stateLoaded == m.stateLoaded && r.0.previousCollapsed == m.previousCollapsed
    ensures SameExceptSide(m.state, r.0.state, m.side)
    ensures var m1 := if ContentFor(input.animation) == StripContent then StripPhase(m, input).0 else m;
            r.0 == m1.(state := Reconcile(m1.state, m.side, r.1.region.resizable, RealizedExtent(m.side, input.realized)))
  {
    var a := input.animation;
    var region := Region(m.stateId, m.side, m.state.panels[m.side], collapsed, a);
    var kind := ContentFor(a);
    var (m1, content) :=
      if kind == StripContent then StripPhase(m, input)
      else if kind == DockContent then (m, Dock)
      else (m, Spinner);
    var state := Reconcile(m1.state, m.side, region.resizable, RealizedExtent(m.side, input.realized));
    (m1.(state := state), FrameView(region, content))
  }

  /** One call of `show`. */
  function Step(m: PanelModel, store: DockStore, input: FrameInput): (r: StepResult)
    requires m.side in m.state.panels
    ensures r.panel.side == m.side && r.panel.stateId == m.stateId && r.panel.buttons == m.buttons
    ensures r.panel.stateLoaded
    ensures SameExceptSide(m.state, r.panel.state, m.side)
  {
    var (m1, st1) := LoadPhase(m, store);
    var collapsed := IsPanelCollapsed(m1.state, m1.side);
    var m2 := m1.(previousCollapsed := collapsed);
    if collapsed && |m2.buttons| == 0 then StepResult(m2, st1, None)
    else
      var (m3, view) := FramePhase(m2, collapsed, input);
      StepResult(m3, SaveToMemory(m3.state, st1, m3.stateId), Some(view))
  }

  // ---------------------------------------------------------------------
  // Properties of one frame

  /** After the first frame the store is never read again: two stores give
      the same panel and the same view, and the write-back is the same. */
  lemma StepLoadsOnce(m: PanelModel, store1: DockStore, store2: DockStore, input: FrameInput)
    requires m.side in m.state.panels && m.stateLoaded
    ensures Step(m, store1, input).panel == Step(m, store2, input).panel
    ensures Step(m, store1, input).view == Step(m, store2, input).view
  {
  }

  /** The first frame adopts the stored side's collapse flag and a size that
      is the stored one when at least 100, else `max(2 * min_size, 300)`. */
  lemma FirstFrameAdoptsStoredSize(m: PanelModel, store: DockStore, input: FrameInput)
    requires m.side in m.state.panels && !m.stateLoaded
    requires StoreKey(m.stateId) in store && m.side in store[StoreKey(m.stateId)].panels
    ensures var stored := store[StoreKey(m.stateId)].panels[m.side];
            var loaded := LoadPhase(m, store).0;
            && IsPanelCollapsed(loaded.state, m.side) == stored.collapsed
            && GetPanelSize(loaded.state, m.side) == ValidatedSize(stored.size, m.state.panels[m.side].minSize)
            && (stored.size < SizeFloor ==> GetPanelSize(loaded.state, m.side) >= DefaultPanelSize)
  {
  }

  /** A collapsed panel without buttons draws nothing, writes nothing back
      and keeps its size. */
  lemma CollapsedWithoutButtonsIsHidden(m: PanelModel, store: DockStore, input: FrameInput)
    requires m.side in m.state.panels && |m.buttons| == 0
    requires IsPanelCollapsed(LoadPhase(m, store).0.state, m.side)
    ensures var r := Step(m, store, input);
            && r.view.None?
            && r.store == LoadPhase(m, store).1
            && r.panel.state == LoadPhase(m, store).0.state
  {
  }

  /** A frame changes the stored size only when its region was resizable and
      the realised extent was more than 5 units off; it then stores what
      `set_panel_size` makes of the realised extent. */
  lemma StepSizeHysteresis(m: PanelModel, store: DockStore, input: FrameInput)
    requires m.side in m.state.panels
    ensures var r := Step(m, store, input);
            var before := LoadPhase(m, store).0.state;
            var actual := RealizedExtent(m.side, input.realized);
            GetPanelSize(r.panel.state, m.side) != GetPanelSize(before, m.side) ==>
              && r.view.Some? && r.view.value.region.resizable
              && Abs(actual - GetPanelSize(before, m.side)) > HysteresisThreshold
              && r.panel.state == SetPanelSize(StripPhaseState(LoadPhase(m, store).0, input), m.side, actual)
  {
    var (m1, st1) := LoadPhase(m, store);
    var collapsed := IsPanelCollapsed(m1.state, m1.side);
    var m2 := m1.(previousCollapsed := collapsed);
    if !(collapsed && |m2.buttons| == 0) {
      var region := Region(m2.stateId, m2.side, m2.state.panels[m2.side], collapsed, input.animation);
      if region.resizable {
        // a resizable region is fully expanded, so no strip was drawn
        assert ContentFor(input.animation) == DockContent;
      }
    }
  }

  /** The panel state a frame leaves before any resize write-back. */
  function StripPhaseState(m: PanelModel, input: FrameInput): CollapsibleDockState
  {
    if ContentFor(input.animation) == StripContent then StripPhase(m, input).0.state else m.state
  }

  /** A click on a strip button, drawn while the animation is below 0.3,
      expands the panel and records the clicked button as active. */
  lemma StripClickExpands(m: PanelModel, store: DockStore, input: FrameInput, k: nat)
    requires m.side in m.state.panels && input.animation < StripBelow
    requires k < |m.buttons| && k in input.clicked
    requires forall j :: k < j < |m.buttons| ==> j !in input.clicked
    ensures var r := Step(m, store, input);
            && r.view.Some? && r.view.value.content.IconStrip?
            && !IsPanelCollapsed(r.panel.state, m.side)
            && r.panel.activeButton == Some(k)
  {
    LastClickedIsLargest(input.clicked, |m.buttons|);
    var (m1, st1) := LoadPhase(m, store);
    var collapsed := IsPanelCollapsed(m1.state, m1.side);
    var m2 := m1.(previousCollapsed := collapsed);
    assert |m2.buttons| > 0;
    assert LastClicked(input.clicked, |m.buttons|) == Some(k);
    var (m3, content) := StripPhase(m2, input);
    assert !IsPanelCollapsed(m3.state, m.side);
  }

  /** A drawn frame writes the panel's final state under its key when
      persistence is on. */
  lemma StepPersists(m: PanelModel, store: DockStore, input: FrameInput)
    requires m.side in m.state.panels && m.state.persistState
    ensures var r := Step(m, store, input);
            r.view.Some? ==> StoreKey(m.stateId) in r.store && r.store[StoreKey(m.stateId)] == r.panel.state
  {
  }

  /** The request of a drawn frame: resizable exactly when not collapsed,
      configured resizable and fully expanded; otherwise locked to an extent
      between the strip and the validated size. */
  lemma StepRegion(m: PanelModel, store: DockStore, input: FrameInput)
    requires m.side in m.state.panels && 0.0 <= input.animation <= 1.0
    ensures var r := Step(m, store, input);
            var loaded := LoadPhase(m, store).0;
            var p := loaded.state.panels[m.side];
            r.view.Some? ==>
              var g := r.view.value.region;
              && g.id == RegionId(m.stateId, m.side, p.collapsed)
              && (g.resizable <==> !p.collapsed && p.resizable && input.animation > ExpandedThreshold)
              && (!g.resizable ==> CollapsedSize <= g.minExtent == g.defaultExtent <= ValidatedSize(p.size, p.minSize))
  {
    var loaded := LoadPhase(m, store).0;
    var p := loaded.state.panels[m.side];
    if !Region(m.stateId, m.side, p, p.collapsed, input.animation).resizable {
      LockedRegionWithinBounds(m.stateId, m.side, p, p.collapsed, input.animation);
    }
  }

  // ---------------------------------------------------------------------
  // Several frames

  /** What the host may do to a panel between and during frames, short of a
      direct `set_size`. */
  datatype Event = Frame(input: FrameInput) | ToggleEvent | SetCollapsedEvent(collapsed: bool)

  function Run(m: PanelModel, store: DockStore, events: seq<Event>): (r: (PanelModel, DockStore))
    requires m.side in m.state.panels
    ensures r.0.side == m.side && r.0.stateId == m.stateId && r.0.buttons == m.buttons
    ensures SameExceptSide(m.state, r.0.state, m.side)
    decreases |events|
  {
    if events == [] then (m, store)
    else
      var (m1, st1) :=
        match events[0]
        case Frame(input) => var r := Step(m, store, input); (r.panel, r.store)
        case ToggleEvent => (m.(state := TogglePanel(m.state, m.side)), store)
        case SetCollapsedEvent(c) => (m.(state := SetPanelCollapsed(m.state, m.side, c)), store);
      Run(m1, st1, events[1..])
  }

  /** No user resize: a fully expanded frame realises an extent within 5 units
      of `size`; frames animating or collapsed may realise anything. */
  predicate NoUserResize(side: PanelSide, size: real, e: Event)
  {
    e.Frame? ==>
      e.input.animation <= ExpandedThreshold ||
      Abs(RealizedExtent(side, e.input.realized) - size) <= HysteresisThreshold
  }

  /** Any sequence of toggles, collapse changes, strip clicks and animation
      frames without a user resize leaves the size of a loaded panel as it
      was. */
  lemma {:induction false} SizeSurvivesCollapseCycles(m: PanelModel, store: DockStore, events: seq<Event>)
    requires m.side in m.state.panels && m.stateLoaded
    requires forall i :: 0 <= i < |events| ==> NoUserResize(m.side, GetPanelSize(m.state, m.side), events[i])
    ensures GetPanelSize(Run(m, store, events).0.state, m.side) == GetPanelSize(m.state, m.side)
    decreases |events|
  {
    if events != [] {
      var size := GetPanelSize(m.state, m.side);
      var (m1, st1) :=
        match events[0]
        case Frame(input) => var r := Step(m, store, input); (r.panel, r.store)
        case ToggleEvent => (m.(state := TogglePanel(m.state, m.side)), store)
        case SetCollapsedEvent(c) => (m.(state := SetPanelCollapsed(m.state, m.side, c)), store);
      assert Run(m, store, events) == Run(m1, st1, events[1..]);
      if events[0].Frame? {
        var input := events[0].input;
        StepSizeHysteresis(m, store, input);
        assert NoUserResize(m.side, size, events[0]);
      }
      assert GetPanelSize(m1.state, m.side) == size;
      forall i | 0 <= i < |events[1..]|
        ensures NoUserResize(m.side, GetPanelSize(m1.state, m.side), events[1..][i])
      {
        assert events[1..][i] == events[i + 1];
      }
      SizeSurvivesCollapseCycles(m1, st1, events[1..]);
    }
  }

  /** The source's write-back loses the expanded size during the expand
      animation: half-way (animation 0.5) the default left panel's region is
      locked to 163, egui realises exactly that, and the unguarded write-back
      stores 163 in place of 300; the resizable-guarded write-back keeps 300. */
  lemma AsWrittenReconcileShrinksWhileExpanding(id: Id)
    ensures var d := DefaultDockState();
            var region := Region(id, Left, d.panels[Left], false, 0.5);
            && !region.resizable
            && region.minExtent == region.maxExtent.value == 163.0
            && GetPanelSize(ReconcileAsWritten(d, Left, false, region.minExtent), Left) == 163.0
            && GetPanelSize(Reconcile(d, Left, region.resizable, region.minExtent), Left) == 300.0
  {
    var d := DefaultDockState();
    var p := DefaultPanel;
    assert d.panels[Left] == p;
    assert ValidatedSize(p.size, p.minSize) == 300.0;
    assert Ease(0.5) == 0.5 by { EaseFixedPoints(); }
    assert AnimatedSize(0.5, 300.0) == CollapsedSize + (300.0 - CollapsedSize) * 0.5;
    var region := Region(id, Left, p, false, 0.5);
    assert region.minExtent == 163.0;
    assert Abs(163.0 - GetPanelSize(d, Left)) == 137.0;
    assert SubstituteSmall(163.0) == 163.0;
  }

  // ---------------------------------------------------------------------
  // The collapsed strip's click loop

  /** The `for (i, button) in buttons.iter().enumerate()` loop that remembers
      the clicked button. */
  method ClickedButton(count: nat, clicked: set<nat>) returns (c: Option<nat>)
    ensures c == LastClicked(clicked, count)
    ensures c.Some? ==> c.value < count && c.value in clicked
  {
    c := None;
    var i := 0;
    while i < count
      invariant 0 <= i <= count
      invariant c == LastClicked(clicked, i)
    {
      if i in clicked {
        c := Some(i);
      }
      i := i + 1;
    }
    LastClickedIsLargest(clicked, count);
  }

  // ---------------------------------------------------------------------
  // The panel object

  class CollapsibleDockPanel {
    const side: PanelSide
    const stateId: Id
    var collapsibleState: CollapsibleDockState
    var buttons: seq<CollapsibleButton>
    var previousCollapsed: bool
    var stateLoaded: bool
    var activeButtonIndex: Option<nat>

    /** The panel keeps an entry for every side (it starts from the default
        aggregate and only ever updates entries in place). */
    ghost predicate Valid()
      reads this
    {
      AllSidesPresent(collapsibleState) && side in collapsibleState.panels
    }

    function Model(): PanelModel
      reads this
    {
      PanelModel(side, stateId, collapsibleState, buttons, previousCollapsed, stateLoaded, activeButtonIndex)
    }

    /** `CollapsibleDockPanel::new`: default state, no buttons, the first
        button active, nothing loaded yet. */
    constructor (side: PanelSide, stateId: Id)
      ensures Valid()
      ensures this.side == side && this.stateId == stateId
      ensures collapsibleState == DefaultDockState() && buttons == []
      ensures !previousCollapsed && !stateLoaded && activeButtonIndex == Some(0)
    {
      this.side := side;
      this.stateId := stateId;
      collapsibleState := DefaultDockState();
      buttons := [];
      previousCollapsed := false;
      stateLoaded := false;
      activeButtonIndex := Some(0);
    }

    method AddButton(button: CollapsibleButton)
      modifies this
      ensures Model() == old(Model()).(buttons := old(buttons) + [button])
    {
      buttons := buttons + [button];
    }

    method WithMinSize(minSize: real)
      requires Valid()
      modifies this
      ensures Valid()
      ensures Model() == old(Model()).(state := ApplyMinSize(old(collapsibleState), side, minSize))
    {
      collapsibleState := ApplyMinSize(collapsibleState, side, minSize);
    }

    method WithMaxSize(maxSize: real)
      requires Valid()
      modifies this
      ensures Valid()
      ensures Model() == old(Model()).(state := ApplyMaxSize(old(collapsibleState), side, maxSize))
    {
      collapsibleState := ApplyMaxSize(collapsibleState, side, maxSize);
    }

    method Resizable(resizable: bool)
      requires Valid()
      modifies this
      ensures Valid()
      ensures Model() == old(Model()).(state := ApplyResizable(old(collapsibleState), side, resizable))
    {
      collapsibleState := ApplyResizable(collapsibleState, side, resizable);
    }

    function IsCollapsed(): (b: bool)
      reads this
      ensures side in collapsibleState.panels ==> b == collapsibleState.panels[side].collapsed
    {
      IsPanelCollapsed(collapsibleState, side)
    }

    method Toggle()
      requires Valid()
      modifies this
      ensures Valid()
      ensures IsCollapsed() == !old(IsCollapsed()) && GetSize() == old(GetSize())
      ensures Model() == old(Model()).(state := TogglePanel(old(collapsibleState), side))
    {
      collapsibleState := TogglePanel(collapsibleState, side);
    }

    method SetCollapsed(collapsed: bool)
      requires Valid()
      modifies this
      ensures Valid()
      ensures IsCollapsed() == collapsed && GetSize() == old(GetSize())
      ensures Model() == old(Model()).(state := SetPanelCollapsed(old(collapsibleState), side, collapsed))
    {
      collapsibleState := SetPanelCollapsed(collapsibleState, side, collapsed);
    }

    function GetSize(): (s: real)
      reads this
      ensures side in collapsibleState.panels ==> s == collapsibleState.panels[side].size
    {
      GetPanelSize(collapsibleState, side)
    }

    method SetSize(size: real)
      requires Valid()
      modifies this
      ensures Valid()
      ensures IsCollapsed() == old(IsCollapsed())
      ensures Model() == old(Model()).(state := SetPanelSize(old(collapsibleState), side, size))
    {
      collapsibleState := SetPanelSize(collapsibleState, side, size);
    }

    /** `set_active_button`: ignored for an index past the last button. */
    method SetActiveButton(index: nat)
      modifies this
      ensures index < |buttons| ==> Model() == old(Model()).(activeButton := Some(index))
      ensures index >= |buttons| ==> Model() == old(Model())
    {
      if index < |buttons| {
        activeButtonIndex := Some(index);
      }
    }

    function GetActiveButton(): (i: Option<nat>)
      reads this
      ensures i == activeButtonIndex
    {
      activeButtonIndex
    }

    /** `show`: one frame. */
    method Show(store: DockStore, input: FrameInput) returns (view: Option<FrameView>, store': DockStore)
      requires Valid()
      modifies this
      ensures Valid()
      ensures var r := Step(old(Model()), store, input);
              Model() == r.panel && store' == r.store && view == r.view
    {
      store' := store;
      if !stateLoaded {
        var pair := LoadFromMemory(store, stateId);
        store' := pair.1;
        collapsibleState := AdoptLoaded(collapsibleState, side, pair.0);
        previousCollapsed := IsCollapsed();
        stateLoaded := true;
      }
      assert (Model(), store') == LoadPhase(old(Model()), store);
      var isCollapsed := IsCollapsed();
      previousCollapsed := isCollapsed;
      if isCollapsed && |buttons| == 0 {
        return None, store';
      }
      var frame := ShowUnified(input, isCollapsed);
      view := Some(frame);
      store' := SaveToMemory(collapsibleState, store', stateId);
    }

    /** `show_panel_unified`. */
    method ShowUnified(input: FrameInput, isCollapsed: bool) returns (frame: FrameView)
      requires Valid()
      modifies this
      ensures Valid()
      ensures (Model(), frame) == FramePhase(old(Model()), isCollapsed, input)
    {
      var a := input.animation;
      var region := Region(stateId, side, collapsibleState.panels[side], isCollapsed, a);
      var content;
      var kind := ContentFor(a);
      if kind == StripContent {
        content := ShowCollapsedContent(input);
      } else if kind == DockContent {
        content := Dock;
      } else {
        content := Spinner;
      }
      // the source guards this write-back by `!is_collapsed` alone
      collapsibleState := Reconcile(collapsibleState, side, region.resizable, RealizedExtent(side, input.realized));
      frame := FrameView(region, content);
    }

    /** `show_collapsed_content`: the strip and its clicks. */
    method ShowCollapsedContent(input: FrameInput) returns (content: Content)
      requires Valid()
      modifies this
      ensures Valid()
      ensures (Model(), content) == StripPhase(old(Model()), input)
    {
      content := IconStrip(IsVertical(side), Highlighted(Model()));
      if !IsVertical(side) && input.expandClicked {
        collapsibleState := SetPanelCollapsed(collapsibleState, side, false);
      }
      var clicked := ClickedButton(|buttons|, input.clicked);
      if clicked.Some? {
        collapsibleState := SetPanelCollapsed(collapsibleState, side, false);
        activeButtonIndex := clicked;
      }
    }
  }
}
