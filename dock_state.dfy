/** Per-edge collapse/size state of the collapsible dock and its round trip
    through the egui memory store (src/dock_collapsible.rs, lines 16-154). */
module DockState {
  import opened Common

  datatype PanelSide = Left | Right | Top | Bottom

  const AllSides: set<PanelSide> := {Left, Right, Top, Bottom}

  /** State of one edge. `size` is the last expanded extent along the edge's
      axis (width for Left/Right, height for Top/Bottom). */
  datatype PanelState = PanelState(
    collapsed: bool,
    size: real,
    minSize: real,
    maxSize: Option<real>,
    resizable: bool)

  const DefaultPanelSize: real := 300.0

  /** Any size below this floor is considered implausible. */
  const SizeFloor: real := 100.0

  /** `PanelState::default()`. */
  const DefaultPanel: PanelState := PanelState(false, DefaultPanelSize, 150.0, None, true)

  datatype CollapsibleDockState = CollapsibleDockState(
    panels: map<PanelSide, PanelState>,
    animationDuration: real,
    persistState: bool)

  /** `CollapsibleDockState::default()` (also `new()`). */
  function DefaultDockState(): (d: CollapsibleDockState)
    ensures d.panels.Keys == AllSides
    ensures forall s :: s in d.panels ==> d.panels[s] == DefaultPanel
    ensures d.animationDuration == 0.2 && d.persistState
  {
    CollapsibleDockState(
      map[Left := DefaultPanel, Right := DefaultPanel, Top := DefaultPanel, Bottom := DefaultPanel],
      0.2, true)
  }

  ghost predicate AllSidesPresent(d: CollapsibleDockState) {
    d.panels.Keys == AllSides
  }

  /** `r` differs from `d` at most in the entry for `side`. */
  ghost predicate SameExceptSide(d: CollapsibleDockState, r: CollapsibleDockState, side: PanelSide) {
    && r.panels.Keys == d.panels.Keys
    && r.animationDuration == d.animationDuration
    && r.persistState == d.persistState
    && forall s :: s in d.panels && s != side ==> r.panels[s] == d.panels[s]
  }

  function IsPanelCollapsed(d: CollapsibleDockState, side: PanelSide): (b: bool)
    ensures side !in d.panels ==> !b
    ensures side in d.panels ==> b == d.panels[side].collapsed
  {
    if side in d.panels then d.panels[side].collapsed else false
  }

  function GetPanelSize(d: CollapsibleDockState, side: PanelSide): (s: real)
    ensures side !in d.panels ==> s == DefaultPanelSize
    ensures side in d.panels ==> s == d.panels[side].size
  {
    if side in d.panels then d.panels[side].size else DefaultPanel.size
  }

  function SetPanelCollapsed(d: CollapsibleDockState, side: PanelSide, collapsed: bool): (r: CollapsibleDockState)
    ensures side !in d.panels ==> r == d
    ensures SameExceptSide(d, r, side)
    ensures side in d.panels ==> IsPanelCollapsed(r, side) == collapsed
    ensures side in d.panels ==> r.panels[side].(collapsed := d.panels[side].collapsed) == d.panels[side]
  {
    if side in d.panels then
      d.(panels := d.panels[side := d.panels[side].(collapsed := collapsed)])
    else d
  }

  function TogglePanel(d: CollapsibleDockState, side: PanelSide): (r: CollapsibleDockState)
    ensures side !in d.panels ==> r == d
    ensures SameExceptSide(d, r, side)
    ensures side in d.panels ==> IsPanelCollapsed(r, side) == !IsPanelCollapsed(d, side)
    ensures GetPanelSize(r, side) == GetPanelSize(d, side)
    ensures side in d.panels ==> r.panels[side].(collapsed := d.panels[side].collapsed) == d.panels[side]
  {
    if side in d.panels then
      d.(panels := d.panels[side := d.panels[side].(collapsed := !d.panels[side].collapsed)])
    else d
  }

  /** The value `set_panel_size` stores before the maximum clamp: an
      implausibly small request (below 100) becomes the default 300. */
  function SubstituteSmall(size: real): (v: real)
    ensures v >= SizeFloor
    ensures size >= SizeFloor ==> v == size
  {
    if size < SizeFloor then DefaultPanelSize else size
  }

  /** `set_panel_size`: clamps to `max_size` when there is one, never to
      `min_size`, and leaves every other side and field alone. */
  function SetPanelSize(d: CollapsibleDockState, side: PanelSide, size: real): (r: CollapsibleDockState)
    ensures side !in d.panels ==> r == d
    ensures SameExceptSide(d, r, side)
    ensures side in d.panels ==>
              var m := d.panels[side].maxSize;
              var v := SubstituteSmall(size);
              && (m.None? || v <= m.value ==> GetPanelSize(r, side) == v)
              && (m.Some? && m.value < v ==> GetPanelSize(r, side) == m.value)
    ensures side in d.panels ==> r.panels[side].(size := d.panels[side].size) == d.panels[side]
    ensures IsPanelCollapsed(r, side) == IsPanelCollapsed(d, side)
  {
    if side in d.panels then
      var p := d.panels[side];
      var v := SubstituteSmall(size);
      var clamped := if p.maxSize.Some? then Min(v, p.maxSize.value) else v;
      d.(panels := d.panels[side := p.(size := clamped)])
    else d
  }

  /** Toggling twice restores the whole state. */
  lemma ToggleTwice(d: CollapsibleDockState, side: PanelSide)
    ensures TogglePanel(TogglePanel(d, side), side) == d
  {
    if side in d.panels {
      var once := TogglePanel(d, side);
      assert TogglePanel(once, side).panels == d.panels;
    }
  }

  /** `set_panel_size` does not raise a size to `min_size`: any request of at
      least 100 that is within `max_size` is stored as is, even below the
      minimum. */
  lemma SetPanelSizeIgnoresMinSize(d: CollapsibleDockState, side: PanelSide, size: real)
    requires side in d.panels && d.panels[side].maxSize.None?
    requires SizeFloor <= size < d.panels[side].minSize
    ensures GetPanelSize(SetPanelSize(d, side, size), side) == size < d.panels[side].minSize
  {
  }

  // ---------------------------------------------------------------------
  // The memory store

  type DockStore = map<Id, CollapsibleDockState>

  /** The store key `id.with("dock_state")`. */
  function StoreKey(id: Id): (k: Id)
    ensures k != id
  {
    With(id, "dock_state")
  }

  /** `save_to_memory`: writes the whole aggregate under the panel's key when
      `persist_state` is set, and does nothing otherwise. */
  function SaveToMemory(d: CollapsibleDockState, store: DockStore, id: Id): (r: DockStore)
    ensures !d.persistState ==> r == store
    ensures d.persistState ==> StoreKey(id) in r && r[StoreKey(id)] == d
    ensures d.persistState ==> r.Keys == store.Keys + {StoreKey(id)}
    ensures forall k :: k in store && k != StoreKey(id) ==> k in r && r[k] == store[k]
  {
    if d.persistState then store[StoreKey(id) := d] else store
  }

  /** `load_from_memory`: the stored aggregate, or the default one, which
      `get_persisted_mut_or_default` also inserts into the store. */
  function LoadFromMemory(store: DockStore, id: Id): (r: (CollapsibleDockState, DockStore))
    ensures StoreKey(id) in store ==> r.0 == store[StoreKey(id)] && r.1 == store
    ensures StoreKey(id) !in store ==> r.0 == DefaultDockState() && r.1 == store[StoreKey(id) := r.0]
  {
    var key := StoreKey(id);
    if key in store then (store[key], store)
    else (DefaultDockState(), store[key := DefaultDockState()])
  }

  /** Saving with persistence on and loading back returns the saved state and
      leaves the store as the save left it. */
  lemma SaveLoadRoundTrip(d: CollapsibleDockState, store: DockStore, id: Id)
    requires d.persistState
    ensures LoadFromMemory(SaveToMemory(d, store, id), id) == (d, SaveToMemory(d, store, id))
  {
  }

  /** With persistence off, a save leaves what a later load returns as it was. */
  lemma SaveWithoutPersistence(d: CollapsibleDockState, store: DockStore, id: Id)
    requires !d.persistState
    ensures LoadFromMemory(SaveToMemory(d, store, id), id) == LoadFromMemory(store, id)
  {
  }

  /** Loading twice reads what the first load returned, and the second load
      changes the store no further. */
  lemma LoadIsStable(store: DockStore, id: Id)
    ensures var (s1, st1) := LoadFromMemory(store, id);
            LoadFromMemory(st1, id) == (s1, st1)
  {
  }

  /** Loading a key that was never written yields the all-default aggregate. */
  lemma LoadAbsentIsDefault(store: DockStore, id: Id)
    requires StoreKey(id) !in store
    ensures var d := LoadFromMemory(store, id).0;
            AllSidesPresent(d) && d.persistState &&
            forall s :: s in AllSides ==> !IsPanelCollapsed(d, s) && GetPanelSize(d, s) == DefaultPanelSize
  {
  }
}
