/** The pure size and animation decisions of one frame of a collapsible dock
    panel (src/dock_collapsible.rs, lines 7-14 and 387-470). */
module DockAnimation {
  import opened Common
  import opened DockState

  function Cube(x: real): real { x * x * x }

  /** `ease_in_out_cubic`. */
  function Ease(t: real): real
  {
    if t < 0.5 then 4.0 * Cube(t) else 1.0 - Cube(-2.0 * t + 2.0) / 2.0
  }

  lemma EaseFixedPoints()
    ensures Ease(0.0) == 0.0 && Ease(0.5) == 0.5 && Ease(1.0) == 1.0
  {
    assert Cube(0.0) == 0.0;
    assert Cube(1.0) == 1.0;
    assert -2.0 * 0.5 + 2.0 == 1.0;
    assert -2.0 * 1.0 + 2.0 == 0.0;
  }

  lemma MulMonotone(a: real, b: real, c: real)
    requires a <= b && 0.0 <= c
    ensures a * c <= b * c
  {
  }

  lemma MulStrict(a: real, b: real, c: real)
    requires a < b && 0.0 < c
    ensures a * c < b * c
  {
  }

  lemma {:induction false} CubeMonotone(x: real, y: real)
    requires 0.0 <= x <= y
    ensures 0.0 <= Cube(x) <= Cube(y)
  {
    MulMonotone(x, y, x);
    MulMonotone(x, y, y);
    assert 0.0 <= x * x <= y * y;
    MulMonotone(x * x, y * y, x);
    MulMonotone(x, y, y * y);
    assert x * x * x <= y * y * x;
    assert y * y * x == x * y * y;
  }

  lemma CubePositive(x: real)
    requires 0.0 < x
    ensures 0.0 < Cube(x)
  {
    assert 0.0 < x * x;
  }

  /** Below one half the curve stays below one half; from one half on it is at
      least one half. */
  lemma EaseHalves(t: real)
    requires 0.0 <= t <= 1.0
    ensures t < 0.5 ==> 0.0 <= Ease(t) < 0.5
    ensures 0.5 <= t ==> 0.5 <= Ease(t) <= 1.0
  {
    if t < 0.5 {
      CubeMonotone(t, 0.5);
      if t > 0.0 {
        assert Cube(t) < Cube(0.5) by {
          var d := 0.5 - t;
          assert Cube(0.5) - Cube(t) == d * (0.25 + 0.5 * t + t * t);
          assert 0.0 < d * (0.25 + 0.5 * t + t * t) by {
            MulMonotone(0.0, d, 0.25 + 0.5 * t + t * t);
            assert 0.25 <= 0.25 + 0.5 * t + t * t;
            MulMonotone(0.0, 0.25, d);
            MulMonotone(0.25, 0.25 + 0.5 * t + t * t, d);
          }
        }
      }
    } else {
      CubeMonotone(-2.0 * t + 2.0, 1.0);
    }
  }

  /** The curve maps [0, 1] into [0, 1], and the open interval into itself. */
  lemma EaseRange(t: real)
    requires 0.0 <= t <= 1.0
    ensures 0.0 <= Ease(t) <= 1.0
    ensures 0.0 < t < 1.0 ==> 0.0 < Ease(t) < 1.0
  {
    EaseHalves(t);
    if 0.0 < t < 0.5 {
      CubePositive(t);
    } else if 0.5 <= t < 1.0 {
      CubePositive(-2.0 * t + 2.0);
    }
  }

  /** The curve is non-decreasing on [0, 1]. */
  lemma EaseMonotone(x: real, y: real)
    requires 0.0 <= x <= y <= 1.0
    ensures Ease(x) <= Ease(y)
  {
    if y < 0.5 {
      CubeMonotone(x, y);
    } else if 0.5 <= x {
      CubeMonotone(-2.0 * y + 2.0, -2.0 * x + 2.0);
    } else {
      EaseHalves(x);
      EaseHalves(y);
    }
  }

  // ---------------------------------------------------------------------
  // Extents

  const IconSize: real := 14.0
  /** Padding on each side of the collapsed strip's icon. */
  const Padding: real := 6.0
  /** Extent of the collapsed icon strip: one icon plus its padding. */
  const CollapsedSize: real := IconSize + Padding * 2.0

  lemma CollapsedSizeIs26()
    ensures CollapsedSize == 26.0
  {
  }

  /** The expanded extent substituted for an implausible one. */
  function DefaultExpandedSize(minSize: real): (v: real)
    ensures v >= DefaultPanelSize && v >= 2.0 * minSize
    ensures v == DefaultPanelSize || v == 2.0 * minSize
  {
    Max(minSize * 2.0, DefaultPanelSize)
  }

  /** The saved size as the frame uses it: an implausible one (below 100) is
      replaced by `max(2 * min_size, 300)`. */
  function ValidatedSize(saved: real, minSize: real): (v: real)
    ensures v >= SizeFloor
    ensures saved >= SizeFloor ==> v == saved
    ensures saved < SizeFloor ==> v == DefaultExpandedSize(minSize)
  {
    if saved < SizeFloor then DefaultExpandedSize(minSize) else saved
  }

  /** Below this animation value the panel is drawn exactly collapsed. */
  const CollapsedThreshold: real := 0.01
  /** Above this animation value the panel is drawn exactly expanded. */
  const ExpandedThreshold: real := 0.99

  /** The extent drawn at animation value `a` towards expanded size `v`. */
  function AnimatedSize(a: real, v: real): real
  {
    if a < CollapsedThreshold then CollapsedSize
    else if a > ExpandedThreshold then v
    else CollapsedSize + (v - CollapsedSize) * Ease(a)
  }

  /** At the ends of the animation the extent is exactly the collapsed strip
      or the validated expanded size; in between it lies between the two,
      strictly when the expanded size exceeds the strip. */
  lemma AnimatedSizeBounds(a: real, v: real)
    requires 0.0 <= a <= 1.0 && CollapsedSize <= v
    ensures a < CollapsedThreshold ==> AnimatedSize(a, v) == CollapsedSize
    ensures a > ExpandedThreshold ==> AnimatedSize(a, v) == v
    ensures CollapsedSize <= AnimatedSize(a, v) <= v
    ensures CollapsedSize < v && CollapsedThreshold <= a <= ExpandedThreshold ==>
              CollapsedSize < AnimatedSize(a, v) < v
  {
    if CollapsedThreshold <= a <= ExpandedThreshold {
      EaseRange(a);
      var e, d := Ease(a), v - CollapsedSize;
      assert AnimatedSize(a, v) == CollapsedSize + d * e;
      MulMonotone(0.0, e, d);
      MulMonotone(e, 1.0, d);
      assert 0.0 <= d * e <= d;
      if CollapsedSize < v {
        MulStrict(0.0, e, d);
        MulStrict(e, 1.0, d);
        assert 0.0 < d * e < d;
      }
    }
  }

  /** For a fixed expanded size the drawn extent grows with the animation
      value, across both thresholds. */
  lemma AnimatedSizeMonotone(a: real, b: real, v: real)
    requires 0.0 <= a <= b <= 1.0 && CollapsedSize <= v
    ensures AnimatedSize(a, v) <= AnimatedSize(b, v)
  {
    AnimatedSizeBounds(a, v);
    AnimatedSizeBounds(b, v);
    if CollapsedThreshold <= a && b <= ExpandedThreshold {
      EaseMonotone(a, b);
      MulMonotone(Ease(a), Ease(b), v - CollapsedSize);
    }
  }

  // ---------------------------------------------------------------------
  // The region requested from egui

  /** The region may be drag-resized only when the panel is not collapsed, is
      configured resizable and is fully expanded. */
  predicate IsResizable(collapsed: bool, resizable: bool, a: real)
  {
    !collapsed && resizable && a > ExpandedThreshold
  }

  datatype Bound = Finite(value: real) | Unbounded

  /** What is asked of `egui::SidePanel` / `egui::TopBottomPanel`. */
  datatype RegionRequest = RegionRequest(
    id: Id,
    resizable: bool,
    minExtent: real,
    maxExtent: Bound,
    defaultExtent: real)

  function SideName(side: PanelSide): string
  {
    match side
    case Left => "left"
    case Right => "right"
    case Top => "top"
    case Bottom => "bottom"
  }

  /** The region id: collapsed and expanded regimes use different ids so that
      egui keeps no stale drag state across the collapse boundary. */
  function RegionId(stateId: Id, side: PanelSide, collapsed: bool): (r: Id)
    ensures r.With? && r.parent == stateId
  {
    With(stateId, SideName(side) + (if collapsed then "_collapsed" else "_expanded"))
  }

  lemma RegionIdsDiffer(stateId: Id, side: PanelSide, side': PanelSide, c: bool, c': bool)
    requires side != side' || c != c'
    ensures RegionId(stateId, side, c) != RegionId(stateId, side', c')
  {
    var n, n' := RegionId(stateId, side, c).child, RegionId(stateId, side', c').child;
    if side == side' {
      assert n[|SideName(side)| + 1] != n'[|SideName(side)| + 1];
    } else {
      // the four side names start with four different letters
      assert n[0] != n'[0];
    }
  }

  /** The region for panel state `p` at animation value `a`: free within
      `[min_size, max_size or infinity]` starting at the validated size when
      resizable, otherwise locked to the animated extent. */
  function Region(stateId: Id, side: PanelSide, p: PanelState, collapsed: bool, a: real): (r: RegionRequest)
    ensures r.id == RegionId(stateId, side, collapsed)
    ensures r.resizable <==> (!collapsed && p.resizable && a > ExpandedThreshold)
    ensures r.resizable ==>
              && r.minExtent == p.minSize
              && r.maxExtent == (if p.maxSize.Some? then Finite(p.maxSize.value) else Unbounded)
              && r.defaultExtent == ValidatedSize(p.size, p.minSize)
    ensures !r.resizable ==>
              && r.maxExtent == Finite(r.minExtent)
              && r.defaultExtent == r.minExtent
              && r.minExtent == AnimatedSize(a, ValidatedSize(p.size, p.minSize))
  {
    var v := ValidatedSize(p.size, p.minSize);
    var id := RegionId(stateId, side, collapsed);
    if IsResizable(collapsed, p.resizable, a) then
      RegionRequest(id, true, p.minSize,
                    if p.maxSize.Some? then Finite(p.maxSize.value) else Unbounded, v)
    else
      var s := AnimatedSize(a, v);
      RegionRequest(id, false, s, Finite(s), s)
  }

  /** A locked region's extent lies between the collapsed strip and the
      validated size. */
  lemma LockedRegionWithinBounds(stateId: Id, side: PanelSide, p: PanelState, collapsed: bool, a: real)
    requires 0.0 <= a <= 1.0
    requires !Region(stateId, side, p, collapsed, a).resizable
    ensures var r := Region(stateId, side, p, collapsed, a);
            CollapsedSize <= r.minExtent <= ValidatedSize(p.size, p.minSize)
  {
    AnimatedSizeBounds(a, ValidatedSize(p.size, p.minSize));
  }

  /** What is drawn inside the region. */
  datatype ContentKind = StripContent | DockContent | SpinnerContent

  const StripBelow: real := 0.3
  const DockAbove: real := 0.7

  /** Below 0.3 the icon strip, above 0.7 the dock, a spinner in between. */
  function ContentFor(a: real): (k: ContentKind)
    ensures k == StripContent <==> a < StripBelow
    ensures k == DockContent <==> a > DockAbove
    ensures k == SpinnerContent <==> StripBelow <= a <= DockAbove
  {
    if a < StripBelow then StripContent
    else if a > DockAbove then DockContent
    else SpinnerContent
  }
}
