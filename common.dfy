/** Shared vocabulary of the collapsible dock and the collapsible toolbar:
    optional values, egui-style hierarchical identifiers, and the
    "remember the last clicked index" pattern that both click loops use. */
module Common {

  datatype Option<+T> = None | Some(value: T)

  /** An egui `Id`. `Id::new(name)` is a root; `id.with(child)` derives a
      namespaced child identifier. Distinct derivations give distinct ids. */
  datatype Id = Root(name: string) | With(parent: Id, child: string)

  function Abs(x: real): (r: real)
    ensures r >= 0.0 && (r == x || r == -x)
  {
    if x < 0.0 then -x else x
  }

  function Max(x: real, y: real): (r: real)
    ensures r >= x && r >= y && (r == x || r == y)
  {
    if x >= y then x else y
  }

  function Min(x: real, y: real): (r: real)
    ensures r <= x && r <= y && (r == x || r == y)
  {
    if x <= y then x else y
  }

  /** The index a `for (i, _) in items.iter().enumerate()` loop over `n` items
      leaves behind when it records `Some(i)` for every clicked item: the
      largest clicked index below `n`, or `None` when nothing was clicked. */
  function LastClicked(clicks: set<nat>, n: nat): Option<nat>
  {
    if n == 0 then None
    else if n - 1 in clicks then Some(n - 1)
    else LastClicked(clicks, n - 1)
  }

  /** `LastClicked` is exactly the largest clicked index below `n`. */
  lemma {:induction false} LastClickedIsLargest(clicks: set<nat>, n: nat)
    ensures LastClicked(clicks, n).None? <==> (forall i :: 0 <= i < n ==> i !in clicks)
    ensures LastClicked(clicks, n).Some? ==>
              var k := LastClicked(clicks, n).value;
              k < n && k in clicks && forall j :: k < j < n ==> j !in clicks
  {
    if n > 0 && n - 1 !in clicks {
      LastClickedIsLargest(clicks, n - 1);
    }
  }
}
