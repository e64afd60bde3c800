/** `setup_docks`: the initial dock layout. */
module Layout {
  import opened DockRegistry
  import opened Ui

  /** The docks tabified onto the first one, in call order: every dock but the first. */
  function Followers(n: nat): (r: seq<nat>)
    ensures |r| == if n == 0 then 0 else n - 1
    ensures forall j :: 0 <= j < |r| ==> r[j] == j + 1
  {
    if n <= 1 then [] else Followers(n - 1) + [n - 1]
  }

  /** Hide every dock, then tabify every other dock onto the first one. */
  function SetupDocks(s: UiState): (r: UiState)
    requires Wf(s)
    ensures Wf(r) && r == s.(docks := r.docks, tabified := r.tabified)
    ensures VisibleCount(r.docks) == 0
    ensures forall i :: 0 <= i < |r.docks| ==> !r.docks[i].visible && r.docks[i].(visible := s.docks[i].visible) == s.docks[i]
    ensures |r.tabified| == |s.tabified| + |s.docks| - 1
    ensures r.tabified[..|s.tabified|] == s.tabified
    ensures r.tabified[|s.tabified|..] == Followers(|s.docks|)
  {
    s.(docks := Hidden(s.docks), tabified := s.tabified + Followers(|s.docks|))
  }
}
