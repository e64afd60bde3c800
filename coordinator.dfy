/** Dock visibility coordination: showing a dock either hides every other dock
    (exclusive mode) or brings the dock's tab to the front of its tab bar. */
module DockVisibilityCoordinator {
  import opened Wrappers
  import opened Search
  import opened DockRegistry
  import opened TabGroupResolver
  import opened Ui

  /** The "easy case" of `on_dock_toggled`: Ctrl held, or several docks not allowed. */
  predicate Exclusive(inputs: Inputs) {
    inputs.ctrlHeld || !inputs.allowMultipleDocks
  }

  /** The tab indices after activating the dock titled `title` when several
      docks are allowed: the first enumerated bar with a tab of that title turns
      to its first such tab; when no bar has one, nothing turns. */
  function TabTurn(s: UiState, title: string, inputs: Inputs): (c: seq<int>)
    requires Wf(s) && Fits(inputs, s)
    ensures |c| == |s.current|
    ensures FirstBar(s.bars, inputs.barOrder, title).None? ==> c == s.current
    ensures FirstBar(s.bars, inputs.barOrder, title).Some? ==>
      var b := inputs.barOrder[FirstBar(s.bars, inputs.barOrder, title).value];
      FirstIndex(s.bars[b], title).Some? && c == s.current[b := FirstIndex(s.bars[b], title).value]
  {
    match FirstBar(s.bars, inputs.barOrder, title)
    case None => s.current
    case Some(j) =>
      var b := inputs.barOrder[j];
      s.current[b := FirstIndex(s.bars[b], title).value]
  }

  /** `on_dock_toggled(dock, visible)`, for the dock at position `k`. */
  function DockToggled(s: UiState, k: nat, visible: bool, inputs: Inputs): (r: UiState)
    requires Wf(s) && k < |s.docks| && Fits(inputs, s)
    ensures Wf(r) && r == s.(docks := r.docks, current := r.current)
    // hiding a dock triggers nothing
    ensures !visible ==> r == s
    // exclusive: exactly dock k is visible afterwards, no tab bar changes
    ensures visible && Exclusive(inputs) ==>
      r.current == s.current && VisibleCount(r.docks) == 1 &&
      forall i :: 0 <= i < |r.docks| ==> r.docks[i].visible == (i == k) && r.docks[i].(visible := s.docks[i].visible) == s.docks[i]
    // otherwise no dock's visibility changes ...
    ensures visible && !Exclusive(inputs) ==> r.docks == s.docks && r.current == TabTurn(s, s.docks[k].title, inputs)
    // ... and when no bar has the dock's title, nothing changes at all
    ensures visible && !Exclusive(inputs) && FirstBar(s.bars, inputs.barOrder, s.docks[k].title).None? ==> r == s
    // ... else the first enumerated bar holding the title turns to its first tab with that title
    ensures visible && !Exclusive(inputs) && FirstBar(s.bars, inputs.barOrder, s.docks[k].title).Some? ==>
      var b := inputs.barOrder[FirstBar(s.bars, inputs.barOrder, s.docks[k].title).value];
      var t := FirstIndex(s.bars[b], s.docks[k].title);
      t.Some? && t.value < |s.bars[b]| && s.bars[b][t.value] == s.docks[k].title &&
      r.current == s.current[b := t.value]
  {
    if !visible then s
    else if Exclusive(inputs) then s.(docks := ShowOnly(s.docks, k))
    else match FirstBar(s.bars, inputs.barOrder, s.docks[k].title)
      case None => s
      case Some(j) =>
        var b := inputs.barOrder[j];
        s.(current := s.current[b := FirstIndex(s.bars[b], s.docks[k].title).value])
  }

  /** `on_toggled`: the handler connected to a toggle's `clicked` signal. It
      reads the toggle's (already flipped) checked state, makes the dock's
      visibility follow it and activates only through `on_dock_toggled`. */
  function Toggled(s: UiState, k: nat, inputs: Inputs): (r: UiState)
    requires Wf(s) && k < |s.docks| && Fits(inputs, s)
    ensures Wf(r) && r == s.(docks := r.docks, current := r.current)
    ensures r.docks[k].visible == s.toggles[k].checked
    ensures !s.toggles[k].checked ==> r == s.(docks := s.docks[k := s.docks[k].(visible := false)])
    ensures s.toggles[k].checked && Exclusive(inputs) ==>
      r.current == s.current && forall i :: 0 <= i < |r.docks| ==> r.docks[i].visible == (i == k)
    ensures s.toggles[k].checked && Exclusive(inputs) ==> r.docks == ShowOnly(s.docks, k)
    ensures s.toggles[k].checked && !Exclusive(inputs) ==>
      r.docks == s.docks[k := s.docks[k].(visible := true)] && r.current == TabTurn(s, s.docks[k].title, inputs)
  {
    var checked := s.toggles[k].checked;
    DockToggled(s.(docks := s.docks[k := s.docks[k].(visible := checked)]), k, checked, inputs)
  }

  /** A click on a checkable toggle: the button flips its own checked state and
      then emits `clicked`, which runs `on_toggled`. */
  function Click(s: UiState, k: nat, inputs: Inputs): (r: UiState)
    requires Wf(s) && k < |s.docks| && Fits(inputs, s)
    ensures Wf(r) && r == s.(docks := r.docks, toggles := r.toggles, current := r.current)
    ensures r.toggles == s.toggles[k := s.toggles[k].(checked := !s.toggles[k].checked)]
    ensures r.docks[k].visible == r.toggles[k].checked
    // unchecking hides the dock and activates nothing
    ensures s.toggles[k].checked ==> r.docks == s.docks[k := s.docks[k].(visible := false)] && r.current == s.current
    // checking activates the dock as on_dock_toggled does
    ensures !s.toggles[k].checked && Exclusive(inputs) ==> r.docks == ShowOnly(s.docks, k) && r.current == s.current
    ensures !s.toggles[k].checked && !Exclusive(inputs) ==>
      r.docks == s.docks[k := s.docks[k].(visible := true)] && r.current == TabTurn(s, s.docks[k].title, inputs)
  {
    Toggled(s.(toggles := s.toggles[k := s.toggles[k].(checked := !s.toggles[k].checked)]), k, inputs)
  }

  /** `on_visible`: the handler of a dock's `visibilityChanged` signal. It only
      copies the dock's visibility into its toggle; it activates nothing, so no
      dock and no tab bar changes. */
  function VisibilityChanged(s: UiState, k: nat): (r: UiState)
    requires Wf(s) && k < |s.docks|
    ensures Wf(r) && r == s.(toggles := r.toggles)
    ensures r.toggles[k].checked == s.docks[k].visible && r.toggles[k].visible == s.toggles[k].visible
    ensures forall i :: 0 <= i < |r.toggles| && i != k ==> r.toggles[i] == s.toggles[i]
  {
    s.(toggles := s.toggles[k := s.toggles[k].(checked := s.docks[k].visible)])
  }

  /** `on_app_clicked`: show the App dock and activate it. */
  function AppClicked(s: UiState, inputs: Inputs): (r: UiState)
    requires Wf(s) && Fits(inputs, s)
    ensures Wf(r) && r == s.(docks := r.docks, current := r.current)
    ensures r.docks[AppDock].visible
    ensures Exclusive(inputs) ==> r.docks == ShowOnly(s.docks, AppDock) && r.current == s.current
    ensures Exclusive(inputs) ==> forall i :: 0 <= i < |r.docks| ==> r.docks[i].visible == (i == AppDock)
    ensures !Exclusive(inputs) ==>
      r.docks == s.docks[AppDock := s.docks[AppDock].(visible := true)] && r.current == TabTurn(s, "App", inputs)
  {
    DockToggled(s.(docks := s.docks[AppDock := s.docks[AppDock].(visible := true)]), AppDock, true, inputs)
  }

  /** Activating the same dock twice in a row, preferences unchanged, ends where
      activating it once does. */
  lemma ActivationIdempotent(s: UiState, k: nat, inputs: Inputs)
    requires Wf(s) && k < |s.docks| && Fits(inputs, s)
    ensures DockToggled(DockToggled(s, k, true, inputs), k, true, inputs) == DockToggled(s, k, true, inputs)
  {
  }

  /** Clicking a toggle twice, starting from a toggle that shows its dock's
      visibility, restores the dock's visibility and the toggle. */
  lemma ClickTwiceRestores(s: UiState, k: nat, inputs: Inputs)
    requires Wf(s) && k < |s.docks| && Fits(inputs, s)
    requires s.toggles[k].checked == s.docks[k].visible
    ensures Click(Click(s, k, inputs), k, inputs).docks[k].visible == s.docks[k].visible
    ensures Click(Click(s, k, inputs), k, inputs).toggles == s.toggles
  {
  }

  /** Consecutive activations. */
  function Activations(s: UiState, ks: seq<nat>, inputs: Inputs): (r: UiState)
    requires Wf(s) && Fits(inputs, s)
    requires forall j :: 0 <= j < |ks| ==> ks[j] < |s.docks|
    ensures Wf(r) && r.bars == s.bars
    decreases |ks|
  {
    if |ks| == 0 then s else Activations(DockToggled(s, ks[0], true, inputs), ks[1..], inputs)
  }

  /** In exclusive mode, after any non-empty run of activations exactly the
      last activated dock is visible. */
  lemma {:induction false} ExclusiveActivations(s: UiState, ks: seq<nat>, inputs: Inputs)
    requires Wf(s) && Fits(inputs, s) && Exclusive(inputs)
    requires |ks| > 0 && forall j :: 0 <= j < |ks| ==> ks[j] < |s.docks|
    ensures VisibleCount(Activations(s, ks, inputs).docks) == 1
    ensures forall i :: 0 <= i < |s.docks| ==> Activations(s, ks, inputs).docks[i].visible == (i == ks[|ks| - 1])
    decreases |ks|
  {
    var next := DockToggled(s, ks[0], true, inputs);
    if |ks| > 1 {
      ExclusiveActivations(next, ks[1..], inputs);
    } else {
      assert Activations(s, ks, inputs) == Activations(next, [], inputs) == next;
    }
  }

  /** The host reporting the visibility of docks 0 .. n-1, in order. */
  function ReportVisibility(s: UiState, n: nat): (r: UiState)
    requires Wf(s) && n <= |s.docks|
    ensures Wf(r) && r == s.(toggles := r.toggles)
    ensures forall i :: 0 <= i < |r.toggles| ==> r.toggles[i].visible == s.toggles[i].visible
    ensures forall i :: n <= i < |r.toggles| ==> r.toggles[i] == s.toggles[i]
  {
    if n == 0 then s else VisibilityChanged(ReportVisibility(s, n - 1), n - 1)
  }

  /** Once every dock's visibility has been reported, each toggle is checked
      exactly when its dock is visible (no feedback into activation). */
  lemma {:induction false} ReportedTogglesMatch(s: UiState, n: nat)
    requires Wf(s) && n <= |s.docks|
    ensures forall i :: 0 <= i < n ==> ReportVisibility(s, n).toggles[i].checked == s.docks[i].visible
  {
    if n > 0 {
      ReportedTogglesMatch(s, n - 1);
    }
  }
}
