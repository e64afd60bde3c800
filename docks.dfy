/** The registered docks of the main window and their toggle buttons. */
module DockRegistry {
  /** A dockable panel. `title` and `advanced` are fixed when the dock is
      created; `visible` and `enabled` change while the window runs. */
  datatype Dock = Dock(title: string, advanced: bool, visible: bool, enabled: bool)

  /** The checkable header button paired with one dock. */
  datatype Toggle = Toggle(checked: bool, visible: bool)

  /** Positions in registration order of the two docks the window addresses by name. */
  const AppDock: nat := 0
  const ConsoleDock: nat := 4

  /** Titles in registration order: app, packages, context, environment,
      console, commands, preferences. */
  const Titles: seq<string> :=
    ["App", "Packages", "Context", "Environment", "Console", "Commands", "Preferences"]

  /** Packages, Context, Environment and Commands are advanced; the others keep
      the default of the dock base class. */
  const AdvancedFlags: seq<bool> := [false, true, true, true, false, true, false]

  /** `docks` holds exactly the registered docks, in registration order. */
  predicate Registered(docks: seq<Dock>) {
    |docks| == |Titles| == |AdvancedFlags| &&
    forall i :: 0 <= i < |docks| ==> docks[i].title == Titles[i] && docks[i].advanced == AdvancedFlags[i]
  }

  /** The docks as the window creates them: hidden and enabled. */
  function Registry(): (docks: seq<Dock>)
    ensures Registered(docks)
    ensures forall i :: 0 <= i < |docks| ==> !docks[i].visible && docks[i].enabled
  {
    seq(|Titles|, i requires 0 <= i < |Titles| => Dock(Titles[i], AdvancedFlags[i], false, true))
  }

  /** Titles are unique, which the tab-bar lookup relies on. */
  lemma TitlesUnique()
    ensures forall i, j :: 0 <= i < j < |Titles| ==> Titles[i] != Titles[j]
  {
  }

  /** The two docks named by the window are not advanced. */
  lemma NamedDocksAreBasic(docks: seq<Dock>)
    requires Registered(docks)
    ensures !docks[AppDock].advanced && !docks[ConsoleDock].advanced
    ensures docks[AppDock].title == "App" && docks[ConsoleDock].title == "Console"
  {
  }

  /** How many docks are visible. */
  function VisibleCount(docks: seq<Dock>): nat {
    if |docks| == 0 then 0 else (if docks[0].visible then 1 else 0) + VisibleCount(docks[1..])
  }

  lemma {:induction false} NoneVisible(docks: seq<Dock>)
    requires forall i :: 0 <= i < |docks| ==> !docks[i].visible
    ensures VisibleCount(docks) == 0
  {
    if |docks| > 0 {
      NoneVisible(docks[1..]);
    }
  }

  lemma {:induction false} OneVisible(docks: seq<Dock>, k: nat)
    requires k < |docks|
    requires forall i :: 0 <= i < |docks| ==> docks[i].visible == (i == k)
    ensures VisibleCount(docks) == 1
  {
    if k == 0 {
      NoneVisible(docks[1..]);
    } else {
      OneVisible(docks[1..], k - 1);
    }
  }

  /** Every dock set visible exactly when it is dock `k`, nothing else touched:
      the exclusive branch of `on_dock_toggled`. */
  function ShowOnly(docks: seq<Dock>, k: nat): (r: seq<Dock>)
    requires k < |docks|
    ensures |r| == |docks| && VisibleCount(r) == 1 && r[k].visible
    ensures forall i :: 0 <= i < |r| ==> r[i].visible == (i == k) && r[i].(visible := docks[i].visible) == docks[i]
  {
    var r := seq(|docks|, i requires 0 <= i < |docks| => docks[i].(visible := i == k));
    OneVisible(r, k);
    r
  }

  /** Every dock hidden, nothing else touched (the first loop of `setup_docks`). */
  function Hidden(docks: seq<Dock>): (r: seq<Dock>)
    ensures |r| == |docks| && VisibleCount(r) == 0
    ensures forall i :: 0 <= i < |r| ==> !r[i].visible && r[i].(visible := docks[i].visible) == docks[i]
  {
    var r := seq(|docks|, i requires 0 <= i < |docks| => docks[i].(visible := false));
    NoneVisible(r);
    r
  }

  /** Every dock enabled (or disabled), nothing else touched. */
  function WithEnabled(docks: seq<Dock>, on: bool): (r: seq<Dock>)
    ensures |r| == |docks|
    ensures forall i :: 0 <= i < |r| ==> r[i].enabled == on && r[i].(enabled := docks[i].enabled) == docks[i]
  {
    seq(|docks|, i requires 0 <= i < |docks| => docks[i].(enabled := on))
  }

  /** Exclusive activation is idempotent. */
  lemma ShowOnlyIdempotent(docks: seq<Dock>, k: nat)
    requires k < |docks|
    ensures ShowOnly(ShowOnly(docks, k), k) == ShowOnly(docks, k)
  {
  }
}
