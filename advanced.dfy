/** The advanced-controls pass and the settings handler that triggers it. */
module AdvancedControls {
  import opened Wrappers
  import opened DockRegistry
  import opened Ui

  /** `update_advanced_controls` with the stored `showAdvancedControls` value
      `shown`: the project-version box follows `shown`, each toggle is shown
      iff its dock is not advanced or `shown`, and the docks of hidden toggles
      are hidden. */
  function AdvancedPass(s: UiState, shown: bool): (r: UiState)
    requires Wf(s)
    ensures Wf(r) && r == s.(docks := r.docks, toggles := r.toggles, header := s.header.(projectVersionsVisible := shown))
    ensures forall i :: 0 <= i < |r.toggles| ==>
      r.toggles[i].visible == (!s.docks[i].advanced || shown) && r.toggles[i].checked == s.toggles[i].checked
    // the pass never shows a dock, hides the advanced ones when the preference is off,
    // and leaves everything else of every dock alone
    ensures forall i :: 0 <= i < |r.docks| ==>
      r.docks[i].visible == (s.docks[i].visible && (!s.docks[i].advanced || shown)) &&
      r.docks[i].(visible := s.docks[i].visible) == s.docks[i]
  {
    s.(header := s.header.(projectVersionsVisible := shown),
       toggles := seq(|s.toggles|, i requires 0 <= i < |s.toggles| =>
                        s.toggles[i].(visible := !s.docks[i].advanced || shown)),
       docks := seq(|s.docks|, i requires 0 <= i < |s.docks| =>
                        if !s.docks[i].advanced || shown then s.docks[i] else s.docks[i].(visible := false)))
  }

  /** After the pass, no advanced dock or its toggle is showing while the
      preference is off. */
  predicate AdvancedHidden(s: UiState, shown: bool)
    requires Wf(s)
  {
    s.header.projectVersionsVisible == shown &&
    forall i :: 0 <= i < |s.docks| ==>
      s.toggles[i].visible == (!s.docks[i].advanced || shown) &&
      (s.docks[i].advanced && !shown ==> !s.docks[i].visible)
  }

  /** The pass establishes its invariant, and running it again changes nothing. */
  lemma AdvancedPassSettles(s: UiState, shown: bool)
    requires Wf(s)
    ensures AdvancedHidden(AdvancedPass(s, shown), shown)
    ensures AdvancedPass(AdvancedPass(s, shown), shown) == AdvancedPass(s, shown)
  {
  }

  /** A state that already satisfies the pass's invariant is left as it is. */
  lemma SettledPassChangesNothing(s: UiState, shown: bool)
    requires Wf(s) && AdvancedHidden(s, shown)
    ensures AdvancedPass(s, shown) == s
  {
  }

  /** A value produced by a settings widget. */
  datatype SettingValue = Flag(flag: bool) | Text(text: string)

  /** What `on_setting_changed` receives: a push button, or a named setting. */
  datatype Argument = Button(name: string) | Setting(name: string, value: SettingValue)

  /** Python's `"%s" % value`. */
  function Show(v: SettingValue): string {
    match v
    case Flag(b) => if b then "True" else "False"
    case Text(t) => t
  }

  /** Python's `bool(value)` of the value read back from storage. */
  function Truthy(v: SettingValue): bool {
    match v
    case Flag(b) => b
    case Text(t) => t != ""
  }

  /** The `store(key, value)` request `on_setting_changed` sends to the
      controller: none for a button, the key and value for a setting. */
  function StoreRequest(arg: Argument): (r: Option<(string, SettingValue)>)
    ensures r.None? <==> arg.Button?
    ensures arg.Setting? ==> r == Some((arg.name, arg.value))
  {
    match arg
    case Button(_) => None
    case Setting(key, value) => Some((key, value))
  }

  /** `on_setting_changed`, its effect on the window: the `resetLayout` button
      only announces itself (restoring the stored layout is Qt's), other buttons
      do nothing; a setting is announced and, when it is `showAdvancedControls`,
      the advanced-controls pass runs with the stored value. */
  function SettingChanged(s: UiState, arg: Argument): (r: UiState)
    requires Wf(s)
    ensures Wf(r) && r.bars == s.bars && r.current == s.current
    ensures arg.Button? && arg.name != "resetLayout" ==> r == s
    ensures arg.Button? && arg.name == "resetLayout" ==> r == Told(s, "Restoring layout..")
    ensures arg.Setting? ==> r.console == Told(s, "Storing " + arg.name + " = " + Show(arg.value)).console
    // a setting touches the console and, through the pass, the docks, the toggles and the version box only
    ensures arg.Setting? ==> r == s.(console := r.console, docks := r.docks, toggles := r.toggles, header := r.header)
    ensures r.header.(projectVersionsVisible := s.header.projectVersionsVisible) == s.header
    ensures arg.Setting? && arg.name != "showAdvancedControls" ==> r == Told(s, "Storing " + arg.name + " = " + Show(arg.value))
    ensures arg.Setting? && arg.name == "showAdvancedControls" ==> AdvancedHidden(r, Truthy(arg.value))
    // the pass never shows a dock and hides exactly the advanced ones when the preference is off
    ensures arg.Setting? && arg.name == "showAdvancedControls" ==>
      forall i :: 0 <= i < |r.docks| ==>
        r.docks[i].visible == (s.docks[i].visible && (!s.docks[i].advanced || Truthy(arg.value))) &&
        r.docks[i].(visible := s.docks[i].visible) == s.docks[i] && r.toggles[i].checked == s.toggles[i].checked
  {
    match arg
    case Button(name) => if name == "resetLayout" then Told(s, "Restoring layout..") else s
    case Setting(key, value) =>
      var told := Told(s, "Storing " + key + " = " + Show(value));
      if key == "showAdvancedControls" then
        AdvancedPassSettles(told, Truthy(value));
        AdvancedPass(told, Truthy(value))
      else told
  }
}
