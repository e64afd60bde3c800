/** The presentation state machine: what each lifecycle state does to the
    page, the header controls, the launch button and the docks. */
module PresentationStateMachine {
  import opened Wrappers
  import opened Search
  import opened DockRegistry
  import opened TabGroupResolver
  import opened Ui
  import opened DockVisibilityCoordinator
  import opened AdvancedControls
  import Console

  /** The pages of the central stack, by name. */
  const Pages: set<string> := {"home", "booting", "errored", "noapps"}

  /** The states that end on the error page. */
  const ErrorStates: set<string> := {"errored", "pkgnotfound"}

  /** The page looked up for a state: its own page when one has its name,
      `home` for every other string. */
  function PageFor(state: string): (page: string)
    ensures page in Pages
    ensures state in Pages ==> page == state
    ensures state !in Pages ==> page == "home"
  {
    if state in Pages then state else "home"
  }

  /** Announce the state, switch to its page, reset the launch label and
      enable every dock. */
  function EnterReset(s: UiState, state: string): (r: UiState)
    requires Wf(s)
    ensures Wf(r)
    ensures r == Told(s, "State: " + state).(page := PageFor(state), launch := s.launch.(text := "Launch"), docks := r.docks)
    ensures forall i :: 0 <= i < |r.docks| ==> r.docks[i] == s.docks[i].(enabled := true)
  {
    Told(s, "State: " + state).(page := PageFor(state), launch := s.launch.(text := "Launch"),
                                docks := WithEnabled(s.docks, true))
  }

  /** The header flags of the looked-up page: on `home` all three follow
      whether the state is `ready`; on `noapps` the project button is enabled
      and the message names the project; other pages change nothing. */
  function PageControls(s: UiState, state: string, project: string): (r: UiState)
    requires Wf(s)
    ensures Wf(r) && r == s.(header := r.header, noappsMessage := r.noappsMessage)
    ensures r.header.projectVersionsVisible == s.header.projectVersionsVisible
    ensures PageFor(state) == "home" ==>
      r.header.appsEnabled == (state == "ready") && r.header.projectBtnEnabled == (state == "ready") &&
      r.header.projectVersionsEnabled == (state == "ready") && r.noappsMessage == s.noappsMessage
    ensures PageFor(state) == "noapps" ==>
      r.header == s.header.(projectBtnEnabled := true) && r.noappsMessage == "No applications found for " + project
    ensures PageFor(state) != "home" && PageFor(state) != "noapps" ==> r == s
  {
    var page := PageFor(state);
    if page == "home" then
      s.(header := s.header.(appsEnabled := state == "ready", projectBtnEnabled := state == "ready",
                             projectVersionsEnabled := state == "ready"))
    else if page == "noapps" then
      s.(header := s.header.(projectBtnEnabled := true), noappsMessage := "No applications found for " + project)
    else s
  }

  /** `launching` disables the App dock, `loading` every dock. */
  function StateDisables(s: UiState, state: string): (r: UiState)
    requires Wf(s)
    ensures Wf(r) && r == s.(docks := r.docks)
    ensures forall i :: 0 <= i < |r.docks| ==>
      r.docks[i] == s.docks[i].(enabled := s.docks[i].enabled && !(state == "loading" || (state == "launching" && i == AppDock)))
  {
    var launching :=
      if state == "launching" then s.(docks := s.docks[AppDock := s.docks[AppDock].(enabled := false)]) else s;
    if state == "loading" then launching.(docks := WithEnabled(launching.docks, false)) else launching
  }

  /** The `errored` / `pkgnotfound` case: show the Console dock, activate it,
      switch to the error page and disable the apps list and the launch button. */
  function ErrorSurfaced(s: UiState, inputs: Inputs): (r: UiState)
    requires Wf(s) && Fits(inputs, s)
    ensures Wf(r)
    ensures r == DockToggled(s.(docks := s.docks[ConsoleDock := s.docks[ConsoleDock].(visible := true)]), ConsoleDock, true, inputs).(
      page := "errored", header := s.header.(appsEnabled := false), launch := LaunchButton("Package not found", false))
  {
    var shown := s.(docks := s.docks[ConsoleDock := s.docks[ConsoleDock].(visible := true)]);
    DockToggled(shown, ConsoleDock, true, inputs).(
      page := "errored", header := s.header.(appsEnabled := false), launch := LaunchButton("Package not found", false))
  }

  /** The `notresolved` case: disable the apps list and the launch button. */
  function ResolveFailed(s: UiState): (r: UiState)
    requires Wf(s)
    ensures Wf(r) && r == s.(header := r.header, launch := r.launch)
    ensures !r.header.appsEnabled && r.header.(appsEnabled := s.header.appsEnabled) == s.header
    ensures !r.launch.enabled && r.launch.text == "Failed to resolve"
  {
    s.(header := s.header.(appsEnabled := false), launch := LaunchButton("Failed to resolve", false))
  }

  /** The part of `on_state_changed` every state goes through: the reset,
      the page's header flags and the state's dock enablement. */
  function Entered(s: UiState, state: string, project: string): (r: UiState)
    requires Wf(s)
    ensures Wf(r) && r.bars == s.bars && r.current == s.current
    ensures forall i :: 0 <= i < |r.docks| ==> r.docks[i].visible == s.docks[i].visible
  {
    StateDisables(PageControls(EnterReset(s, state), state, project), state)
  }

  /** The error case, taken for `errored` and `pkgnotfound` only. */
  function Surfaced(s: UiState, state: string, inputs: Inputs): (r: UiState)
    requires Wf(s) && Fits(inputs, s)
    ensures Wf(r) && r.bars == s.bars
    ensures state !in ErrorStates ==> r == s
    // in the error states the Console dock is shown and activated
    ensures state in ErrorStates ==> r.docks[ConsoleDock].visible
    ensures state in ErrorStates && Exclusive(inputs) ==>
      r.current == s.current && forall i :: 0 <= i < |r.docks| ==> r.docks[i].visible == (i == ConsoleDock)
    ensures state in ErrorStates && !Exclusive(inputs) ==>
      r.current == TabTurn(s, "Console", inputs) &&
      forall i :: 0 <= i < |r.docks| && i != ConsoleDock ==> r.docks[i].visible == s.docks[i].visible
  {
    if state in ErrorStates then ErrorSurfaced(s, inputs) else s
  }

  /** The `notresolved` case, taken for that state only. */
  function NotResolvedCase(s: UiState, state: string): (r: UiState)
    requires Wf(s)
    ensures Wf(r) && r.bars == s.bars && r.current == s.current && r.docks == s.docks
    ensures state != "notresolved" ==> r == s
    ensures state == "notresolved" ==>
      !r.header.appsEnabled && r.launch == LaunchButton("Failed to resolve", false)
  {
    if state == "notresolved" then ResolveFailed(s) else s
  }

  /** The end of every state change: the status indicator names the state
      and the advanced-controls pass runs under the preference `shown`. */
  function Indicated(s: UiState, state: string, shown: bool): (r: UiState)
    requires Wf(s)
    ensures Wf(r) && r.bars == s.bars && r.current == s.current && r.stateIndicator == state
  {
    AdvancedPass(s.(stateIndicator := state), shown)
  }

  /** `on_state_changed(state)`, which ends with the advanced-controls pass
      under the stored preference. */
  function StateChanged(s: UiState, state: string, inputs: Inputs, project: string): (r: UiState)
    requires Wf(s) && Fits(inputs, s)
    ensures Wf(r) && r.bars == s.bars
    ensures r.tabified == s.tabified && r.selectedRow == s.selectedRow
    ensures r.windowTitle == s.windowTitle && r.projectName == s.projectName
  {
    Indicated(NotResolvedCase(Surfaced(Entered(s, state, project), state, inputs), state), state, inputs.showAdvancedControls)
  }

  /** The page shown after a state change: `errored` for both error states,
      the state's own page for `home`, `booting` and `noapps`, `home` for every
      other string, unknown ones included. */
  lemma StateChangedPage(s: UiState, state: string, inputs: Inputs, project: string)
    requires Wf(s) && Fits(inputs, s)
    ensures StateChanged(s, state, inputs, project).page ==
      if state in ErrorStates then "errored" else if state in Pages then state else "home"
  {
  }

  /** The status indicator, the console line and the launch button after a
      state change. The launch button is never re-enabled by a state change. */
  lemma StateChangedLaunch(s: UiState, state: string, inputs: Inputs, project: string)
    requires Wf(s) && Fits(inputs, s)
    ensures var r := StateChanged(s, state, inputs, project);
      r.stateIndicator == state &&
      r.console == s.console + [Console.Format("State: " + state, Console.Info)] &&
      r.launch.text == (if state in ErrorStates then "Package not found"
                        else if state == "notresolved" then "Failed to resolve" else "Launch") &&
      r.launch.enabled == (s.launch.enabled && state !in ErrorStates && state != "notresolved")
  {
  }

  /** The header controls after a state change. On the home page the apps list,
      the project button and the version box are enabled iff the state is
      `ready`; `noapps` enables the project button and names the project in its
      message, which every other state keeps; the error states and
      `notresolved` disable the apps list; otherwise the flags are kept. */
  lemma StateChangedControls(s: UiState, state: string, inputs: Inputs, project: string)
    requires Wf(s) && Fits(inputs, s)
    ensures var r := StateChanged(s, state, inputs, project);
      r.header.appsEnabled == (if state in ErrorStates || state == "notresolved" then false
                               else if PageFor(state) == "home" then state == "ready" else s.header.appsEnabled) &&
      r.header.projectBtnEnabled == (if PageFor(state) == "home" then state == "ready"
                                     else if PageFor(state) == "noapps" then true else s.header.projectBtnEnabled) &&
      r.header.projectVersionsEnabled == (if PageFor(state) == "home" then state == "ready"
                                          else s.header.projectVersionsEnabled) &&
      r.header.projectVersionsVisible == inputs.showAdvancedControls &&
      (state == "noapps" ==> r.noappsMessage == "No applications found for " + project) &&
      (state != "noapps" ==> r.noappsMessage == s.noappsMessage)
  {
  }

  /** Dock enablement is re-derived from the state alone: `loading` disables
      every dock, `launching` only the App dock, every other state none. */
  lemma StateChangedEnablement(s: UiState, state: string, inputs: Inputs, project: string)
    requires Wf(s) && Fits(inputs, s)
    ensures var r := StateChanged(s, state, inputs, project);
      forall i :: 0 <= i < |r.docks| ==>
        r.docks[i].enabled == !(state == "loading" || (state == "launching" && i == AppDock))
  {
  }

  /** Dock and toggle visibility after a state change. Toggles show iff their
      dock is not advanced or the preference is on, and advanced docks are
      hidden when it is off. Outside the error states no dock is shown and no
      tab changes; in the error states the Console dock is visible: in
      exclusive mode it is the only visible dock, otherwise its tab is turned
      to and the other docks keep their visibility. */
  lemma StateChangedVisibility(s: UiState, state: string, inputs: Inputs, project: string)
    requires Wf(s) && Fits(inputs, s)
    ensures var r := StateChanged(s, state, inputs, project);
      AdvancedHidden(r, inputs.showAdvancedControls) &&
      (forall i :: 0 <= i < |r.toggles| ==> r.toggles[i].checked == s.toggles[i].checked) &&
      (state !in ErrorStates ==>
         r.current == s.current &&
         forall i :: 0 <= i < |r.docks| ==>
           r.docks[i].visible == (s.docks[i].visible && (!s.docks[i].advanced || inputs.showAdvancedControls))) &&
      (state in ErrorStates ==> r.docks[ConsoleDock].visible) &&
      (state in ErrorStates && Exclusive(inputs) ==>
         r.current == s.current && forall i :: 0 <= i < |r.docks| ==> r.docks[i].visible == (i == ConsoleDock)) &&
      (state in ErrorStates && !Exclusive(inputs) ==>
         r.current == TabTurn(s, "Console", inputs) &&
         forall i :: 0 <= i < |r.docks| && i != ConsoleDock ==>
           r.docks[i].visible == (s.docks[i].visible && (!s.docks[i].advanced || inputs.showAdvancedControls)))
  {
    if state in ErrorStates && !Exclusive(inputs) {
      StateChangedErrorTab(s, state, inputs, project);
    }
  }

  /** The error states with several docks allowed: the Console dock is
      activated through `on_dock_toggled`, so the first tab bar holding a
      "Console" tab turns to it, and every other dock keeps its visibility
      apart from the advanced-controls pass. */
  lemma StateChangedErrorTab(s: UiState, state: string, inputs: Inputs, project: string)
    requires Wf(s) && Fits(inputs, s)
    requires state in ErrorStates && !Exclusive(inputs)
    ensures var r := StateChanged(s, state, inputs, project);
      r.current == TabTurn(s, "Console", inputs) &&
      forall i :: 0 <= i < |r.docks| && i != ConsoleDock ==>
        r.docks[i].visible == (s.docks[i].visible && (!s.docks[i].advanced || inputs.showAdvancedControls))
  {
  }
}
