/** The main window: its widget state as fields, each signal handler as a
    method proved against the transition function of the same name. */
module View {
  import opened Wrappers
  import opened Search
  import opened DockRegistry
  import opened TabGroupResolver
  import opened Ui
  import opened DockVisibilityCoordinator
  import opened AdvancedControls
  import opened Layout
  import opened PresentationStateMachine
  import opened Projects
  import opened AppsList
  import Console

  /** The window right after `__init__`: docks set up, the `booting` state
      entered and the advanced-controls pass run once more. */
  function Opened(project: string, inputs: Inputs): (s: UiState)
    requires inputs.barOrder == []
    ensures Wf(s) && s.bars == [] && s.selectedRow == None
    ensures s.windowTitle == WindowTitle && s.projectName == project
  {
    var setUp := SetupDocks(Initial(project));
    AdvancedPass(StateChanged(setUp, "booting", inputs, project), inputs.showAdvancedControls)
  }

  /** The extra advanced-controls pass at the end of `__init__` changes
      nothing: entering `booting` already ran it. */
  lemma OpenedPassRedundant(project: string, inputs: Inputs)
    requires inputs.barOrder == []
    ensures Opened(project, inputs) == StateChanged(SetupDocks(Initial(project)), "booting", inputs, project)
  {
  }

  /** A freshly opened window shows the booting page with only its state
      change logged. */
  lemma OpenedIsBooting(project: string, inputs: Inputs)
    requires inputs.barOrder == []
    ensures var s := Opened(project, inputs);
      s.page == "booting" && s.stateIndicator == "booting" &&
      s.console == [Console.Format("State: booting", Console.Info)]
  {
    var setUp := SetupDocks(Initial(project));
    OpenedPassRedundant(project, inputs);
    StateChangedPage(setUp, "booting", inputs, project);
    StateChangedLaunch(setUp, "booting", inputs, project);
    var line := Console.Format("State: booting", Console.Info);
    assert setUp.console == [] && [] + [line] == [line];
    assert "State: " + "booting" == "State: booting";
  }

  /** In a freshly opened window no dock is visible, docks 1 to 6 are tabified
      onto dock 0 and the advanced controls follow the preference. */
  lemma OpenedLayout(project: string, inputs: Inputs)
    requires inputs.barOrder == []
    ensures var s := Opened(project, inputs);
      VisibleCount(s.docks) == 0 && s.tabified == [1, 2, 3, 4, 5, 6] &&
      AdvancedHidden(s, inputs.showAdvancedControls)
  {
    var setUp := SetupDocks(Initial(project));
    OpenedPassRedundant(project, inputs);
    assert setUp.tabified == Followers(7) == [1, 2, 3, 4, 5, 6];
    StateChangedVisibility(setUp, "booting", inputs, project);
    NoneVisible(Opened(project, inputs).docks);
  }

  class Window {
    var docks: seq<Dock>
    var toggles: seq<Toggle>
    var bars: seq<seq<string>>
    var current: seq<int>
    var page: string
    var appsEnabled: bool
    var projectBtnEnabled: bool
    var projectVersionsEnabled: bool
    var projectVersionsVisible: bool
    var launchText: string
    var launchEnabled: bool
    var stateIndicator: string
    var noappsMessage: string
    var console: seq<string>
    var windowTitle: string
    var projectName: string
    var selectedRow: Option<nat>
    var tabified: seq<nat>

    /** The window's state as one value. */
    function Model(): UiState
      reads this
    {
      UiState(docks, toggles, bars, current, page,
              Header(appsEnabled, projectBtnEnabled, projectVersionsEnabled, projectVersionsVisible),
              LaunchButton(launchText, launchEnabled), stateIndicator, noappsMessage, console,
              windowTitle, projectName, selectedRow, tabified)
    }

    ghost predicate Valid()
      reads this
    {
      Wf(Model())
    }

    /** `__init__`. No tab bar exists yet, so the host enumerates none. */
    constructor (project: string, inputs: Inputs)
      requires inputs.barOrder == []
      ensures Valid() && Model() == Opened(project, inputs)
    {
      docks := Registry();
      toggles := seq(|Titles|, _ => Toggle(false, true));
      bars, current := [], [];
      page := "home";
      appsEnabled, projectBtnEnabled, projectVersionsEnabled, projectVersionsVisible := true, true, true, true;
      launchText, launchEnabled := "Launch", true;
      stateIndicator := "";
      noappsMessage := "No applications found";
      console := [];
      windowTitle := WindowTitle;
      projectName := project;
      selectedRow := None;
      tabified := [];
      new;
      assert Model() == Initial(project);
      SetupDocks();
      OnStateChanged("booting", inputs, project);
      UpdateAdvancedControls(inputs.showAdvancedControls);
    }

    /** `tell`: append the message to the console at INFO level. */
    method Tell(message: string)
      requires Valid()
      modifies this
      ensures Valid() && Model() == Told(old(Model()), message)
    {
      console := console + [Console.Format(message, Console.Info)];
    }

    /** `setup_docks`. */
    method SetupDocks()
      requires Valid()
      modifies this
      ensures Valid() && Model() == Layout.SetupDocks(old(Model()))
    {
      var i := 0;
      while i < |docks|
        invariant 0 <= i <= |docks| == |old(docks)|
        invariant forall j :: 0 <= j < |docks| ==> docks[j] == if j < i then old(docks[j]).(visible := false) else old(docks[j])
        invariant Model() == old(Model()).(docks := docks)
      {
        docks := docks[i := docks[i].(visible := false)];
        i := i + 1;
      }
      assert docks == Hidden(old(docks));
      var d := 0;
      while d < |docks|
        invariant 0 <= d <= |docks| && docks == Hidden(old(docks))
        invariant tabified == old(tabified) + Followers(d)
        invariant Model() == old(Model()).(docks := docks, tabified := tabified)
      {
        if d != 0 {
          tabified := tabified + [d];
        }
        d := d + 1;
      }
    }

    /** `update_advanced_controls`, with the stored preference as `shown`. */
    method UpdateAdvancedControls(shown: bool)
      requires Valid()
      modifies this
      ensures Valid() && Model() == AdvancedPass(old(Model()), shown)
    {
      projectVersionsVisible := shown;
      var ts, ds := toggles, docks;
      var i := 0;
      while i < |ts|
        invariant 0 <= i <= |ts| == |toggles| == |ds| == |docks|
        invariant forall j :: 0 <= j < |ts| ==>
          ts[j] == if j < i then toggles[j].(visible := !docks[j].advanced || shown) else toggles[j]
        invariant forall j :: 0 <= j < |ds| ==>
          ds[j] == if j < i && docks[j].advanced && !shown then docks[j].(visible := false) else docks[j]
      {
        var visible := !ds[i].advanced || shown;
        ts := ts[i := ts[i].(visible := visible)];
        if !visible {
          ds := ds[i := ds[i].(visible := false)];
        }
        i := i + 1;
      }
      assert ts == AdvancedPass(old(Model()), shown).toggles;
      assert ds == AdvancedPass(old(Model()), shown).docks;
      toggles, docks := ts, ds;
    }

    /** `on_setting_changed`; returns the store request it sends to the controller. */
    method OnSettingChanged(arg: Argument) returns (stored: Option<(string, SettingValue)>)
      requires Valid()
      modifies this
      ensures Valid() && Model() == SettingChanged(old(Model()), arg) && stored == StoreRequest(arg)
    {
      match arg
      case Button(name) =>
        if name == "resetLayout" {
          Tell("Restoring layout..");
        }
        stored := None;
      case Setting(key, value) =>
        Tell("Storing " + key + " = " + Show(value));
        stored := Some((key, value));
        if key == "showAdvancedControls" {
          UpdateAdvancedControls(Truthy(value));
        }
    }

    /** `on_dock_toggled(dock, visible)` for the dock at position `k`. */
    method OnDockToggled(k: nat, visible: bool, inputs: Inputs)
      requires Valid() && k < |docks| && Fits(inputs, Model())
      modifies this
      ensures Valid() && Model() == DockToggled(old(Model()), k, visible, inputs)
    {
      if !visible {
        return;
      }
      if inputs.ctrlHeld || !inputs.allowMultipleDocks {
        var i := 0;
        while i < |docks|
          invariant 0 <= i <= |docks| == |old(docks)|
          invariant forall j :: 0 <= j < |docks| ==> docks[j] == if j < i then old(docks[j]).(visible := j == k) else old(docks[j])
          invariant Model() == old(Model()).(docks := docks)
        {
          docks := docks[i := docks[i].(visible := i == k)];
          i := i + 1;
        }
        assert docks == ShowOnly(old(docks), k);
        return;
      }
      var order := inputs.barOrder;
      var uid := docks[k].title;
      var n := 0;
      while n < |order|
        invariant 0 <= n <= |order|
        invariant forall j :: 0 <= j < n ==> uid !in bars[order[j]]
        invariant Model() == old(Model())
      {
        var index := FirstIndex(bars[order[n]], uid);
        if index.Some? {
          FirstBarUnique(bars, order, uid, n);
          current := current[order[n] := index.value];
          return;
        }
        n := n + 1;
      }
    }

    /** A click on the toggle of dock `k`: the checkable button flips itself,
        then `on_toggled` runs. */
    method OnToggleClicked(k: nat, inputs: Inputs)
      requires Valid() && k < |docks| && Fits(inputs, Model())
      modifies this
      ensures Valid() && Model() == Click(old(Model()), k, inputs)
    {
      toggles := toggles[k := toggles[k].(checked := !toggles[k].checked)];
      var checked := toggles[k].checked;
      docks := docks[k := docks[k].(visible := checked)];
      OnDockToggled(k, checked, inputs);
    }

    /** `on_visible`: the dock at `k` reported a visibility change. */
    method OnVisibilityChanged(k: nat)
      requires Valid() && k < |docks|
      modifies this
      ensures Valid() && Model() == VisibilityChanged(old(Model()), k)
    {
      toggles := toggles[k := toggles[k].(checked := docks[k].visible)];
    }

    /** `on_app_clicked`. */
    method OnAppClicked(inputs: Inputs)
      requires Valid() && Fits(inputs, Model())
      modifies this
      ensures Valid() && Model() == AppClicked(old(Model()), inputs)
    {
      docks := docks[AppDock := docks[AppDock].(visible := true)];
      OnDockToggled(AppDock, true, inputs);
    }

    /** `on_project_changed(before, after)`. */
    method OnProjectChanged(before: string, after: string)
      requires Valid()
      modifies this
      ensures Valid() && Model() == ProjectChanged(old(Model()), before, after)
    {
      Tell(ChangeMessage(before, after));
      windowTitle := WindowTitle + " - " + after;
      projectName := after;
    }

    /** Enable (or disable) every registered dock. */
    method EnableDocks(on: bool)
      requires Valid()
      modifies this
      ensures Valid() && Model() == old(Model()).(docks := WithEnabled(old(docks), on))
    {
      var i := 0;
      while i < |docks|
        invariant 0 <= i <= |docks| == |old(docks)|
        invariant forall j :: 0 <= j < |docks| ==> docks[j] == if j < i then old(docks[j]).(enabled := on) else old(docks[j])
        invariant Model() == old(Model()).(docks := docks)
      {
        docks := docks[i := docks[i].(enabled := on)];
        i := i + 1;
      }
      assert docks == WithEnabled(old(docks), on);
    }

    /** `on_state_changed(state)`; `project` is the controller's current project. */
    method OnStateChanged(state: string, inputs: Inputs, project: string)
      requires Valid() && Fits(inputs, Model())
      modifies this
      ensures Valid() && Model() == StateChanged(old(Model()), state, inputs, project)
    {
      ghost var s0 := Model();
      EnterPage(state, project);
      ghost var entered := Model();
      if state == "pkgnotfound" || state == "errored" {
        SurfaceError(inputs);
      }
      ghost var surfaced := Model();
      assert surfaced == Surfaced(entered, state, inputs);
      if state == "notresolved" {
        FailResolve();
      }
      ghost var resolved := Model();
      assert resolved == NotResolvedCase(surfaced, state);
      Indicate(state, inputs.showAdvancedControls);
      assert Model() == Indicated(resolved, state, inputs.showAdvancedControls);
    }

    /** The last two statements of `on_state_changed`. */
    method Indicate(state: string, shown: bool)
      requires Valid()
      modifies this
      ensures Valid() && Model() == Indicated(old(Model()), state, shown)
    {
      stateIndicator := state;
      UpdateAdvancedControls(shown);
    }

    /** The unconditional part of `on_state_changed` and its page- and
        state-dependent enablement. */
    method EnterPage(state: string, project: string)
      requires Valid()
      modifies this
      ensures Valid() && Model() == Entered(old(Model()), state, project)
      ensures bars == old(bars)
    {
      EnterState(state);
      ApplyPageControls(state, project);
      ApplyStateDisables(state);
    }

    /** The start of `on_state_changed`: announce, switch page, reset the
        launch label, enable every dock. */
    method EnterState(state: string)
      requires Valid()
      modifies this
      ensures Valid() && Model() == EnterReset(old(Model()), state)
      ensures bars == old(bars)
    {
      Tell("State: " + state);
      page := PageFor(state);
      launchText := "Launch";
      EnableDocks(true);
    }

    /** The page-dependent header flags of `on_state_changed`. */
    method ApplyPageControls(state: string, project: string)
      requires Valid()
      modifies this
      ensures Valid() && Model() == PageControls(old(Model()), state, project)
      ensures bars == old(bars)
    {
      var pageName := PageFor(state);
      if pageName == "home" {
        appsEnabled := state == "ready";
        projectBtnEnabled := state == "ready";
        projectVersionsEnabled := state == "ready";
      } else if pageName == "noapps" {
        projectBtnEnabled := true;
        noappsMessage := "No applications found for " + project;
      }
    }

    /** The `launching` and `loading` cases of `on_state_changed`. */
    method ApplyStateDisables(state: string)
      requires Valid()
      modifies this
      ensures Valid() && Model() == StateDisables(old(Model()), state)
      ensures bars == old(bars)
    {
      if state == "launching" {
        docks := docks[AppDock := docks[AppDock].(enabled := false)];
      }
      if state == "loading" {
        EnableDocks(false);
      }
    }

    /** The `pkgnotfound` / `errored` case of `on_state_changed`. */
    method SurfaceError(inputs: Inputs)
      requires Valid() && Fits(inputs, Model())
      modifies this
      ensures Valid() && Model() == ErrorSurfaced(old(Model()), inputs)
      ensures bars == old(bars)
    {
      RaiseConsole(inputs);
      page := "errored";
      appsEnabled := false;
      launchEnabled := false;
      launchText := "Package not found";
    }

    /** The `notresolved` case of `on_state_changed`. */
    method FailResolve()
      requires Valid()
      modifies this
      ensures Valid() && Model() == ResolveFailed(old(Model()))
    {
      appsEnabled := false;
      launchEnabled := false;
      launchText := "Failed to resolve";
    }

    /** Show the Console dock and run `on_dock_toggled` for it. */
    method RaiseConsole(inputs: Inputs)
      requires Valid() && Fits(inputs, Model())
      modifies this
      ensures Valid()
      ensures Model() == DockToggled(old(Model()).(docks := old(docks)[ConsoleDock := old(docks)[ConsoleDock].(visible := true)]),
                                     ConsoleDock, true, inputs)
    {
      docks := docks[ConsoleDock := docks[ConsoleDock].(visible := true)];
      OnDockToggled(ConsoleDock, true, inputs);
    }

    /** `on_apps_reset` with the row search as evidently intended: select the
        first row named after the startup application `app`, row 0 otherwise. */
    method OnAppsReset(app: string, rows: seq<string>)
      requires Valid()
      modifies this
      ensures Valid()
      ensures Model() == old(Model()).(selectedRow := Some(StartupRow(app, rows)), console := console)
      ensures console == old(console) +
        if app != "" && app in rows then [Console.Format("Using startup application " + app, Console.Info)] else []
    {
      var index := 0;
      if app != "" {
        var row := 0;
        while row < |rows|
          invariant 0 <= row <= |rows| && forall j :: 0 <= j < row ==> rows[j] != app
          invariant Model() == old(Model())
        {
          if app == rows[row] {
            index := row;
            Tell("Using startup application " + rows[row]);
            break;
          }
          row := row + 1;
        }
      }
      selectedRow := Some(index);
    }
  }
}
