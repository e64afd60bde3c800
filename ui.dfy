/** The window's observable state, as one value. */
module Ui {
  import opened Wrappers
  import opened DockRegistry
  import opened TabGroupResolver
  import Console

  /** The enabled and visible flags of the header controls. */
  datatype Header = Header(appsEnabled: bool, projectBtnEnabled: bool, projectVersionsEnabled: bool,
                           projectVersionsVisible: bool)

  /** The App dock's launch button. */
  datatype LaunchButton = LaunchButton(text: string, enabled: bool)

  /** Everything of the main window the core reads or writes. */
  datatype UiState = UiState(
    docks: seq<Dock>,               // registered docks, registration order
    toggles: seq<Toggle>,           // toggles[i] belongs to docks[i]
    bars: seq<seq<string>>,         // tab texts of every rendered tab bar
    current: seq<int>,              // current tab index of each tab bar
    page: string,                   // name of the page in the central stack
    header: Header,
    launch: LaunchButton,
    stateIndicator: string,         // permanent label in the status bar
    noappsMessage: string,
    console: seq<string>,           // HTML lines appended to the Console dock
    windowTitle: string,
    projectName: string,
    selectedRow: Option<nat>,       // last row handed to the apps table's selectRow
    tabified: seq<nat>              // docks tabified onto the first dock, in call order
  )

  /** Structural invariant: the registered docks, one toggle each, one current
      index per tab bar. */
  predicate Wf(s: UiState) {
    Registered(s.docks) && |s.toggles| == |s.docks| && |s.current| == |s.bars|
  }

  /** What the core reads from outside at its decision points: whether Ctrl is
      held, the two stored preferences, and the order in which the host
      enumerates its tab bars. */
  datatype Inputs = Inputs(ctrlHeld: bool, allowMultipleDocks: bool, showAdvancedControls: bool, barOrder: seq<nat>)

  predicate Fits(inputs: Inputs, s: UiState) {
    OrderFits(inputs.barOrder, s.bars)
  }

  /** The window class's fixed title. */
  const WindowTitle: string := "Launch App 2.0"

  /** `tell`: the message is appended to the console at INFO level. */
  function Told(s: UiState, message: string): (r: UiState)
    ensures r == s.(console := r.console)
    ensures |r.console| == |s.console| + 1
    ensures r.console[..|s.console|] == s.console && r.console[|s.console|..] == [Console.Format(message, Console.Info)]
  {
    s.(console := s.console + [Console.Format(message, Console.Info)])
  }

  /** The window as `__init__` builds it, before `setup_docks` runs: widgets at
      their initial values, no tab bar rendered yet. */
  function Initial(project: string): (s: UiState)
    ensures Wf(s) && s.bars == [] && s.console == []
    ensures forall i :: 0 <= i < |s.docks| ==> !s.docks[i].visible
  {
    UiState(Registry(), seq(|Titles|, _ => Toggle(false, true)), [], [], "home",
            Header(true, true, true, true), LaunchButton("Launch", true), "", "No applications found",
            [], WindowTitle, project, None, [])
  }
}
