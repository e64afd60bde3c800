# launchapp2 main window: a Dafny model

This project models the core of the `Window` class of `launchapp2/view.py`, the
main window of Launch App 2.0, and proves properties of that model. The core has
four parts:

- **The dock registry.** Seven dock panels are registered in a fixed order: App,
  Packages, Context, Environment, Console, Commands and Preferences. Each dock
  gets a checkable toggle button in the header. `setup_docks` gives them their
  initial layout: all hidden, and every dock tabified onto the first one.
- **The dock-visibility coordinator.** `on_dock_toggled` makes a dock that was
  just shown the active one. In exclusive mode (Ctrl held, or the
  `allowMultipleDocks` preference off) every other dock is hidden. Otherwise
  the first tab bar with a tab titled like the dock turns to that tab. The
  toggle handlers `on_toggled` and `on_visible` connect each toggle to its
  dock.
- **The presentation state machine.** `on_state_changed(state)` updates
  several things for each controller state: the visible page, the header
  controls, the launch button, dock enablement and (in the error states) the
  Console dock.
- **The advanced-controls pass.** `update_advanced_controls` shows or hides the
  version box and the toggles of the advanced docks. It hides an advanced dock
  whose toggle it hides. It runs at the end of every state change and when the
  `showAdvancedControls` setting changes.

Smaller handlers are also modelled: `Console.append`'s line formatting, `tell`,
`on_setting_changed`, `on_project_changed`, `on_app_clicked`, `on_apps_reset`,
and the Packages dock's `on_right_click` edits to a package row.

## How the model is built

- **Snapshot value.** `Ui.UiState` holds everything of the window the core reads
  or writes.
- **Docks by position.** The registry's order is fixed, so a dock is identified
  by its position. `AppDock` is 0 and `ConsoleDock` is 4.
- **Tab bars.** Qt creates the tab bars itself. They are modelled as a list of
  tab-text lists (`bars`) plus a current index for each bar (`current`).
- **Transition functions.** Most handlers are a pure function from `UiState` to
  `UiState`, and the lemmas state properties of those functions. Two are
  different. `on_apps_reset` is specified by the row it selects: `StartupRow`
  for the intended search, `SelectRowArgumentAsWritten` for the code as written
  (see Findings). `on_setting_changed` also returns the store request it sends.
- **The class.** `View.Window` keeps the same state in fields. It has one
  method per handler, and each method is proved to leave `Model()` equal to
  that handler's function applied to the old state. `OnAppsReset` is the
  exception: it implements the intended row search and ensures it selects
  `StartupRow`. The constructor is `__init__`.
- **Values read from outside become parameters.** These are grouped in
  `Ui.Inputs`:
  - whether Ctrl is held;
  - the two stored preferences, `allowMultipleDocks` and `showAdvancedControls`;
  - the order in which `findChildren(QTabBar)` returns the bars.

  The project name `on_state_changed` reads from the controller, the startup
  application and the apps table's rows are also parameters.

## Behaviour the code has that a reader might not expect

All of these are proved.

- `loading` and every other state without a page of its own show the `home`
  page, because `setCurrentWidget` always runs with the looked-up page.
- `pkgnotfound` first goes through the `home` branch, which disables the
  project button and the version box, and only then switches to the error page.
- `on_toggled` makes the dock follow the toggle's checked state. Qt has
  already flipped that state by the time `clicked` is emitted.
- No state change ever re-enables the launch button (`StateChangedLaunch`).

## Model

| member | source | states |
|---|---|---|
| DockRegistry.Registry | launchapp2/view.py:73-82 | the seven docks in registration order, with their titles and advanced flags; all hidden and enabled |
| DockRegistry.TitlesUnique | launchapp2/view.py:373 | no two docks share a title, which the tab lookup by title relies on |
| DockRegistry.NamedDocksAreBasic | launchapp2/view.py:561 | the App and Console docks, which the window addresses by name, are not advanced |
| DockRegistry.ShowOnly | launchapp2/view.py:355-357 | exactly dock k is visible afterwards (one visible dock); nothing else of any dock changes |
| DockRegistry.ShowOnlyIdempotent | launchapp2/view.py:355-357 | showing only dock k a second time changes nothing |
| DockRegistry.Hidden | launchapp2/view.py:295-296 | no dock is visible afterwards; nothing else of any dock changes |
| DockRegistry.WithEnabled | launchapp2/view.py:453-454 | every dock gets the requested enabled flag; nothing else changes |
| Search.FirstIndex | launchapp2/view.py:376-379 | None exactly when the title is absent; otherwise the first position holding it |
| TabGroupResolver.FirstBar | launchapp2/view.py:381-389 | None exactly when no enumerated bar has the title; otherwise the first enumerated bar that has it |
| TabGroupResolver.FirstBarUnique | launchapp2/view.py:381-386 | a position with the title and none before it is the position the search returns |
| TabGroupResolver.ResolverExample | launchapp2/view.py:376-391 | with bars [App, Packages] and [Console], Console is found in the second bar at tab 0; an unknown title is in none |
| Ui.Told | launchapp2/view.py:436-437 | `tell` appends exactly one INFO-formatted line to the console and changes nothing else |
| Ui.Initial | launchapp2/view.py:18-232 | the widgets as `__init__` creates them: registered docks, all hidden, no tab bar, empty console |
| Console.ColorTag | launchapp2/view.py:742-744 | the opening tag is red iff the level is WARNING, dark grey otherwise |
| Console.Format | launchapp2/view.py:741-746 | the appended line is the colour tag, then the message unaltered, then the closing tag |
| Console.RedExactlyForWarnings | launchapp2/view.py:742-746 | a formatted line reads red exactly when it was logged at WARNING |
| Console.FormatKeepsLine | launchapp2/view.py:746 | two different messages never produce the same line |
| Layout.Followers | launchapp2/view.py:307-312 | every dock but the first, in registration order |
| Layout.SetupDocks | launchapp2/view.py:294-312 | no dock is visible; the other n-1 docks are tabified onto the first, in order; nothing else changes |
| DockVisibilityCoordinator.TabTurn | launchapp2/view.py:381-390 | the tab indices after activating a title: the first enumerated bar holding it turns to its first such tab; none turns when no bar holds it |
| DockVisibilityCoordinator.DockToggled | launchapp2/view.py:343-391 | hiding does nothing. Exclusive: only the dock is visible and no bar changes. Otherwise visibility is kept, and only the first enumerated bar holding the title turns to the title's first tab (no change when no bar has it) |
| DockVisibilityCoordinator.Toggled | launchapp2/view.py:181-183 | the dock's visibility follows the toggle's checked state. Unchecking only hides it. Checking activates it: in exclusive mode it becomes the only visible dock; otherwise the tab turn of `TabTurn` happens; nothing else changes |
| DockVisibilityCoordinator.Click | launchapp2/view.py:174-188 | a click flips the toggle's checked state and the dock follows it. Unchecking hides only that dock and turns no tab. Checking in exclusive mode leaves only that dock visible; otherwise it turns that dock's tab (`TabTurn`). Nothing but the docks, the toggles and the tab indices changes |
| DockVisibilityCoordinator.VisibilityChanged | launchapp2/view.py:185-198 | only the toggle's checked state changes, and it is copied from its dock; no dock and no tab bar changes |
| DockVisibilityCoordinator.AppClicked | launchapp2/view.py:518-523 | the App dock is shown and activated: the only visible dock in exclusive mode, otherwise the App tab is turned to (`TabTurn`) and the other docks keep their visibility |
| DockVisibilityCoordinator.ActivationIdempotent | launchapp2/view.py:343-391 | activating the same dock twice ends where activating it once does |
| DockVisibilityCoordinator.ClickTwiceRestores | launchapp2/view.py:181-198 | when a toggle matches its dock, two clicks restore both the dock's visibility and every toggle |
| DockVisibilityCoordinator.ExclusiveActivations | launchapp2/view.py:355-357 | in exclusive mode, after any run of activations exactly the last activated dock is visible |
| DockVisibilityCoordinator.ReportedTogglesMatch | launchapp2/view.py:185-186 | once every dock's visibility has been reported, each toggle is checked exactly when its dock is visible |
| AdvancedControls.AdvancedPass | launchapp2/view.py:277-292 | the version box follows the preference; a toggle shows iff its dock is not advanced or the preference is on; the pass never shows a dock and hides exactly the advanced ones when the preference is off |
| AdvancedControls.AdvancedPassSettles | launchapp2/view.py:277-292 | the pass establishes its invariant, and a second pass changes nothing |
| AdvancedControls.SettledPassChangesNothing | launchapp2/view.py:277-292 | a window that already satisfies the invariant is left unchanged |
| AdvancedControls.StoreRequest | launchapp2/view.py:324-337 | a store request is sent for a setting (its key and value) and never for a button |
| AdvancedControls.SettingChanged | launchapp2/view.py:323-341 | resetLayout only announces itself and other buttons do nothing. A setting is announced. Any other key changes nothing else; showAdvancedControls re-runs the pass with the stored value, which never shows a dock and hides exactly the advanced ones when the value is off. Page, launch button, indicator and the other header flags never change |
| PresentationStateMachine.PageFor | launchapp2/view.py:446-447 | a state's own page when one has its name, home for every other string |
| PresentationStateMachine.EnterReset | launchapp2/view.py:444-454 | what every state change does first: announce the state, show its page, relabel the launch button "Launch", enable every dock |
| PresentationStateMachine.PageControls | launchapp2/view.py:456-465 | on home, the three header flags follow state == ready; on noapps, the project button is enabled and the message names the project; on the other pages nothing changes |
| PresentationStateMachine.StateDisables | launchapp2/view.py:467-472 | launching disables only the App dock; loading disables every dock; nothing else changes |
| PresentationStateMachine.ErrorSurfaced | launchapp2/view.py:474-484 | show the Console dock and activate it, switch to the error page, disable the apps list and the launch button |
| PresentationStateMachine.Entered | launchapp2/view.py:444-472 | the reset, page controls and dock enablement every state goes through; no tab bar turns and no dock's visibility changes |
| PresentationStateMachine.Surfaced | launchapp2/view.py:474-484 | nothing changes outside the error states; in them the Console dock is visible, the only visible one in exclusive mode, otherwise its tab turns (`TabTurn`) and the other docks keep their visibility |
| PresentationStateMachine.NotResolvedCase | launchapp2/view.py:486-489 | other states are left unchanged; `notresolved` disables the apps list and the launch button and relabels it "Failed to resolve"; no dock and no tab bar changes |
| PresentationStateMachine.Indicated | launchapp2/view.py:491-492 | the status indicator names the state and the pass turns no tab |
| PresentationStateMachine.ResolveFailed | launchapp2/view.py:486-489 | disable the apps list and the launch button, relabel it; nothing else changes |
| PresentationStateMachine.StateChanged | launchapp2/view.py:443-492 | the whole handler; bars, tabified docks, selection, title and project name are unchanged |
| PresentationStateMachine.StateChangedPage | launchapp2/view.py:446-480 | the page is errored for both error states, the state's own page when one exists, home otherwise |
| PresentationStateMachine.StateChangedLaunch | launchapp2/view.py:444-491 | the indicator names the state; exactly one console line is added; the launch label depends only on the state; the button is never re-enabled |
| PresentationStateMachine.StateChangedControls | launchapp2/view.py:456-489 | the header flags after each kind of state; the noapps message names the project after `noapps` and is kept after every other state |
| PresentationStateMachine.StateChangedEnablement | launchapp2/view.py:453-472 | dock enablement depends on the state alone: loading disables every dock, launching only the App dock |
| PresentationStateMachine.StateChangedVisibility | launchapp2/view.py:474-492 | the advanced-controls invariant holds. Outside the error states no dock is shown and no tab changes. In the error states the Console dock is visible: in exclusive mode it is the only visible dock; otherwise the Console tab is turned to (`TabTurn`) and the other docks keep their visibility, apart from the pass |
| PresentationStateMachine.StateChangedErrorTab | launchapp2/view.py:474-477 | in the error states with several docks allowed, the Console dock is activated through on_dock_toggled: its tab is turned to and no other dock is shown |
| Projects.ChangeMessage | launchapp2/view.py:421-428 | "Changing" when the project differs, "Refreshing" when it does not, followed by before -> after |
| Projects.MessageTellsChange | launchapp2/view.py:423-426 | the message starts with "Changing" exactly when the project changed and with "Refreshing" exactly when it did not |
| Projects.ProjectChanged | launchapp2/view.py:421-430 | one console line is added, the window is titled after the new project, and the project name shows it |
| AppsList.SelectRowArgumentAsWritten | launchapp2/view.py:500-516 | as written: row 0 when unset or the table is empty, the first matching row, otherwise the last row's model index |
| AppsList.UnmatchedStartupPassesModelIndex | launchapp2/view.py:506-516 | startup application "maya" with the single row "nuke" hands a model index to selectRow |
| AppsList.StartupRow | launchapp2/view.py:500-516 | intended: the first row named after the startup application, row 0 when it is unset or absent |
| AppsList.StartupRowAgreesWithSource | launchapp2/view.py:503-516 | whenever the code passes a row number, it is the intended row |
| Packages.RightClick | launchapp2/view.py:816-871 | no row under the cursor faults. Cancel, edit and open-location leave the row. Default clears the override and the disabled flag. Earliest and latest pin the first or last version; on an empty list they fault. Disable clears the override and flips the flag |
| Packages.RightClickKeepsOverrideListed | launchapp2/view.py:850-871 | no pick leaves a row overridden to a version it does not list |
| Packages.DisableTwice | launchapp2/view.py:829-830 | picking Disable twice restores the flag and leaves no override |
| View.Opened | launchapp2/view.py:20-251 | after `__init__` the window has no tab bar and no selected row, carries the class's fixed title, and shows the controller's current project |
| View.OpenedPassRedundant | launchapp2/view.py:249-251 | the extra advanced-controls pass at the end of `__init__` changes nothing, because entering `booting` already ran it |
| View.OpenedIsBooting | launchapp2/view.py:249-251 | a new window shows the booting page, its indicator names booting, and the console holds only that state change |
| View.OpenedLayout | launchapp2/view.py:249-251 | in a new window no dock is visible, docks 1-6 are tabified onto dock 0, and the advanced controls follow the preference |
| View.Window.constructor | launchapp2/view.py:18-251 | the fields equal the opened window |
| View.Window.Tell | launchapp2/view.py:436-437 | the state afterwards is `Ui.Told` of the old state |
| View.Window.SetupDocks | launchapp2/view.py:294-312 | the state afterwards is `Layout.SetupDocks` of the old state |
| View.Window.UpdateAdvancedControls | launchapp2/view.py:277-292 | the state afterwards is `AdvancedPass` of the old state |
| View.Window.OnSettingChanged | launchapp2/view.py:323-341 | the state afterwards is `SettingChanged`, and the store request returned is `StoreRequest` |
| View.Window.OnDockToggled | launchapp2/view.py:343-391 | the state afterwards is `DockToggled` of the old state |
| View.Window.OnToggleClicked | launchapp2/view.py:181-183 | the state afterwards is `Click` of the old state |
| View.Window.OnVisibilityChanged | launchapp2/view.py:185-186 | the state afterwards is `VisibilityChanged` of the old state |
| View.Window.OnAppClicked | launchapp2/view.py:518-523 | the state afterwards is `AppClicked` of the old state |
| View.Window.OnProjectChanged | launchapp2/view.py:421-430 | the state afterwards is `ProjectChanged` of the old state |
| View.Window.EnableDocks | launchapp2/view.py:453-454 | every dock's enabled flag is set; nothing else changes |
| View.Window.OnStateChanged | launchapp2/view.py:443-492 | the state afterwards is `StateChanged` of the old state |
| View.Window.EnterPage | launchapp2/view.py:444-472 | the state afterwards is `Entered` of the old state |
| View.Window.EnterState | launchapp2/view.py:444-454 | the state afterwards is `EnterReset` of the old state |
| View.Window.ApplyPageControls | launchapp2/view.py:456-465 | the state afterwards is `PageControls` of the old state |
| View.Window.ApplyStateDisables | launchapp2/view.py:467-472 | the state afterwards is `StateDisables` of the old state |
| View.Window.SurfaceError | launchapp2/view.py:474-484 | the state afterwards is `ErrorSurfaced` of the old state |
| View.Window.RaiseConsole | launchapp2/view.py:475-477 | the Console dock is shown, then on_dock_toggled runs for it |
| View.Window.FailResolve | launchapp2/view.py:486-489 | the state afterwards is `ResolveFailed` of the old state |
| View.Window.Indicate | launchapp2/view.py:491-492 | the indicator names the state, then the pass runs |
| View.Window.OnAppsReset | launchapp2/view.py:500-516 | selects `StartupRow`; logs one line exactly when the startup application is found |

## Left out

- Qt rendering and layout: styling, icons, sizes, the header grid, the status bar's timed messages in `tell`, and the text cursor and scrolling in `Console.append`.
- `eventFilter`, `showEvent`, `closeEvent` and geometry or window-state persistence: they belong to the host's event loop and storage.
- `SettingChanged`: restoring the stored default layout after resetLayout is Qt's own geometry code. Only the announcement is modelled.
- SettingChanged: after storing a setting, `update_advanced_controls` reads `showAdvancedControls` back from the controller's store and applies `bool` to it. The model assumes the store returns exactly the value just stored, so the pass runs with `Truthy` of the new value. A store that changed or dropped the value is not modelled.
- The controller's side: the `store` call is returned, not performed (`OnSettingChanged`). `select_project`, `reset`, `to_ready`, launching, and the project menu `on_show_project_menu` are calls into the controller and are not modelled.
- `on_logged` and `on_project_versions_reset` are not part of this model. They only forward a value to a widget: a console line, and the version box's index 0.
- `on_show_error` is not part of this model. It appends the controller's current error to the console and raises the Console dock above its tab siblings; which dock is drawn on top is Qt's stacking, which the model does not track.
- `on_app_changed` is not part of this model. It passes the selected application to the controller's `select_application` and refreshes the App dock from the selection; both are calls out of the window.
- Qt's tab-bar bookkeeping: Qt creates and regroups tab bars itself. The model takes their contents, and the order `findChildren` returns them in, as given.
- DockVisibilityCoordinator.VisibilityChanged: Qt may send `visibilityChanged` from inside `setVisible`. The model treats it as a separate event the host delivers after the handler, which is where it can have an effect.
- Packages.RightClick: the Edit and Open-file-location picks start an editor or a file browser. Those leave the row unchanged and are not modelled further.
- AppsList: a `None` startup application and an empty name are both treated as unset (the code's `if app:`).
- Python exceptions are not modelled as control flow. The two right-click faults are returned as `Err` values.

## Findings

| source | as written | input that shows it | evidently intended | confidence | as-written member | corrected member |
|---|---|---|---|---|---|---|
| launchapp2/view.py:503-516 | the loop variable `index` is overwritten with each row's model index, so when rows exist and none matches the startup application, the last row's model index is passed to `selectRow` | startup application "maya" and a table holding only "nuke" | `selectRow(0)` when nothing matches | not executed | AppsList.UnmatchedStartupPassesModelIndex | AppsList.StartupRow |
