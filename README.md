# Packet application lifecycle, in Dafny

Packet is a desktop tool for sharing files with nearby devices. This project models its
application object, `PacketApplication`. That object handles a small sequence of events.
`handle_local_options` records whether `--background` was given. `startup` sets the default
icon, installs the stylesheet, registers the `quit` and `about` actions and registers the
keyboard accelerators. `activate` may run any number of times. On each run it re-presents
the single main window, or it builds that window once, stores it in a write-once cell, and
presents it unless the process is starting in background. The `quit` action sets the
window's quit-intent flag, then closes the window, then quits the application.

The project has three files:

- `outcomes.dfy` (module `Outcomes`) defines `Option`, and `Outcome`, which is either a
  value or a panic. The two panics this model keeps are an `unwrap()` on the empty
  window cell (`NoWindow`) and `expect("Window already set.")` (`WindowAlreadySet`).
- `lifecycle.dfy` (module `Lifecycle`) is the specification. `App` is a value: the window
  cell, the background flag, the window's `should_quit`, the action names and accelerators
  registered with the toolkit, and an ordered trace of the toolkit calls made (`Constructed`,
  `Presented`, `CloseRequested`, `AppQuitRequested`, ...). Each hook and handler is a
  function on `App`. `Run` runs any sequence of hooks and actions. `Inv` is the singleton
  invariant: at most one window was constructed, the cell is filled exactly when one was,
  and every window event in the trace concerns the stored window. Lemmas prove that every
  step keeps `Inv` and that a stored window is never replaced.
- `application.dfy` (module `Application`) is the object as the source has it. The class
  `PacketApplication` has the mutable fields `window` and `startInBackground`. A `Window`
  class carries `shouldQuit`. Each method changes these fields in place and is proved
  against the corresponding `Lifecycle` function, through `Model()`: the function of the
  same name, except that `QuitAction` is proved against `Lifecycle.Quit` and `AboutAction`
  against `Lifecycle.About`. The hooks and
  actions (`HandleLocalOptions`, `Activate`, `Startup`, `QuitAction`, `AboutAction`) also
  keep `Valid()`, which is `Lifecycle.Inv` of the model. The startup steps (`SetDefaultIcon`,
  `SetupCss`, `SetupGActions`, `SetAccelsForAction`, `SetupAccels`) have no `Valid()`
  contract of their own; `Startup` restores `Valid()` after them. `MainWindow` changes
  nothing.

Windows are numbered from 0 in the order the toolkit constructs them.
Toolkit calls (`present`, `close`, `quit`, icon, stylesheet, `add_action_entries`,
`set_accels_for_action`) are abstract events appended to the trace.

Three behaviours of the code are kept on purpose:

- `Lifecycle.Quit`: the quit handler with no window aborts. The handler resolves the window
  through `main_window`, which unwraps the cell.
- `Lifecycle.About`: the about handler with no window aborts, for the same reason.
- `Lifecycle.Activate`: the model has an abort path for a second store into the cell, as
  the code does. `RunAbortsOnlyWithoutWindow` proves that no run reaches it.

## Model

| member | source | states |
|---|---|---|
| `Lifecycle.OnceSet` | src/application.rs:45-47 | storing into the window cell succeeds exactly when the cell is empty, and the cell then holds the new handle; a filled cell aborts with "Window already set." |
| `Lifecycle.MainWindow` | src/application.rs:92-94 | `main_window` yields the stored window, and aborts exactly when the cell is empty |
| `Lifecycle.HandleLocalOptions` | src/application.rs:67-73 | afterwards the background flag is true iff `background` is among the parsed options, and nothing else in the state changes |
| `Lifecycle.HandleLocalOptionsLastWins` | src/application.rs:69-70 | a later options parse overwrites the earlier flag completely |
| `Lifecycle.Activate` | src/application.rs:33-52 | with the window always live, activation never aborts on any state, and it leaves the background flag, the actions and the accelerators as they were |
| `Lifecycle.ActivatePresentsExisting` | src/application.rs:38-42 | with a window stored, activation's only effect is to present that same window, and no window is constructed |
| `Lifecycle.ActivateCreatesOnce` | src/application.rs:44-51 | with the cell empty, activation constructs exactly one window, stores its handle with its quit flag false, and presents it only if not starting in background |
| `Lifecycle.ActivatePresentsIff` | src/application.rs:38-51 | on the activation that builds the window, it is presented iff the background flag is off; on a later activation the new state is the old one with only the presentation of the stored window appended to the trace |
| `Lifecycle.SetAccelsForAction` | src/application.rs:122-126 | registering chords for one action replaces that action's chords, keeps every other action's, records exactly that one effect, and changes nothing else |
| `Lifecycle.AcceleratorsOneChordEach` | src/application.rs:120-127 | the table maps exactly `app.quit`, `window.close`, `win.preferences` and `win.help`, one chord each: `app.quit` to `<Control>q`, `window.close` to `<Control>w`, `win.preferences` to `<Control>comma`, `win.help` to `F1` |
| `Lifecycle.SetupAccelsInstallsTable` | src/application.rs:120-127 | accelerator setup adds the fixed table over what was registered, in the table's order, and changes nothing else |
| `Lifecycle.SetDefaultIcon` | src/application.rs:59-60 | the icon step records the icon effect and changes nothing else |
| `Lifecycle.SetupCss` | src/application.rs:129-139 | the stylesheet step records the stylesheet effect and changes nothing else |
| `Lifecycle.SetupGActions` | src/application.rs:96-117 | afterwards `quit` and `about` are registered, no other action name changes, one registration effect is recorded, and no other field changes |
| `Lifecycle.SetupAccels` | src/application.rs:120-127 | accelerator setup records four effects and leaves the window cell, both flags and the actions unchanged |
| `Lifecycle.Startup` | src/application.rs:54-65 | startup neither builds nor stores a window (the cell is kept, the number of windows constructed is kept, the old trace is kept as a prefix and no new effect concerns a window), keeps both flags, and leaves `quit` and `about` registered |
| `Lifecycle.StartupOrder` | src/application.rs:54-65 | startup sets the icon, then installs CSS, then adds the actions, then sets the accelerators; it neither builds nor stores a window and leaves both flags alone |
| `Lifecycle.StartupEventsNoWindow` | src/application.rs:54-65 | none of startup's effects constructs a window or concerns one |
| `Lifecycle.StartupTwiceRegistersOnce` | src/application.rs:116-126 | a second startup leaves the registered action names and accelerators as the first left them |
| `Lifecycle.Quit` | src/application.rs:98-107 | the quit handler succeeds iff a window is stored; otherwise the `main_window` unwrap aborts |
| `Lifecycle.QuitOrder` | src/application.rs:99-106 | quit sets the quit flag; the close request already carries the flag as true; the app-quit request follows; nothing else changes, whatever the background flag |
| `Lifecycle.About` | src/application.rs:111-115 | the about handler succeeds iff a window is stored; its only effect is to append the presentation of the dialog over that window to the trace |
| `Lifecycle.InitialInv` | src/application.rs:16-21 | a freshly built object (empty cell, flag false) satisfies the singleton invariant |
| `Lifecycle.StartupKeepsInv` | src/application.rs:54-65 | startup keeps the singleton invariant |
| `Lifecycle.ActivateKeepsInv` | src/application.rs:33-52 | activation keeps the singleton invariant |
| `Lifecycle.QuitKeepsInv` | src/application.rs:98-107 | the quit action keeps the singleton invariant |
| `Lifecycle.AboutKeepsInv` | src/application.rs:111-115 | the about action keeps the singleton invariant |
| `Lifecycle.StepKeepsInv` | src/application.rs:33-116 | every hook and action that does not abort keeps the singleton invariant |
| `Lifecycle.RunKeepsInv` | src/application.rs:18-52 | any sequence of hooks and actions keeps the singleton invariant |
| `Lifecycle.RunNeverReplacesWindow` | src/application.rs:38-47 | once stored, the window handle is the same after any further sequence of hooks and actions |
| `Lifecycle.RunWithActivationHasWindow` | src/application.rs:44-47 | after any run containing an activation, a window is stored |
| `Lifecycle.RunAbortsOnlyWithoutWindow` | src/application.rs:44-47 | with the window always live, the only abort any run can reach is a missing window; "Window already set." never fires |
| `Lifecycle.SingleWindow` | src/application.rs:38-47 | from a fresh process, any run builds at most one window, and exactly one if it activates at all; every window event concerns that window |
| `Lifecycle.StartupFromFresh` | src/application.rs:54-65 | startup of a fresh object registers the two actions and the accelerator table, and records exactly the startup effects |
| `Lifecycle.FirstActivation` | src/application.rs:44-51 | the first activation after startup builds window 0, and presents it unless starting in background |
| `Lifecycle.StartAndActivate` | src/application.rs:33-65 | startup followed by activation ends in the launched state for the given flag |
| `Lifecycle.Launch` | src/application.rs:33-73 | options, startup, activate: window 0 is built, and presented iff `background` was not given |
| `Lifecycle.BackgroundLaunchThenShow` | src/application.rs:38-51 | with `background`, a second activation presents the same window without building another, and ends as a foreground launch would except for the flag |
| `Application.Window.constructor` | src/application.rs:44 | a new main window starts with its quit-intent flag false |
| `Application.PacketApplication.constructor` | src/application.rs:16-21 | a new object has an empty window cell and the flag false, and its model is the initial state |
| `Application.PacketApplication.MainWindow` | src/application.rs:92-94 | returns the stored window object, whose id is what the specification's `MainWindow` yields |
| `Application.PacketApplication.HandleLocalOptions` | src/application.rs:67-73 | the new state is the specification's `HandleLocalOptions` of the old one, and the window cell is untouched |
| `Application.PacketApplication.Activate` | src/application.rs:33-52 | the new state is the specification's `Activate` of the old one, and a stored window is kept |
| `Application.PacketApplication.Startup` | src/application.rs:54-65 | the new state is the specification's `Startup` of the old one, and the window cell is untouched |
| `Application.PacketApplication.SetDefaultIcon` | src/application.rs:59-60 | records the icon effect, as the specification's `SetDefaultIcon` |
| `Application.PacketApplication.SetupCss` | src/application.rs:129-139 | records the stylesheet effect, as the specification's `SetupCss` |
| `Application.PacketApplication.SetAccelsForAction` | src/application.rs:122-126 | replaces one action's chords and records the effect, as the specification's `SetAccelsForAction` |
| `Application.PacketApplication.SetupGActions` | src/application.rs:96-117 | adds the `quit` and `about` action names and records their registration |
| `Application.PacketApplication.SetupAccels` | src/application.rs:120-127 | registers the four accelerators in order, as the specification's `SetupAccels` |
| `Application.PacketApplication.QuitAction` | src/application.rs:98-107 | sets the window's `shouldQuit` in place, then requests close, then requests app quit, as the specification's `Quit` |
| `Application.PacketApplication.AboutAction` | src/application.rs:111-115 | presents the about dialog over the stored window, as the specification's `About` |
| `Application.BackgroundThenShow` | src/application.rs:38-51 | on the class, a background launch followed by a second activation has built one window and presented it once |

## Left out

- GTK, Adwaita and GIO calls (`present`, `close`, `quit`, `set_default_icon_name`, `add_action_entries`, `set_accels_for_action`): foreign library calls, modelled only as trace events.
- The parent hooks `parent_activate`, `parent_startup`, `parent_handle_local_options` and `parent_shutdown` (src/application.rs:35, 56, 72, 77): dropped entirely. They are toolkit code with no effect on this state, and no trace event records them.
- `setup_css` (the CSS provider, resource loading, the display lookup): display plumbing; modelled as a single `CssInstalled` event.
- `show_about_dialog`: its static dialog content and `gettext` translations are UI; the model keeps only the presentation over the main window, which needs a stored window.
- `authors`: dead code that reads a compile-time environment variable.
- Logging: the `debug!` and `tracing::debug!` calls in `activate`, `startup`, `handle_local_options`, `shutdown` and the quit handler (src/application.rs:34, 55, 68, 76, 100) write log output only and are not modelled.
- `run`, `setup_options` and the `Default` builder: logging, option declaration and toolkit construction. The parsed command line is a parameter: the set of option names present.
- `shutdown`: it only calls the parent hook.
- The exit code that `handle_local_options` passes through from the parent hook.
- `WeakRef` liveness: the toolkit may destroy the window, after which `upgrade().unwrap()` aborts. The model's window is always live.
- The window's close handler, which reads `should_quit`: the window module is not part of this model. The model records the flag value that handler would see when close is requested.
- `PacketApplicationWindow::new`: the window module is not part of this model. A new window's `should_quit` is taken to be false, the `Cell<bool>` default.
- Application.PacketApplication.QuitAction: the abort when no window is stored is a precondition here; `Lifecycle.Quit` models it as an abort outcome.
- Application.PacketApplication.AboutAction: likewise, a precondition instead of the abort that `Lifecycle.About` models.
- Application.PacketApplication.MainWindow: the empty-cell abort is a precondition; `Lifecycle.MainWindow` models it as an abort outcome.
