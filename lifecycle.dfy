/** The lifecycle of the Packet application object, as values.

    `App` is the state the application owns (the write-once window cell,
    the background flag, the window's quit-intent flag) plus what the
    toolkit has been asked to do: the registered action names, the
    accelerator table and an ordered trace of toolkit effects. Each hook
    and action handler is a function from one `App` to the next; a Rust
    panic is a `Panic` outcome. */
module Lifecycle {
  import opened Outcomes

  /** Identity of a main window: windows are numbered from 0 in the order
      the toolkit constructs them. */
  type WinId = nat

  /** Effects requested from the toolkit, in the order they are requested. */
  datatype Event =
    | DefaultIconSet
    | CssInstalled
    | ActionsAdded(names: seq<string>)
    | AccelsSet(action: string, chords: seq<string>)
    | Constructed(id: WinId)
    | Presented(id: WinId)
      /** `close()` on a window, with the quit-intent flag its close
          handler sees at that moment. */
    | CloseRequested(id: WinId, shouldQuit: bool)
    | AppQuitRequested
    | AboutPresented(parent: WinId)

  /** The window an event is about, if any. */
  function EventWindow(e: Event): Option<WinId> {
    match e
    case Constructed(id) => Some(id)
    case Presented(id) => Some(id)
    case CloseRequested(id, _) => Some(id)
    case AboutPresented(id) => Some(id)
    case _ => None
  }

  datatype App = App(
    window: Option<WinId>,           // OnceCell<WeakRef<PacketApplicationWindow>>
    startInBackground: bool,          // Cell<bool>
    shouldQuit: bool,                 // the main window's should_quit
    actions: set<string>,             // application actions registered so far
    accels: map<string, seq<string>>, // accelerators registered so far
    trace: seq<Event>)

  /** A freshly built application object: empty cell, flag false. */
  const Initial := App(None, false, false, {}, map[], [])

  /** Number of windows constructed in a trace. */
  function Constructions(t: seq<Event>): (n: nat)
    ensures n <= |t|
    ensures n == 0 <==> forall i | 0 <= i < |t| :: !t[i].Constructed?
  {
    if t == [] then 0
    else
      var rest := Constructions(t[1..]);
      assert forall i | 1 <= i < |t| :: t[i] == t[1..][i - 1];
      (if t[0].Constructed? then 1 else 0) + rest
  }

  lemma {:induction false} ConstructionsAppend(a: seq<Event>, b: seq<Event>)
    ensures Constructions(a + b) == Constructions(a) + Constructions(b)
  {
    if a == [] {
      assert a + b == b;
    } else {
      assert (a + b)[1..] == a[1..] + b;
      ConstructionsAppend(a[1..], b);
    }
  }

  // ---------------------------------------------------------------------
  // The write-once window cell

  /** `OnceCell::set`: fills an empty cell; a filled cell is refused and the
      caller's `expect` aborts. */
  function OnceSet(cell: Option<WinId>, v: WinId): (r: Outcome<Option<WinId>>)
    ensures r.Ok? <==> cell.None?
    ensures r.Ok? ==> r.value == Some(v)
    ensures r.Panic? ==> r.reason == WindowAlreadySet
  {
    if cell.None? then Ok(Some(v)) else Panic(WindowAlreadySet)
  }

  /** `main_window`: the stored window, or an abort when the cell is empty. */
  function MainWindow(s: App): (r: Outcome<WinId>)
    ensures r.Ok? <==> s.window.Some?
    ensures r.Ok? ==> s.window == Some(r.value)
    ensures r.Panic? ==> r.reason == NoWindow
  {
    match s.window
    case Some(w) => Ok(w)
    case None => Panic(NoWindow)
  }

  // ---------------------------------------------------------------------
  // handle_local_options

  /** Stores whether the `background` option was given; `options` is the set
      of option names present on the parsed command line. */
  function HandleLocalOptions(s: App, options: set<string>): (r: App)
    ensures r.startInBackground <==> "background" in options
    ensures r.(startInBackground := s.startInBackground) == s
  {
    s.(startInBackground := "background" in options)
  }

  lemma HandleLocalOptionsLastWins(s: App, first: set<string>, second: set<string>)
    ensures HandleLocalOptions(HandleLocalOptions(s, first), second) == HandleLocalOptions(s, second)
  {
  }

  // ---------------------------------------------------------------------
  // activate

  /** Re-present the stored window, or construct one, store it, and present
      it unless starting in background. No input makes it abort. */
  function Activate(s: App): (r: Outcome<App>)
    ensures r.Ok?
    ensures r.value.startInBackground == s.startInBackground
    ensures r.value.actions == s.actions && r.value.accels == s.accels
  {
    match s.window
    case Some(w) => Ok(s.(trace := s.trace + [Presented(w)]))
    case None =>
      var id := Constructions(s.trace);
      var built := s.(shouldQuit := false, trace := s.trace + [Constructed(id)]);
      match OnceSet(built.window, id)
      case Panic(reason) => Panic(reason)
      case Ok(cell) =>
        var stored := built.(window := cell);
        if !stored.startInBackground then
          match MainWindow(stored)
          case Panic(reason) => Panic(reason)
          case Ok(w) => Ok(stored.(trace := stored.trace + [Presented(w)]))
        else
          Ok(stored)
  }

  /** With a window stored, activation presents that window and nothing else. */
  lemma ActivatePresentsExisting(s: App)
    requires s.window.Some?
    ensures Activate(s) == Ok(s.(trace := s.trace + [Presented(s.window.value)]))
    ensures Constructions(Activate(s).value.trace) == Constructions(s.trace)
  {
    ConstructionsAppend(s.trace, [Presented(s.window.value)]);
  }

  /** With the cell empty, activation constructs exactly one window, stores
      it, and presents it if and only if not starting in background. */
  lemma ActivateCreatesOnce(s: App)
    requires s.window.None?
    ensures var r := Activate(s).value;
      var id := Constructions(s.trace);
      && r.window == Some(id)
      && !r.shouldQuit
      && Constructions(r.trace) == Constructions(s.trace) + 1
      && r.trace == s.trace + [Constructed(id)] + (if s.startInBackground then [] else [Presented(id)])
  {
    var id := Constructions(s.trace);
    var delta: seq<Event> := [Constructed(id)] + (if s.startInBackground then [] else [Presented(id)]);
    assert Activate(s).value.trace == s.trace + delta;
    ConstructionsAppend(s.trace, delta);
    ConstructionsAppend([Constructed(id)], if s.startInBackground then [] else [Presented(id)]);
  }

  /** The window built on the first activation is presented iff the
      background flag is off; a later activation only presents it. */
  lemma ActivatePresentsIff(s: App)
    ensures var r := Activate(s).value;
      s.window.None? ==> (Presented(r.window.value) in r.trace[|s.trace|..] <==> !s.startInBackground)
    ensures s.window.Some? ==> Activate(s).value == s.(trace := s.trace + [Presented(s.window.value)])
  {
    var r := Activate(s).value;
    if s.window.None? {
      ActivateCreatesOnce(s);
      var id := Constructions(s.trace);
      assert r.trace[|s.trace|..] == [Constructed(id)] + (if s.startInBackground then [] else [Presented(id)]);
    }
  }

  // ---------------------------------------------------------------------
  // startup

  const ActionNames: seq<string> := ["quit", "about"]

  /** The accelerators the application registers, one chord per action. */
  const Accelerators: map<string, seq<string>> := map[
    "app.quit" := ["<Control>q"],
    "window.close" := ["<Control>w"],
    "win.preferences" := ["<Control>comma"],
    "win.help" := ["F1"]]

  /** `set_accels_for_action`: replaces the chords of one action. */
  function SetAccelsForAction(s: App, action: string, chords: seq<string>): (r: App)
    ensures r.accels.Keys == s.accels.Keys + {action} && r.accels[action] == chords
    ensures forall a | a in s.accels && a != action :: r.accels[a] == s.accels[a]
    ensures r.trace == s.trace + [AccelsSet(action, chords)]
    ensures r.(accels := s.accels, trace := s.trace) == s
  {
    s.(accels := s.accels[action := chords], trace := s.trace + [AccelsSet(action, chords)])
  }

  /** `set_default_icon_name`: records the icon effect and nothing else. */
  function SetDefaultIcon(s: App): (r: App)
    ensures r.trace == s.trace + [DefaultIconSet]
    ensures r.(trace := s.trace) == s
  {
    s.(trace := s.trace + [DefaultIconSet])
  }

  /** `setup_css`: records the stylesheet effect and nothing else. */
  function SetupCss(s: App): (r: App)
    ensures r.trace == s.trace + [CssInstalled]
    ensures r.(trace := s.trace) == s
  {
    s.(trace := s.trace + [CssInstalled])
  }

  /** Registers the `quit` and `about` actions; a name registered again
      replaces the earlier action. */
  function SetupGActions(s: App): (r: App)
    ensures "quit" in r.actions && "about" in r.actions
    ensures r.actions - {"quit", "about"} == s.actions - {"quit", "about"}
    ensures r.trace == s.trace + [ActionsAdded(ActionNames)]
    ensures r.(actions := s.actions, trace := s.trace) == s
  {
    s.(actions := s.actions + {"quit", "about"}, trace := s.trace + [ActionsAdded(ActionNames)])
  }

  /** `setup_accels`: registers the accelerators and touches no lifecycle
      state or action. */
  function SetupAccels(s: App): (r: App)
    ensures r.window == s.window && r.startInBackground == s.startInBackground
    ensures r.shouldQuit == s.shouldQuit && r.actions == s.actions
    ensures |r.trace| == |s.trace| + 4
  {
    var s1 := SetAccelsForAction(s, "app.quit", ["<Control>q"]);
    var s2 := SetAccelsForAction(s1, "window.close", ["<Control>w"]);
    var s3 := SetAccelsForAction(s2, "win.preferences", ["<Control>comma"]);
    SetAccelsForAction(s3, "win.help", ["F1"])
  }

  /** `startup`: never builds or stores a window, keeps both flags, and
      leaves the `quit` and `about` actions registered. */
  function Startup(s: App): (r: App)
    ensures r.window == s.window && r.startInBackground == s.startInBackground
    ensures r.shouldQuit == s.shouldQuit
    ensures "quit" in r.actions && "about" in r.actions
    ensures Constructions(r.trace) == Constructions(s.trace)
    ensures |s.trace| <= |r.trace| && r.trace[..|s.trace|] == s.trace
    ensures forall i | |s.trace| <= i < |r.trace| :: EventWindow(r.trace[i]).None?
  {
    var after := SetupAccels(SetupGActions(SetupCss(SetDefaultIcon(s))));
    StartupSteps(s);
    StartupEventsNoWindow();
    ConstructionsAppend(s.trace, StartupEvents);
    AppendedNoWindow(s.trace, StartupEvents);
    after
  }

  /** The four startup steps append exactly the startup effects. */
  lemma StartupSteps(s: App)
    ensures SetupAccels(SetupGActions(SetupCss(SetDefaultIcon(s)))).trace == s.trace + StartupEvents
  {
    var before := SetupGActions(SetupCss(SetDefaultIcon(s)));
    assert before.trace == s.trace + [DefaultIconSet, CssInstalled, ActionsAdded(ActionNames)];
    SetupAccelsInstallsTable(before);
  }

  /** Appending events that name no window adds no window event. */
  lemma AppendedNoWindow(t: seq<Event>, u: seq<Event>)
    requires forall i | 0 <= i < |u| :: EventWindow(u[i]).None?
    ensures (t + u)[..|t|] == t
    ensures forall i | |t| <= i < |t + u| :: EventWindow((t + u)[i]).None?
  {
    assert forall i | |t| <= i < |t + u| :: (t + u)[i] == u[i - |t|];
  }

  /** The effects of `setup_accels`, in order. */
  const AccelEvents: seq<Event> := [
    AccelsSet("app.quit", ["<Control>q"]),
    AccelsSet("window.close", ["<Control>w"]),
    AccelsSet("win.preferences", ["<Control>comma"]),
    AccelsSet("win.help", ["F1"])]

  /** The effects of one `startup`, in order. */
  const StartupEvents: seq<Event> := [DefaultIconSet, CssInstalled, ActionsAdded(ActionNames)] + AccelEvents

  lemma AcceleratorsOneChordEach()
    ensures Accelerators.Keys == {"app.quit", "window.close", "win.preferences", "win.help"}
    ensures forall a | a in Accelerators :: |Accelerators[a]| == 1
    ensures Accelerators["app.quit"] == ["<Control>q"]
    ensures Accelerators["window.close"] == ["<Control>w"]
    ensures Accelerators["win.preferences"] == ["<Control>comma"]
    ensures Accelerators["win.help"] == ["F1"]
  {
  }

  /** Accelerator registration adds the fixed table over what was there,
      in the table's order, and touches nothing else. */
  lemma SetupAccelsInstallsTable(s: App)
    ensures SetupAccels(s).accels == s.accels + Accelerators
    ensures SetupAccels(s).trace == s.trace + AccelEvents
    ensures SetupAccels(s).(accels := s.accels, trace := s.trace) == s
  {
    var s1 := SetAccelsForAction(s, "app.quit", ["<Control>q"]);
    var s2 := SetAccelsForAction(s1, "window.close", ["<Control>w"]);
    var s3 := SetAccelsForAction(s2, "win.preferences", ["<Control>comma"]);
    var s4 := SetAccelsForAction(s3, "win.help", ["F1"]);
    assert s4.trace == s.trace + AccelEvents;
  }

  /** Startup sets the icon, then the stylesheet, then the actions, then the
      accelerators, and neither builds nor stores a window. */
  lemma StartupOrder(s: App)
    ensures Startup(s).trace == s.trace + StartupEvents
    ensures Startup(s).window == s.window
    ensures Startup(s).startInBackground == s.startInBackground
    ensures Startup(s).shouldQuit == s.shouldQuit
    ensures Startup(s).actions == s.actions + {"quit", "about"}
    ensures Startup(s).accels == s.accels + Accelerators
    ensures Constructions(Startup(s).trace) == Constructions(s.trace)
  {
    var before := SetupGActions(SetupCss(SetDefaultIcon(s)));
    assert before.trace == s.trace + [DefaultIconSet, CssInstalled, ActionsAdded(ActionNames)];
    SetupAccelsInstallsTable(before);
    assert Startup(s).trace == s.trace + StartupEvents;
    ConstructionsAppend(s.trace, StartupEvents);
    StartupEventsNoWindow();
  }

  /** A second startup registers no action or accelerator twice. */
  lemma StartupTwiceRegistersOnce(s: App)
    ensures Startup(Startup(s)).actions == Startup(s).actions
    ensures Startup(Startup(s)).accels == Startup(s).accels
  {
    StartupOrder(s);
    StartupOrder(Startup(s));
    UpdateTwice(s.accels, Accelerators);
  }

  lemma UpdateTwice(m: map<string, seq<string>>, n: map<string, seq<string>>)
    ensures m + n + n == m + n
  {
  }

  // ---------------------------------------------------------------------
  // The `quit` and `about` actions

  /** Sets the window's quit intent, then closes the window, then quits. */
  function Quit(s: App): (r: Outcome<App>)
    ensures r.Ok? <==> s.window.Some?
    ensures r.Panic? ==> r.reason == NoWindow
  {
    match MainWindow(s)
    case Panic(reason) => Panic(reason)
    case Ok(w) =>
      var flagged := s.(shouldQuit := true);
      match MainWindow(flagged)
      case Panic(reason) => Panic(reason)
      case Ok(w2) =>
        var closed := flagged.(trace := flagged.trace + [CloseRequested(w2, flagged.shouldQuit)]);
        Ok(closed.(trace := closed.trace + [AppQuitRequested]))
  }

  /** The close request already carries the quit intent, and the quit
      request follows it, whatever the background flag. */
  lemma QuitOrder(s: App)
    requires s.window.Some?
    ensures var r := Quit(s).value;
      && r.shouldQuit
      && r.trace == s.trace + [CloseRequested(s.window.value, true), AppQuitRequested]
      && r.(shouldQuit := s.shouldQuit, trace := s.trace) == s
  {
  }

  /** Presents the about dialog over the main window. */
  function About(s: App): (r: Outcome<App>)
    ensures r.Ok? <==> s.window.Some?
    ensures r.Ok? ==> r.value == s.(trace := s.trace + [AboutPresented(s.window.value)])
  {
    match MainWindow(s)
    case Panic(reason) => Panic(reason)
    case Ok(w) => Ok(s.(trace := s.trace + [AboutPresented(w)]))
  }

  // ---------------------------------------------------------------------
  // Runs: any sequence of hooks and actions

  datatype Command =
    | LocalOptionsHook(options: set<string>)
    | StartupHook
    | ActivateHook
    | QuitInvoked
    | AboutInvoked

  function Step(s: App, c: Command): Outcome<App> {
    match c
    case LocalOptionsHook(options) => Ok(HandleLocalOptions(s, options))
    case StartupHook => Ok(Startup(s))
    case ActivateHook => Activate(s)
    case QuitInvoked => Quit(s)
    case AboutInvoked => About(s)
  }

  /** Runs the commands in order, stopping at the first abort. */
  function Run(s: App, cs: seq<Command>): Outcome<App>
    decreases |cs|
  {
    if cs == [] then Ok(s)
    else
      match Step(s, cs[0])
      case Panic(reason) => Panic(reason)
      case Ok(t) => Run(t, cs[1..])
  }

  /** The singleton invariant: at most one window was ever constructed, the
      cell is filled exactly when one was, and every window effect in the
      trace concerns the stored window. */
  predicate Inv(s: App) {
    && Constructions(s.trace) <= 1
    && (s.window.Some? <==> Constructions(s.trace) == 1)
    && forall i | 0 <= i < |s.trace| :: EventWindow(s.trace[i]).Some? ==> EventWindow(s.trace[i]) == s.window
  }

  lemma InitialInv()
    ensures Inv(Initial)
  {
  }

  /** Appending effects keeps the invariant when the cell only goes from
      empty to filled, the count stays within one, and the new effects
      concern the stored window. */
  lemma {:induction false} InvAfterAppend(s: App, delta: seq<Event>, t: App)
    requires Inv(s) && t.trace == s.trace + delta
    requires s.window.Some? ==> t.window == s.window
    requires Constructions(s.trace) + Constructions(delta) <= 1
    requires t.window.Some? <==> Constructions(s.trace) + Constructions(delta) == 1
    requires forall i | 0 <= i < |delta| :: EventWindow(delta[i]).Some? ==> EventWindow(delta[i]) == t.window
    ensures Inv(t)
  {
    ConstructionsAppend(s.trace, delta);
    forall i | 0 <= i < |t.trace| && EventWindow(t.trace[i]).Some?
      ensures EventWindow(t.trace[i]) == t.window
    {
      if i < |s.trace| {
        assert t.trace[i] == s.trace[i];
      } else {
        assert t.trace[i] == delta[i - |s.trace|];
      }
    }
  }

  /** Startup effects concern no window. */
  lemma StartupEventsNoWindow()
    ensures Constructions(StartupEvents) == 0
    ensures forall i | 0 <= i < |StartupEvents| :: EventWindow(StartupEvents[i]).None?
  {
    assert forall i | 0 <= i < |StartupEvents| :: !StartupEvents[i].Constructed?;
  }

  lemma StartupKeepsInv(s: App)
    requires Inv(s)
    ensures Inv(Startup(s))
  {
    StartupOrder(s);
    StartupEventsNoWindow();
    InvAfterAppend(s, StartupEvents, Startup(s));
  }

  lemma ActivateKeepsInv(s: App)
    requires Inv(s)
    ensures Inv(Activate(s).value)
  {
    var t := Activate(s).value;
    if s.window.Some? {
      ActivatePresentsExisting(s);
      InvAfterAppend(s, [Presented(s.window.value)], t);
    } else {
      ActivateCreatesOnce(s);
      var id := Constructions(s.trace);
      var delta: seq<Event> := [Constructed(id)] + (if s.startInBackground then [] else [Presented(id)]);
      ConstructionsAppend(s.trace, delta);
      InvAfterAppend(s, delta, t);
    }
  }

  lemma QuitKeepsInv(s: App)
    requires Inv(s) && s.window.Some?
    ensures Inv(Quit(s).value)
  {
    QuitOrder(s);
    var delta := [CloseRequested(s.window.value, true), AppQuitRequested];
    assert Constructions(delta) == 0;
    InvAfterAppend(s, delta, Quit(s).value);
  }

  lemma AboutKeepsInv(s: App)
    requires Inv(s) && s.window.Some?
    ensures Inv(About(s).value)
  {
    InvAfterAppend(s, [AboutPresented(s.window.value)], About(s).value);
  }

  lemma StepKeepsInv(s: App, c: Command)
    requires Inv(s) && Step(s, c).Ok?
    ensures Inv(Step(s, c).value)
  {
    match c
    case LocalOptionsHook(options) =>
    case StartupHook => StartupKeepsInv(s);
    case ActivateHook => ActivateKeepsInv(s);
    case QuitInvoked => QuitKeepsInv(s);
    case AboutInvoked => AboutKeepsInv(s);
  }

  lemma {:induction false} RunKeepsInv(s: App, cs: seq<Command>)
    requires Inv(s) && Run(s, cs).Ok?
    ensures Inv(Run(s, cs).value)
    decreases |cs|
  {
    if cs != [] {
      StepKeepsInv(s, cs[0]);
      RunKeepsInv(Step(s, cs[0]).value, cs[1..]);
    }
  }

  /** Once stored, the window handle is never replaced. */
  lemma {:induction false} RunNeverReplacesWindow(s: App, cs: seq<Command>)
    requires s.window.Some? && Run(s, cs).Ok?
    ensures Run(s, cs).value.window == s.window
    decreases |cs|
  {
    if cs != [] {
      var t := Step(s, cs[0]).value;
      match cs[0] {
        case StartupHook => StartupOrder(s);
        case ActivateHook => ActivatePresentsExisting(s);
        case _ =>
      }
      assert t.window == s.window;
      RunNeverReplacesWindow(t, cs[1..]);
    }
  }

  /** After any run that activates at least once, a window is stored. */
  lemma {:induction false} RunWithActivationHasWindow(s: App, cs: seq<Command>)
    requires ActivateHook in cs && Run(s, cs).Ok?
    ensures Run(s, cs).value.window.Some?
    decreases |cs|
  {
    var t := Step(s, cs[0]).value;
    if cs[0] == ActivateHook {
      if s.window.None? { ActivateCreatesOnce(s); }
      RunNeverReplacesWindow(t, cs[1..]);
    } else {
      assert ActivateHook in cs[1..] by {
        var k :| 0 <= k < |cs| && cs[k] == ActivateHook;
        assert cs[1..][k - 1] == ActivateHook;
      }
      RunWithActivationHasWindow(t, cs[1..]);
    }
  }

  /** The only abort any run can reach is a missing window in an action
      handler: the "Window already set." expectation never fires. */
  lemma {:induction false} RunAbortsOnlyWithoutWindow(s: App, cs: seq<Command>)
    requires Run(s, cs).Panic?
    ensures Run(s, cs).reason == NoWindow
    decreases |cs|
  {
    if cs != [] && Step(s, cs[0]).Ok? {
      RunAbortsOnlyWithoutWindow(Step(s, cs[0]).value, cs[1..]);
    }
  }

  /** From a fresh process, any run constructs at most one window, every
      window effect concerns that one window, and a run that activates at
      all constructs exactly one. */
  lemma SingleWindow(cs: seq<Command>)
    requires Run(Initial, cs).Ok?
    ensures var r := Run(Initial, cs).value;
      && Constructions(r.trace) <= 1
      && (forall i | 0 <= i < |r.trace| :: EventWindow(r.trace[i]).Some? ==> EventWindow(r.trace[i]) == r.window)
      && (ActivateHook in cs ==> Constructions(r.trace) == 1)
  {
    InitialInv();
    RunKeepsInv(Initial, cs);
    if ActivateHook in cs {
      RunWithActivationHasWindow(Initial, cs);
    }
  }

  // ---------------------------------------------------------------------
  // Scenarios

  lemma RunStep(s: App, c: Command, rest: seq<Command>)
    requires Step(s, c).Ok?
    ensures Run(s, [c] + rest) == Run(Step(s, c).value, rest)
  {
    assert ([c] + rest)[1..] == rest;
  }

  /** The state right after startup of a fresh process. */
  function Started(background: bool): App {
    App(None, background, false, {"quit", "about"}, Accelerators, StartupEvents)
  }

  lemma StartupFromFresh(background: bool)
    ensures Startup(Initial.(startInBackground := background)) == Started(background)
  {
    var s1 := Initial.(startInBackground := background);
    StartupOrder(s1);
    assert s1.accels + Accelerators == Accelerators;
    assert s1.trace + StartupEvents == StartupEvents;
    assert s1.actions + {"quit", "about"} == {"quit", "about"};
  }

  lemma FirstActivation(background: bool)
    ensures Activate(Started(background)) == Ok(Started(background).(
      window := Some(0),
      trace := StartupEvents + [Constructed(0)] + (if background then [] else [Presented(0)])))
  {
    StartupFromFresh(background);
    StartupOrder(Initial.(startInBackground := background));
    ActivateCreatesOnce(Started(background));
  }

  /** The first activation after startup of a fresh process. */
  function Launched(background: bool): App {
    Started(background).(
      window := Some(0),
      trace := StartupEvents + [Constructed(0)] + (if background then [] else [Presented(0)]))
  }

  lemma StartAndActivate(background: bool)
    ensures Run(Initial.(startInBackground := background), [StartupHook, ActivateHook]) == Ok(Launched(background))
  {
    var s0 := Initial.(startInBackground := background);
    var s1 := Started(background);
    assert Step(s0, StartupHook) == Ok(s1) by {
      StartupFromFresh(background);
    }
    assert Step(s1, ActivateHook) == Ok(Launched(background)) by {
      FirstActivation(background);
    }
    RunPair(s0, StartupHook, ActivateHook);
  }

  /** A fresh launch: the first activation builds window 0 and presents it
      exactly when the command line lacks `background`. */
  lemma Launch(options: set<string>)
    ensures Run(Initial, [LocalOptionsHook(options), StartupHook, ActivateHook])
      == Ok(Launched("background" in options))
  {
    var background := "background" in options;
    assert Step(Initial, LocalOptionsHook(options)) == Ok(Initial.(startInBackground := background));
    StartAndActivate(background);
    RunStep(Initial, LocalOptionsHook(options), [StartupHook, ActivateHook]);
  }

  lemma RunPair(s: App, c: Command, d: Command)
    requires Step(s, c).Ok?
    ensures Run(s, [c, d]) == Step(Step(s, c).value, d)
  {
    assert [c, d] == [c] + [d];
    RunStep(s, c, [d]);
    assert [d][1..] == [];
  }

  /** Commands run one after the other. */
  lemma {:induction false} RunAppend(s: App, cs: seq<Command>, ds: seq<Command>)
    requires Run(s, cs).Ok?
    ensures Run(s, cs + ds) == Run(Run(s, cs).value, ds)
    decreases |cs|
  {
    if cs == [] {
      assert cs + ds == ds;
    } else {
      assert (cs + ds)[1..] == cs[1..] + ds;
      RunAppend(Step(s, cs[0]).value, cs[1..], ds);
    }
  }

  /** After a background launch, a later activation shows that same window
      without building another: the process ends up as a foreground launch
      would, except for the flag. */
  lemma BackgroundLaunchThenShow(options: set<string>)
    requires "background" in options
    ensures Run(Initial, [LocalOptionsHook(options), StartupHook, ActivateHook, ActivateHook])
      == Ok(Launched(false).(startInBackground := true))
  {
    var launch := [LocalOptionsHook(options), StartupHook, ActivateHook];
    Launch(options);
    var s3 := Launched(true);
    ActivatePresentsExisting(s3);
    assert s3.trace + [Presented(0)] == Launched(false).trace;
    RunStep(s3, ActivateHook, []);
    RunAppend(Initial, launch, [ActivateHook]);
    assert launch + [ActivateHook] == [LocalOptionsHook(options), StartupHook, ActivateHook, ActivateHook];
  }
}
