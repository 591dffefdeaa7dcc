/** The application object with its interior-mutable fields, updated in
    place. Every method is proved against the corresponding function in
    `Lifecycle` (`QuitAction` against `Quit`, `AboutAction` against `About`,
    the others against the function of the same name), through `Model()`;
    the hooks and action handlers keep the singleton invariant
    `Lifecycle.Inv`. Toolkit calls are ghost trace appends. */
module Application {
  import opened Outcomes
  import Lifecycle

  /** The main window; only its quit-intent flag matters here. */
  class Window {
    ghost const id: Lifecycle.WinId
    var shouldQuit: bool

    constructor (ghost id: Lifecycle.WinId)
      ensures this.id == id && !shouldQuit
    {
      this.id := id;
      shouldQuit := false;
    }
  }

  class PacketApplication {
    /** The write-once cell holding a non-owning handle to the main window. */
    var window: Option<Window>
    var startInBackground: bool

    // What the toolkit has been asked to do.
    ghost var actions: set<string>
    ghost var accels: map<string, seq<string>>
    ghost var trace: seq<Lifecycle.Event>
    /** Number of windows constructed so far. */
    ghost var constructed: nat

    ghost function WindowFrame(): set<object>
      reads this
    {
      if window.Some? then {window.value} else {}
    }

    ghost function Model(): Lifecycle.App
      reads this, WindowFrame()
    {
      Lifecycle.App(
        if window.Some? then Some(window.value.id) else None,
        startInBackground,
        window.Some? && window.value.shouldQuit,
        actions, accels, trace)
    }

    ghost predicate Valid()
      reads this, WindowFrame()
    {
      Lifecycle.Inv(Model()) && constructed == Lifecycle.Constructions(trace)
    }

    constructor ()
      ensures Valid() && Model() == Lifecycle.Initial
    {
      window := None;
      startInBackground := false;
      actions, accels, trace, constructed := {}, map[], [], 0;
      new;
      Lifecycle.InitialInv();
    }

    /** `main_window`: the stored window; an empty cell aborts. */
    method MainWindow() returns (w: Window)
      requires window.Some?
      ensures w == window.value
      ensures Lifecycle.MainWindow(Model()) == Ok(w.id)
    {
      w := window.value;
    }

    method HandleLocalOptions(options: set<string>)
      requires Valid()
      modifies this
      ensures Valid() && window == old(window)
      ensures Model() == Lifecycle.HandleLocalOptions(old(Model()), options)
    {
      startInBackground := "background" in options;
    }

    method Activate()
      requires Valid()
      modifies this
      ensures Valid()
      ensures old(window).Some? ==> window == old(window)
      ensures Lifecycle.Activate(old(Model())) == Ok(Model())
    {
      ghost var before := Model();
      Lifecycle.ActivateKeepsInv(before);
      if window.Some? {
        var w := window.value;
        trace := trace + [Lifecycle.Presented(w.id)];
        return;
      }
      Lifecycle.ActivateCreatesOnce(before);
      var w := new Window(constructed);
      trace := trace + [Lifecycle.Constructed(w.id)];
      constructed := constructed + 1;
      // The cell was empty, so storing into it succeeds.
      window := Some(w);
      if !startInBackground {
        var main := MainWindow();
        trace := trace + [Lifecycle.Presented(main.id)];
      }
    }

    method Startup()
      requires Valid()
      modifies this
      ensures Valid() && window == old(window)
      ensures Model() == Lifecycle.Startup(old(Model()))
    {
      Lifecycle.StartupKeepsInv(Model());
      Lifecycle.StartupOrder(Model());
      SetDefaultIcon();
      SetupCss();
      SetupGActions();
      SetupAccels();
    }

    method SetDefaultIcon()
      modifies this
      ensures window == old(window) && constructed == old(constructed)
      ensures Model() == Lifecycle.SetDefaultIcon(old(Model()))
    {
      trace := trace + [Lifecycle.DefaultIconSet];
    }

    method SetupCss()
      modifies this
      ensures window == old(window) && constructed == old(constructed)
      ensures Model() == Lifecycle.SetupCss(old(Model()))
    {
      trace := trace + [Lifecycle.CssInstalled];
    }

    method SetupGActions()
      modifies this
      ensures window == old(window) && constructed == old(constructed)
      ensures Model() == Lifecycle.SetupGActions(old(Model()))
    {
      actions := actions + {"quit", "about"};
      trace := trace + [Lifecycle.ActionsAdded(Lifecycle.ActionNames)];
    }

    method SetAccelsForAction(action: string, chords: seq<string>)
      modifies this
      ensures window == old(window) && constructed == old(constructed)
      ensures Model() == Lifecycle.SetAccelsForAction(old(Model()), action, chords)
    {
      accels := accels[action := chords];
      trace := trace + [Lifecycle.AccelsSet(action, chords)];
    }

    method SetupAccels()
      modifies this
      ensures window == old(window) && constructed == old(constructed)
      ensures Model() == Lifecycle.SetupAccels(old(Model()))
    {
      SetAccelsForAction("app.quit", ["<Control>q"]);
      SetAccelsForAction("window.close", ["<Control>w"]);
      SetAccelsForAction("win.preferences", ["<Control>comma"]);
      SetAccelsForAction("win.help", ["F1"]);
    }

    /** The `quit` action: quit intent, then close, then quit. */
    method QuitAction()
      requires Valid() && window.Some?
      modifies this, window.value
      ensures Valid() && window == old(window)
      ensures Lifecycle.Quit(old(Model())) == Ok(Model())
    {
      ghost var before := Model();
      Lifecycle.QuitKeepsInv(before);
      Lifecycle.QuitOrder(before);
      var w := MainWindow();
      w.shouldQuit := true;
      var again := MainWindow();
      trace := trace + [Lifecycle.CloseRequested(again.id, again.shouldQuit)];
      trace := trace + [Lifecycle.AppQuitRequested];
    }

    /** The `about` action: presents the about dialog over the main window. */
    method AboutAction()
      requires Valid() && window.Some?
      modifies this
      ensures Valid() && window == old(window)
      ensures Lifecycle.About(old(Model())) == Ok(Model())
    {
      Lifecycle.AboutKeepsInv(Model());
      var main := MainWindow();
      trace := trace + [Lifecycle.AboutPresented(main.id)];
    }
  }

  /** A background launch followed by a "show" request: the same window,
      built once, is presented by the second activation. */
  method BackgroundThenShow() returns (app: PacketApplication)
    ensures fresh(app) && app.Valid()
    ensures app.Model() == Lifecycle.Launched(false).(startInBackground := true)
  {
    app := new PacketApplication();
    app.HandleLocalOptions({"background"});
    app.Startup();
    Lifecycle.StartupFromFresh(true);
    app.Activate();
    Lifecycle.FirstActivation(true);
    var first := app.window;
    app.Activate();
    assert app.window == first;
    assert Lifecycle.Launched(true).trace + [Lifecycle.Presented(0)] == Lifecycle.Launched(false).trace;
  }
}
