/** The scene state machine of main.go: which scene is active, how the
    `switchedTo*` flags raised by buttons move Draw from one scene to the next,
    the one-shot rescale when the display mode or the scene changes, and
    Layout's logical screen size. */
module Scenes {
  import opened Geometry

  datatype Scene =
    | MainMenu
    | About
    | LevelSelection
    | SignalReception      // the "plasma" level
    | SignalTransduction   // "cyto 1"
    | Transcription        // "nucleus"
    | Translation          // "cyto 2"

  /** The Game struct's `switchedTo*` flags. Buttons outside this model raise them. */
  datatype SceneFlags = SceneFlags(
    toPlasma: bool,
    toMenu: bool,
    toCyto1: bool,
    toNucleus: bool,
    toCyto2: bool,
    toAbout: bool,
    toLevelSelect: bool)

  /** Whether the flag that asks for scene `s` is raised. */
  predicate Raised(f: SceneFlags, s: Scene) {
    match s
    case MainMenu => f.toMenu
    case About => f.toAbout
    case LevelSelection => f.toLevelSelect
    case SignalReception => f.toPlasma
    case SignalTransduction => f.toCyto1
    case Transcription => f.toNucleus
    case Translation => f.toCyto2
  }

  /** The scenes Draw may leave `s` for, highest priority first. Draw tests
      the flags in the reverse of this order, so the flag tested last wins. */
  function Exits(s: Scene): seq<Scene> {
    match s
    case MainMenu => [About, LevelSelection, SignalReception]
    case About => [MainMenu]
    case LevelSelection => [Translation, Transcription, SignalTransduction, SignalReception, MainMenu]
    case SignalReception => [SignalTransduction, MainMenu]
    case SignalTransduction => [MainMenu, Transcription]
    case Transcription => [MainMenu, Translation]
    case Translation => [MainMenu]
  }

  /** The first exit in priority order whose flag is raised; `current` when
      none is. */
  function FirstRaised(exits: seq<Scene>, f: SceneFlags, current: Scene): (r: Scene)
    ensures r == current || (r in exits && Raised(f, r))
    ensures (forall i | 0 <= i < |exits| :: !Raised(f, exits[i])) ==> r == current
    ensures 0 < |exits| && Raised(f, exits[0]) ==> r == exits[0]
  {
    if exits == [] then current
    else if Raised(f, exits[0]) then exits[0]
    else FirstRaised(exits[1..], f, current)
  }

  /** Transition spelled out along the priority order of `s`'s exits. */
  lemma TransitionUnrolled(s: Scene, f: SceneFlags)
    ensures var e := Exits(s);
      Transition(s, f) == FirstRaised(e, f, s) &&
      (|e| >= 2 ==>
         FirstRaised(e[1..], f, s) == if Raised(f, e[1]) then e[1] else FirstRaised(e[2..], f, s)) &&
      (|e| >= 3 ==>
         FirstRaised(e[2..], f, s) == if Raised(f, e[2]) then e[2] else FirstRaised(e[3..], f, s)) &&
      (|e| >= 4 ==>
         FirstRaised(e[3..], f, s) == if Raised(f, e[3]) then e[3] else FirstRaised(e[4..], f, s)) &&
      (|e| >= 5 ==>
         FirstRaised(e[4..], f, s) == if Raised(f, e[4]) then e[4] else FirstRaised(e[5..], f, s)) &&
      FirstRaised(e[|e|..], f, s) == s
  {
    var e := Exits(s);
    if |e| >= 2 { assert e[1..][1..] == e[2..]; }
    if |e| >= 3 { assert e[2..][1..] == e[3..]; }
    if |e| >= 4 { assert e[3..][1..] == e[4..]; }
    if |e| >= 5 { assert e[4..][1..] == e[5..]; }
    assert e[|e|..] == [];
  }

  /** The scene after one Draw: a scene only ever moves to one of its exits whose
      flag is raised, and of several raised exits the highest-priority one wins. */
  function Transition(s: Scene, f: SceneFlags): (r: Scene)
    ensures r == s || (r in Exits(s) && Raised(f, r))
    ensures (forall t :: !Raised(f, t)) ==> r == s
  {
    FirstRaised(Exits(s), f, s)
  }

  /** About and Translation can only return to the main menu; in the main menu
      "about" beats "level select", which beats "plasma". */
  lemma TransitionTargets(f: SceneFlags)
    ensures Transition(About, f) in {About, MainMenu}
    ensures Transition(Translation, f) in {Translation, MainMenu}
    ensures Transition(About, f) == MainMenu <==> f.toMenu
    ensures f.toAbout ==> Transition(MainMenu, f) == About
    ensures !f.toAbout && f.toLevelSelect ==> Transition(MainMenu, f) == LevelSelection
    ensures !f.toAbout && !f.toLevelSelect ==>
              Transition(MainMenu, f) == (if f.toPlasma then SignalReception else MainMenu)
  {
    TransitionUnrolled(MainMenu, f);
    TransitionUnrolled(About, f);
    TransitionUnrolled(Translation, f);
  }

  /** The windowed size and rescale bookkeeping Draw keeps across frames:
      the globals screenWidth/screenHeight and Game.switchedScene. */
  datatype Display = Display(width: int, height: int, switchedScene: bool)

  datatype Gated = Gated(display: Display, rescales: nat)

  /** Whether Draw's display-mode test fires: fullscreen while still at the
      base size, or windowed while both dimensions differ from it. */
  predicate ModeChange(d: Display, fullscreen: bool) {
    if fullscreen then d.width == BaseScreenWidth && d.height == BaseScreenHeight
    else d.width != BaseScreenWidth && d.height != BaseScreenHeight
  }

  /** The rescale gating at the top of Draw. `full` is ScreenSizeInFullscreen. */
  function RescaleGate(d: Display, fullscreen: bool, full: Vector): (g: Gated)
    ensures !g.display.switchedScene
    ensures g.rescales == (if ModeChange(d, fullscreen) then 1 else 0) + (if d.switchedScene then 1 else 0)
    ensures !ModeChange(d, fullscreen) ==> g.display.width == d.width && g.display.height == d.height
    ensures ModeChange(d, fullscreen) && fullscreen ==> g.display.width == full.x && g.display.height == full.y
    ensures ModeChange(d, fullscreen) && !fullscreen ==>
      g.display.width == BaseScreenWidth && g.display.height == BaseScreenHeight
  {
    var size :=
      if fullscreen && d.width == BaseScreenWidth && d.height == BaseScreenHeight then full
      else if !fullscreen && d.width != BaseScreenWidth && d.height != BaseScreenHeight then
        Vector(BaseScreenWidth, BaseScreenHeight)
      else Vector(d.width, d.height);
    var modeRescale := if ModeChange(d, fullscreen) then 1 else 0;
    Gated(Display(size.x, size.y, false), modeRescale + if d.switchedScene then 1 else 0)
  }

  /** Rescaling is one-shot: once a frame has run in a display mode, further
      frames in that mode rescale nothing and keep the size, unless the scene
      switches again. (In fullscreen this needs the fullscreen size to differ
      from the base size, otherwise the test fires on every frame.) */
  lemma RescaleSettles(d: Display, fullscreen: bool, full: Vector)
    requires fullscreen ==> full != Vector(BaseScreenWidth, BaseScreenHeight)
    ensures var once := RescaleGate(d, fullscreen, full).display;
      RescaleGate(once, fullscreen, full) == Gated(once, 0)
  {
  }

  /** A scene switch costs exactly one rescale, and the flag is then spent. */
  lemma SceneSwitchRescalesOnce(d: Display, fullscreen: bool, full: Vector)
    requires d.switchedScene && !ModeChange(d, fullscreen)
    ensures RescaleGate(d, fullscreen, full) == Gated(d.(switchedScene := false), 1)
  {
  }

  /** Layout: the logical screen is the base size in a window and the outside
      size in fullscreen. */
  function Layout(fullscreen: bool, outsideWidth: int, outsideHeight: int): (size: (int, int))
    ensures !fullscreen ==> size == (BaseScreenWidth, BaseScreenHeight)
    ensures fullscreen ==> size == (outsideWidth, outsideHeight)
  {
    if fullscreen then (outsideWidth, outsideHeight) else (BaseScreenWidth, BaseScreenHeight)
  }

  /** Layout agrees with the size the rescale gating settles on: entering
      fullscreen adopts the fullscreen size Layout reports, and leaving it
      (when both dimensions had changed) restores Layout's windowed size. */
  lemma LayoutAgreesWithGate(d: Display, fullscreen: bool, full: Vector)
    requires ModeChange(d, fullscreen)
    ensures var g := RescaleGate(d, fullscreen, full).display;
      (g.width, g.height) == Layout(fullscreen, full.x, full.y)
  {
  }

  /** The part of the Game struct and of main.go's globals that Draw mutates. */
  class Game {
    var scene: Scene
    var screenWidth: int
    var screenHeight: int
    var switchedScene: bool
    var flags: SceneFlags

    function DisplayOf(): Display
      reads this
    {
      Display(screenWidth, screenHeight, switchedScene)
    }

    /** A fresh game: main menu, base size, with a rescale pending (Game.init). */
    constructor ()
      ensures scene == MainMenu && switchedScene
      ensures screenWidth == BaseScreenWidth && screenHeight == BaseScreenHeight
      ensures flags == SceneFlags(false, false, false, false, false, false, false)
    {
      scene := MainMenu;
      screenWidth, screenHeight := BaseScreenWidth, BaseScreenHeight;
      switchedScene := true;
      flags := SceneFlags(false, false, false, false, false, false, false);
    }

    /** Game.Draw without the rendering: the rescale gating, then the scene
        switch. Returns how many times the state machine was asked to rescale. */
    method Draw(fullscreen: bool, full: Vector) returns (rescales: nat)
      modifies this
      ensures Gated(DisplayOf(), rescales) == RescaleGate(old(DisplayOf()), fullscreen, full)
      ensures scene == Transition(old(scene), flags) && flags == old(flags)
    {
      rescales := 0;
      if fullscreen {
        if screenWidth == BaseScreenWidth && screenHeight == BaseScreenHeight {
          screenWidth, screenHeight := full.x, full.y;
          rescales := rescales + 1;
        }
      } else {
        if screenWidth != BaseScreenWidth && screenHeight != BaseScreenHeight {
          screenWidth, screenHeight := BaseScreenWidth, BaseScreenHeight;
          rescales := rescales + 1;
        }
      }
      if switchedScene {
        rescales := rescales + 1;
        switchedScene := false;
      }
      scene := NextScene(scene, flags);
    }
  }

  /** The `switch scene` at the end of Draw: each scene tests its flags in turn,
      so a later test overrides an earlier one. */
  method NextScene(scene: Scene, flags: SceneFlags) returns (next: Scene)
    ensures next == Transition(scene, flags)
  {
    TransitionUnrolled(scene, flags);
    next := scene;
    match scene {
      case MainMenu =>
        if flags.toPlasma { next := SignalReception; }
        if flags.toLevelSelect { next := LevelSelection; }
        if flags.toAbout { next := About; }
      case About =>
        if flags.toMenu { next := MainMenu; }
      case LevelSelection =>
        if flags.toMenu { next := MainMenu; }
        if flags.toPlasma { next := SignalReception; }
        if flags.toCyto1 { next := SignalTransduction; }
        if flags.toNucleus { next := Transcription; }
        if flags.toCyto2 { next := Translation; }
      case SignalReception =>
        if flags.toMenu { next := MainMenu; }
        if flags.toCyto1 { next := SignalTransduction; }
      case SignalTransduction =>
        if flags.toNucleus { next := Transcription; }
        if flags.toMenu { next := MainMenu; }
      case Transcription =>
        if flags.toCyto2 { next := Translation; }
        if flags.toMenu { next := MainMenu; }
      case Translation =>
        if flags.toMenu { next := MainMenu; }
    }
  }
}
