/** VictoryManager: a scene-wide singleton that builds one terminal overlay,
    victory or defeat, pauses the game and frees the cursor. A single `shown`
    flag serves both screens, so whichever is asked for first is the only one
    ever built. */
module Screens {
  import opened Engine

  datatype Kind = Victory | Defeat

  /** The overlay as the player sees it: its texts and its buttons. */
  datatype Overlay = Overlay(kind: Kind, title: string, subtitle: string, buttons: seq<string>)

  /** The default arguments of ShowVictory and ShowDefeat. */
  const VictoryTitle: string := "You Win!"
  const VictorySubtitle: string := "Level Complete"
  const DefeatTitle: string := "You Died"
  const DefeatSubtitle: string := "Try Again"

  /** The overlay a show method builds: the victory overlay is informational
      only; the defeat overlay has one Restart button. */
  function Built(kind: Kind, title: string, subtitle: string): Overlay
  {
    Overlay(kind, title, subtitle, if kind == Victory then [] else ["Restart"])
  }

  /** The engine statics the manager reads and writes: the static Instance,
      Time.timeScale, the cursor, and the scenes loaded so far. */
  class Runtime {
    var instance: VictoryManager?
    var timeScale: real
    var cursorVisible: bool
    var cursorLocked: bool
    var loadedScenes: seq<nat>

    /** The engine at startup: no manager, normal speed, the cursor visible
        and free, no scene reloaded yet. */
    constructor ()
      ensures instance == null && timeScale == 1.0
      ensures cursorVisible && !cursorLocked && loadedScenes == []
    {
      instance := null;
      timeScale := 1.0;
      cursorVisible, cursorLocked := true, false;
      loadedScenes := [];
    }
  }

  class VictoryManager {
    var shown: bool
    var overlay: Option<Overlay>
    var destroyed: bool

    /** An overlay exists only once the latch is set. (The latch can outlive
        the overlay: a scene reload destroys the canvas but not the manager.) */
    ghost predicate Valid()
      reads this
    {
      overlay.Some? ==> shown
    }

    constructor ()
      ensures Valid() && !shown && !destroyed
    {
      shown := false;
      overlay := None;
      destroyed := false;
    }

    /** Awake: the first manager becomes the instance; any later one destroys
        itself and leaves the instance as it was. */
    method Awake(rt: Runtime)
      modifies rt`instance, this`destroyed
      ensures old(rt.instance) == null ==> rt.instance == this && destroyed == old(destroyed)
      ensures old(rt.instance) != null ==> rt.instance == old(rt.instance) && destroyed
    {
      if rt.instance == null {
        rt.instance := this;
      } else {
        destroyed := true;
      }
    }

    method ShowVictory(rt: Runtime, title: string, subtitle: string)
      requires Valid()
      modifies this, rt
      ensures Valid()
      ensures old(shown) ==> unchanged(this) && unchanged(rt)
      ensures !old(shown) ==> Shows(rt, Built(Victory, title, subtitle))
      // the victory overlay offers no Restart
      ensures !old(shown) ==> !CanRestart()
      ensures rt.instance == old(rt.instance) && rt.loadedScenes == old(rt.loadedScenes)
      ensures destroyed == old(destroyed)
    {
      Show(rt, Built(Victory, title, subtitle));
    }

    method ShowDefeat(rt: Runtime, title: string, subtitle: string)
      requires Valid()
      modifies this, rt
      ensures Valid()
      ensures old(shown) ==> unchanged(this) && unchanged(rt)
      ensures !old(shown) ==> Shows(rt, Built(Defeat, title, subtitle))
      // the defeat overlay offers Restart
      ensures !old(shown) ==> CanRestart()
      ensures rt.instance == old(rt.instance) && rt.loadedScenes == old(rt.loadedScenes)
      ensures destroyed == old(destroyed)
    {
      Show(rt, Built(Defeat, title, subtitle));
    }

    /** The state after a first show: the latch is set, `o` is the overlay,
        the game is paused and the cursor is free. */
    ghost predicate Shows(rt: Runtime, o: Overlay)
      reads this, rt
    {
      shown && overlay == Some(o) && rt.timeScale == 0.0 && rt.cursorVisible && !rt.cursorLocked
    }

    /** The latch shared by both screens, then the pause and the build. */
    method Show(rt: Runtime, o: Overlay)
      requires Valid()
      modifies this, rt
      ensures Valid()
      ensures old(shown) ==> unchanged(this) && unchanged(rt)
      ensures !old(shown) ==> Shows(rt, o)
      ensures rt.instance == old(rt.instance) && rt.loadedScenes == old(rt.loadedScenes)
      ensures destroyed == old(destroyed)
    {
      if shown {
        return;
      }
      shown := true;
      rt.timeScale := 0.0;
      rt.cursorVisible := true;
      rt.cursorLocked := false;
      overlay := Some(o);
    }

    /** The Restart button offered by the overlay on screen. */
    predicate CanRestart()
      reads this
    {
      overlay.Some? && "Restart" in overlay.value.buttons
    }

    /** A click on the defeat overlay's Restart button: the game runs again at
        normal speed and the active scene is reloaded. The reload destroys the
        canvas, but the manager survives it (DontDestroyOnLoad) and its latch
        stays set. Without such a button there is nothing to click. */
    method PressRestart(rt: Runtime, activeScene: nat)
      requires Valid()
      modifies this`overlay, rt`timeScale, rt`loadedScenes
      ensures Valid()
      ensures old(CanRestart()) ==>
        rt.timeScale == 1.0 && rt.loadedScenes == old(rt.loadedScenes) + [activeScene]
        && overlay.None? && shown
      ensures !old(CanRestart()) ==>
        rt.timeScale == old(rt.timeScale) && rt.loadedScenes == old(rt.loadedScenes) && overlay == old(overlay)
    {
      if CanRestart() {
        rt.timeScale := 1.0;
        rt.loadedScenes := rt.loadedScenes + [activeScene];
        overlay := None;
      }
    }

    /** PressRestart as evidently intended: the reload also re-arms the latch,
        so the reloaded level can show its own screen. */
    method PressRestartRearming(rt: Runtime, activeScene: nat)
      requires Valid()
      modifies this`overlay, this`shown, rt`timeScale, rt`loadedScenes
      ensures Valid()
      ensures old(CanRestart()) ==>
        rt.timeScale == 1.0 && rt.loadedScenes == old(rt.loadedScenes) + [activeScene]
        && overlay.None? && !shown
      ensures !old(CanRestart()) ==>
        rt.timeScale == old(rt.timeScale) && rt.loadedScenes == old(rt.loadedScenes)
        && overlay == old(overlay) && shown == old(shown)
    {
      if CanRestart() {
        rt.timeScale := 1.0;
        rt.loadedScenes := rt.loadedScenes + [activeScene];
        overlay := None;
        shown := false;
      }
    }
  }

  /** A won level cannot be restarted: the victory overlay has no button, so
      a click changes nothing and the game stays paused. */
  method RestartAfterVictory(rt: Runtime, m: VictoryManager, activeScene: nat)
    requires m.Valid() && !m.shown
    modifies m, rt
    ensures m.Shows(rt, Built(Victory, VictoryTitle, VictorySubtitle))
    ensures rt.timeScale == 0.0 && rt.loadedScenes == old(rt.loadedScenes)
  {
    m.ShowVictory(rt, VictoryTitle, VictorySubtitle);
    m.PressRestart(rt, activeScene);
  }

  /** As written: after a Restart, dying again in the reloaded level shows
      no screen and leaves the game running. */
  method DefeatAfterRestart(rt: Runtime, m: VictoryManager, activeScene: nat)
    requires m.Valid() && m.CanRestart()
    modifies m, rt
    ensures m.overlay.None? && rt.timeScale == 1.0
  {
    m.PressRestart(rt, activeScene);
    m.ShowDefeat(rt, DefeatTitle, DefeatSubtitle);
  }

  /** With the re-arming Restart, dying again shows the defeat screen and
      pauses the game. */
  method DefeatAfterRearmedRestart(rt: Runtime, m: VictoryManager, activeScene: nat)
    requires m.Valid() && m.CanRestart()
    modifies m, rt
    ensures m.Shows(rt, Built(Defeat, DefeatTitle, DefeatSubtitle))
  {
    m.PressRestartRearming(rt, activeScene);
    m.ShowDefeat(rt, DefeatTitle, DefeatSubtitle);
  }

  /** `new GameObject("VictoryManager").AddComponent<VictoryManager>()` when
      no instance exists (Awake runs at once and registers it); the existing
      instance otherwise. */
  method InstanceOrNew(rt: Runtime) returns (m: VictoryManager)
    requires rt.instance != null ==> rt.instance.Valid()
    modifies rt`instance
    ensures rt.instance == m && m.Valid()
    ensures old(rt.instance) != null ==> m == old(rt.instance)
    ensures old(rt.instance) == null ==> fresh(m) && !m.shown && !m.destroyed
  {
    if rt.instance == null {
      m := new VictoryManager();
      m.Awake(rt);
    } else {
      m := rt.instance;
    }
  }
}
