/** Whole-level sequences through the terminal screens: the player reaching
    the end object, the player dying, and the Restart button between lives. */
module Scenarios {
  import opened Engine
  import opened Screens
  import VictoryTriggers
  import PlayerCombat

  /** Win, then die: the victory screen stays up and the game stays paused,
      because the defeat screen goes through the same latch. */
  method WinThenDie(amount: int) returns (overlay: Option<Overlay>, timeScale: real)
    requires amount >= PlayerCombat.MaxHealth
    ensures overlay == Some(Built(Victory, VictoryTitle, VictorySubtitle))
    ensures timeScale == 0.0
  {
    var rt := new Runtime();
    VictoryTriggers.OnContact(VictoryTriggers.Default, rt, VictoryTriggers.Default.playerTag);
    var player := new PlayerCombat.Player(25, 40, true, true);
    var _ := player.TakeDamage(rt, amount);
    overlay, timeScale := rt.instance.overlay, rt.timeScale;
  }

  /** As written: die, press Restart, and die again in the reloaded level.
      The first death shows the defeat screen; the second shows nothing and
      the game keeps running, because the surviving manager is still
      latched. */
  method DieRestartDie(amount: int, activeScene: nat) returns (overlay: Option<Overlay>, timeScale: real)
    requires amount >= PlayerCombat.MaxHealth
    ensures overlay.None? && timeScale == 1.0
  {
    var rt := new Runtime();
    var player := new PlayerCombat.Player(25, 40, true, true);
    var _ := player.TakeDamage(rt, amount);
    assert rt.instance.CanRestart();
    rt.instance.PressRestart(rt, activeScene);
    var reloaded := new PlayerCombat.Player(25, 40, true, true);
    var _ := reloaded.TakeDamage(rt, amount);
    overlay, timeScale := rt.instance.overlay, rt.timeScale;
  }

  /** The same sequence with the re-arming Restart: the second death shows
      the defeat screen again and pauses the game. */
  method DieRearmedRestartDie(amount: int, activeScene: nat) returns (overlay: Option<Overlay>, timeScale: real)
    requires amount >= PlayerCombat.MaxHealth
    ensures overlay == Some(Built(Defeat, PlayerCombat.DeathTitle, PlayerCombat.DeathSubtitle))
    ensures timeScale == 0.0
  {
    var rt := new Runtime();
    var player := new PlayerCombat.Player(25, 40, true, true);
    var _ := player.TakeDamage(rt, amount);
    assert rt.instance.CanRestart();
    rt.instance.PressRestartRearming(rt, activeScene);
    var reloaded := new PlayerCombat.Player(25, 40, true, true);
    var _ := reloaded.TakeDamage(rt, amount);
    overlay, timeScale := rt.instance.overlay, rt.timeScale;
  }
}
