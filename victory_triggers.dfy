/** VictoryTrigger: when the player touches the end object, show the victory
    screen, creating the manager first if there is none. Trigger entry and
    collision entry run the same code. */
module VictoryTriggers {
  import opened Engine
  import opened Screens

  /** The inspector fields of VictoryTrigger. */
  datatype VictoryTrigger = VictoryTrigger(playerTag: string, title: string, subtitle: string)

  /** The field initialisers. */
  const Default: VictoryTrigger := VictoryTrigger("Player", VictoryTitle, VictorySubtitle)

  /** OnTriggerEnter and OnCollisionEnter, given the tag of what touched the
      trigger. A contact from anything not tagged `playerTag` changes nothing.
      A player contact leaves a shown manager registered; the victory overlay
      is built only if no screen was shown before. */
  method OnContact(v: VictoryTrigger, rt: Runtime, otherTag: string)
    requires rt.instance != null ==> rt.instance.Valid()
    modifies rt, rt.instance
    ensures rt.instance != null ==> rt.instance.Valid()
    ensures otherTag != v.playerTag ==> unchanged(rt) && (old(rt.instance) != null ==> unchanged(old(rt.instance)))
    ensures otherTag == v.playerTag ==> rt.instance != null && rt.instance.shown
    ensures otherTag == v.playerTag && old(rt.instance) != null ==> rt.instance == old(rt.instance)
    ensures otherTag == v.playerTag && old(rt.instance) == null ==> fresh(rt.instance)
    ensures otherTag == v.playerTag && old(rt.instance) != null && old(rt.instance.shown) ==>
      unchanged(rt) && unchanged(old(rt.instance))
    ensures otherTag == v.playerTag && (old(rt.instance) == null || !old(rt.instance.shown)) ==>
      rt.instance.Shows(rt, Built(Victory, v.title, v.subtitle))
    ensures rt.loadedScenes == old(rt.loadedScenes)
  {
    if otherTag == v.playerTag {
      var m := InstanceOrNew(rt);
      m.ShowVictory(rt, v.title, v.subtitle);
    }
  }

  /** Repeated player contacts: the second one changes nothing, so only the
      first contact's screen is ever shown. */
  method ContactTwice(v: VictoryTrigger, rt: Runtime)
    requires rt.instance != null ==> rt.instance.Valid()
    modifies rt, rt.instance
    ensures rt.instance != null && rt.instance.shown
    ensures old(rt.instance) == null || !old(rt.instance.shown) ==>
      rt.instance.overlay == Some(Built(Victory, v.title, v.subtitle))
  {
    OnContact(v, rt, v.playerTag);
    ghost var first := rt.instance.overlay;
    OnContact(v, rt, v.playerTag);
    assert rt.instance.overlay == first;
  }
}
