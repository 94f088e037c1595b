/** Two handlers of the newer app that do not do what they evidently mean
    to, each stated as written and as intended. The state machine of
    WebAppSpec uses the intended versions. */
module WebAppFindings {
  import opened Common
  import opened Narration
  import opened FocusPose
  import opened WebAppSpec

  // ----- the church clip and the birds -----

  /** As written, the Jesus click leaves the birds playing under the church
      clip whenever the sparrow prince is not shot: `stopCharacterAudio`
      runs after `stopBirdsAudio` and resumes them. */
  lemma JesusBirdsPlayAsWritten(s: AppState)
    requires !s.sparrowShot && s.deck.birds != NoBirds
    ensures JesusClickAsWritten(s).church == ChurchPlaying(false)
    ensures JesusClickAsWritten(s).deck.birds == BirdsPlaying
  {
  }

  /** The two agree whenever the sparrow prince is shot. */
  lemma JesusAgreeWhenShot(s: AppState)
    requires s.sparrowShot
    ensures JesusClickAsWritten(s) == JesusClickFixed(s)
  {
  }

  /** As intended, the birds are silent while the church clip plays, the
      character clip is gone and the heavenly glow is on; when the clip ends
      the glow fades out over 2 s and the birds come back unless the sparrow
      prince was shot at the click. */
  lemma JesusClickQuiet(s: AppState)
    ensures var j := JesusClickFixed(s);
      && j.deck.birds != BirdsPlaying
      && j.deck.character.None?
      && j.church == ChurchPlaying(s.sparrowShot) && j.heavenlyGlow
      && j.selected == s.selected && j.sparrowShot == s.sparrowShot
    ensures var e := ChurchFinished(JesusClickFixed(s));
      && e.timers == [Step(2000, HeavenlyOff)]
      && e.state.heavenlyFading && e.state.church == ChurchOver
      && (e.state.deck.birds == BirdsPlaying <==> !s.sparrowShot && s.deck.birds != NoBirds)
  {
  }

  // ----- Escape and the stale shot flag -----

  /** As written, Escape resumes the birds when the listener's shot flag is
      stale: selected while alive, shot afterwards, birds paused by the shot. */
  lemma EscapeResumesAsWritten(s: AppState)
    requires s.selected.Some? && s.sparrowShot && !s.escapeShot && s.deck.birds == BirdsPaused
    ensures PressKeyAsWritten(s, "Escape").state.deck.birds == BirdsPlaying
    ensures Close(s).state.deck.birds == BirdsPaused
  {
  }

  /** That state is reached by pressing the kill button with the sparrow
      prince alive and not selected (which picks him in scope mode and raises
      the curtain), the scope coming up at 1 s, the curtain lifting at 1.5 s,
      the shot, and the shot landing 500 ms later. */
  lemma EscapeStaleReachable(s: AppState, sp: Poi, pois: seq<Poi>, tan: real -> real)
    requires FindById(pois, SparrowId) == Some(sp) && !IsSelected(s, SparrowId)
    requires s.phase == Scene && !s.showScope && !s.scopeTransition && !s.teleportFlash
    requires !s.sparrowShot && s.deck.birds != NoBirds
    ensures var s1 := Handle(s, KillOrRevive, pois, tan).state;
      var s2 := Fire(s1, ScopeOn).state;
      var s3 := Fire(s2, ScopeTransitionOff).state;
      var s4 := Handle(s3, Shoot, pois, tan).state;
      var s5 := Fire(s4, ShotOn).state;
      s5.selected == Some(sp) && s5.sparrowShot && !s5.escapeShot && s5.deck.birds == BirdsPaused
  {
    KillPicksAlive(s, sp, pois, tan);
    var s1 := Handle(s, KillOrRevive, pois, tan).state;
    assert s1.selected == Some(sp) && !s1.escapeShot && !s1.sparrowShot && s1.deck.birds != NoBirds;
    ShotAfterCurtain(s1, pois, tan);
  }

  /** From the pick under the curtain: the scope comes up, the curtain
      lifts, the shot pauses the birds and lands. */
  lemma ShotAfterCurtain(s1: AppState, pois: seq<Poi>, tan: real -> real)
    requires !s1.teleportFlash
    ensures var s3 := Fire(Fire(s1, ScopeOn).state, ScopeTransitionOff).state;
      var s5 := Fire(Handle(s3, Shoot, pois, tan).state, ShotOn).state;
      s5 == s1.(showScope := true, scopeTransition := false, sparrowShot := true,
                deck := s1.deck.(birds := PausedBirds(s1.deck.birds)))
  {
    var s3 := Fire(Fire(s1, ScopeOn).state, ScopeTransitionOff).state;
    assert s3 == s1.(showScope := true, scopeTransition := false);
    ShotPausesBirds(s3, pois, tan);
  }

  /** The shot, with the scope up and no overlay over it, pauses the birds. */
  lemma ShotPausesBirds(s: AppState, pois: seq<Poi>, tan: real -> real)
    requires s.showScope && !s.scopeTransition && !s.teleportFlash
    ensures Handle(s, Shoot, pois, tan).state == s.(deck := s.deck.(birds := PausedBirds(s.deck.birds)))
  {
  }

  /** The kill button with the sparrow prince alive and not selected picks
      him in scope mode under the curtain. */
  lemma KillPicksAlive(s: AppState, sp: Poi, pois: seq<Poi>, tan: real -> real)
    requires FindById(pois, SparrowId) == Some(sp) && !IsSelected(s, SparrowId)
    requires s.phase == Scene && !s.showScope && !s.scopeTransition && !s.teleportFlash && !s.sparrowShot
    ensures Handle(s, KillOrRevive, pois, tan).state == FreshPick(s.(scopeTransition := true), sp, true, tan).state
  {
    assert Handle(s, KillOrRevive, pois, tan) == KillOrReviveOutcome(s, pois, tan);
    assert !IsSelected(s.(scopeTransition := true), sp.id);
  }

  /** As intended, Escape is the close button's close; the two listeners
      agree whenever the listener's flag is current. */
  lemma EscapeAgreesWhenCurrent(s: AppState, key: string)
    requires s.escapeShot == s.sparrowShot
    ensures PressKeyAsWritten(s, key) == PressKey(s, key)
  {
  }
}
