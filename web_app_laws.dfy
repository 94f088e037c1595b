/** What the newer app's handlers promise, stated over the state machine of
    WebAppSpec: the selection session, close and Escape, the crab effect,
    the click gating and the intro latch, the timer queue and the scripted
    timelines, and the two places where the handlers do not do what they
    evidently mean to. */
module WebAppLaws {
  import opened Common
  import opened Narration
  import opened FocusPose
  import opened WebAppSpec

  // ----- selection session -----

  /** Picking the POI that is already selected only replaces the record:
      crab state, audio, camera, focus, scope and timers are untouched. */
  lemma ReselectKeepsSession(s: AppState, p: Poi, scopeMode: bool, tan: real -> real)
    requires IsSelected(s, p.id)
    ensures var o := PoiClick(s, p, scopeMode, tan);
      && o.timers == []
      && o.state == s.(selected := Some(p))
      && o.state.crab == s.crab && o.state.deck == s.deck && o.state.focused == s.focused
      && o.state.camera == s.camera
  {
  }

  /** Picking another POI stops the character clip (resuming the birds only
      while the sparrow prince is not shot), resets the crab effect, selects
      and focuses the POI, starts the focus move and, for the sparrow prince
      in scope mode, raises the scope after one second. The phase, shot and
      intro flags are left alone, and the descent's completion is never
      among the timers. */
  lemma NewSelectionResets(s: AppState, p: Poi, scopeMode: bool, tan: real -> real)
    requires !IsSelected(s, p.id)
    ensures var o := PoiClick(s, p, scopeMode, tan);
      && o.state.selected == Some(p) && o.state.focused
      && o.state.crab == Crab(0, [])
      && o.state.deck.character.None?
      && (s.sparrowShot ==> o.state.deck.birds == s.deck.birds)
      && (!s.sparrowShot ==> o.state.deck.birds == ResumedBirds(s.deck.birds))
      && (s.cameraReady ==> o.state.camera == FocusTween(p, scopeMode, tan))
      && (!s.cameraReady ==> o.state.camera == s.camera)
      && (Step(1000, ScopeOn) in o.timers <==> p.id == SparrowId && scopeMode)
      && (Step(FocusDoneDelay(scopeMode), FocusDone) in o.timers <==> s.cameraReady)
      && (forall t | t in o.timers :: t.action in {ScopeOn, FocusDone})
      && o.state.phase == s.phase && o.state.introComplete == s.introComplete
      && o.state.sparrowShot == s.sparrowShot && o.state.showScope == s.showScope
  {
    var o := PoiClick(s, p, scopeMode, tan);
    if s.cameraReady {
      if p.id == SparrowId && scopeMode {
        assert o.timers == [Step(1000, ScopeOn), Step(FocusDoneDelay(scopeMode), FocusDone)];
      } else {
        assert o.timers == [Step(FocusDoneDelay(scopeMode), FocusDone)];
      }
    }
  }

  /** Either way, a pick keeps the state consistent, leaves the phase and
      the intro flag alone and schedules nothing but the scope and the
      focus completion. */
  lemma PoiClickFacts(s: AppState, p: Poi, scopeMode: bool, tan: real -> real)
    ensures var o := PoiClick(s, p, scopeMode, tan);
      && (Consistent(s) ==> Consistent(o.state))
      && o.state.phase == s.phase && o.state.introComplete == s.introComplete
      && (forall t | t in o.timers :: t.action in {ScopeOn, FocusDone})
  {
    if IsSelected(s, p.id) {
      ReselectKeepsSession(s, p, scopeMode, tan);
    } else {
      NewSelectionResets(s, p, scopeMode, tan);
    }
  }

  // ----- close and Escape -----

  /** Close ends the session: no selection, no focus, no crab images, no
      character clip, scope and heavenly glow off, church clip dropped, and
      (with a camera) the 1.5 s move back to the overview with the zoom
      limit back at 40. */
  lemma CloseResets(s: AppState)
    ensures var o := Close(s);
      && o.timers == []
      && o.state.selected.None? && !o.state.focused
      && o.state.crab == Crab(0, [])
      && o.state.deck.character.None?
      && !o.state.showScope && !o.state.heavenlyGlow && o.state.church == NoChurch
      && (s.cameraReady ==> o.state.camera == Tween(Overview, 1.5) && o.state.maxDistance == 40.0)
      && (!s.cameraReady ==> o.state.camera == s.camera && o.state.maxDistance == s.maxDistance)
      && o.state.sparrowShot == s.sparrowShot && o.state.introComplete == s.introComplete
  {
  }

  /** Closing twice is closing once. */
  lemma CloseIdempotent(s: AppState)
    ensures Close(Close(s).state) == Close(s)
  {
    var shot := s.sparrowShot;
    var d := Stopped(s.deck, !shot);
    var c := s.(selected := None, focused := false, crab := Crab(0, []), deck := d,
                showScope := false, heavenlyGlow := false, church := NoChurch,
                escapeShot := if s.selected.Some? then shot else s.escapeShot);
    var c1 := if s.cameraReady then c.(maxDistance := 40.0, camera := Tween(Overview, 1.5)) else c;
    assert Close(s) == Outcome(c1, []);
    ClosedStaysClosed(c1);
  }

  /** A closed state that the close would produce is left as it is. */
  lemma ClosedStaysClosed(c: AppState)
    requires c.selected.None? && !c.focused && c.crab == Crab(0, []) && c.deck.character.None?
    requires !c.showScope && !c.heavenlyGlow && c.church == NoChurch
    requires !c.sparrowShot ==> c.deck.birds == ResumedBirds(c.deck.birds)
    requires c.cameraReady ==> c.maxDistance == 40.0 && c.camera == Tween(Overview, 1.5)
    ensures Close(c) == Outcome(c, [])
  {
    assert Stopped(c.deck, !c.sparrowShot) == c.deck;
  }

  /** Escape changes the state exactly when a POI is selected, and then it is
      the close button's close. */
  lemma EscapeClosesIffSelected(s: AppState, key: string)
    ensures PressKey(s, key).state != s <==> key == "Escape" && s.selected.Some?
    ensures key == "Escape" && s.selected.Some? ==> PressKey(s, key) == Close(s)
    ensures PressKey(s, key).timers == []
  {
  }

  // ----- crab effect -----

  function CrabEvents(ds: seq<CrabDraw>): (es: seq<Event>)
    ensures |es| == |ds|
    ensures forall i :: 0 <= i < |ds| ==> es[i] == CrabClick(ds[i])
  {
    seq(|ds|, i requires 0 <= i < |ds| => CrabClick(ds[i]))
  }

  function CrabImages(ds: seq<CrabDraw>): (imgs: seq<CrabImage>)
    ensures |imgs| == |ds|
    ensures forall i :: 0 <= i < |ds| ==> imgs[i] == CrabImageFrom(ds[i])
  {
    seq(|ds|, i requires 0 <= i < |ds| => CrabImageFrom(ds[i]))
  }

  /** Crab clicks on the open panel drive the crab counter of Common. */
  lemma {:induction false} CrabEventsCount(s: AppState, ds: seq<CrabDraw>, pois: seq<Poi>, tan: real -> real)
    requires PanelUsable(s)
    ensures HandleAll(s, CrabEvents(ds), pois, tan) == s.(crab := CrabClicks(s.crab, CrabImages(ds)))
    decreases |ds|
  {
    if |ds| > 0 {
      var s1 := s.(crab := CrabClicked(s.crab, CrabImageFrom(ds[0])));
      var es := CrabEvents(ds);
      CrabClickStep(s, ds[0], pois, tan);
      assert es[0] == CrabClick(ds[0]);
      assert es[1..] == CrabEvents(ds[1..]);
      HandleAllUnfold(s, es, pois, tan, s1);
      assert CrabImages(ds)[0] == CrabImageFrom(ds[0]);
      assert CrabImages(ds)[1..] == CrabImages(ds[1..]);
      CrabEventsCount(s1, ds[1..], pois, tan);
    }
  }

  /** One unfolding of HandleAll, with the state after the first event named. */
  lemma HandleAllUnfold(s: AppState, es: seq<Event>, pois: seq<Poi>, tan: real -> real, s1: AppState)
    requires |es| > 0 && Handle(s, es[0], pois, tan).state == s1
    ensures HandleAll(s, es, pois, tan) == HandleAll(s1, es[1..], pois, tan)
  {
  }

  /** One crab click on the open panel. */
  lemma CrabClickStep(s: AppState, d: CrabDraw, pois: seq<Poi>, tan: real -> real)
    requires PanelUsable(s)
    ensures Handle(s, CrabClick(d), pois, tan).state == s.(crab := CrabClicked(s.crab, CrabImageFrom(d)))
  {
  }

  /** After n crab clicks since the selection, the count is n and the images
      are those of the fifth click on, so there are max(0, n - 4) of them. */
  lemma CrabAfterSelection(s: AppState, ds: seq<CrabDraw>, pois: seq<Poi>, tan: real -> real)
    requires PanelUsable(s) && s.crab == Crab(0, [])
    ensures var c := HandleAll(s, CrabEvents(ds), pois, tan).crab;
      && c.count == |ds|
      && c.images == (if |ds| >= 4 then CrabImages(ds)[4..] else [])
      && |c.images| == (if |ds| >= 4 then |ds| - 4 else 0)
  {
    CrabEventsCount(s, ds, pois, tan);
    CrabClicksFromReset(CrabImages(ds));
  }

  // ----- the state invariant -----

  lemma InitialConsistent()
    ensures Consistent(Initial)
  {
  }

  /** Every revive-glow step is a glow tick or the end of reviving. */
  lemma GlowTimelineActions()
    ensures forall t | t in GlowTimeline() :: t.action.Glow? || t.action == ReviveDone
  {
  }

  /** Revive: the sparrow prince (when listed) becomes the selection, the
      glow starts at 4 and reviving is on; the shot ends after 500 ms, the
      60 glow ticks follow and the birds return after 1 s. */
  lemma Revive(s: AppState, pois: seq<Poi>, tan: real -> real)
    requires s.sparrowShot
    ensures var o := KillOrReviveOutcome(s, pois, tan);
      && (FindById(pois, SparrowId).Some? ==> o.state.selected == FindById(pois, SparrowId))
      && o.state.reviving && o.state.glow == 4.0
      && |o.timers| >= 63
      && o.timers[|o.timers| - 63..] == [Step(500, ShotOff)] + GlowTimeline() + [Step(1000, ResumeBirds)]
      && (Consistent(s) ==> Consistent(o.state))
      && o.state.phase == s.phase && o.state.introComplete == s.introComplete
      && forall t | t in o.timers :: t.action != CompleteIntro
  {
    ReviveTimers(s, pois, tan);
    ReviveState(s, pois, tan);
    if FindById(pois, SparrowId).Some? {
      ReviveFocuses(s, pois, tan);
    }
  }

  lemma ReviveTimers(s: AppState, pois: seq<Poi>, tan: real -> real)
    requires s.sparrowShot
    ensures var o := KillOrReviveOutcome(s, pois, tan);
      && |o.timers| >= 63
      && o.timers[|o.timers| - 63..] == [Step(500, ShotOff)] + GlowTimeline() + [Step(1000, ResumeBirds)]
      && forall t | t in o.timers :: t.action != CompleteIntro
  {
    var sp := FindById(pois, SparrowId);
    var pick := if sp.Some? then PoiClick(s, sp.value, false, tan) else Outcome(s, []);
    if sp.Some? {
      PoiClickFacts(s, sp.value, false, tan);
    }
    GlowTimelineActions();
    ReviveTail(pick.timers);
  }

  /** The revive timers after a pick's focus timers. */
  lemma ReviveTail(pick: seq<Step>)
    requires forall t | t in pick :: t.action in {ScopeOn, FocusDone}
    requires forall t | t in GlowTimeline() :: t.action.Glow? || t.action == ReviveDone
    ensures var ts := pick + [Step(500, ShotOff)] + GlowTimeline() + [Step(1000, ResumeBirds)];
      && |ts| >= 63
      && ts[|ts| - 63..] == [Step(500, ShotOff)] + GlowTimeline() + [Step(1000, ResumeBirds)]
      && forall t | t in ts :: t.action != CompleteIntro
  {
    var tail := [Step(500, ShotOff)] + GlowTimeline() + [Step(1000, ResumeBirds)];
    var ts := pick + [Step(500, ShotOff)] + GlowTimeline() + [Step(1000, ResumeBirds)];
    assert ts == pick + tail;
    assert ts[|ts| - 63..] == tail;
  }

  lemma ReviveState(s: AppState, pois: seq<Poi>, tan: real -> real)
    requires s.sparrowShot
    ensures var o := KillOrReviveOutcome(s, pois, tan);
      && o.state.reviving && o.state.glow == 4.0
      && (Consistent(s) ==> Consistent(o.state))
      && o.state.phase == s.phase && o.state.introComplete == s.introComplete
  {
    var sp := FindById(pois, SparrowId);
    if sp.Some? {
      PoiClickFacts(s, sp.value, false, tan);
    }
  }

  /** Revive with the sparrow prince listed: it becomes the selection. */
  lemma ReviveFocuses(s: AppState, pois: seq<Poi>, tan: real -> real)
    requires s.sparrowShot && FindById(pois, SparrowId).Some?
    ensures var o := KillOrReviveOutcome(s, pois, tan);
      && o.state.selected == FindById(pois, SparrowId)
      && (Consistent(s) ==> Consistent(o.state))
  {
    var sp := FindById(pois, SparrowId).value;
    if IsSelected(s, sp.id) {
      ReselectKeepsSession(s, sp, false, tan);
    } else {
      NewSelectionResets(s, sp, false, tan);
    }
  }

  /** Kill with the sparrow prince already selected: only the scope (after
      1 s) and the end of the black transition (after 1.5 s). */
  lemma KillWhileSelected(s: AppState, pois: seq<Poi>, tan: real -> real)
    requires !s.sparrowShot && IsSelected(s, SparrowId)
    ensures KillOrReviveOutcome(s, pois, tan) ==
              Outcome(s.(scopeTransition := true), [Step(1000, ScopeOn), Step(1500, ScopeTransitionOff)])
  {
  }

  /** Kill from any other selection: the black transition starts and the
      sparrow prince (when listed) is picked in scope mode, which raises the
      scope after 1 s. */
  lemma KillPicks(s: AppState, pois: seq<Poi>, tan: real -> real)
    requires !s.sparrowShot && !IsSelected(s, SparrowId)
    ensures var o := KillOrReviveOutcome(s, pois, tan); var sp := FindById(pois, SparrowId);
      && o.state.scopeTransition
      && |o.timers| >= 1 && o.timers[|o.timers| - 1] == Step(1500, ScopeTransitionOff)
      && (sp.Some? ==> o.state.selected == sp && Step(1000, ScopeOn) in o.timers)
      && (sp.None? ==> o == Outcome(s.(scopeTransition := true), [Step(1500, ScopeTransitionOff)]))
      && (Consistent(s) ==> Consistent(o.state))
      && o.state.phase == s.phase && o.state.introComplete == s.introComplete
      && forall t | t in o.timers :: t.action != CompleteIntro
  {
    var sp := FindById(pois, SparrowId);
    if sp.Some? {
      var s0 := s.(scopeTransition := true);
      assert !IsSelected(s0, sp.value.id);
      NewSelectionResets(s0, sp.value, true, tan);
      PoiClickFacts(s0, sp.value, true, tan);
    }
  }

  lemma KillOrReviveFacts(s: AppState, pois: seq<Poi>, tan: real -> real)
    ensures var o := KillOrReviveOutcome(s, pois, tan);
      && (Consistent(s) ==> Consistent(o.state))
      && o.state.phase == s.phase && o.state.introComplete == s.introComplete
      && forall t | t in o.timers :: t.action != CompleteIntro
  {
    if s.sparrowShot {
      Revive(s, pois, tan);
    } else if IsSelected(s, SparrowId) {
      KillWhileSelected(s, pois, tan);
    } else {
      KillPicks(s, pois, tan);
    }
  }

  /** Every event keeps the state consistent. */
  lemma HandleKeepsConsistent(s: AppState, e: Event, pois: seq<Poi>, tan: real -> real)
    requires Consistent(s)
    ensures Consistent(Handle(s, e, pois, tan).state)
  {
    if e.ScenePick? || e.ListPick? {
      PoiClickFacts(s, e.poi, false, tan);
    } else if e.KillOrRevive? {
      KillOrReviveFacts(s, pois, tan);
    } else if e.CrabClick? {
      CrabClickedConsistent(s.crab, CrabImageFrom(e.draw));
    } else {
      OtherEventsKeepConsistent(s, e, pois, tan);
    }
  }

  lemma OtherEventsKeepConsistent(s: AppState, e: Event, pois: seq<Poi>, tan: real -> real)
    requires Consistent(s)
    requires !(e.ScenePick? || e.ListPick? || e.KillOrRevive? || e.CrabClick?)
    ensures Consistent(Handle(s, e, pois, tan).state)
  {
  }

  lemma FireKeepsConsistent(s: AppState, a: Action)
    requires Consistent(s)
    ensures Consistent(Fire(s, a).state)
  {
    match a
    case ShowScene =>
    case _ =>
  }

  /** Every timer keeps the state consistent. */
  lemma {:induction false} RunKeepsConsistent(s: AppState, steps: seq<Step>)
    requires Consistent(s)
    ensures Consistent(Run(s, steps).state)
    decreases |steps|
  {
    if |steps| > 0 {
      FireKeepsConsistent(s, steps[0].action);
      RunKeepsConsistent(Fire(s, steps[0].action).state, steps[1..]);
    }
  }

  // ----- gating and the intro latch -----

  /** Scene clicks do nothing while the scope is up, before the descent has
      finished or while the curtain or the white flash covers the canvas,
      and are the ordinary pick otherwise. */
  lemma ScenePickGated(s: AppState, p: Poi, pois: seq<Poi>, tan: real -> real)
    ensures s.showScope || !s.introComplete || s.scopeTransition || s.teleportFlash ==>
              Handle(s, ScenePick(p), pois, tan) == Outcome(s, [])
    ensures !s.showScope && s.introComplete && !s.scopeTransition && !s.teleportFlash ==>
              Handle(s, ScenePick(p), pois, tan) == PoiClick(s, p, false, tan)
  {
  }

  /** The list pick works only while the list is rendered and no overlay
      covers it. */
  lemma ListPickGated(s: AppState, p: Poi, pois: seq<Poi>, tan: real -> real)
    ensures !ListVisible(s) || s.scopeTransition || s.teleportFlash ==> Handle(s, ListPick(p), pois, tan) == Outcome(s, [])
    ensures ListVisible(s) && !s.scopeTransition && !s.teleportFlash ==> Handle(s, ListPick(p), pois, tan) == PoiClick(s, p, false, tan)
  {
  }

  /** While the curtain or the white flash is up every click is swallowed,
      whatever it was aimed at; Escape still closes the panel. */
  lemma OverlaysSwallowClicks(s: AppState, e: Event, pois: seq<Poi>, tan: real -> real)
    requires (s.scopeTransition || s.teleportFlash) && ClickRaised(e)
    ensures Handle(s, e, pois, tan) == Outcome(s, [])
    ensures s.selected.Some? ==> Handle(s, KeyDown("Escape"), pois, tan).state.selected.None?
  {
  }

  /** No event sets or clears `introComplete`, and no event schedules the
      descent's completion. */
  lemma EventsKeepIntro(s: AppState, e: Event, pois: seq<Poi>, tan: real -> real)
    ensures Handle(s, e, pois, tan).state.introComplete == s.introComplete
    ensures forall t | t in Handle(s, e, pois, tan).timers :: t.action != CompleteIntro
  {
    if e.ScenePick? || e.ListPick? {
      PoiClickFacts(s, e.poi, false, tan);
    } else if e.KillOrRevive? {
      KillOrReviveFacts(s, pois, tan);
    } else if e.Enter? || e.CanvasCreated? || e.ModelsLoaded? || e.IntroAudioEnded? {
      StartupKeepsIntro(s, e, pois, tan);
    } else if e.CloseInfo? || e.KeyDown? {
      ClosingKeepsIntro(s, e, pois, tan);
    } else if e.ChurchEnded? || e.ExternalUrl? || e.Shoot? {
      EffectsKeepIntro(s, e, pois, tan);
    } else {
      PanelKeepsIntro(s, e, pois, tan);
    }
  }

  lemma StartupKeepsIntro(s: AppState, e: Event, pois: seq<Poi>, tan: real -> real)
    requires e.Enter? || e.CanvasCreated? || e.ModelsLoaded? || e.IntroAudioEnded?
    ensures Handle(s, e, pois, tan).state.introComplete == s.introComplete
    ensures forall t | t in Handle(s, e, pois, tan).timers :: t.action != CompleteIntro
  {
  }

  lemma ClosingKeepsIntro(s: AppState, e: Event, pois: seq<Poi>, tan: real -> real)
    requires e.CloseInfo? || e.KeyDown?
    ensures Handle(s, e, pois, tan).state.introComplete == s.introComplete
    ensures forall t | t in Handle(s, e, pois, tan).timers :: t.action != CompleteIntro
  {
  }

  lemma EffectsKeepIntro(s: AppState, e: Event, pois: seq<Poi>, tan: real -> real)
    requires e.ChurchEnded? || e.ExternalUrl? || e.Shoot?
    ensures Handle(s, e, pois, tan).state.introComplete == s.introComplete
    ensures forall t | t in Handle(s, e, pois, tan).timers :: t.action != CompleteIntro
  {
    if e.ExternalUrl? {
      ExternalKeepsIntro(s, e, pois, tan);
    } else if e.Shoot? {
      ShootKeepsIntro(s, e, pois, tan);
    } else {
      ChurchKeepsIntro(s, e, pois, tan);
    }
  }

  lemma ExternalKeepsIntro(s: AppState, e: Event, pois: seq<Poi>, tan: real -> real)
    requires e.ExternalUrl?
    ensures Handle(s, e, pois, tan).state.introComplete == s.introComplete
    ensures forall t | t in Handle(s, e, pois, tan).timers :: t.action != CompleteIntro
  {
  }

  lemma ShootKeepsIntro(s: AppState, e: Event, pois: seq<Poi>, tan: real -> real)
    requires e.Shoot?
    ensures Handle(s, e, pois, tan).state.introComplete == s.introComplete
    ensures forall t | t in Handle(s, e, pois, tan).timers :: t.action != CompleteIntro
  {
  }

  lemma ChurchKeepsIntro(s: AppState, e: Event, pois: seq<Poi>, tan: real -> real)
    requires e.ChurchEnded?
    ensures Handle(s, e, pois, tan).state.introComplete == s.introComplete
    ensures forall t | t in Handle(s, e, pois, tan).timers :: t.action != CompleteIntro
  {
  }

  lemma PanelKeepsIntro(s: AppState, e: Event, pois: seq<Poi>, tan: real -> real)
    requires e.CrabClick? || e.PlayAudio? || e.StopAudio? || e.CharacterEnded? || e.JesusClick? || e.ToggleSnow?
    ensures Handle(s, e, pois, tan).state.introComplete == s.introComplete
    ensures forall t | t in Handle(s, e, pois, tan).timers :: t.action != CompleteIntro
  {
  }

  /** Only the descent's completion timer sets `introComplete`, and nothing
      clears it. */
  lemma IntroLatch(s: AppState, a: Action)
    ensures Fire(s, a).state.introComplete == (s.introComplete || a == CompleteIntro)
  {
    match a
    case CompleteIntro =>
    case _ =>
  }

  /** That timer is started only by the scene reveal, and only with a camera. */
  lemma IntroTimerOnlyFromReveal(s: AppState, a: Action)
    ensures (exists t | t in Fire(s, a).timers :: t.action == CompleteIntro) <==> a == ShowScene && s.cameraReady
  {
    if a == ShowScene {
      RevealTimers(s);
      if s.cameraReady {
        assert Fire(s, a).timers[1] in Fire(s, a).timers;
      }
    } else {
      FireStartsNothing(s, a);
    }
  }

  /** With a camera, the reveal schedules the descent after 1.5 s and its
      completion at 6 s (the 1.5 s wait plus the 4.5 s descent). */
  lemma RevealTimers(s: AppState)
    ensures s.cameraReady ==> Fire(s, ShowScene).timers == [Step(1500, BeginDescent), Step(6000, CompleteIntro)]
    ensures !s.cameraReady ==> Fire(s, ShowScene).timers == []
  {
  }

  /** Only the scene reveal starts timers when it fires. */
  lemma FireStartsNothing(s: AppState, a: Action)
    requires a != ShowScene
    ensures Fire(s, a).timers == []
  {
  }
}
