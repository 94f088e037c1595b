/** The newer app's component state (webMap/src/App.jsx) as an object whose
    handlers update it in place: the `useState` values become fields, the
    audio refs are the shared AudioDeck, and every handler returns the
    timers it starts. Each handler is proved to do what WebAppSpec says. */
module WebApp {
  import opened Common
  import opened Narration
  import opened FocusPose
  import opened WebAppSpec

  /** The revive interval: `step` counts the ticks, each tick sets the glow
      to 4·(1 − step/60), and the 60th also ends reviving. */
  method GlowRampTimers() returns (ts: seq<Step>)
    ensures ts == GlowTimeline()
  {
    ts := [];
    var step := 0;
    while step < 60
      invariant 0 <= step <= 60
      invariant |ts| == step
      invariant forall i :: 0 <= i < step ==> ts[i] == GlowTimeline()[i]
    {
      step := step + 1;
      ts := ts + [Step(100 * step, Glow(4.0 * (1.0 - step as real / 60.0)))];
    }
    ts := ts + [Step(6000, ReviveDone)];
  }

  /** The intro and page-level flags. */
  datatype Screen = Screen(phase: Phase, introComplete: bool, cameraReady: bool, snowActive: bool)

  /** The selection session: what is shown, and the crab effect it owns. */
  datatype Session = Session(selected: Option<Poi>, focused: bool, crab: Crab<CrabImage>,
                             /** The `sparrowShot` of the render that registered the keydown listener. */
                             escapeShot: bool)

  /** The sniper-scope effect around the sparrow prince. */
  datatype Sniper = Sniper(showScope: bool, scopeTransition: bool, sparrowShot: bool, bloodEffect: bool)

  /** The revive glow, the heavenly glow and `churchAudioRef`. */
  datatype Glows = Glows(reviving: bool, glow: real, heavenlyGlow: bool, heavenlyFading: bool, church: Church)

  /** The camera, the orbit controls' zoom limit and the teleport overlay. */
  datatype View = View(camera: Tween, maxDistance: real, teleportFlash: bool, openedUrls: seq<string>)

  /** The component. Its `useState` hooks are kept in five fields, one per
      concern; the snapshot `State()` lists them one by one. */
  class App {
    var screen: Screen
    var session: Session
    var sniper: Sniper
    var glows: Glows
    var view: View
    /** `characterAudioRef` and `birdsAudioRef`. */
    const audio: AudioDeck

    function State(): AppState
      reads this, audio
    {
      AppState(screen.phase, screen.introComplete, session.selected, session.focused, session.crab,
               screen.snowActive, view.teleportFlash, sniper.showScope, sniper.scopeTransition,
               sniper.sparrowShot, sniper.bloodEffect, glows.reviving, glows.glow, glows.heavenlyGlow,
               glows.heavenlyFading, audio.Value(), glows.church, screen.cameraReady, view.camera,
               view.maxDistance, view.openedUrls, session.escapeShot)
    }

    constructor ()
      ensures State() == Initial
    {
      screen := Screen(Intro, false, false, false);
      session := Session(None, false, Crab(0, []), false);
      sniper := Sniper(false, false, false, false);
      glows := Glows(false, 0.0, false, false, NoChurch);
      view := View(Tween(IntroStart, 0.0), 40.0, false, []);
      audio := new AudioDeck();
    }

    /** `handleEnter`: the intro screen gives way to the loader. */
    method Enter()
      modifies this
      ensures State() == old(State()).(phase := Loading)
    {
      screen := screen.(phase := Loading);
    }

    /** The canvas's `onCreated`: camera and controls are available. */
    method CanvasCreated()
      modifies this
      ensures State() == old(State()).(cameraReady := true)
    {
      screen := screen.(cameraReady := true);
    }

    /** The loader's completion: the audio intro starts. */
    method ModelsLoaded()
      modifies this
      ensures State() == old(State()).(phase := AudioIntro(false))
    {
      screen := screen.(phase := AudioIntro(false));
    }

    /** The audio intro's end: fade out, and show the scene 1.5 s later. */
    method IntroAudioEnded() returns (timers: seq<Step>)
      modifies this
      ensures State() == old(State()).(phase := AudioIntro(true))
      ensures timers == [Step(1500, ShowScene)]
    {
      screen := screen.(phase := AudioIntro(true));
      timers := [Step(1500, ShowScene)];
    }

    /** `handlePoiClick(poi, {scopeMode})`. */
    method HandlePoiClick(poi: Poi, scopeMode: bool, tan: real -> real) returns (timers: seq<Step>)
      modifies this, audio
      ensures State() == PoiClick(old(State()), poi, scopeMode, tan).state
      ensures timers == PoiClick(old(State()), poi, scopeMode, tan).timers
    {
      if session.selected.Some? && session.selected.value.id == poi.id {
        session := session.(selected := Some(poi));
        timers := [];
      } else {
        timers := FreshSelection(poi, scopeMode, tan);
      }
    }

    method FreshSelection(poi: Poi, scopeMode: bool, tan: real -> real) returns (timers: seq<Step>)
      modifies this, audio
      ensures State() == FreshPick(old(State()), poi, scopeMode, tan).state
      ensures timers == FreshPick(old(State()), poi, scopeMode, tan).timers
    {
      ResetSession(poi);
      timers := [];
      if poi.id == SparrowId && scopeMode {
        timers := [Step(1000, ScopeOn)];
      }
      if screen.cameraReady {
        FocusCamera(poi, scopeMode, tan);
        timers := timers + [Step(FocusDoneDelay(scopeMode), FocusDone)];
      }
    }

    /** The state changes of a fresh pick: stop the character clip, reset
        the crab effect, select and focus. */
    method ResetSession(poi: Poi)
      modifies this, audio
      ensures State() == old(State()).(deck := Stopped(old(State()).deck, !old(sniper.sparrowShot)), crab := Crab(0, []),
                                       selected := Some(poi), focused := true, escapeShot := old(sniper.sparrowShot))
    {
      audio.Stop(!sniper.sparrowShot);
      session := Session(Some(poi), true, Crab(0, []), sniper.sparrowShot);
    }

    /** The camera and target start moving to the POI. */
    method FocusCamera(poi: Poi, scopeMode: bool, tan: real -> real)
      modifies this
      ensures State() == old(State()).(camera := FocusTween(poi, scopeMode, tan))
    {
      view := view.(camera := FocusTween(poi, scopeMode, tan));
    }

    /** `handleCloseInfo` as of a render whose `sparrowShot` was `shot`. */
    method CloseInfo(shot: bool)
      modifies this, audio
      ensures State() == CloseSeeing(old(State()), shot).state
    {
      if screen.cameraReady {
        ClearPanel(shot);
        ReturnToOverview();
      } else {
        ClearPanel(shot);
      }
    }

    /** The selection, the crab effect, the character clip, the scope, the
        heavenly glow and the church clip go; the keydown listener is
        re-registered when there was a selection. */
    method ClearPanel(shot: bool)
      modifies this, audio
      ensures var s := old(State());
        State() == s.(selected := None, focused := false, crab := Crab(0, []), deck := Stopped(s.deck, !shot),
                      showScope := false, heavenlyGlow := false, church := NoChurch,
                      escapeShot := if s.selected.Some? then s.sparrowShot else s.escapeShot)
    {
      var listener := if session.selected.Some? then sniper.sparrowShot else session.escapeShot;
      session := Session(None, false, Crab(0, []), listener);
      audio.Stop(!shot);
      HideEffects();
    }

    /** The scope, the heavenly glow and the church clip go. */
    method HideEffects()
      modifies this
      ensures State() == old(State()).(showScope := false, heavenlyGlow := false, church := NoChurch)
    {
      sniper := sniper.(showScope := false);
      glows := glows.(heavenlyGlow := false, church := NoChurch);
    }

    /** The zoom limit is restored and the camera flies back to the overview. */
    method ReturnToOverview()
      modifies this
      ensures State() == old(State()).(maxDistance := 40.0, camera := Tween(Overview, 1.5))
    {
      view := view.(maxDistance := 40.0, camera := Tween(Overview, 1.5));
    }

    /** The close button. */
    method CloseButton()
      modifies this, audio
      ensures State() == Close(old(State())).state
    {
      CloseInfo(sniper.sparrowShot);
    }

    /** The keydown listener: Escape closes an open panel. */
    method KeyDown(key: string)
      modifies this, audio
      ensures State() == PressKey(old(State()), key).state
    {
      if key == "Escape" && session.selected.Some? {
        CloseInfo(sniper.sparrowShot);
      }
    }

    /** `handleCrabClick` with the random draws of this click. */
    method HandleCrabClick(d: CrabDraw)
      modifies this
      ensures State() == old(State()).(crab := CrabClicked(old(State()).crab, CrabImageFrom(d)))
    {
      var newCount := session.crab.count + 1;
      var images := session.crab.images;
      if newCount >= 5 {
        images := images + [CrabImageFrom(d)];
      }
      session := session.(crab := Crab(newCount, images));
    }

    /** `playCharacterAudio(src)`. */
    method PlayCharacterAudio(src: string)
      modifies audio
      ensures State() == old(State()).(deck := Played(old(State()).deck, src))
    {
      audio.Play(src);
    }

    /** `stopCharacterAudio`. */
    method StopCharacterAudio()
      modifies audio
      ensures State() == old(State()).(deck := Stopped(old(State()).deck, !sniper.sparrowShot))
    {
      audio.Stop(!sniper.sparrowShot);
    }

    /** The character clip's `onended`. */
    method CharacterAudioEnded()
      modifies audio
      ensures State() == old(State()).(deck := Finished(old(State()).deck))
    {
      audio.Finish();
    }

    /** `handleJesusClick`, with the birds kept paused under the church clip. */
    method HandleJesusClick()
      modifies this, audio
      ensures State() == JesusClickFixed(old(State()))
    {
      SilenceForChurch();
      StartChurch();
    }

    /** The birds pause and the character clip stops without resuming them. */
    method SilenceForChurch()
      modifies audio
      ensures State() == old(State()).(deck := Stopped(Deck(old(State()).deck.character, PausedBirds(old(State()).deck.birds)), false))
    {
      audio.PauseBirds();
      audio.Stop(false);
    }

    /** The church clip starts, its `onended` capturing the current shot flag. */
    method StartChurch()
      modifies this
      ensures State() == old(State()).(church := ChurchPlaying(old(sniper.sparrowShot)), heavenlyGlow := true)
    {
      glows := glows.(church := ChurchPlaying(sniper.sparrowShot), heavenlyGlow := true);
    }

    /** The church clip's `onended`. */
    method ChurchAudioEnded() returns (timers: seq<Step>)
      modifies this, audio
      ensures State() == ChurchFinished(old(State())).state
      ensures timers == ChurchFinished(old(State())).timers
    {
      timers := [];
      if glows.church.ChurchPlaying? {
        var shot := glows.church.shotAtClick;
        FadeHeavenly();
        timers := [Step(2000, HeavenlyOff)];
        if !shot {
          audio.ResumeBirds();
        }
      }
    }

    /** The heavenly glow starts fading and the church clip is over. */
    method FadeHeavenly()
      modifies this
      ensures State() == old(State()).(heavenlyFading := true, church := ChurchOver)
    {
      glows := glows.(heavenlyFading := true, church := ChurchOver);
    }

    /** `handleExternalUrl(url)`. */
    method HandleExternalUrl(url: string) returns (timers: seq<Step>)
      modifies this
      ensures State() == ExternalUrlOutcome(old(State()), url).state
      ensures timers == ExternalUrlOutcome(old(State()), url).timers
    {
      timers := [];
      if screen.cameraReady {
        LaunchCamera();
        timers := [Step(2000, FlashOn), Step(2800, OpenUrl(url)), Step(3300, FlashOffReset)];
      }
    }

    /** The camera shoots up to the launch pose with the zoom limit lifted. */
    method LaunchCamera()
      modifies this
      ensures State() == old(State()).(maxDistance := 3000.0, camera := Tween(Launch, 2.0))
    {
      view := view.(maxDistance := 3000.0, camera := Tween(Launch, 2.0));
    }

    /** The snow toggle. */
    method ToggleSnow()
      modifies this
      ensures State() == old(State()).(snowActive := !old(screen.snowActive))
    {
      screen := screen.(snowActive := !screen.snowActive);
    }

    /** The Shoot button: the birds stop and the shot sequence starts. */
    method Shoot() returns (timers: seq<Step>)
      modifies audio
      ensures State() == old(State()).(deck := old(State()).deck.(birds := PausedBirds(old(audio.birds))))
      ensures timers == ShootTimeline()
    {
      audio.PauseBirds();
      timers := [Step(200, BloodOn), Step(1300, BloodOff), Step(500, ShotOn), Step(1500, ScopeOff)];
    }

    /** The kill/revive button. */
    method KillOrRevive(pois: seq<Poi>, tan: real -> real) returns (timers: seq<Step>)
      modifies this, audio
      ensures State() == KillOrReviveOutcome(old(State()), pois, tan).state
      ensures timers == KillOrReviveOutcome(old(State()), pois, tan).timers
    {
      var sparrow := FindById(pois, SparrowId);
      if sniper.sparrowShot {
        timers := Revive(sparrow, tan);
      } else {
        timers := Kill(sparrow, tan);
      }
    }

    /** Revive: re-pick the sparrow prince, then glow down over 6 s. */
    method Revive(sparrow: Option<Poi>, tan: real -> real) returns (timers: seq<Step>)
      modifies this, audio
      ensures var pick := if sparrow.Some? then PoiClick(old(State()), sparrow.value, false, tan)
                          else Outcome(old(State()), []);
        && State() == pick.state.(reviving := true, glow := 4.0)
        && timers == pick.timers + [Step(500, ShotOff)] + GlowTimeline() + [Step(1000, ResumeBirds)]
    {
      var pick: seq<Step> := [];
      if sparrow.Some? {
        pick := HandlePoiClick(sparrow.value, false, tan);
      }
      StartGlow();
      var ramp := GlowRampTimers();
      timers := pick + [Step(500, ShotOff)] + ramp + [Step(1000, ResumeBirds)];
    }

    /** The revive glow starts at full strength. */
    method StartGlow()
      modifies this
      ensures State() == old(State()).(reviving := true, glow := 4.0)
    {
      glows := glows.(reviving := true, glow := 4.0);
    }

    /** Kill: enter the scope transition and pick the sparrow prince in
        scope mode (or just raise the scope when it is already selected). */
    method Kill(sparrow: Option<Poi>, tan: real -> real) returns (timers: seq<Step>)
      modifies this, audio
      ensures var s0 := old(State()).(scopeTransition := true);
        var pick := if IsSelected(old(State()), SparrowId) then Outcome(s0, [Step(1000, ScopeOn)])
                    else if sparrow.Some? then PoiClick(s0, sparrow.value, true, tan)
                    else Outcome(s0, []);
        && State() == pick.state
        && timers == pick.timers + [Step(1500, ScopeTransitionOff)]
    {
      var wasSelected := session.selected.Some? && session.selected.value.id == SparrowId;
      StartScopeTransition();
      var pick: seq<Step> := [];
      if wasSelected {
        pick := [Step(1000, ScopeOn)];
      } else if sparrow.Some? {
        pick := HandlePoiClick(sparrow.value, true, tan);
      }
      timers := pick + [Step(1500, ScopeTransitionOff)];
    }

    method StartScopeTransition()
      modifies this
      ensures State() == old(State()).(scopeTransition := true)
    {
      sniper := sniper.(scopeTransition := true);
    }

    // ----- timer callbacks -----

    /** The scene reveal: birds start, and the intro descent is scheduled. */
    method FireShowScene() returns (timers: seq<Step>)
      modifies this, audio
      ensures State() == Fire(old(State()), ShowScene).state
      ensures timers == Fire(old(State()), ShowScene).timers
    {
      ShowSceneScreen();
      timers := [];
      if screen.cameraReady {
        view := view.(camera := Tween(IntroStart, 0.0));
        timers := [Step(1500, BeginDescent), Step(6000, CompleteIntro)];
      }
    }

    /** The scene is shown and the birds start. */
    method ShowSceneScreen()
      modifies this, audio
      ensures State() == old(State()).(phase := Scene, deck := old(State()).deck.(birds := BirdsPlaying))
    {
      screen := screen.(phase := Scene);
      audio.StartBirds();
    }

    method FireBeginDescent()
      modifies this
      ensures State() == Fire(old(State()), BeginDescent).state
    {
      view := view.(camera := Tween(Overview, 4.5));
    }

    method FireCompleteIntro()
      modifies this
      ensures State() == Fire(old(State()), CompleteIntro).state
    {
      screen := screen.(introComplete := true);
    }

    method FireFocusDone()
      modifies this
      ensures State() == Fire(old(State()), FocusDone).state
    {
      view := view.(maxDistance := 15.0);
    }

    method FireScopeOn()
      modifies this
      ensures State() == Fire(old(State()), ScopeOn).state
    {
      sniper := sniper.(showScope := true);
    }

    method FireScopeOff()
      modifies this
      ensures State() == Fire(old(State()), ScopeOff).state
    {
      sniper := sniper.(showScope := false);
    }

    method FireScopeTransitionOff()
      modifies this
      ensures State() == Fire(old(State()), ScopeTransitionOff).state
    {
      sniper := sniper.(scopeTransition := false);
    }

    method FireBloodOn()
      modifies this
      ensures State() == Fire(old(State()), BloodOn).state
    {
      sniper := sniper.(bloodEffect := true);
    }

    method FireBloodOff()
      modifies this
      ensures State() == Fire(old(State()), BloodOff).state
    {
      sniper := sniper.(bloodEffect := false);
    }

    method FireShotOn()
      modifies this
      ensures State() == Fire(old(State()), ShotOn).state
    {
      sniper := sniper.(sparrowShot := true);
    }

    method FireShotOff()
      modifies this
      ensures State() == Fire(old(State()), ShotOff).state
    {
      sniper := sniper.(sparrowShot := false);
    }

    method FireGlow(level: real)
      modifies this
      ensures State() == Fire(old(State()), Glow(level)).state
    {
      glows := glows.(glow := level);
    }

    method FireReviveDone()
      modifies this
      ensures State() == Fire(old(State()), ReviveDone).state
    {
      glows := glows.(reviving := false, glow := 0.0);
    }

    method FireResumeBirds()
      modifies audio
      ensures State() == Fire(old(State()), ResumeBirds).state
    {
      audio.ResumeBirds();
    }

    method FireFlashOn()
      modifies this
      ensures State() == Fire(old(State()), FlashOn).state
    {
      view := view.(teleportFlash := true);
    }

    method FireOpenUrl(url: string)
      modifies this
      ensures State() == Fire(old(State()), OpenUrl(url)).state
    {
      view := view.(openedUrls := view.openedUrls + [url]);
    }

    method FireFlashOffReset()
      modifies this
      ensures State() == Fire(old(State()), FlashOffReset).state
    {
      view := view.(teleportFlash := false, camera := Tween(Overview, 0.0), maxDistance := 40.0);
    }

    method FireHeavenlyOff()
      modifies this
      ensures State() == Fire(old(State()), HeavenlyOff).state
    {
      glows := glows.(heavenlyGlow := false, heavenlyFading := false);
    }
  }

  /** `SceneLights`: the light intensity eases toward its target each frame. */
  class SceneLights {
    var current: real

    constructor ()
      ensures current == 1.2
    {
      current := 1.2;
    }

    method Frame(dimmed: bool, delta: real)
      modifies this
      ensures current == LightStep(old(current), dimmed, delta)
      ensures delta >= 0.0 && 0.3 <= old(current) <= 1.2 ==> 0.3 <= current <= 1.2
    {
      var target := if dimmed then 0.3 else 1.2;
      var speed := 2.0;
      if current < target {
        current := Min(current + delta * speed, target);
      } else if current > target {
        current := Max(current - delta * speed, target);
      }
    }
  }
}
