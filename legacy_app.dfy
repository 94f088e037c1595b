/** The older app's component (src/App.jsx) as an object whose handlers
    update it in place; each handler is proved to do what LegacyAppSpec says. */
module LegacyApp {
  import opened Common
  import opened Narration
  import opened FocusPose
  import opened LegacyAppSpec

  class App {
    var phase: Phase
    var selected: Option<Poi>
    var focused: bool
    var crabCount: nat
    var crabImages: seq<CrabImage>
    var snowActive: bool
    var cameraReady: bool
    var camera: Tween
    /** `characterAudioRef` and `birdsAudioRef`. */
    const audio: AudioDeck

    function State(): LegacyState
      reads this, audio
    {
      LegacyState(phase, selected, focused, Crab(crabCount, crabImages), snowActive, audio.Value(),
                  cameraReady, camera)
    }

    constructor ()
      ensures State() == Initial
    {
      phase, selected, focused := Intro, None, false;
      crabCount, crabImages, snowActive := 0, [], false;
      cameraReady, camera := false, Tween(IntroStart, 0.0);
      audio := new AudioDeck();
    }

    /** `handleEnter`. */
    method Enter()
      modifies this
      ensures State() == old(State()).(phase := Loading)
    {
      phase := Loading;
    }

    /** The canvas's `onCreated` together with the controls' ref. */
    method CanvasCreated()
      modifies this
      ensures State() == old(State()).(cameraReady := true)
    {
      cameraReady := true;
    }

    /** `handleModelsLoaded`: the audio intro starts. */
    method ModelsLoaded()
      modifies this
      ensures State() == old(State()).(phase := AudioIntro(false))
    {
      phase := AudioIntro(false);
    }

    /** The intro audio's `ended`: fade out and reveal the scene 1.5 s later. */
    method IntroAudioEnded() returns (timers: seq<Step>)
      modifies this
      ensures State() == old(State()).(phase := AudioIntro(true))
      ensures timers == [Step(1500, ShowScene)]
    {
      phase := AudioIntro(true);
      timers := [Step(1500, ShowScene)];
    }

    /** `handlePoiClick(poi)`. */
    method HandlePoiClick(poi: Poi, tan: real -> real)
      modifies this, audio
      ensures State() == PoiClick(old(State()), poi, tan)
    {
      if selected.Some? && selected.value.id == poi.id {
        selected := Some(poi);
        return;
      }
      StopCharacterAudio();
      crabImages := [];
      crabCount := 0;
      selected := Some(poi);
      focused := true;
      if cameraReady {
        camera := LegacyFocusTween(poi, tan);
      }
    }

    /** `handleCloseInfo`. */
    method CloseInfo()
      modifies this, audio
      ensures State() == Close(old(State()))
    {
      selected := None;
      focused := false;
      crabImages := [];
      crabCount := 0;
      StopCharacterAudio();
      if cameraReady {
        camera := Tween(Overview, 1.5);
      }
    }

    /** The keydown listener: Escape closes an open panel. */
    method KeyDown(key: string)
      modifies this, audio
      ensures State() == PressKey(old(State()), key)
    {
      if key == "Escape" && selected.Some? {
        CloseInfo();
      }
    }

    /** `handleCrabClick` with the random draws of this click. */
    method HandleCrabClick(d: CrabDraw)
      modifies this
      ensures State() == old(State()).(crab := CrabClicked(old(State()).crab, CrabImageFrom(d)))
    {
      var newCount := crabCount + 1;
      crabCount := newCount;
      if newCount >= 5 {
        crabImages := crabImages + [CrabImageFrom(d)];
      }
    }

    /** `playCharacterAudio(src)`. */
    method PlayCharacterAudio(src: string)
      modifies audio
      ensures State() == old(State()).(deck := Played(old(State()).deck, src))
    {
      audio.Play(src);
    }

    /** `stopCharacterAudio`: the birds always come back. */
    method StopCharacterAudio()
      modifies audio
      ensures State() == old(State()).(deck := Stopped(old(State()).deck, true))
    {
      audio.Stop(true);
    }

    /** The character clip's `onended`. */
    method CharacterAudioEnded()
      modifies audio
      ensures State() == old(State()).(deck := Finished(old(State()).deck))
    {
      audio.Finish();
    }

    /** The snow toggle. */
    method ToggleSnow()
      modifies this
      ensures State() == old(State()).(snowActive := !old(snowActive))
    {
      snowActive := !snowActive;
    }

    // ----- timer callbacks -----

    /** The reveal: a fresh birds track plays; with a camera it is put at
        the intro pose and the descent is scheduled. */
    method FireShowScene() returns (timers: seq<Step>)
      modifies this, audio
      ensures State() == Fire(old(State()), ShowScene).state
      ensures timers == Fire(old(State()), ShowScene).timers
    {
      phase := Scene;
      audio.StartBirds();
      timers := [];
      if cameraReady {
        camera := Tween(IntroStart, 0.0);
        timers := [Step(1500, BeginDescent)];
      }
    }

    /** The descent to the overview. */
    method FireBeginDescent()
      modifies this
      ensures State() == Fire(old(State()), BeginDescent).state
    {
      camera := Tween(Overview, 4.5);
    }
  }
}
