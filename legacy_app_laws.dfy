/** What the older app's handlers promise, stated over LegacyAppSpec. */
module LegacyAppLaws {
  import opened Common
  import opened Narration
  import opened FocusPose
  import opened LegacyAppSpec
  import InfoPanel

  // ----- selection session -----

  /** Picking the POI that is already selected only replaces the record. */
  lemma ReselectKeepsSession(s: LegacyState, p: Poi, tan: real -> real)
    requires IsSelected(s, p.id)
    ensures var r := PoiClick(s, p, tan);
      && r == s.(selected := Some(p))
      && r.crab == s.crab && r.deck == s.deck && r.focused == s.focused && r.camera == s.camera
  {
  }

  /** Picking another POI stops the character clip and always brings the
      birds back, resets the crab effect, selects and focuses, and (with a
      camera) starts the 1.5 s focus move. */
  lemma NewSelectionResets(s: LegacyState, p: Poi, tan: real -> real)
    requires !IsSelected(s, p.id)
    ensures var r := PoiClick(s, p, tan);
      && r.selected == Some(p) && r.focused
      && r.crab == Crab(0, [])
      && r.deck == Deck(None, ResumedBirds(s.deck.birds))
      && (s.cameraReady ==> r.camera == Tween(Focus(p, tan), 1.5))
      && (!s.cameraReady ==> r.camera == s.camera)
      && r.phase == s.phase && r.snowActive == s.snowActive
  {
  }

  /** Scene clicks are never switched off in the scene (no intro latch, no
      scope), but the loading and audio-intro screens cover the canvas
      before it; list picks work exactly while the scene shows. */
  lemma PicksUngated(s: LegacyState, p: Poi, tan: real -> real)
    ensures Handle(s, ScenePick(p), tan) == (if s.phase == Scene then Outcome(PoiClick(s, p, tan), []) else Outcome(s, []))
    ensures Handle(s, ListPick(p), tan) == (if s.phase == Scene then Outcome(PoiClick(s, p, tan), []) else Outcome(s, []))
  {
  }

  // ----- close and Escape -----

  /** Close ends the session: no selection, no focus, no crab images, the
      character clip gone with the birds back, and (with a camera) the 1.5 s
      move back to the overview. */
  lemma CloseResets(s: LegacyState)
    ensures var r := Close(s);
      && r.selected.None? && !r.focused
      && r.crab == Crab(0, [])
      && r.deck == Deck(None, ResumedBirds(s.deck.birds))
      && (s.cameraReady ==> r.camera == Tween(Overview, 1.5))
      && (!s.cameraReady ==> r.camera == s.camera)
      && r.phase == s.phase && r.cameraReady == s.cameraReady
  {
  }

  /** Closing twice is closing once. */
  lemma CloseIdempotent(s: LegacyState)
    ensures Close(Close(s)) == Close(s)
  {
    var d := Stopped(s.deck, true);
    assert Stopped(d, true) == d;
  }

  /** Escape changes the state exactly when a POI is selected, and then it is
      the close button's close. */
  lemma EscapeClosesIffSelected(s: LegacyState, key: string)
    ensures PressKey(s, key) != s <==> key == "Escape" && s.selected.Some?
    ensures key == "Escape" && s.selected.Some? ==> PressKey(s, key) == Close(s)
  {
  }

  // ----- audio -----

  /** Every close and every fresh pick stops the character clip with
      `stopCharacterAudio`, which always brings the birds back when there
      are birds; the newer app keeps them silent after the shot. */
  lemma StopAlwaysResumes(s: LegacyState, p: Poi, tan: real -> real)
    requires s.phase == Scene && s.selected.Some?
    ensures var r := Handle(s, CloseInfo, tan).state;
      && r.deck == Stopped(s.deck, true)
      && r.deck.character.None?
      && (r.deck.birds == BirdsPlaying <==> s.deck.birds != NoBirds)
    ensures !IsSelected(s, p.id) ==> Handle(s, ScenePick(p), tan).state.deck == Stopped(s.deck, true)
  {
  }

  // ----- crab effect -----

  /** Clicks on the pictures `paths`, with the crab draws `ds`. */
  function CrabEvents(paths: seq<string>, ds: seq<CrabDraw>): (es: seq<Event>)
    requires |paths| == |ds|
    ensures |es| == |ds|
    ensures forall i :: 0 <= i < |ds| ==> es[i] == PictureClick(paths[i], ds[i])
  {
    seq(|ds|, i requires 0 <= i < |ds| => PictureClick(paths[i], ds[i]))
  }

  /** Whether every path is a picture of the panel of `p`. */
  predicate PicturesOf(p: Poi, paths: seq<string>) {
    forall i :: 0 <= i < |paths| ==> paths[i] in InfoPanel.GetImages(p.image)
  }

  function CrabImages(ds: seq<CrabDraw>): (imgs: seq<CrabImage>)
    ensures |imgs| == |ds|
    ensures forall i :: 0 <= i < |ds| ==> imgs[i] == CrabImageFrom(ds[i])
  {
    seq(|ds|, i requires 0 <= i < |ds| => CrabImageFrom(ds[i]))
  }

  /** The state after clicking the pictures `paths` in turn. */
  function PictureClicks(s: LegacyState, paths: seq<string>, ds: seq<CrabDraw>): (r: LegacyState)
    requires s.selected.Some? && |paths| == |ds|
    ensures r == s.(crab := r.crab, deck := r.deck)
    decreases |ds|
  {
    if |ds| == 0 then s else PictureClicks(PictureClicked(s, paths[0], ds[0]), paths[1..], ds[1..])
  }

  /** One click on a picture the open panel shows. */
  lemma PictureStep(s: LegacyState, path: string, d: CrabDraw, tan: real -> real)
    requires s.phase == Scene && s.selected.Some? && path in InfoPanel.GetImages(s.selected.value.image)
    ensures Handle(s, PictureClick(path, d), tan) == Outcome(PictureClicked(s, path, d), [])
  {
    assert Available(s, PictureClick(path, d));
  }

  /** Clicking pictures of the open panel is the fold of `PictureClicked`. */
  lemma {:induction false} PictureRunHandled(s: LegacyState, paths: seq<string>, ds: seq<CrabDraw>, tan: real -> real)
    requires s.phase == Scene && s.selected.Some? && |paths| == |ds| && PicturesOf(s.selected.value, paths)
    ensures HandleAll(s, CrabEvents(paths, ds), tan) == PictureClicks(s, paths, ds)
    decreases |ds|
  {
    var es := CrabEvents(paths, ds);
    if |ds| > 0 {
      PictureStep(s, paths[0], ds[0], tan);
      var s1 := PictureClicked(s, paths[0], ds[0]);
      assert es[1..] == CrabEvents(paths[1..], ds[1..]);
      assert PicturesOf(s1.selected.value, paths[1..]) by {
        forall i | 0 <= i < |paths[1..]| ensures paths[1..][i] in InfoPanel.GetImages(s1.selected.value.image) {
          assert paths[1..][i] == paths[i + 1];
        }
      }
      PictureRunHandled(s1, paths[1..], ds[1..], tan);
    }
  }

  /** On a crab POI every picture click is one crab click. */
  lemma {:induction false} PictureClicksCount(s: LegacyState, paths: seq<string>, ds: seq<CrabDraw>)
    requires s.selected.Some? && InfoPanel.IsCrabPoi(s.selected.value) && |paths| == |ds|
    ensures PictureClicks(s, paths, ds).crab == CrabClicks(s.crab, CrabImages(ds))
    decreases |ds|
  {
    if |ds| > 0 {
      var s1 := PictureClicked(s, paths[0], ds[0]);
      assert CrabImages(ds)[1..] == CrabImages(ds[1..]);
      PictureClicksCount(s1, paths[1..], ds[1..]);
    }
  }

  /** Picture clicks on the open panel of a crab POI drive the crab counter
      of Common; besides the counter only the audio slot changes. */
  lemma CrabEventsCount(s: LegacyState, paths: seq<string>, ds: seq<CrabDraw>, tan: real -> real)
    requires s.phase == Scene && s.selected.Some? && InfoPanel.IsCrabPoi(s.selected.value)
    requires |paths| == |ds| && PicturesOf(s.selected.value, paths)
    ensures var r := HandleAll(s, CrabEvents(paths, ds), tan);
      r == s.(crab := CrabClicks(s.crab, CrabImages(ds)), deck := r.deck)
  {
    PictureRunHandled(s, paths, ds, tan);
    PictureClicksCount(s, paths, ds);
  }

  /** Picture clicks on the panel of any other POI never touch the crab
      effect: the older panel reports crab clicks only on crab POIs. */
  lemma {:induction false} NoCrabElsewhere(s: LegacyState, paths: seq<string>, ds: seq<CrabDraw>, tan: real -> real)
    requires s.selected.Some? && !InfoPanel.IsCrabPoi(s.selected.value) && |paths| == |ds|
    ensures HandleAll(s, CrabEvents(paths, ds), tan).crab == s.crab
    decreases |ds|
  {
    if |ds| > 0 {
      var s1 := Handle(s, PictureClick(paths[0], ds[0]), tan).state;
      assert s1.crab == s.crab && s1.selected == s.selected;
      assert CrabEvents(paths, ds)[1..] == CrabEvents(paths[1..], ds[1..]);
      NoCrabElsewhere(s1, paths[1..], ds[1..], tan);
    }
  }

  /** After n crab clicks since the selection, the count is n and there are
      max(0, n - 4) images, those of the fifth click on. */
  lemma CrabAfterSelection(s: LegacyState, paths: seq<string>, ds: seq<CrabDraw>, tan: real -> real)
    requires s.phase == Scene && s.selected.Some? && InfoPanel.IsCrabPoi(s.selected.value) && s.crab == Crab(0, [])
    requires |paths| == |ds| && PicturesOf(s.selected.value, paths)
    ensures var c := HandleAll(s, CrabEvents(paths, ds), tan).crab;
      && c.count == |ds|
      && c.images == (if |ds| >= 4 then CrabImages(ds)[4..] else [])
      && |c.images| == (if |ds| >= 4 then |ds| - 4 else 0)
  {
    CrabEventsCount(s, paths, ds, tan);
    CrabClicksFromReset(CrabImages(ds));
  }

  // ----- the state invariant -----

  lemma InitialConsistent()
    ensures Consistent(Initial)
  {
  }

  /** Every event keeps the state consistent. */
  lemma HandleKeepsConsistent(s: LegacyState, e: Event, tan: real -> real)
    requires Consistent(s)
    ensures Consistent(Handle(s, e, tan).state)
  {
    if e.PictureClick? {
      CrabClickedConsistent(s.crab, CrabImageFrom(e.draw));
    }
  }

  lemma FireKeepsConsistent(s: LegacyState, a: Action)
    requires Consistent(s)
    ensures Consistent(Fire(s, a).state)
  {
  }

  /** Any sequence of events keeps the state consistent. */
  lemma {:induction false} HandleAllKeepsConsistent(s: LegacyState, es: seq<Event>, tan: real -> real)
    requires Consistent(s)
    ensures Consistent(HandleAll(s, es, tan))
    decreases |es|
  {
    if |es| > 0 {
      HandleKeepsConsistent(s, es[0], tan);
      HandleAllKeepsConsistent(Handle(s, es[0], tan).state, es[1..], tan);
    }
  }

  // ----- start-up -----

  /** Enter, the canvas, the loader and the end of the intro audio lead to the
      reveal 1.5 s later, which starts the birds, puts the camera at the
      intro pose and schedules the descent; the descent ends at the overview. */
  lemma StartupToOverview(tan: real -> real)
    ensures var s := HandleAll(Initial, [Enter, CanvasCreated, ModelsLoaded, IntroAudioEnded], tan);
      && s == Initial.(phase := AudioIntro(true), cameraReady := true)
      && Handle(HandleAll(Initial, [Enter, CanvasCreated, ModelsLoaded], tan), IntroAudioEnded, tan).timers
           == [Step(1500, ShowScene)]
      && var r := Fire(s, ShowScene);
      && r.state == s.(phase := Scene, deck := Deck(None, BirdsPlaying), camera := Tween(IntroStart, 0.0))
      && r.timers == [Step(1500, BeginDescent)]
      && Fire(r.state, BeginDescent).state.camera == Tween(Overview, 4.5)
  {
    var es := [Enter, CanvasCreated, ModelsLoaded, IntroAudioEnded];
    var s1 := Initial.(phase := Loading);
    var s2 := s1.(cameraReady := true);
    var s3 := s2.(phase := AudioIntro(false));
    assert HandleAll(Initial, es, tan) == HandleAll(s1, es[1..], tan);
    assert es[1..][1..] == [ModelsLoaded, IntroAudioEnded];
    assert HandleAll(s1, es[1..], tan) == HandleAll(s2, [ModelsLoaded, IntroAudioEnded], tan);
    assert HandleAll(s2, [ModelsLoaded, IntroAudioEnded], tan) == HandleAll(s3, [IntroAudioEnded], tan);
    var pre := [Enter, CanvasCreated, ModelsLoaded];
    assert HandleAll(Initial, pre, tan) == HandleAll(s1, pre[1..], tan);
    assert pre[1..][1..] == [ModelsLoaded];
    assert HandleAll(s1, pre[1..], tan) == HandleAll(s2, [ModelsLoaded], tan);
    assert HandleAll(s2, [ModelsLoaded], tan) == HandleAll(s3, [], tan);
  }
}
