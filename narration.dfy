/** The single "narrative audio" slot and the ambient birds track, shared by
    both app variants. Playback itself (HTMLAudioElement, autoplay rejection,
    `ended` timing) is I/O: a clip is its source and volume, and the birds
    track is absent (before the scene is shown), playing or paused. */
module Narration {
  import opened Common

  datatype Birds = NoBirds | BirdsPlaying | BirdsPaused

  datatype Clip = Clip(src: string, volume: real)

  /** `characterAudioRef.current` and `birdsAudioRef.current`. */
  datatype Deck = Deck(character: Option<Clip>, birds: Birds)

  /** `s.includes(sub)` */
  predicate Contains(s: string, sub: string) {
    exists i | 0 <= i <= |s| - |sub| :: OccursAt(s, sub, i)
  }

  predicate OccursAt(s: string, sub: string, i: int)
    requires 0 <= i <= |s| - |sub|
  {
    s[i..i + |sub|] == sub
  }

  /** Character clips play at 0.8 when the path mentions "chinpokomon", else 0.4. */
  function ClipVolume(src: string): real {
    if Contains(src, "chinpokomon") then 0.8 else 0.4
  }

  /** `stopBirdsAudio`: pauses the birds track if it exists. */
  function PausedBirds(b: Birds): (r: Birds)
    ensures r != BirdsPlaying
    ensures (r == NoBirds) == (b == NoBirds)
  {
    if b == NoBirds then NoBirds else BirdsPaused
  }

  /** `resumeBirdsAudio`: plays the birds track if it exists. */
  function ResumedBirds(b: Birds): (r: Birds)
    ensures r == BirdsPlaying <==> b != NoBirds
    ensures (r == NoBirds) == (b == NoBirds)
    ensures PausedBirds(r) == PausedBirds(b)
    ensures r != b ==> b == BirdsPaused
  {
    if b == NoBirds then NoBirds else BirdsPlaying
  }

  /** `playCharacterAudio(src)`: the previous clip is paused and dropped, the
      birds are paused, and the new clip fills the slot. */
  function Played(d: Deck, src: string): (r: Deck)
    ensures r.character == Some(Clip(src, ClipVolume(src)))
    ensures r.birds != BirdsPlaying
    ensures (r.birds == NoBirds) == (d.birds == NoBirds)
  {
    Deck(Some(Clip(src, ClipVolume(src))), PausedBirds(d.birds))
  }

  /** `stopCharacterAudio`: the slot is emptied; the birds resume only when
      `resume` holds (always in the older app, only while the sparrow prince
      is not shot in the newer one). */
  function Stopped(d: Deck, resume: bool): (r: Deck)
    ensures r.character.None?
    ensures resume ==> (r.birds == BirdsPlaying <==> d.birds != NoBirds)
    ensures !resume ==> r.birds == d.birds
  {
    Deck(None, if resume then ResumedBirds(d.birds) else d.birds)
  }

  /** The clip's `onended`: birds resume and the slot is emptied. Only the clip
      in the slot can end (a dropped clip was paused first). */
  function Finished(d: Deck): (r: Deck)
    ensures r.character.None?
    ensures d.character.Some? ==> r.birds == ResumedBirds(d.birds)
    ensures d.character.None? ==> r == d
    ensures d.character.Some? ==> r == Stopped(d, true)
    ensures r.birds == d.birds || r.birds == BirdsPlaying
  {
    if d.character.Some? then Deck(None, ResumedBirds(d.birds)) else d
  }

  /** The chinpokomon clip of the image table is one of the loud ones. */
  lemma ChinpokomonIsLoud()
    ensures ClipVolume("/audio/chinpokomon-made-with-Voicemod.mp3") == 0.8
  {
    var s := "/audio/chinpokomon-made-with-Voicemod.mp3";
    var head, tail := "/audio/", "-made-with-Voicemod.mp3";
    assert s == head + "chinpokomon" + tail;
    assert OccursAt(s, "chinpokomon", |head|);
  }

  /** A path without the letter 'c' can never be loud. */
  lemma QuietWithoutC(src: string)
    requires forall i :: 0 <= i < |src| ==> src[i] != 'c'
    ensures ClipVolume(src) == 0.4
  {
    forall i | 0 <= i <= |src| - |"chinpokomon"|
      ensures !OccursAt(src, "chinpokomon", i)
    {
      assert src[i..i + |"chinpokomon"|][0] == src[i];
    }
  }

  /** Starting a clip and then stopping it with resumption leaves the birds
      playing exactly when they existed, and the slot empty. */
  lemma PlayThenStop(d: Deck, src: string)
    ensures Stopped(Played(d, src), true) == Deck(None, ResumedBirds(d.birds))
    ensures Stopped(Played(d, src), false).birds == PausedBirds(d.birds)
  {
  }

  /** A second clip replaces the first: the slot holds only the latest. */
  lemma LatestClipWins(d: Deck, a: string, b: string)
    ensures Played(Played(d, a), b) == Played(d, b)
  {
  }

  /** The refs behind the slot, updated in place by the handlers. */
  class AudioDeck {
    var character: Option<Clip>
    var birds: Birds

    function Value(): Deck
      reads this
    {
      Deck(character, birds)
    }

    constructor ()
      ensures Value() == Deck(None, NoBirds)
    {
      character := None;
      birds := NoBirds;
    }

    /** The birds track is created, looped and started when the scene shows. */
    method StartBirds()
      modifies this
      ensures Value() == old(Value()).(birds := BirdsPlaying)
    {
      birds := BirdsPlaying;
    }

    method PauseBirds()
      modifies this
      ensures Value() == old(Value()).(birds := PausedBirds(old(birds)))
    {
      if birds != NoBirds {
        birds := BirdsPaused;
      }
    }

    method ResumeBirds()
      modifies this
      ensures Value() == old(Value()).(birds := ResumedBirds(old(birds)))
    {
      if birds != NoBirds {
        birds := BirdsPlaying;
      }
    }

    method Play(src: string)
      modifies this
      ensures Value() == Played(old(Value()), src)
    {
      if character.Some? {
        character := None;
      }
      PauseBirds();
      var volume := if Contains(src, "chinpokomon") then 0.8 else 0.4;
      character := Some(Clip(src, volume));
    }

    method Stop(resume: bool)
      modifies this
      ensures Value() == Stopped(old(Value()), resume)
    {
      if character.Some? {
        character := None;
      }
      if resume {
        ResumeBirds();
      }
    }

    method Finish()
      modifies this
      ensures Value() == Finished(old(Value()))
    {
      if character.Some? {
        ResumeBirds();
        character := None;
      }
    }
  }
}
