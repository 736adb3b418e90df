/**
 * Client code for the two players the page creates, showing what callers
 * can conclude from the AudioPlayer contracts alone.
 */
module Scenarios {
  import opened Format
  import opened Playlist
  import opened Player

  const FirstAlbum: seq<Track> := [
    Track("забита голова", "audio/забита голова.mp3", "2:16"),
    Track("три в ряд", "audio/три в ряд.mp3", "1:53"),
    Track("с нами дома", "audio/с нами дома.mp3", "2:04")
  ]

  const SecondAlbum: seq<Track> := [
    Track("болеть тобой", "audio/болетьтобой.mp3", "2:03"),
    Track("не выкупаю", "audio/не выкупаю.mp3", "1:56"),
    Track("забита голова", "audio/забита голова.mp3", "2:16")
  ]

  /** Two ended events on a three-track album reach the last track; a third wraps to the first. */
  method EndedWrapsAround(playSucceeded: bool) {
    var p := new AudioPlayer(FirstAlbum);
    p.OnEnded(playSucceeded);
    p.OnEnded(playSucceeded);
    assert p.currentTrackIndex == 2 && p.source == "audio/с нами дома.mp3";
    p.OnEnded(playSucceeded);
    assert p.currentTrackIndex == 0 && p.durationLabel == "2:16";
    assert !p.isPlaying;
  }

  /** As many ended events as there are tracks bring any player back to the track it was on. */
  method EndedFullCycle(p: AudioPlayer, playSucceeded: bool)
    requires p.Valid()
    modifies p, p.active
    ensures p.Valid()
    ensures p.currentTrackIndex == old(p.currentTrackIndex)
    ensures p.isPlaying == old(p.isPlaying)
  {
    var n := |p.tracks|;
    var start: nat := p.currentTrackIndex;
    var k := 0;
    while k < n
      invariant 0 <= k <= n
      invariant p.Valid() && p.isPlaying == old(p.isPlaying)
      invariant p.currentTrackIndex == NextSteps(start, n, k)
    {
      p.OnEnded(playSucceeded);
      k := k + 1;
    }
    NextFullCycle(start, n);
  }

  /** Playing and stepping one player leaves the other one as it was built. */
  method PlayersAreIndependent() {
    var a := new AudioPlayer(FirstAlbum);
    var b := new AudioPlayer(SecondAlbum);
    a.PlayTrack(true);
    a.NextTrack(false);
    assert a.isPlaying && a.currentTrackIndex == 1 && a.playGlyph == PauseGlyph;
    assert !b.isPlaying && b.currentTrackIndex == 0 && b.source == "audio/болетьтобой.mp3";
  }

  /** A playlist click starts playback; a failed request after it leaves the player paused. */
  method ClickThenToggle(clickSucceeded: bool) {
    var p := new AudioPlayer(SecondAlbum);
    p.OnPlaylistClick(2, clickSucceeded);
    assert p.currentTrackIndex == 2 && p.isPlaying == clickSucceeded;
    p.OnPlayButton(false);
    assert !p.isPlaying && p.playGlyph == PlayGlyph;
    p.LoadTrack(-1);
    p.LoadTrack(3);
    assert p.currentTrackIndex == 2 && p.active[..] == ActiveFlags(3, 2);
  }

  /** Once playing, a track whose restart fails still counts as playing. */
  method FailedRestartKeepsPlaying() {
    var p := new AudioPlayer(FirstAlbum);
    p.PlayTrack(true);
    p.PrevTrack(false);
    assert p.currentTrackIndex == 2 && p.isPlaying;
    p.OnMetadataLoaded(124);
    assert p.durationLabel == FormatTime(124);
    p.OnVolumeInput(3);
    assert p.volumeLabel == VolumeLabel(3);
    assert p.isPlaying && p.currentTrackIndex == 2;
  }
}
