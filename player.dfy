/**
 * One AudioPlayer instance: the index of the loaded track, the play/pause
 * flag, and the read-outs the player writes into its own widget (audio
 * source, progress width, time labels, play button glyph, album cover
 * "playing" class, playlist "active" classes, volume label).
 *
 * The outcome of the media element's asynchronous play() request is the
 * argument playSucceeded of the operations that issue one, and its
 * continuation runs at once.
 */
module Player {
  import opened Format
  import opened Playlist

  const PlayGlyph: string := "▶"
  const PauseGlyph: string := "⏸"

  /** The play button shows pause while playing and play otherwise. */
  function GlyphFor(playing: bool): string {
    if playing then PauseGlyph else PlayGlyph
  }

  class AudioPlayer {
    /** The album's track list, fixed at construction. */
    const tracks: seq<Track>
    /** The "active" class of each playlist entry, one per track. */
    const active: array<bool>

    var currentTrackIndex: int
    var isPlaying: bool
    /** The src of the audio element. */
    var source: string
    /** The width style of the progress fill. */
    var progressWidth: string
    var currentTimeLabel: string
    var durationLabel: string
    var playGlyph: string
    /** Whether the album cover carries the "playing" class. */
    var coverPlaying: bool
    /** The volume slider's value, in tenths. */
    var volumeTenths: nat
    var volumeLabel: string

    /** What holds of every instance between operations, whatever is loaded. */
    ghost predicate Wellformed()
      reads this
    {
      && |tracks| > 0
      && active.Length == |tracks|
      && 0 <= currentTrackIndex < |tracks|
      && playGlyph == GlyphFor(isPlaying)
      && coverPlaying == isPlaying
      && volumeTenths <= 10
      && volumeLabel == VolumeLabel(volumeTenths)
    }

    /** The loaded source and the highlighted entry follow the current index. */
    ghost predicate Valid()
      reads this, active
    {
      && Wellformed()
      && source == tracks[currentTrackIndex].src
      && active[..] == ActiveFlags(|tracks|, currentTrackIndex)
    }

    /**
     * Builds the widget for the given tracks (createPlayer, createPlaylist,
     * loadTrack(0), setupEventListeners): track 0, paused, volume 0.7.
     */
    constructor (tracks: seq<Track>)
      requires |tracks| > 0
      ensures Valid() && fresh(active)
      ensures this.tracks == tracks
      ensures currentTrackIndex == 0 && !isPlaying
      ensures source == tracks[0].src
      ensures progressWidth == "0%" && currentTimeLabel == "0:00" && durationLabel == tracks[0].duration
      ensures playGlyph == PlayGlyph && !coverPlaying
      ensures volumeTenths == 7 && volumeLabel == "70%"
    {
      this.tracks := tracks;
      active := new bool[|tracks|];
      currentTrackIndex := 0;
      isPlaying := false;
      source := "";
      progressWidth := "";
      currentTimeLabel := "0:00";
      durationLabel := "0:00";
      playGlyph := PlayGlyph;
      coverPlaying := false;
      volumeTenths := 7;
      volumeLabel := VolumeLabel(7);
      new;
      UpdateActiveTrack(currentTrackIndex);
      LoadTrack(currentTrackIndex);
      VolumeLabelExamples();
    }

    /**
     * Clears "active" on every playlist entry, then sets it on entry index
     * when there is one.
     */
    method UpdateActiveTrack(index: int)
      modifies active
      ensures active[..] == ActiveFlags(active.Length, index)
    {
      var k := 0;
      while k < active.Length
        invariant 0 <= k <= active.Length
        invariant forall j :: 0 <= j < k ==> !active[j]
      {
        active[k] := false;
        k := k + 1;
      }
      if 0 <= index < active.Length {
        active[index] := true;
      }
    }

    /**
     * Loads track index and resets the read-outs; an index outside the
     * track list changes nothing. The play() it issues when a track was
     * playing has no effect on this state, whatever its outcome.
     */
    method LoadTrack(index: int)
      requires Wellformed()
      modifies this, active
      ensures Wellformed()
      ensures 0 <= index < |tracks| ==>
        && Valid()
        && currentTrackIndex == index
        && source == tracks[index].src
        && active[..] == ActiveFlags(|tracks|, index)
        && progressWidth == "0%"
        && currentTimeLabel == "0:00"
        && durationLabel == tracks[index].duration
        && isPlaying == old(isPlaying)
        && playGlyph == old(playGlyph)
        && coverPlaying == old(coverPlaying)
        && volumeTenths == old(volumeTenths)
        && volumeLabel == old(volumeLabel)
      ensures !(0 <= index < |tracks|) ==> unchanged(this, active)
    {
      if index < 0 || index >= |tracks| {
        return;
      }
      currentTrackIndex := index;
      var track := tracks[index];
      source := track.src;
      UpdateActiveTrack(index);
      progressWidth := "0%";
      currentTimeLabel := "0:00";
      durationLabel := track.duration;
    }

    /**
     * Requests playback; only a successful start sets isPlaying, the pause
     * glyph and the cover's "playing" class.
     */
    method PlayTrack(playSucceeded: bool)
      requires Valid()
      modifies this
      ensures Valid()
      ensures isPlaying == (old(isPlaying) || playSucceeded)
      ensures playSucceeded ==> isPlaying && playGlyph == PauseGlyph && coverPlaying
      ensures !playSucceeded ==> isPlaying == old(isPlaying) && playGlyph == old(playGlyph) && coverPlaying == old(coverPlaying)
      ensures currentTrackIndex == old(currentTrackIndex) && source == old(source)
      ensures progressWidth == old(progressWidth) && currentTimeLabel == old(currentTimeLabel)
      ensures durationLabel == old(durationLabel)
      ensures volumeTenths == old(volumeTenths) && volumeLabel == old(volumeLabel)
    {
      if playSucceeded {
        isPlaying := true;
        playGlyph := PauseGlyph;
        coverPlaying := true;
      }
    }

    /** Pauses: isPlaying false, the play glyph and no "playing" class, whatever the state was. */
    method PauseTrack()
      requires Valid()
      modifies this
      ensures Valid()
      ensures !isPlaying && playGlyph == PlayGlyph && !coverPlaying
      ensures currentTrackIndex == old(currentTrackIndex) && source == old(source)
      ensures progressWidth == old(progressWidth) && currentTimeLabel == old(currentTimeLabel)
      ensures durationLabel == old(durationLabel)
      ensures volumeTenths == old(volumeTenths) && volumeLabel == old(volumeLabel)
    {
      isPlaying := false;
      playGlyph := PlayGlyph;
      coverPlaying := false;
    }

    /**
     * Loads the following track, wrapping from the last to the first, and
     * asks for playback again when a track was playing. A failed request
     * leaves isPlaying as it was, so the play state never changes here.
     */
    method NextTrack(playSucceeded: bool)
      requires Valid()
      modifies this, active
      ensures Valid()
      ensures currentTrackIndex == NextIndex(old(currentTrackIndex), |tracks|)
      ensures isPlaying == old(isPlaying) && playGlyph == old(playGlyph) && coverPlaying == old(coverPlaying)
      ensures progressWidth == "0%" && currentTimeLabel == "0:00"
      ensures durationLabel == tracks[currentTrackIndex].duration
      ensures volumeTenths == old(volumeTenths) && volumeLabel == old(volumeLabel)
    {
      var nextIndex := NextIndex(currentTrackIndex, |tracks|);
      LoadTrack(nextIndex);
      if isPlaying {
        PlayTrack(playSucceeded);
      }
    }

    /**
     * Loads the preceding track, wrapping from the first to the last, and
     * asks for playback again when a track was playing.
     */
    method PrevTrack(playSucceeded: bool)
      requires Valid()
      modifies this, active
      ensures Valid()
      ensures currentTrackIndex == PrevIndex(old(currentTrackIndex), |tracks|)
      ensures isPlaying == old(isPlaying) && playGlyph == old(playGlyph) && coverPlaying == old(coverPlaying)
      ensures progressWidth == "0%" && currentTimeLabel == "0:00"
      ensures durationLabel == tracks[currentTrackIndex].duration
      ensures volumeTenths == old(volumeTenths) && volumeLabel == old(volumeLabel)
    {
      var prevIndex := PrevIndex(currentTrackIndex, |tracks|);
      LoadTrack(prevIndex);
      if isPlaying {
        PlayTrack(playSucceeded);
      }
    }

    /** The play button: pauses when playing, otherwise requests playback. */
    method OnPlayButton(playSucceeded: bool)
      requires Valid()
      modifies this
      ensures Valid()
      ensures isPlaying == (!old(isPlaying) && playSucceeded)
      ensures old(isPlaying) || playSucceeded ==> playGlyph == GlyphFor(!old(isPlaying))
      ensures currentTrackIndex == old(currentTrackIndex) && source == old(source)
      ensures progressWidth == old(progressWidth) && currentTimeLabel == old(currentTimeLabel)
      ensures durationLabel == old(durationLabel)
      ensures volumeTenths == old(volumeTenths) && volumeLabel == old(volumeLabel)
    {
      if isPlaying {
        PauseTrack();
      } else {
        PlayTrack(playSucceeded);
      }
    }

    /** A click on playlist entry index: load that track, then request playback. */
    method OnPlaylistClick(index: nat, playSucceeded: bool)
      requires Valid() && index < |tracks|
      modifies this, active
      ensures Valid()
      ensures currentTrackIndex == index && source == tracks[index].src
      ensures isPlaying == (old(isPlaying) || playSucceeded)
      ensures progressWidth == "0%" && currentTimeLabel == "0:00"
      ensures durationLabel == tracks[index].duration
      ensures volumeTenths == old(volumeTenths) && volumeLabel == old(volumeLabel)
    {
      LoadTrack(index);
      PlayTrack(playSucceeded);
    }

    /** The audio element's ended event moves on to the next track. */
    method OnEnded(playSucceeded: bool)
      requires Valid()
      modifies this, active
      ensures Valid()
      ensures currentTrackIndex == NextIndex(old(currentTrackIndex), |tracks|)
      ensures isPlaying == old(isPlaying)
      ensures progressWidth == "0%" && currentTimeLabel == "0:00"
      ensures durationLabel == tracks[currentTrackIndex].duration
      ensures volumeTenths == old(volumeTenths) && volumeLabel == old(volumeLabel)
    {
      NextTrack(playSucceeded);
    }

    /** The loadedmetadata event: the duration label shows the decoded duration. */
    method OnMetadataLoaded(durationSeconds: nat)
      requires Valid()
      modifies this
      ensures Valid()
      ensures durationLabel == FormatTime(durationSeconds)
      ensures currentTrackIndex == old(currentTrackIndex) && isPlaying == old(isPlaying)
      ensures source == old(source) && playGlyph == old(playGlyph) && coverPlaying == old(coverPlaying)
      ensures progressWidth == old(progressWidth) && currentTimeLabel == old(currentTimeLabel)
      ensures volumeTenths == old(volumeTenths) && volumeLabel == old(volumeLabel)
    {
      durationLabel := FormatTime(durationSeconds);
    }

    /** The volume slider's input event: mirror the value and update its label. */
    method OnVolumeInput(tenths: nat)
      requires Valid() && tenths <= 10
      modifies this
      ensures Valid()
      ensures volumeTenths == tenths && volumeLabel == VolumeLabel(tenths)
      ensures currentTrackIndex == old(currentTrackIndex) && isPlaying == old(isPlaying)
      ensures source == old(source) && playGlyph == old(playGlyph) && coverPlaying == old(coverPlaying)
      ensures progressWidth == old(progressWidth) && currentTimeLabel == old(currentTimeLabel)
      ensures durationLabel == old(durationLabel)
    {
      volumeTenths := tenths;
      volumeLabel := VolumeLabel(tenths);
    }
  }
}
