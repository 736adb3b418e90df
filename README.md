# AudioPlayer playback state machine, in Dafny

This project models the `AudioPlayer` class of the player3 widget (`3/pleer3.js`) and proves properties of the model.
The class drives one audio player on a web page.
Each instance is bound to a fixed, non-empty track list.
It keeps the index of the loaded track and a play/pause flag.
It writes read-outs into its own widget: the audio source, the progress fill, the current-time and duration labels, the play button glyph, the album cover's "playing" class, the "active" class of each playlist entry, and the volume label.

Modules:

- `Format` (`format.dfy`): `formatTime` over whole seconds (`FormatTime`), the decimal rendering JavaScript uses for whole numbers (`NatToString`), and the volume label (`VolumeLabel`).
  `ParseTime` reads an "m:ss" label back; it is the inverse against which `FormatTime` is proved.
- `Playlist` (`playlist.dfy`): the `Track` record and the wrap-around index steps of `nextTrack` and `prevTrack`.
  It has reference definitions for k repeated steps, proved equal to `(i + k) % n` and `(i - k) % n`.
  `ActiveFlags` gives the playlist's active flags, and a lemma counts how many entries are active.
- `Player` (`player.dfy`): `class AudioPlayer`.
  It has the instance fields, the invariants `Wellformed()` and `Valid()`, one method per operation, and one method per event listener.
  The active flags are an `array<bool>`, cleared and set in place by `UpdateActiveTrack`'s loop.
  `Valid()` says these things:
  - the track list is non-empty and there is one active flag per track;
  - the index is in range;
  - the glyph and the cover class agree with `isPlaying`;
  - the volume is at most 10 tenths and its label is `VolumeLabel` of it;
  - the source is the current track's;
  - exactly the current entry is active.
- `Scenarios` (`scenarios.dfy`): client methods on the page's two albums.
  They show that two `ended` events on three tracks reach the last track and a third wraps to the first.
  `EndedFullCycle` shows, for any valid player, that as many `ended` events as there are tracks return it to its track.
  They show that two instances do not affect each other.
  They show that the outcome of a failed play request is what the contracts say.

Modelling choices:

- The browser's answer to `audio.play()` is an argument `playSucceeded`.
  The `.then` continuation of `playTrack` is applied at once.
  The `play()` that `loadTrack` issues when `isPlaying` is set only swallows errors.
  It changes nothing in the model either way.
  External inputs are parameters: media durations (`OnMetadataLoaded`) and slider positions (`OnVolumeInput`).
- `FormatTime` takes whole seconds.
  For JavaScript it is exact at `floor(x)` for every finite `x >= 0` below 2^53, far beyond any track length, since there `Math.floor(x / 60) == floor(x) / 60` and `Math.floor(x % 60) == floor(x) % 60`.
  The operands of `%` in the index steps are never negative, so JavaScript's truncating remainder agrees with Dafny's.
- The volume slider has `min=0 max=1 step=0.1`, so it is held as whole tenths.
  `Math.round(v * 100)` of such a value is `10 * tenths`.
- The source does not check the track list.
  With an empty list, `nextTrack` computes `NaN` as the index, `loadTrack` lets it through, and the read of `track.src` throws.
  The model requires a non-empty track list at construction instead.
- A failed restart does not pause the player: `nextTrack` and `prevTrack` (3/pleer3.js:142, 148) only call `playTrack` when `isPlaying` is already true, and a failure never clears it.
  So `NextTrack`, `PrevTrack` and `OnEnded` keep the play state exactly as it was.
  `FailedRestartKeepsPlaying` shows this.
- The previous and next buttons' listeners (`3/pleer3.js:193-194`) simply call `PrevTrack` and `NextTrack`.

## Model

| member | source | states |
|---|---|---|
| `Format.NatToString` | 3/pleer3.js:166 | the rendering of a whole number is a digit string without a leading zero, it denotes that number, and it is one character long exactly when the number is below 10 |
| `Format.CanonicalIsRendering` | 3/pleer3.js:166 | every digit string without a leading zero is the rendering of its value, so renderings and canonical digit strings correspond one to one |
| `Format.SecondsField` | 3/pleer3.js:166 | the seconds field (a "0" below 10, then the value) is always two digits and denotes the seconds |
| `Format.SecondsFieldUnique` | 3/pleer3.js:166 | every two-digit string worth less than 60 is the seconds field of its value |
| `Format.FormatTime` | 3/pleer3.js:163-167 | the label is the minutes, a colon, then two digits; the minutes are canonical digits worth `seconds / 60`, never reduced into hours; the last two digits are worth `seconds % 60` |
| `Format.FormatTimeRoundTrip` | 3/pleer3.js:163-167 | reading a formatted label back gives the seconds that were formatted |
| `Format.FormatTimeExactly` | 3/pleer3.js:163-167 | `FormatTime(s) == t` holds if and only if `t` reads back to `s` and its minutes have no leading zero |
| `Format.ParsedLabelIsFormatted` | 3/pleer3.js:163-167 | every readable label with canonical minutes is what formatTime writes for the seconds it denotes |
| `Format.FormatTimeZero` | 3/pleer3.js:104 | 0 s gives "0:00", the label `loadTrack` resets the current time to |
| `Format.FormatTimeOneMinute` | 3/pleer3.js:163-167 | 65 s gives "1:05": the seconds field is padded to two digits |
| `Format.FormatTimePastAnHour` | 3/pleer3.js:163-167 | 3661 s gives "61:01": minutes go past 59 with no hour field |
| `Format.VolumeLabel` | 3/pleer3.js:179-182 | the volume label is a canonical decimal worth ten times the slider's tenths, followed by "%" |
| `Format.VolumeLabelExamples` | 3/pleer3.js:179-182 | slider 0, 0.7 and 1 show "0%", "70%" and "100%" |
| `Playlist.NextIndex` | 3/pleer3.js:140 | the next index stays in range; it is one more, except that the last track wraps to the first |
| `Playlist.PrevIndex` | 3/pleer3.js:146 | the previous index stays in range; it is one less, except that the first track wraps to the last |
| `Playlist.PrevUndoesNext` | 3/pleer3.js:139-149 | a previous step after a next step restores the index |
| `Playlist.NextUndoesPrev` | 3/pleer3.js:139-149 | a next step after a previous step restores the index |
| `Playlist.NextSteps` | 3/pleer3.js:139-143 | any number of successive next steps stays within the track list |
| `Playlist.PrevSteps` | 3/pleer3.js:145-149 | any number of successive previous steps stays within the track list |
| `Playlist.NextStepsShift` | 3/pleer3.js:139-143 | k successive next steps from i land on `(i + k) mod n` |
| `Playlist.PrevStepsShift` | 3/pleer3.js:145-149 | k successive previous steps from i land on `(i - k) mod n` |
| `Playlist.NextFullCycle` | 3/pleer3.js:139-143 | n successive next steps return to the starting track |
| `Playlist.PrevFullCycle` | 3/pleer3.js:145-149 | n successive previous steps return to the starting track |
| `Playlist.ActiveFlagsCount` | 3/pleer3.js:114-120 | after an update exactly one entry is active when the index names an entry, and none otherwise |
| `Player.AudioPlayer.constructor` | 3/pleer3.js:2-18 | a new player satisfies `Valid()` on track 0, paused, with the play glyph, track 0's source and duration label, progress "0%", time "0:00", entry 0 active, volume 7 tenths and label "70%" |
| `Player.AudioPlayer.UpdateActiveTrack` | 3/pleer3.js:114-120 | afterwards entry k is active exactly when k is the given index, for every entry; an index out of range leaves no entry active |
| `Player.AudioPlayer.LoadTrack` | 3/pleer3.js:94-112 | for an index in range: the player is on it, with its source, entry active, progress "0%", time "0:00" and its duration label, and play state, glyph and volume unchanged; for any other index nothing at all changes |
| `Player.AudioPlayer.PlayTrack` | 3/pleer3.js:122-130 | a successful start sets `isPlaying`, the pause glyph and the cover class; a failed one changes nothing; the track and labels never change |
| `Player.AudioPlayer.PauseTrack` | 3/pleer3.js:132-137 | from any state, `isPlaying` is false, the glyph is "▶" and the cover class is off; nothing else changes |
| `Player.AudioPlayer.NextTrack` | 3/pleer3.js:139-143 | the index becomes `NextIndex` of the old one, the read-outs are reset for that track, and the play state, glyph and volume are as before, whatever the play request's outcome |
| `Player.AudioPlayer.PrevTrack` | 3/pleer3.js:145-149 | the index becomes `PrevIndex` of the old one, the read-outs are reset for that track, and the play state, glyph and volume are as before |
| `Player.AudioPlayer.OnPlayButton` | 3/pleer3.js:185-191 | the button toggles: playing becomes paused; paused becomes playing only if the start succeeds; the track and labels stay |
| `Player.AudioPlayer.OnPlaylistClick` | 3/pleer3.js:83-86 | choosing entry k loads track k and then plays: the player is on k with read-outs reset, and it is playing if it was or if the start succeeds |
| `Player.AudioPlayer.OnEnded` | 3/pleer3.js:197 | the end of a track moves to the next index with wrap-around, keeping the play state |
| `Player.AudioPlayer.OnMetadataLoaded` | 3/pleer3.js:198-200 | the duration label becomes the formatted decoded duration; nothing else changes |
| `Scenarios.EndedFullCycle` | 3/pleer3.js:197 | on any valid player, as many `ended` events as there are tracks return it to the track it was on, with the play state kept |
| `Player.AudioPlayer.OnVolumeInput` | 3/pleer3.js:204-207 | the slider value is mirrored and the label becomes its percentage; nothing else changes |

## Left out

- DOM construction and templating (`createPlayer`, the `innerHTML` of `createPlaylist`, element lookup), the cover image, the album title and artist, and the instance label `playerId` (it only keeps element ids apart and tags log lines). These are UI plumbing. The model is the state these produce.
- The `<audio>` element itself and the registration of event listeners. These are browser APIs. The events become methods, and a play request's outcome becomes a boolean argument.
- The race between a pending `play()` promise and a later `pauseTrack`. The model applies the promise's outcome at once, so it does not capture event-loop interleavings.
- `updateProgress` (`3/pleer3.js:151-161`). The progress percentage is floating point, and the labels are only written when the float duration is truthy.
- `setProgress` (`3/pleer3.js:169-177`). The seek position is computed from pixel offsets and float durations.
- Player.AudioPlayer.OnVolumeInput: takes the slider value as whole tenths in [0, 10] rather than a float, because the slider's step is 0.1.
- Format.FormatTime: covers whole, non-negative seconds only. Fractional inputs reduce to their floor for values below 2^53. From 10^21 on, JavaScript writes the minutes in exponent notation, which the model does not follow. Infinite durations (`formatTime` then gives "Infinity:NaN") are not modelled, since this page's tracks are files of finite length. Negative and NaN inputs do not arise from the media element.
- `console.log` diagnostics in the play-failure handlers. They are output only.
- The hard-coded album data. It appears only as the fixtures of `Scenarios`.
