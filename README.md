# Music player controller, modelled in Dafny

This project models the playback logic of a small music-player widget for a game engine.
The model covers two parts:

- `MusicPlayerController` is the state machine behind the play/pause, next, previous and shuffle buttons.
  It keeps the current clip, the playing and shuffle flags, and the handle of the pending auto-advance coroutine.
- `ToggleButtonController` is the two-state button the controller drives.
  It keeps its two icons showing in line with its state.

Files:

- `wrappers.dfy`: `Option`, which stands in for a nullable reference.
- `tracks.dfy` (module `Tracks`):
  - `IndexOf`: `List.IndexOf`.
  - The sequential next/previous index rules.
  - The shuffle redraw loop `GetTrackIndex`, proved against its specification `TrackIndex`.
  - `SelectTrack`: what `GetNextTrack`/`GetPreviousTrack` return.
  - The lemmas about these.
- `track_info.dfy` (module `TrackInfo`): the `"<index>. <name>"` text the label shows, written as C# writes an `int`.
  A parser and a round-trip lemma show that both parts can be read back.
- `toggle_button.dfy` (module `ToggleButtons`): `Icon` and the `ToggleButton` class.
  `ToggleView` is the button seen as a value; `UpdateState`, `ToggleState` and `Start` are specified through it.
- `music_player.dfy` (module `MusicPlayer`):
  - `AudioSource`: clip, whole-second elapsed time, playing flag.
  - `Text`: the label.
  - `Coroutine`: one handle per started auto-advance.
  - The `MusicPlayerController` class.

How the collaborators are modelled:

- A clip is a value. Equal values stand for the same asset.
- `UnityEngine.Random.Range(0, n)` is the next value of the controller's `random` stream, taken modulo `n`.
- `StartCoroutine` allocates a fresh `Coroutine` and adds it to `running`, the set of auto-advances the engine still runs.
  `StopCoroutine` removes it from that set.
- The `AudioSource` that `Start` looks up with `GetComponent` is a constructor argument.
- `AudioSource.Play` goes on from the elapsed time on a paused or stopped source, and starts over on one that is already playing.
  So in sequential mode, "previous" on the first clip, or "next" on a one-clip list, while playing replays the clip from 0.
  In shuffle mode "next" on a one-clip list hangs instead (see below).

Playing a null clip with a source bound dereferences null.
The auto-advance coroutine reads the current clip's length as soon as `StartCoroutine` runs it (`MusicPlayerController.cs:139`).
A bound label also reads the clip's name (`MusicPlayerController.cs:145`).
This happens on play with a null or empty list and nothing current (lines 30 → 62-66).
It also happens on "previous" with nothing current, whatever the list, when the source's own clip has played past the threshold (lines 45-46 → 72).
Preconditions built on `PlaysNull` exclude exactly these cases.

The shuffle loop (`MusicPlayerController.cs:108-110`) only ends when some draw differs from the current index.
`Redraws` states that condition, and the methods that reach the loop require it.
`Tracks.SingleTrackShuffleNeverEnds` proves that no stream of draws meets it on a one-clip list whose clip is current.
So that call hangs in the code, as written.

Behaviour of the code worth knowing:

- The code has no one-clip check in shuffle mode; the redraw loop hangs (`Tracks.SingleTrackShuffleNeverEnds`).
- A clip that is not in the list is shown as `-1` when the list exists; only a null list gives 0.
- "Previous" moves back unless the elapsed time is strictly greater than the threshold (5 by default); it restarts the clip only past it.
- Pausing stops the coroutine but keeps `_autoPlay` pointing at it. The model keeps the stale handle and empties `running`.
- With a repeated clip, sequential "next" jumps back to the position after the clip's first copy, because `IndexOf` finds the first copy.
  On `[A, A, B]` it stays on A forever and never reaches B (`Tracks.RepeatedClipTrapsNext`).
  The ordering lemmas below therefore assume a list without duplicates.
- "Previous" on a paused player whose source time is past the threshold restarts the clip and starts playback.
  The play/pause button keeps showing "paused": `OnPreviousTrackButton` never calls `UpdateState`, and its frame leaves the button untouched.

Paths below are relative to the repository root.

## Model

| member | source | states |
|---|---|---|
| `Tracks.IndexOf` | Assets/Scripts/MusicPlayerController.cs:106 | the result is -1 exactly when the clip is absent; otherwise it is the first position that holds the clip |
| `Tracks.FirstRedraw` | Assets/Scripts/MusicPlayerController.cs:108-110 | the shuffle loop stops at the first draw whose index differs from the current one; every earlier draw gave the current index |
| `Tracks.TrackIndex` | Assets/Scripts/MusicPlayerController.cs:103-118 | the index is always inside the list; it is 0 with no current clip, in either mode; shuffle never gives the current clip's index and uses at least one draw; sequential mode uses none |
| `Tracks.GetTrackIndex` | Assets/Scripts/MusicPlayerController.cs:103-118 | the do-while redraw loop and the sequential branches return exactly `TrackIndex`: the index and how many draws were consumed |
| `Tracks.SelectTrack` | Assets/Scripts/MusicPlayerController.cs:87-101 | no clip exactly when the list is empty; otherwise a clip of the list; the first clip when nothing is current, whatever the mode; the draws are untouched outside shuffle |
| `Tracks.NextIndex` | Assets/Scripts/MusicPlayerController.cs:112 | from any position of a non-empty list, or from -1 for a missing clip, the next position is inside the list |
| `Tracks.PreviousIndex` | Assets/Scripts/MusicPlayerController.cs:114 | the previous position is never negative and never further on, except for staying at 0 |
| `Tracks.DistinctIsPairwise` | Assets/Scripts/MusicPlayerController.cs:106 | every clip being found by `IndexOf` at its own position means exactly that no two positions hold the same clip |
| `Tracks.SequentialNext` | Assets/Scripts/MusicPlayerController.cs:112 | on a list without duplicates, next from position i gives position (i + 1) mod n |
| `Tracks.NextVisitsInOrder` | Assets/Scripts/MusicPlayerController.cs:112 | on a list without duplicates, starting from no clip, the first n presses of next visit positions 0, 1, …, n-1 in order |
| `Tracks.NextCycles` | Assets/Scripts/MusicPlayerController.cs:112 | on a list without duplicates, after n presses, next repeats the same clips in the same order: it wraps to the start |
| `Tracks.NextWrapsAtEnd` | Assets/Scripts/MusicPlayerController.cs:112 | on a list without duplicates, next from the last clip gives the first clip |
| `Tracks.PreviousStepsBack` | Assets/Scripts/MusicPlayerController.cs:114 | on a list without duplicates, previous from position i gives i - 1, and from position 0 stays at 0; it never wraps to the end |
| `Tracks.MissingCurrentGivesFirst` | Assets/Scripts/MusicPlayerController.cs:106-114 | a current clip missing from the list (`IndexOf` gives -1) leads to the first clip, for next and for previous |
| `Tracks.ShuffleChangesTrack` | Assets/Scripts/MusicPlayerController.cs:107-110 | on a list without duplicates, shuffle never picks the current clip again |
| `Tracks.SuccessorMod` | Assets/Scripts/MusicPlayerController.cs:112 | from a position inside the list, the sequential next index is the successor modulo the list's length |
| `Tracks.RepeatedClipTrapsNext` | Assets/Scripts/MusicPlayerController.cs:106-112 | on `[A, A, B]`, every press of sequential next from no clip lands on A, so B is never reached when it differs from A |
| `Tracks.SingleTrackShuffleNeverEnds` | Assets/Scripts/MusicPlayerController.cs:107-110 | with one clip that is current, no stream of draws ends the redraw loop |
| `Tracks.ShuffleEndsWithTwoTracks` | Assets/Scripts/MusicPlayerController.cs:107-110 | with two or more clips, one suitable draw ends the redraw loop |
| `TrackInfo.DecimalRoundTrip` | Assets/Scripts/MusicPlayerController.cs:147 | the decimal digits written for a position read back as that number |
| `TrackInfo.IntToDecimal` | Assets/Scripts/MusicPlayerController.cs:147 | the written index is non-empty, starts with '-' exactly for a negative index, and is all digits otherwise |
| `TrackInfo.TrackInfoText` | Assets/Scripts/MusicPlayerController.cs:147 | the label text ends with ". " and the clip's name, and starts with '-' exactly for a negative index |
| `TrackInfo.TrackInfoRoundTrip` | Assets/Scripts/MusicPlayerController.cs:146-147 | the label text `"<index>. <name>"` parses back to the same index (negative ones too) and the same name |
| `ToggleButtons.Updated` | Assets/Scripts/ToggleButtonController.cs:19-27 | after `UpdateState(b)` the flag is b; a bound primary icon is active iff b; a bound secondary icon is active iff not b; with both bound exactly one is active; unbound icons stay unbound |
| `ToggleButtons.Toggled` | Assets/Scripts/ToggleButtonController.cs:15-17 | `ToggleState` negates the flag and leaves the icons consistent with it |
| `ToggleButtons.UpdateIdempotent` | Assets/Scripts/ToggleButtonController.cs:19-27 | `UpdateState(b)` twice gives the same state as once |
| `ToggleButtons.UpdateKeepsConsistent` | Assets/Scripts/ToggleButtonController.cs:11-13 | `Start` on a button whose icons already match its flag changes nothing |
| `ToggleButtons.ToggleTwice` | Assets/Scripts/ToggleButtonController.cs:15-17 | toggling twice restores a consistent button; in general it brings the icons back in line with the original flag |
| `ToggleButtons.ToggleButton.constructor` | Assets/Scripts/ToggleButtonController.cs:6-9 | the button as placed in the scene: its flag and its two possibly unbound icons |
| `ToggleButtons.ToggleButton.Start` | Assets/Scripts/ToggleButtonController.cs:11-13 | the flag is unchanged and the icons now match it |
| `ToggleButtons.ToggleButton.ToggleState` | Assets/Scripts/ToggleButtonController.cs:15-17 | the new state is `Toggled` of the old one; a single object bound as both icons ends up active iff the new flag is false |
| `ToggleButtons.ToggleButton.UpdateState` | Assets/Scripts/ToggleButtonController.cs:19-27 | the new state is `Updated(old, b)`; unbound icons are skipped; nothing outside the button and its icons changes; a single object bound as both icons ends up active iff not b |
| `MusicPlayer.AudioSource.Play` | Assets/Scripts/MusicPlayerController.cs:125-127 | the source plays the same clip; a paused or stopped source keeps its time, a playing one starts over from 0 |
| `MusicPlayer.AudioSource.Stop` | Assets/Scripts/MusicPlayerController.cs:71 | the source stops and rewinds to 0, keeping its clip |
| `MusicPlayer.AudioSource.Pause` | Assets/Scripts/MusicPlayerController.cs:153 | the source stops and keeps its clip and elapsed time |
| `MusicPlayer.MusicPlayerController.IsPlayedEnoughToRestart` | Assets/Scripts/MusicPlayerController.cs:76-85 | never true without a bound source, so "previous" then always moves back; the strict comparison with `secondsToRestartTrack` is what `OnPreviousTrackButton` branches on |
| `MusicPlayer.MusicPlayerController.constructor` | Assets/Scripts/MusicPlayerController.cs:9-24 | the controller after `Start`: nothing current, not playing, shuffle off, no auto-advance pending |
| `MusicPlayer.MusicPlayerController.FirstTrack` | Assets/Scripts/MusicPlayerController.cs:63-64 | the clip picked when nothing is current is absent exactly when the list is null or empty |
| `MusicPlayer.MusicPlayerController.OnPlayPauseButton` | Assets/Scripts/MusicPlayerController.cs:26-35 | when playing it pauses: not playing, nothing pending, the stale handle and the label kept, the source keeps its clip and time; otherwise it plays the current clip, or the first one if none, and without a source only that choice changes; afterwards the play/pause button's flag equals `isPlaying` and its icons follow |
| `MusicPlayer.MusicPlayerController.OnNextTrackButton` | Assets/Scripts/MusicPlayerController.cs:37-42 | the current clip and the remaining draws become `SelectTrack(…, next)`; playback starts only if something was playing; a paused player stays paused, and its source, label and pending handle are untouched |
| `MusicPlayer.MusicPlayerController.OnPreviousTrackButton` | Assets/Scripts/MusicPlayerController.cs:44-53 | if a bound source's time is strictly greater than `secondsToRestartTrack` (lines 76-85), the same clip restarts from time 0; otherwise it moves as `SelectTrack(…, previous)` and plays only if something was playing; a paused player keeps its source, label and handle |
| `MusicPlayer.MusicPlayerController.OnShuffleButton` | Assets/Scripts/MusicPlayerController.cs:55-60 | shuffle mode flips and a bound shuffle button is toggled in step; nothing else in the controller changes |
| `MusicPlayer.MusicPlayerController.PlayCurrentTrack` | Assets/Scripts/MusicPlayerController.cs:62-67 | a missing current clip is first replaced by `GetNextTrack(null)`, even with no source; that clip is then played as `PlayTrack` states; without a source nothing else changes, the label included |
| `MusicPlayer.MusicPlayerController.RestartCurrentTrack` | Assets/Scripts/MusicPlayerController.cs:69-74 | with a source bound, the current clip plays again from time 0 with a fresh auto-advance; without one, nothing changes, the label included |
| `MusicPlayer.MusicPlayerController.GetNextTrack` | Assets/Scripts/MusicPlayerController.cs:87-93 | returns the clip and consumes exactly the draws given by `SelectTrack` in the next direction |
| `MusicPlayer.MusicPlayerController.GetPreviousTrack` | Assets/Scripts/MusicPlayerController.cs:95-101 | returns the clip and consumes exactly the draws given by `SelectTrack` in the previous direction |
| `MusicPlayer.MusicPlayerController.PlayTrack` | Assets/Scripts/MusicPlayerController.cs:120-136 | with a source bound: the clip is loaded and playing; the time is kept if that clip was already loaded and not playing, else it is 0; `isPlaying` is set; the label names the clip; the old auto-advance is stopped and exactly one new one is running. Without a source, nothing changes |
| `MusicPlayer.MusicPlayerController.UpdateTrackInfo` | Assets/Scripts/MusicPlayerController.cs:143-149 | a bound label shows `TrackInfoText`: `IndexOf` in the list (0 for a null list), then ". ", then the clip's name |
| `MusicPlayer.MusicPlayerController.PauseMusic` | Assets/Scripts/MusicPlayerController.cs:151-159 | with a source bound: the source is paused at the same clip and time; `isPlaying` is cleared; no auto-advance is left running; `_autoPlay` still refers to the stopped handle |
| `MusicPlayer.AtMostOnePending` | Assets/Scripts/MusicPlayerController.cs:131-134 | the controller invariant means at most one auto-advance is ever running |

## Left out

- The auto-advance firing (`AutoPlayNextTrack`, lines 138-141) is left out, along with its `WaitForSeconds(length - time)` delay: these are scheduler behaviour. Only which coroutine handles are running is modelled.
- `Start` and `GetComponent<AudioSource>()` are engine lifecycle. The found source is a constructor argument.
- Floating-point time and clip length are left out. The elapsed time is a whole number of seconds and the restart test compares integers.
- The distribution of `UnityEngine.Random.Range` is left out. The model fixes only which values are drawn, through the `random` stream.
- `Debug.Log`, text rendering and `GameObject.SetActive` rendering are left out. Only the label's string and the icons' active flags are kept.
- The `NullReferenceException` at lines 139 and 145 is not modelled as an outcome. Callers are required to avoid it (`PlaysNull`, and `PlayTrack`'s precondition).
- The non-terminating shuffle loop on a one-clip list is not modelled as an outcome. Callers are required to avoid it (`Redraws`).
- `Tracks.SelectTrack`: list entries are never null. An empty slot in the inspector list is out of scope; in the code it would make `GetNextTrack` return null from a non-empty list (line 92), and `PlayTrack()` would then pick `musicTracks[0]` again (line 63).
- `MusicPlayer.MusicPlayerController.FirstTrack`: for the same reason, "absent exactly when the list is null or empty" holds only for lists without null entries.
- The scene fields (`musicTracks`, the buttons, `trackInfo`, `secondsToRestartTrack`) are `const`. The controller never assigns them; edits made in the inspector while playing are out of scope.
- `ToggleButtons.ToggleButton.constructor`: the field initialiser `isPrimary = true` is not modelled as a default. The initial flag is a parameter, as the inspector may set it.
