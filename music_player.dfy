/**
 * MusicPlayerController: the playback state machine behind the play/pause,
 * next, previous and shuffle buttons.
 *
 * Its collaborators are modelled by the little they are used for: the audio
 * source by its clip, elapsed time and playing flag; the trackInfo label by
 * its text; coroutines by handle objects, with the set of those the engine
 * still runs; `UnityEngine.Random` by the stream of values it will return.
 */
module MusicPlayer {
  import opened Wrappers
  import opened Tracks
  import opened TrackInfo
  import opened ToggleButtons

  /** The AudioSource component: the loaded clip, the elapsed time in it (whole seconds) and whether it plays. */
  class AudioSource {
    var clip: Option<Clip>
    var time: int
    var playing: bool

    constructor (clip: Option<Clip>, time: int)
      ensures this.clip == clip && this.time == time && !playing
    {
      this.clip := clip;
      this.time := time;
      playing := false;
    }

    /** Plays the loaded clip: a paused or stopped source goes on from its elapsed time, a playing one starts over. */
    method Play()
      modifies this
      ensures playing && clip == old(clip) && time == (if old(playing) then 0 else old(time))
    {
      if playing {
        time := 0;
      }
      playing := true;
    }

    /** Stops playing and rewinds to the start. */
    method Stop()
      modifies this
      ensures !playing && clip == old(clip) && time == 0
    {
      playing := false;
      time := 0;
    }

    /** Stops playing and keeps the elapsed time. */
    method Pause()
      modifies this
      ensures !playing && clip == old(clip) && time == old(time)
    {
      playing := false;
    }
  }

  /** The UI label trackInfo. */
  class Text {
    var text: string

    constructor (text: string)
      ensures this.text == text
    {
      this.text := text;
    }
  }

  /** A started AutoPlayNextTrack coroutine, with the clip it was started for. */
  class Coroutine {
    const track: Option<Clip>

    constructor (track: Option<Clip>)
      ensures this.track == track
    {
      this.track := track;
    }
  }

  class MusicPlayerController {
    // Set in the scene; the controller never reassigns them.
    const musicTracks: Option<seq<Clip>>
    const playPauseButton: ToggleButton?
    const shuffleButton: ToggleButton?
    const trackInfo: Text?
    const secondsToRestartTrack: int
    const musicSource: AudioSource?

    var currentTrack: Option<Clip>
    var isShuffleMode: bool
    var isPlaying: bool
    var autoPlay: Coroutine?
    /** The auto-advance coroutines started and not stopped. */
    var running: set<Coroutine>
    /** The values the coming calls of `Random.Range` draw from. */
    var random: seq<nat>

    /**
     * The controller as Start leaves it: `musicSource` is the AudioSource found
     * on the same object, if any; nothing is current, playing or pending.
     */
    constructor (musicTracks: Option<seq<Clip>>, playPauseButton: ToggleButton?, shuffleButton: ToggleButton?,
                 trackInfo: Text?, secondsToRestartTrack: int, musicSource: AudioSource?, random: seq<nat>)
      ensures Valid()
      ensures this.musicTracks == musicTracks && this.playPauseButton == playPauseButton
      ensures this.shuffleButton == shuffleButton && this.trackInfo == trackInfo
      ensures this.secondsToRestartTrack == secondsToRestartTrack && this.musicSource == musicSource
      ensures currentTrack.None? && !isShuffleMode && !isPlaying && autoPlay == null && running == {}
      ensures this.random == random
    {
      this.musicTracks := musicTracks;
      this.playPauseButton := playPauseButton;
      this.shuffleButton := shuffleButton;
      this.trackInfo := trackInfo;
      this.secondsToRestartTrack := secondsToRestartTrack;
      this.musicSource := musicSource;
      currentTrack := None;
      isShuffleMode := false;
      isPlaying := false;
      autoPlay := null;
      running := {};
      this.random := random;
    }

    /**
     * Every running auto-advance is the one `autoPlay` refers to, and runs
     * only while playing; only a bound audio source ever plays.
     */
    ghost predicate Valid()
      reads this
    {
      (forall c :: c in running ==> c == autoPlay && isPlaying) &&
      (isPlaying ==> musicSource != null)
    }

    /** The objects the playback operations may change. */
    ghost function Playback(): set<object>
      reads this
    {
      {this} + (if musicSource != null then {musicSource} else {}) + (if trackInfo != null then {trackInfo} else {})
    }

    /** A null list plays like an empty one. */
    function TrackList(): seq<Clip>
      reads this
    {
      if musicTracks.None? then [] else musicTracks.value
    }

    /** The clip `PlayTrack()` picks when nothing is current, GetNextTrack(null): the first one, if any. */
    function FirstTrack(): (r: Option<Clip>)
      reads this
      ensures r.None? <==> |TrackList()| == 0
    {
      SelectTrack(TrackList(), None, isShuffleMode, true, random).0
    }

    /** The shuffle redraw loop would finish for `current`. */
    predicate CanSelectFrom(current: Option<Clip>)
      reads this
    {
      |TrackList()| > 0 ==> CanRedraw(TrackList(), current, isShuffleMode, random)
    }

    /**
     * Playing `track`, once it is the current clip, dereferences a null clip:
     * with a bound source, the auto-advance coroutine reads the current clip's
     * length as soon as it starts, and a bound label reads the clip's name.
     * Callers must avoid this NullReferenceException.
     */
    predicate PlaysNull(track: Option<Clip>)
      reads this
    {
      musicSource != null && track.None?
    }

    /** The position UpdateTrackInfo shows for `clip`: 0 for a null list. */
    function DisplayIndex(clip: Clip): int
      reads this
    {
      if musicTracks.None? then 0 else IndexOf(musicTracks.value, clip)
    }

    /**
     * After PlayTrack(track) with a bound audio source: `track` is loaded and
     * plays, exactly one auto-advance is pending, and the label names `track`.
     */
    ghost predicate Started(track: Option<Clip>)
      reads this, musicSource, trackInfo
    {
      musicSource != null &&
      isPlaying && musicSource.clip == track && musicSource.playing &&
      autoPlay != null && running == {autoPlay} && autoPlay.track == currentTrack &&
      (trackInfo != null ==> track.Some? && trackInfo.text == TrackInfoText(DisplayIndex(track.value), track.value.name))
    }

    /**
     * The source's elapsed time after `track` is played: kept if it was loaded
     * already and not playing, else from the start.
     */
    twostate predicate Resumed(track: Option<Clip>)
      reads this, musicSource
    {
      musicSource != null ==>
        musicSource.time == (if old(musicSource.clip) == track && !old(musicSource.playing) then old(musicSource.time) else 0)
    }

    /** A bound label still shows what it showed before. */
    twostate predicate LabelKept()
      reads this, trackInfo
    {
      trackInfo != null ==> trackInfo.text == old(trackInfo.text)
    }

    /** IsPlayedEnoughToRestart: a bound source has played more than the restart threshold. */
    predicate IsPlayedEnoughToRestart()
      reads this, musicSource
      ensures IsPlayedEnoughToRestart() ==> musicSource != null
    {
      musicSource != null && musicSource.time > secondsToRestartTrack
    }

    /** OnPlayPauseButton: pause when playing, else play; then show the new state on the button. */
    method OnPlayPauseButton()
      requires Valid()
      requires !isPlaying ==> !PlaysNull(if currentTrack.None? then FirstTrack() else currentTrack)
      modifies Playback(), Footprint(playPauseButton)
      ensures Valid()
      ensures old(isPlaying) ==> currentTrack == old(currentTrack) && !isPlaying && running == {}
                                 && autoPlay == old(autoPlay) && LabelKept()
      ensures old(isPlaying) ==> musicSource.clip == old(musicSource.clip) && musicSource.time == old(musicSource.time)
                                 && !musicSource.playing
      ensures !old(isPlaying) ==> currentTrack == (if old(currentTrack).None? then old(FirstTrack()) else old(currentTrack))
      ensures !old(isPlaying) && musicSource != null ==> Started(currentTrack) && fresh(autoPlay) && Resumed(currentTrack)
      ensures !old(isPlaying) && musicSource == null ==>
                !isPlaying && autoPlay == old(autoPlay) && running == old(running) && LabelKept()
      ensures isShuffleMode == old(isShuffleMode) && random == old(random)
      ensures playPauseButton != null ==> playPauseButton.isPrimary == isPlaying
      ensures playPauseButton != null && playPauseButton.SeparateIcons() ==>
                playPauseButton.View() == Updated(old(playPauseButton.View()), isPlaying)
      ensures playPauseButton != null && !playPauseButton.SeparateIcons() ==>
                playPauseButton.primaryIcon.active == !isPlaying
    {
      if isPlaying {
        PauseMusic();
      } else {
        PlayCurrentTrack();
      }
      if playPauseButton != null {
        playPauseButton.UpdateState(isPlaying);
      }
    }

    /**
     * OnNextTrackButton: moves to the next clip, and starts it only if
     * something was playing; a paused player stays paused.
     */
    method OnNextTrackButton()
      requires Valid() && CanSelectFrom(currentTrack)
      requires isPlaying && |TrackList()| == 0 ==> !PlaysNull(None)
      modifies Playback()
      ensures Valid()
      ensures (currentTrack, random) == old(SelectTrack(TrackList(), currentTrack, isShuffleMode, true, random))
      ensures isShuffleMode == old(isShuffleMode)
      ensures old(isPlaying) ==> Started(currentTrack) && fresh(autoPlay) && Resumed(currentTrack)
      ensures !old(isPlaying) ==> !isPlaying && autoPlay == old(autoPlay) && running == old(running) && LabelKept()
      ensures !old(isPlaying) && musicSource != null ==>
                musicSource.clip == old(musicSource.clip) && musicSource.time == old(musicSource.time)
                && musicSource.playing == old(musicSource.playing)
    {
      currentTrack := GetNextTrack(currentTrack);
      if isPlaying {
        PlayCurrentTrack();
      }
    }

    /**
     * OnPreviousTrackButton: restarts the current clip when it has played
     * longer than the threshold; otherwise moves to the previous clip and
     * starts it only if something was playing.
     */
    method OnPreviousTrackButton()
      requires Valid()
      requires IsPlayedEnoughToRestart() ==> !PlaysNull(currentTrack)
      requires !IsPlayedEnoughToRestart() ==> CanSelectFrom(currentTrack)
      requires !IsPlayedEnoughToRestart() && isPlaying && |TrackList()| == 0 ==> !PlaysNull(None)
      modifies Playback()
      ensures Valid()
      ensures isShuffleMode == old(isShuffleMode)
      ensures old(IsPlayedEnoughToRestart()) ==>
                currentTrack == old(currentTrack) && random == old(random)
                && Started(currentTrack) && fresh(autoPlay) && musicSource.time == 0
      ensures !old(IsPlayedEnoughToRestart()) ==>
                (currentTrack, random) == old(SelectTrack(TrackList(), currentTrack, isShuffleMode, false, random))
      ensures !old(IsPlayedEnoughToRestart()) && old(isPlaying) ==>
                Started(currentTrack) && fresh(autoPlay) && Resumed(currentTrack)
      ensures !old(IsPlayedEnoughToRestart()) && !old(isPlaying) ==>
                !isPlaying && autoPlay == old(autoPlay) && running == old(running) && LabelKept()
      ensures !old(IsPlayedEnoughToRestart()) && !old(isPlaying) && musicSource != null ==>
                musicSource.clip == old(musicSource.clip) && musicSource.time == old(musicSource.time)
                && musicSource.playing == old(musicSource.playing)
    {
      if IsPlayedEnoughToRestart() {
        RestartCurrentTrack();
      } else {
        currentTrack := GetPreviousTrack(currentTrack);
        if isPlaying {
          PlayCurrentTrack();
        }
      }
    }

    /** OnShuffleButton: flips shuffle mode and, in step, the shuffle button. */
    method OnShuffleButton()
      requires Valid()
      modifies this, Footprint(shuffleButton)
      ensures Valid()
      ensures isShuffleMode == !old(isShuffleMode)
      ensures currentTrack == old(currentTrack) && isPlaying == old(isPlaying) && random == old(random)
      ensures autoPlay == old(autoPlay) && running == old(running)
      ensures shuffleButton != null ==> shuffleButton.isPrimary == !old(shuffleButton.isPrimary)
      ensures shuffleButton != null && shuffleButton.SeparateIcons() ==>
                shuffleButton.View() == Toggled(old(shuffleButton.View()))
      ensures shuffleButton != null && !shuffleButton.SeparateIcons() ==>
                shuffleButton.primaryIcon.active == !shuffleButton.isPrimary
    {
      isShuffleMode := !isShuffleMode;
      if shuffleButton != null {
        shuffleButton.ToggleState();
      }
    }

    /** PlayTrack(): plays the current clip, first picking one if there is none. */
    method PlayCurrentTrack()
      requires Valid()
      requires !PlaysNull(if currentTrack.None? then FirstTrack() else currentTrack)
      modifies Playback()
      ensures Valid()
      ensures currentTrack == (if old(currentTrack).None? then old(FirstTrack()) else old(currentTrack))
      ensures isShuffleMode == old(isShuffleMode) && random == old(random)
      ensures musicSource != null ==> Started(currentTrack) && fresh(autoPlay) && Resumed(currentTrack)
      ensures musicSource == null ==>
                isPlaying == old(isPlaying) && autoPlay == old(autoPlay) && running == old(running) && LabelKept()
    {
      if currentTrack.None? {
        currentTrack := GetNextTrack(currentTrack);
      }
      PlayTrack(currentTrack);
    }

    /** RestartCurrentTrack: with a bound source, rewinds and plays the current clip again. */
    method RestartCurrentTrack()
      requires Valid() && !PlaysNull(currentTrack)
      modifies Playback()
      ensures Valid()
      ensures currentTrack == old(currentTrack) && isShuffleMode == old(isShuffleMode) && random == old(random)
      ensures musicSource != null ==> Started(currentTrack) && fresh(autoPlay) && musicSource.time == 0
      ensures musicSource == null ==>
                isPlaying == old(isPlaying) && autoPlay == old(autoPlay) && running == old(running) && LabelKept()
    {
      if musicSource != null {
        musicSource.Stop();
        PlayTrack(currentTrack);
      }
    }

    /** GetNextTrack: no clip for a null or empty list, else the clip at the next index. */
    method GetNextTrack(currentTrack: Option<Clip>) returns (r: Option<Clip>)
      requires CanSelectFrom(currentTrack)
      modifies this`random
      ensures (r, random) == SelectTrack(TrackList(), currentTrack, isShuffleMode, true, old(random))
    {
      if musicTracks.None? || |musicTracks.value| == 0 {
        return None;
      }
      var index, used := GetTrackIndex(musicTracks.value, currentTrack, isShuffleMode, true, random);
      random := random[used..];
      r := Some(musicTracks.value[index]);
    }

    /** GetPreviousTrack: no clip for a null or empty list, else the clip at the previous index. */
    method GetPreviousTrack(currentTrack: Option<Clip>) returns (r: Option<Clip>)
      requires CanSelectFrom(currentTrack)
      modifies this`random
      ensures (r, random) == SelectTrack(TrackList(), currentTrack, isShuffleMode, false, old(random))
    {
      if musicTracks.None? || |musicTracks.value| == 0 {
        return None;
      }
      var index, used := GetTrackIndex(musicTracks.value, currentTrack, isShuffleMode, false, random);
      random := random[used..];
      r := Some(musicTracks.value[index]);
    }

    /**
     * PlayTrack(track): with a bound source, loads `track` unless it is loaded
     * already, plays it, shows it on the label, stops the pending auto-advance
     * and starts a new one. Without a source nothing changes.
     */
    method PlayTrack(track: Option<Clip>)
      requires Valid()
      requires musicSource != null ==> currentTrack.Some? && (trackInfo != null ==> track.Some?)
      modifies Playback()
      ensures Valid()
      ensures currentTrack == old(currentTrack) && isShuffleMode == old(isShuffleMode) && random == old(random)
      ensures musicSource != null ==> Started(track) && fresh(autoPlay)
      ensures Resumed(track)
      ensures musicSource == null ==>
                isPlaying == old(isPlaying) && autoPlay == old(autoPlay) && running == old(running) && LabelKept()
    {
      if musicSource != null {
        if musicSource.clip != track {
          musicSource.Stop();
          musicSource.clip := track;
          musicSource.Play();
        } else {
          musicSource.Play();
        }
        isPlaying := true;
        UpdateTrackInfo(track);
        if autoPlay != null {
          running := running - {autoPlay};
        }
        autoPlay := new Coroutine(currentTrack);
        running := running + {autoPlay};
      }
    }

    /** UpdateTrackInfo: a bound label shows "<index>. <name>" of `track`. */
    method UpdateTrackInfo(track: Option<Clip>)
      requires trackInfo != null ==> track.Some?
      modifies trackInfo
      ensures trackInfo != null ==> trackInfo.text == TrackInfoText(DisplayIndex(track.value), track.value.name)
    {
      if trackInfo != null {
        var trackName := track.value.name;
        var trackIndex := if musicTracks.Some? then IndexOf(musicTracks.value, track.value) else 0;
        trackInfo.text := TrackInfoText(trackIndex, trackName);
      }
    }

    /** PauseMusic: with a bound source, pauses it, clears isPlaying and stops the pending auto-advance. */
    method PauseMusic()
      requires Valid()
      modifies this, musicSource
      ensures Valid()
      ensures currentTrack == old(currentTrack) && isShuffleMode == old(isShuffleMode) && random == old(random)
      ensures autoPlay == old(autoPlay) && LabelKept()
      ensures musicSource != null ==> !isPlaying && running == {} && !musicSource.playing
      ensures musicSource != null ==> musicSource.clip == old(musicSource.clip) && musicSource.time == old(musicSource.time)
      ensures musicSource == null ==> isPlaying == old(isPlaying) && running == old(running)
    {
      if musicSource != null {
        musicSource.Pause();
        isPlaying := false;
        if autoPlay != null {
          running := running - {autoPlay};
        }
      }
    }
  }

  /** At most one auto-advance is ever pending. */
  lemma AtMostOnePending(p: MusicPlayerController)
    requires p.Valid()
    ensures |p.running| <= 1
  {
    if p.running != {} {
      var c :| c in p.running;
      assert p.running == {c};
    }
  }
}
