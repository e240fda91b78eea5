/**
 * Choosing the next or previous position in the playlist
 * (MusicPlayerController.GetTrackIndex, GetNextTrack and GetPreviousTrack).
 *
 * `UnityEngine.Random.Range(0, n)` is modelled by a stream of draws: the k-th
 * call returns `draws[k] % n`. Only which values come out matters here, not
 * their distribution.
 */
module Tracks {
  import opened Wrappers

  /** An audio clip asset. Equal values stand for the same asset, as reference equality does for clips. */
  datatype Clip = Clip(id: nat, name: string, length: int)

  /** No clip occurs at two positions: each is found at its own position. */
  predicate Distinct<T(==)>(s: seq<T>) {
    forall i :: 0 <= i < |s| ==> IndexOf(s, s[i]) == i
  }

  /** `List.IndexOf`: the first position holding `x`, or -1 when `x` is not in `s`. */
  function IndexOf<T(==)>(s: seq<T>, x: T): (i: int)
    ensures -1 <= i < |s|
    ensures i == -1 <==> x !in s
    ensures 0 <= i ==> s[i] == x && forall j :: 0 <= j < i ==> s[j] != x
  {
    if |s| == 0 then -1
    else if s[0] == x then 0
    else
      var k := IndexOf(s[1..], x);
      assert s == [s[0]] + s[1..];
      if k == -1 then -1 else k + 1
  }

  /** Sequential "next" from position `i` in a list of `n` clips: one further on, back to 0 past the end. */
  function NextIndex(i: int, n: int): (r: int)
    ensures -1 <= i < n && n > 0 ==> 0 <= r < n
  {
    if i + 1 < n then i + 1 else 0
  }

  /** Sequential "previous" from position `i`: one back, staying at 0 (no wrap to the end). */
  function PreviousIndex(i: int): (r: int)
    ensures 0 <= r && (r < i || r == 0)
    ensures i < 0 ==> r == 0
  {
    if i > 0 then i - 1 else 0
  }

  /** Some draw of the stream, reduced into [0, n), differs from `avoid`: the shuffle redraw loop then stops. */
  predicate Redraws(draws: seq<nat>, n: nat, avoid: int)
    requires n > 0
  {
    exists k :: 0 <= k < |draws| && draws[k] % n != avoid
  }

  /** The position in the stream of the draw that ends the shuffle redraw loop. */
  function FirstRedraw(draws: seq<nat>, n: nat, avoid: int): (k: nat)
    requires n > 0 && Redraws(draws, n, avoid)
    ensures k < |draws| && draws[k] % n != avoid
    ensures forall j :: 0 <= j < k ==> draws[j] % n == avoid
  {
    if draws[0] % n != avoid then 0
    else
      assert Redraws(draws[1..], n, avoid) by {
        var k :| 0 <= k < |draws| && draws[k] % n != avoid;
        assert draws[1..][k - 1] == draws[k];
      }
      1 + FirstRedraw(draws[1..], n, avoid)
  }

  /** The loop of the shuffle mode terminates for this current clip and these draws. */
  predicate CanRedraw(tracks: seq<Clip>, current: Option<Clip>, isShuffleMode: bool, draws: seq<nat>)
    requires |tracks| > 0
  {
    isShuffleMode && current.Some? ==> Redraws(draws, |tracks|, IndexOf(tracks, current.value))
  }

  /**
   * The index GetTrackIndex returns and how many draws it consumes: 0 without a
   * current clip, else the first draw that differs from the current clip's index
   * in shuffle mode, else the sequential next or previous index.
   */
  function TrackIndex(tracks: seq<Clip>, current: Option<Clip>, isShuffleMode: bool,
                      isNextTrackIndexRequired: bool, draws: seq<nat>): (r: (int, nat))
    requires |tracks| > 0 && CanRedraw(tracks, current, isShuffleMode, draws)
    ensures 0 <= r.0 < |tracks| && r.1 <= |draws|
    ensures current.None? ==> r == (0, 0)
    ensures !isShuffleMode ==> r.1 == 0
    ensures isShuffleMode && current.Some? ==> r.0 != IndexOf(tracks, current.value) && r.1 > 0
  {
    if current.None? then (0, 0)
    else
      var i := IndexOf(tracks, current.value);
      if isShuffleMode then
        var k := FirstRedraw(draws, |tracks|, i);
        (draws[k] % |tracks|, k + 1)
      else if isNextTrackIndexRequired then (NextIndex(i, |tracks|), 0)
      else (PreviousIndex(i), 0)
  }

  /**
   * GetTrackIndex: the do-while loop of the shuffle mode draws until the index
   * differs from the current clip's. The caller makes sure the list is not empty.
   */
  method GetTrackIndex(tracks: seq<Clip>, currentTrack: Option<Clip>, isShuffleMode: bool,
                       isNextTrackIndexRequired: bool, draws: seq<nat>) returns (result: int, used: nat)
    requires |tracks| > 0 && CanRedraw(tracks, currentTrack, isShuffleMode, draws)
    ensures (result, used) == TrackIndex(tracks, currentTrack, isShuffleMode, isNextTrackIndexRequired, draws)
  {
    result, used := 0, 0;
    if currentTrack.Some? {
      var currentTrackIndex := IndexOf(tracks, currentTrack.value);
      if isShuffleMode {
        ghost var k := FirstRedraw(draws, |tracks|, currentTrackIndex);
        result, used := draws[0] % |tracks|, 1;
        while result == currentTrackIndex
          invariant 1 <= used <= k + 1
          invariant result == draws[used - 1] % |tracks|
          decreases k + 1 - used
        {
          result, used := draws[used] % |tracks|, used + 1;
        }
      } else if isNextTrackIndexRequired {
        result := if currentTrackIndex + 1 < |tracks| then currentTrackIndex + 1 else 0;
      } else {
        result := if currentTrackIndex > 0 then currentTrackIndex - 1 else 0;
      }
    }
  }

  /**
   * GetNextTrack / GetPreviousTrack: no clip for an empty (or absent) list, else
   * the clip at TrackIndex; the second component is what is left of the draws.
   */
  function SelectTrack(tracks: seq<Clip>, current: Option<Clip>, isShuffleMode: bool,
                       isNextTrackIndexRequired: bool, draws: seq<nat>): (r: (Option<Clip>, seq<nat>))
    requires |tracks| > 0 ==> CanRedraw(tracks, current, isShuffleMode, draws)
    ensures r.0.None? <==> |tracks| == 0
    ensures r.0.Some? ==> r.0.value in tracks
    ensures |tracks| > 0 && current.None? ==> r == (Some(tracks[0]), draws)
    ensures !isShuffleMode || current.None? ==> r.1 == draws
  {
    if |tracks| == 0 then (None, draws)
    else
      var (index, used) := TrackIndex(tracks, current, isShuffleMode, isNextTrackIndexRequired, draws);
      (Some(tracks[index]), draws[used..])
  }

  /** Distinct says exactly that no two positions hold the same element. */
  lemma DistinctIsPairwise<T>(s: seq<T>)
    ensures Distinct(s) <==> forall i, j :: 0 <= i < j < |s| ==> s[i] != s[j]
  {
    if Distinct(s) {
      forall i, j | 0 <= i < j < |s| ensures s[i] != s[j] {
        assert IndexOf(s, s[j]) == j;
      }
    }
    if forall i, j :: 0 <= i < j < |s| ==> s[i] != s[j] {
      forall i | 0 <= i < |s| ensures IndexOf(s, s[i]) == i {
        var k := IndexOf(s, s[i]);
        assert s[k] == s[i];
      }
    }
  }

  /** The clip sequential "next" moves to from `current`: what SelectTrack gives outside shuffle mode. */
  function NextOf(tracks: seq<Clip>, current: Option<Clip>): (r: Option<Clip>)
    requires |tracks| > 0
    ensures forall draws: seq<nat> :: r == SelectTrack(tracks, current, false, true, draws).0
  {
    Some(tracks[if current.None? then 0 else NextIndex(IndexOf(tracks, current.value), |tracks|)])
  }

  /** The clip current after `k` presses of "next" in sequential mode, starting with no current clip. */
  function NextPresses(tracks: seq<Clip>, k: nat): (r: Option<Clip>)
    requires |tracks| > 0
    ensures r.None? <==> k == 0
  {
    if k == 0 then None else NextOf(tracks, NextPresses(tracks, k - 1))
  }

  /** Sequential "next" from position i of a list without duplicates: position (i + 1) mod n. */
  lemma SequentialNext(tracks: seq<Clip>, i: int)
    requires Distinct(tracks) && 0 <= i < |tracks|
    ensures NextOf(tracks, Some(tracks[i])) == Some(tracks[(i + 1) % |tracks|])
  {
    NextFromPosition(tracks, i);
    SuccessorMod(i, |tracks|);
  }

  /** Sequential "next" from position i of a list without duplicates, by the index rule. */
  lemma NextFromPosition(tracks: seq<Clip>, i: int)
    requires Distinct(tracks) && 0 <= i < |tracks|
    ensures NextOf(tracks, Some(tracks[i])) == Some(tracks[NextIndex(i, |tracks|)])
  {
    assert IndexOf(tracks, tracks[i]) == i;
  }

  /** Sequential "next" is the successor modulo the length of the list. */
  lemma SuccessorMod(i: int, n: int)
    requires 0 <= i < n
    ensures NextIndex(i, n) == (i + 1) % n
  {
    if i + 1 == n {
      assert (i + 1) % n == 0;
    } else {
      assert (i + 1) % n == i + 1;
    }
  }

  /** The first n presses of "next" in sequential mode visit a list without duplicates in order. */
  lemma {:induction false} NextVisitsInOrder(tracks: seq<Clip>, k: nat)
    requires Distinct(tracks) && k < |tracks|
    ensures NextPresses(tracks, k + 1) == Some(tracks[k])
  {
    if k > 0 {
      NextVisitsInOrder(tracks, k - 1);
      NextFromPosition(tracks, k - 1);
      assert NextIndex(k - 1, |tracks|) == k;
    }
  }

  /** Once the presses come back to the clip of the first press after `p` more, they repeat with period `p`. */
  lemma {:induction false} PressesRepeat(tracks: seq<Clip>, p: nat, k: nat)
    requires |tracks| > 0 && k > 0 && NextPresses(tracks, 1 + p) == NextPresses(tracks, 1)
    ensures NextPresses(tracks, k + p) == NextPresses(tracks, k)
  {
    if k > 1 {
      PressesRepeat(tracks, p, k - 1);
      var previous := NextPresses(tracks, k - 1);
      assert NextPresses(tracks, k - 1 + p) == previous;
      assert NextPresses(tracks, k + p) == NextOf(tracks, previous);
      assert NextPresses(tracks, k) == NextOf(tracks, previous);
    }
  }

  /** On a list without duplicates, the press after the n-th comes back to the first clip. */
  lemma WrapsAfterLast(tracks: seq<Clip>)
    requires Distinct(tracks) && |tracks| > 0
    ensures NextPresses(tracks, 1 + |tracks|) == NextPresses(tracks, 1)
  {
    var n := |tracks|;
    NextVisitsInOrder(tracks, n - 1);
    NextFromPosition(tracks, n - 1);
    assert NextIndex(n - 1, n) == 0;
    assert NextPresses(tracks, 1 + n) == NextOf(tracks, NextPresses(tracks, n));
  }

  /**
   * Sequential "next" cycles through a list of n clips without duplicates:
   * after the first n presses the same clips come again in the same order.
   */
  lemma NextCycles(tracks: seq<Clip>, k: nat)
    requires Distinct(tracks) && |tracks| > 0 && k > 0
    ensures NextPresses(tracks, k + |tracks|) == NextPresses(tracks, k)
  {
    WrapsAfterLast(tracks);
    PressesRepeat(tracks, |tracks|, k);
  }

  /** Sequential "previous" from position i of a list without duplicates goes to i - 1, and stays on the first clip. */
  lemma PreviousStepsBack(tracks: seq<Clip>, i: int, draws: seq<nat>)
    requires Distinct(tracks) && 0 <= i < |tracks|
    ensures SelectTrack(tracks, Some(tracks[i]), false, false, draws).0 == Some(tracks[if i > 0 then i - 1 else 0])
  {
    assert IndexOf(tracks, tracks[i]) == i;
  }

  /** Sequential "next" from the last position of a list without duplicates wraps to the first clip. */
  lemma NextWrapsAtEnd(tracks: seq<Clip>, draws: seq<nat>)
    requires Distinct(tracks) && |tracks| > 0
    ensures SelectTrack(tracks, Some(tracks[|tracks| - 1]), false, true, draws).0 == Some(tracks[0])
  {
    assert IndexOf(tracks, tracks[|tracks| - 1]) == |tracks| - 1;
  }

  /** A current clip that is not in the list (IndexOf gives -1) leads to the first clip, going either way. */
  lemma MissingCurrentGivesFirst(tracks: seq<Clip>, c: Clip, next: bool, draws: seq<nat>)
    requires |tracks| > 0 && c !in tracks
    ensures SelectTrack(tracks, Some(c), false, next, draws).0 == Some(tracks[0])
  {
    assert IndexOf(tracks, c) == -1;
  }

  /** In shuffle mode on a list without duplicates the chosen clip is never the current one. */
  lemma ShuffleChangesTrack(tracks: seq<Clip>, c: Clip, next: bool, draws: seq<nat>)
    requires Distinct(tracks) && c in tracks && CanRedraw(tracks, Some(c), true, draws)
    ensures SelectTrack(tracks, Some(c), true, next, draws).0 != Some(c)
  {
    var r := SelectTrack(tracks, Some(c), true, next, draws).0;
    var index := TrackIndex(tracks, Some(c), true, next, draws).0;
    assert r == Some(tracks[index]);
    assert IndexOf(tracks, tracks[index]) == index;
  }

  /**
   * With the first clip listed twice, sequential "next" never leaves it:
   * IndexOf finds its first copy, so every press goes back to position 1.
   */
  lemma {:induction false} RepeatedClipTrapsNext(a: Clip, b: Clip, k: nat)
    ensures NextPresses([a, a, b], k + 1) == Some(a)
  {
    if k > 0 {
      RepeatedClipTrapsNext(a, b, k - 1);
      assert IndexOf([a, a, b], a) == 0;
    }
  }

  /**
   * With a single clip that is the current one, no stream of draws ends the
   * shuffle redraw loop: every draw gives index 0, the current index.
   */
  lemma SingleTrackShuffleNeverEnds(tracks: seq<Clip>, c: Clip, draws: seq<nat>)
    requires |tracks| == 1 && c in tracks
    ensures !CanRedraw(tracks, Some(c), true, draws)
  {
    assert IndexOf(tracks, c) == 0;
    forall k | 0 <= k < |draws| ensures draws[k] % 1 == 0 {
    }
  }

  /** With two or more clips some stream of draws ends the shuffle redraw loop after one draw. */
  lemma ShuffleEndsWithTwoTracks(tracks: seq<Clip>, c: Clip)
    requires |tracks| >= 2
    ensures CanRedraw(tracks, Some(c), true, [if IndexOf(tracks, c) == 0 then 1 else 0])
  {
    var d: seq<nat> := [if IndexOf(tracks, c) == 0 then 1 else 0];
    assert d[0] % |tracks| != IndexOf(tracks, c);
  }
}
