/**
 * The audio archive tab: a fixed list of tracks and the index of the current
 * one, which the track rows set directly and the two skip buttons move by
 * one step, clamped at both ends.
 */
module Tracks {

  /** The track list, in display order. */
  const Playlist: seq<string> := ["DECAY.mp3", "GLITCH_MEMORIES.mp3", "ARCHIVE_001.mp3"]

  /** `Math.max` on integers. */
  function Max(a: int, b: int): (r: int)
    ensures r >= a && r >= b
    ensures r == a || r == b
  {
    if a >= b then a else b
  }

  /** `Math.min` on integers. */
  function Min(a: int, b: int): (r: int)
    ensures r <= a && r <= b
    ensures r == a || r == b
  {
    if a <= b then a else b
  }

  /**
   * The skip-back button, `Math.max(0, current - 1)`: one step towards the
   * first track, and no step at all from the first track (no wrap-around).
   */
  function SkipBack(current: int): (r: int)
    ensures current >= 1 ==> r == current - 1
    ensures current == 0 ==> r == current
    ensures 0 <= current ==> 0 <= r <= current
  {
    Max(0, current - 1)
  }

  /**
   * The skip-forward button, `Math.min(count - 1, current + 1)`: one step
   * towards the last track, and no step at all from the last track.
   */
  function SkipForward(current: int, count: int): (r: int)
    ensures 0 <= current < count - 1 ==> r == current + 1
    ensures current == count - 1 ==> r == current
    ensures 0 <= current < count ==> 0 <= r < count
  {
    Min(count - 1, current + 1)
  }

  /** A control of the audio tab that moves the current track. */
  datatype Control = Back | Forward | Select(index: int)

  /**
   * The current track after the controls in `presses` are used in turn on a
   * list of `count` tracks. A track row passes its own position, so a
   * `Select` always names a listed track. With no presses the track stays
   * put; when the last press is a row click, that row's track is current.
   */
  function Navigate(current: int, count: int, presses: seq<Control>): (r: int)
    ensures presses == [] ==> r == current
    ensures presses != [] && presses[|presses| - 1].Select? ==> r == presses[|presses| - 1].index
    decreases |presses|
  {
    if presses == [] then current
    else
      var next := match presses[0]
        case Back => SkipBack(current)
        case Forward => SkipForward(current, count)
        case Select(index) => index;
      Navigate(next, count, presses[1..])
  }

  /** Any sequence of presses keeps the current track within the list. */
  lemma {:induction false} NavigateStaysInRange(current: int, count: int, presses: seq<Control>)
    requires 0 <= current < count
    requires forall i :: 0 <= i < |presses| && presses[i].Select? ==> 0 <= presses[i].index < count
    ensures 0 <= Navigate(current, count, presses) < count
    decreases |presses|
  {
    if presses != [] {
      var next := match presses[0]
        case Back => SkipBack(current)
        case Forward => SkipForward(current, count)
        case Select(index) => index;
      NavigateStaysInRange(next, count, presses[1..]);
    }
  }

  /** `k` presses of skip back from a listed track land on `max(0, current - k)`. */
  lemma {:induction false} RepeatedSkipBack(current: int, count: int, k: nat)
    requires 0 <= current < count
    ensures Navigate(current, count, seq(k, _ => Back)) == Max(0, current - k)
    decreases k
  {
    if k > 0 {
      assert seq(k, _ => Back)[1..] == seq(k - 1, _ => Back);
      RepeatedSkipBack(SkipBack(current), count, k - 1);
    }
  }

  /** `k` presses of skip forward from a listed track land on `min(count - 1, current + k)`. */
  lemma {:induction false} RepeatedSkipForward(current: int, count: int, k: nat)
    requires 0 <= current < count
    ensures Navigate(current, count, seq(k, _ => Forward)) == Min(count - 1, current + k)
    decreases k
  {
    if k > 0 {
      assert seq(k, _ => Forward)[1..] == seq(k - 1, _ => Forward);
      RepeatedSkipForward(SkipForward(current, count), count, k - 1);
    }
  }
}
