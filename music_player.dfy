/**
 * The floating music player.  Playback is simulated: while playing, a timer
 * advances `progress` by half a percent per tick and wraps to 0 after 100.
 * Three buttons flip the play, mute and expand flags, and each row of the
 * expanded track list starts its track from the beginning.
 */
module MusicPlayer {
  import ChaptersData

  datatype Track = Track(id: string, title: string, titleNative: string,
                         language: ChaptersData.Language, artist: string, duration: string)

  const tracks: seq<Track> := [
    Track("1", "Seoul Sunrise", "서울의 일출", ChaptersData.Kr, "Han River Flow", "4:32"),
    Track("2", "Temple Bells", "寺の鐘", ChaptersData.Jp, "Zen Gardens", "5:18"),
    Track("3", "Arirang Drift", "아리랑", ChaptersData.Kr, "Tradition Reborn", "3:45"),
    Track("4", "Cherry Blossom Rain", "桜の雨", ChaptersData.Jp, "Spring Eternal", "6:02")
  ]

  /** The tick's update: wrap to 0 once 100 is reached, otherwise add half a percent. */
  function NextProgress(p: real): (q: real)
    ensures 0.0 <= p ==> 0.0 <= q
    ensures p <= 99.5 ==> q <= 100.0
    ensures q == 0.0 || q == p + 0.5
    ensures q < p <==> p >= 100.0 && p > 0.0
  {
    if p >= 100.0 then 0.0 else p + 0.5
  }

  /** Progress after `n` ticks from `p`. */
  function Ticks(n: nat, p: real): real
    decreases n
  {
    if n == 0 then p else NextProgress(Ticks(n - 1, p))
  }

  lemma {:induction false} TicksCompose(a: nat, b: nat, p: real)
    ensures Ticks(a + b, p) == Ticks(b, Ticks(a, p))
    decreases b
  {
    if b > 0 {
      TicksCompose(a, b - 1, p);
    }
  }

  /** From 0, the k-th tick shows k half-percents, up to 100 at the 200th tick. */
  lemma {:induction false} TicksFromZero(k: nat)
    requires k <= 200
    ensures Ticks(k, 0.0) == k as real * 0.5
    decreases k
  {
    if k > 0 {
      TicksFromZero(k - 1);
    }
  }

  /** Playback loops: 201 ticks after any point, the progress is back where it was. */
  lemma ProgressPeriodic(n: nat)
    ensures Ticks(201, 0.0) == 0.0
    ensures Ticks(n + 201, 0.0) == Ticks(n, 0.0)
  {
    TicksFromZero(200);
    assert Ticks(201, 0.0) == NextProgress(100.0);
    TicksCompose(201, n, 0.0);
    assert n + 201 == 201 + n;
  }

  /** The visualizer bar heights: a fixed pattern while playing, all 4 when paused. */
  function BarHeight(isPlaying: bool, i: nat): (h: nat)
    ensures 4 <= h <= 16
    ensures !isPlaying ==> h == 4
  {
    if isPlaying then [4, 12, 8, 16, 6][i % 5] else 4
  }

  function CountTrue(s: seq<bool>): nat
    decreases |s|
  {
    if s == [] then 0 else (if s[|s| - 1] then 1 else 0) + CountTrue(s[..|s| - 1])
  }

  /** Among rows flagged "is the current one", exactly one is flagged when the current index is in range. */
  lemma {:induction false} ExactlyOneFlagged(n: nat, current: nat)
    requires current < n
    ensures CountTrue(seq(n, i => i == current)) == 1
    decreases n
  {
    var s := seq(n, i => i == current);
    if n - 1 == current {
      assert s[..n - 1] == seq(n - 1, i => false);
      NoneFlagged(n - 1);
    } else {
      assert s[..n - 1] == seq(n - 1, i => i == current);
      ExactlyOneFlagged(n - 1, current);
    }
  }

  lemma {:induction false} NoneFlagged(n: nat)
    ensures CountTrue(seq(n, i => false)) == 0
    decreases n
  {
    if n > 0 {
      assert seq(n, i => false)[..n - 1] == seq(n - 1, i => false);
      NoneFlagged(n - 1);
    }
  }

  class Player {
    var isExpanded: bool
    var isPlaying: bool
    var isMuted: bool
    var currentTrack: nat
    var progress: real
    ghost var steps: nat    // progress counted in half-percents

    ghost predicate Valid()
      reads this
    {
      && currentTrack < |tracks|
      && steps <= 200
      && progress == steps as real * 0.5
    }

    constructor ()
      ensures Valid()
      ensures !isExpanded && !isPlaying && !isMuted
      ensures currentTrack == 0 && progress == 0.0
    {
      isExpanded, isPlaying, isMuted := false, false, false;
      currentTrack := 0;
      progress := 0.0;
      steps := 0;
    }

    /** One interval tick; the interval only runs while playing, so a paused player is unchanged. */
    method Tick()
      requires Valid()
      modifies this`progress, this`steps
      ensures Valid()
      ensures isPlaying ==> progress == NextProgress(old(progress))
      ensures !isPlaying ==> progress == old(progress)
    {
      if isPlaying {
        if progress >= 100.0 {
          progress := 0.0;
          steps := 0;
        } else {
          progress := progress + 0.5;
          steps := steps + 1;
        }
      }
    }

    /** The play/pause button. */
    method TogglePlay()
      requires Valid()
      modifies this`isPlaying
      ensures Valid() && isPlaying == !old(isPlaying)
    {
      isPlaying := !isPlaying;
    }

    /** The mute button. */
    method ToggleMute()
      requires Valid()
      modifies this`isMuted
      ensures Valid() && isMuted == !old(isMuted)
    {
      isMuted := !isMuted;
    }

    /** The expand/collapse button. */
    method ToggleExpand()
      requires Valid()
      modifies this`isExpanded
      ensures Valid() && isExpanded == !old(isExpanded)
    {
      isExpanded := !isExpanded;
    }

    /** A row of the track list: start that track from the beginning. */
    method SelectTrack(i: nat)
      requires Valid()
      requires i < |tracks|
      modifies this`currentTrack, this`isPlaying, this`progress, this`steps
      ensures Valid()
      ensures currentTrack == i && isPlaying && progress == 0.0
    {
      currentTrack := i;
      isPlaying := true;
      progress := 0.0;
      steps := 0;
    }

    /** The track shown in the bar; always defined because `currentTrack` stays in range. */
    function Track(): (t: Track)
      reads this
      requires Valid()
      ensures t in tracks
    {
      tracks[currentTrack]
    }

    /** Which rows of the track list are highlighted. */
    function RowHighlights(): (rows: seq<bool>)
      reads this
      requires Valid()
      ensures |rows| == |tracks|
      ensures forall i :: 0 <= i < |rows| ==> (rows[i] <==> i == currentTrack)
      ensures CountTrue(rows) == 1
    {
      var current := currentTrack;
      ExactlyOneFlagged(|tracks|, current);
      seq(|tracks|, i => i == current)
    }
  }

  /** Each button is its own inverse, and touches nothing but its own flag. */
  method PressEachTwice(m: Player)
    requires m.Valid()
    modifies m
    ensures m.Valid()
    ensures m.isPlaying == old(m.isPlaying) && m.isMuted == old(m.isMuted) && m.isExpanded == old(m.isExpanded)
    ensures m.currentTrack == old(m.currentTrack) && m.progress == old(m.progress)
  {
    m.TogglePlay();
    m.TogglePlay();
    m.ToggleMute();
    m.ToggleMute();
    m.ToggleExpand();
    m.ToggleExpand();
  }

  /** Selecting a track keeps the mute and expand flags. */
  method SelectKeepsFlags(m: Player, i: nat)
    requires m.Valid() && i < |tracks|
    modifies m
    ensures m.Valid() && m.currentTrack == i && m.isPlaying && m.progress == 0.0
    ensures m.isMuted == old(m.isMuted) && m.isExpanded == old(m.isExpanded)
  {
    m.SelectTrack(i);
  }
}
