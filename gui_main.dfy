/** The main player screen: which song the keyboard shortcuts and the
    music-control buttons ask the playlist to play, the keyboard focus cursor
    that walks the screen's rows of controls, and the playlist's selection
    cursor. Key presses and mouse clicks of one frame are inputs. */
module GuiMain {
  import opened Common
  import opened Song

  // ---------------------------------------------------------------------
  // Which song to play next

  /** Next (the N key and the next button): the following song, wrapping
      around to the first; the first when nothing plays. */
  function NextIndex(playing: Option<nat>, len: nat): (r: nat)
    ensures len > 0 ==> r < len
    ensures playing.Some? && playing.value < len ==> r == (playing.value + 1) % len
    ensures playing.None? ==> r == 0
  {
    match playing
    case Some(idx) => if idx + 1 < len then idx + 1 else 0
    case None => 0
  }

  /** Previous by Shift+N, or `None` when no song is asked for. At the first
      song it asks for the second one. */
  function PrevKeyIndex(playing: Option<nat>, len: nat): (r: Option<nat>)
    ensures playing.Some? && 0 < playing.value < len ==> r == Some(playing.value - 1)
    ensures playing.Some? && len <= playing.value ==> r == (if playing.value == 0 then Some(1) else if len > 0 then Some(len - 1) else None)
    ensures playing == Some(0) ==> r == Some(1)
    ensures playing.None? ==> r == Some(0)
    ensures r.None? <==> playing.Some? && playing.value > 0 && len == 0
  {
    match playing
    case Some(idx) =>
      if idx == 0 then Some(idx + 1)
      else if idx < len then Some(idx - 1)
      else if len > 0 then Some(len - 1)
      else None
    case None => Some(0)
  }

  /** The previous button: "nothing playing" counts as the first song, which
      is replayed; otherwise the song before, clamped to the list. */
  function PrevButtonIndex(playing: Option<nat>, len: nat): (r: nat)
    ensures len > 0 ==> r < len
    ensures playing.Some? && 0 < playing.value <= len ==> r == playing.value - 1
    ensures playing.GetOr(0) == 0 ==> r == 0
  {
    var idx := playing.GetOr(0);
    if idx == 0 then 0
    else if idx - 1 < len then idx - 1
    else if len > 0 then len - 1
    else 0
  }

  /** Next and the previous button undo each other away from the ends of the list. */
  lemma NextAndPrevButtonAreInverse(i: nat, len: nat)
    requires i + 1 < len
    ensures PrevButtonIndex(Some(NextIndex(Some(i), len)), len) == i
    ensures NextIndex(Some(PrevButtonIndex(Some(i + 1), len)), len) == i + 1
  {
  }

  /** Shift+N on the only song of the list asks for a second song that does
      not exist, so playback stops. */
  lemma PrevKeyOnSingleSongStops(song: PlayingSong, songs: seq<SongEntry>, loader: Loader)
    requires |songs| == 1 && song.idx == 0
    ensures PrevKeyIndex(Some(song.idx), |songs|) == Some(1)
    ensures PlayOutcome(Some(song), songs, 1, loader) == None
  {
  }

  /** What the end of a track leads to. */
  datatype EndAction = PlayNext(idx: nat) | StopPlayback | Rewind

  /** The end of the playing track `idx`: Normal plays the next song or stops
      after the last; Repeat wraps around to the first; RepeatSingle rewinds. */
  function EndOfTrack(idx: nat, len: nat, mode: RepeatBehavior): (r: EndAction)
    ensures r == Rewind <==> mode == RepeatSingle
    ensures r.PlayNext? ==> r.idx < len
    ensures mode == Normal ==> (r.PlayNext? <==> idx + 1 < len) && (r.PlayNext? ==> r.idx == idx + 1)
    ensures mode == Repeat && idx < len ==> r.PlayNext? && (r.idx == idx + 1 || (r.idx == 0 && idx + 1 == len))
    ensures mode == Repeat && len == 0 ==> r == StopPlayback
  {
    match mode
    case Normal => if idx + 1 < len then PlayNext(idx + 1) else StopPlayback
    case RepeatSingle => Rewind
    case Repeat =>
      if idx + 1 < len then PlayNext(idx + 1)
      else if len > 0 then PlayNext(0)
      else StopPlayback
  }

  /** In Repeat mode the end of a track moves on exactly like the N key. */
  lemma RepeatEndIsNext(idx: nat, len: nat)
    requires idx < len
    ensures EndOfTrack(idx, len, Repeat) == PlayNext(NextIndex(Some(idx), len))
  {
  }

  /** The song playing after `n` track ends in Repeat mode, starting at `idx`
      (every load succeeding). */
  function RepeatedEnds(idx: nat, len: nat, n: nat): (r: nat)
    requires idx < len
    ensures r < len
  {
    if n == 0 then idx
    else
      var e := EndOfTrack(RepeatedEnds(idx, len, n - 1), len, Repeat);
      if e.PlayNext? then e.idx else idx
  }

  /** A remainder is determined by any division it comes from. */
  lemma ModUnique(x: nat, m: nat, q: nat, r: nat)
    requires m > 0 && r < m && x == q * m + r
    ensures x % m == r
  {
    var q0, r0 := x / m, x % m;
    assert q0 * m + r0 == q * m + r;
    if q0 > q {
      assert (q0 - q) * m == r - r0;
      MulAtLeast(q0 - q, m);
    } else if q0 < q {
      assert (q - q0) * m == r0 - r;
      MulAtLeast(q - q0, m);
    }
  }

  lemma MulAtLeast(k: nat, m: nat)
    requires k >= 1
    ensures k * m >= m
  {
    assert k * m == (k - 1) * m + m;
  }

  lemma ModSucc(a: nat, m: nat)
    requires m > 0
    ensures (a % m + 1) % m == (a + 1) % m
  {
    var q, r := a / m, a % m;
    if r + 1 < m {
      ModUnique(a + 1, m, q, r + 1);
      ModUnique(r + 1, m, 0, r + 1);
    } else {
      assert a + 1 == (q + 1) * m;
      ModUnique(a + 1, m, q + 1, 0);
      ModUnique(r + 1, m, 1, 0);
    }
  }

  /** One track end in Repeat mode moves one place on, wrapping around. */
  lemma RepeatStep(p: nat, len: nat)
    requires p < len
    ensures EndOfTrack(p, len, Repeat) == PlayNext((p + 1) % len)
  {
    if p + 1 < len {
      ModUnique(p + 1, len, 0, p + 1);
    } else {
      ModUnique(p + 1, len, 1, 0);
    }
  }

  /** Repeat mode plays the list round-robin: after `n` track ends the song
      `n` places further on plays, so every song comes up and `len` ends
      bring the first song back. */
  lemma {:induction false} RepeatIsRoundRobin(idx: nat, len: nat, n: nat)
    requires idx < len
    ensures RepeatedEnds(idx, len, n) == (idx + n) % len
  {
    if n > 0 {
      var p := RepeatedEnds(idx, len, n - 1);
      RepeatIsRoundRobin(idx, len, n - 1);
      RepeatStep(p, len);
      ModSucc(idx + n - 1, len);
      assert RepeatedEnds(idx, len, n) == (p + 1) % len;
    }
  }

  // ---------------------------------------------------------------------
  // Playlist operations triggered by keys and buttons

  /** Next (the N key without Shift, and the next button). */
  method NextTrack(p: Playlist, loader: Loader, screenHeight: int)
    requires p.Valid()
    modifies p
    ensures p.Valid()
    ensures p.songs == old(p.songs) && p.repeat == old(p.repeat) && p.currentSelected == old(p.currentSelected)
    ensures p.current == PlayOutcome(old(p.current), p.songs, NextIndex(old(p.CurrentlyPlayingId()), |p.songs|), loader)
    ensures p.State() == NKeyEffect(old(p.State()), false, loader)
    ensures var j := NextIndex(old(p.CurrentlyPlayingId()), |p.songs|);
      p.scrollIndex == if Starts(old(p.current), p.songs, j, loader) then CenterScroll(j, screenHeight - 180) else old(p.scrollIndex)
  {
    var playing := p.CurrentlyPlayingId();
    if playing.Some? {
      var idx := playing.value;
      if idx + 1 < p.Len() {
        p.PlayIgnoreErr(idx + 1, loader, screenHeight);
      } else {
        p.PlayIgnoreErr(0, loader, screenHeight);
      }
    } else {
      p.PlayIgnoreErr(0, loader, screenHeight);
    }
  }

  /** Previous by Shift+N. */
  method PrevTrackKey(p: Playlist, loader: Loader, screenHeight: int)
    requires p.Valid()
    modifies p
    ensures p.Valid()
    ensures p.songs == old(p.songs) && p.repeat == old(p.repeat) && p.currentSelected == old(p.currentSelected)
    ensures var t := PrevKeyIndex(old(p.CurrentlyPlayingId()), |p.songs|);
      p.current == if t.Some? then PlayOutcome(old(p.current), p.songs, t.value, loader) else old(p.current)
    ensures p.State() == NKeyEffect(old(p.State()), true, loader)
    ensures var t := PrevKeyIndex(old(p.CurrentlyPlayingId()), |p.songs|);
      p.scrollIndex ==
        if t.Some? && Starts(old(p.current), p.songs, t.value, loader) then CenterScroll(t.value, screenHeight - 180)
        else old(p.scrollIndex)
  {
    match PrevKeyIndex(p.CurrentlyPlayingId(), p.Len())
    case Some(target) => p.PlayIgnoreErr(target, loader, screenHeight);
    case None =>
  }

  /** The previous button. */
  method PrevTrackButton(p: Playlist, loader: Loader, screenHeight: int)
    requires p.Valid()
    modifies p
    ensures p.Valid()
    ensures p.songs == old(p.songs) && p.repeat == old(p.repeat) && p.currentSelected == old(p.currentSelected)
    ensures p.current == PlayOutcome(old(p.current), p.songs, PrevButtonIndex(old(p.CurrentlyPlayingId()), |p.songs|), loader)
    ensures var j := PrevButtonIndex(old(p.CurrentlyPlayingId()), |p.songs|);
      p.scrollIndex == if Starts(old(p.current), p.songs, j, loader) then CenterScroll(j, screenHeight - 180) else old(p.scrollIndex)
  {
    var target := PrevButtonIndex(p.CurrentlyPlayingId(), p.Len());
    p.PlayIgnoreErr(target, loader, screenHeight);
  }

  /** The playing track has reached its end. */
  method TrackEnded(p: Playlist, loader: Loader, screenHeight: int)
    requires p.Valid() && p.current.Some?
    modifies p
    ensures p.Valid()
    ensures p.songs == old(p.songs) && p.repeat == old(p.repeat) && p.currentSelected == old(p.currentSelected)
    ensures p.current ==
      match EndOfTrack(old(p.current).value.idx, |p.songs|, p.repeat)
      case PlayNext(j) => PlayOutcome(old(p.current), p.songs, j, loader)
      case StopPlayback => None
      case Rewind => old(p.current)
    ensures p.State() == EndEffect(old(p.State()), loader)
    ensures p.scrollIndex ==
      match EndOfTrack(old(p.current).value.idx, |p.songs|, p.repeat)
      case PlayNext(j) => if Starts(old(p.current), p.songs, j, loader) then CenterScroll(j, screenHeight - 180) else old(p.scrollIndex)
      case _ => old(p.scrollIndex)
  {
    match EndOfTrack(p.current.value.idx, p.Len(), p.repeat)
    case PlayNext(j) => p.PlayIgnoreErr(j, loader, screenHeight);
    case StopPlayback => p.StopPlaying();
    case Rewind =>  // the stream is only seeked back to its start
  }

  /** The R key: with Ctrl the playlist is shuffled, without it the repeat
      mode advances once. */
  method PressR(p: Playlist, ctrl: bool, picks: seq<(nat, nat)>)
    requires p.Valid()
    requires |picks| == |p.songs| && PicksInRange(picks, |p.songs|)
    modifies p
    ensures p.Valid()
    ensures p.songs == if ctrl then Shuffled(old(p.songs), picks) else old(p.songs)
    ensures p.current == if ctrl then ShuffledCurrent(old(p.current), picks) else old(p.current)
    ensures p.repeat == if ctrl then old(p.repeat) else old(p.repeat).Next()
    ensures p.currentSelected == old(p.currentSelected)
    ensures p.State() == if ctrl then ShuffleEffect(old(p.State()), picks) else old(p.State()).(repeat := old(p.repeat).Next())
  {
    if ctrl {
      p.Shuffle(picks);
    } else {
      p.repeat := p.repeat.Next();
    }
  }

  // ---------------------------------------------------------------------
  // The same playback steps on the playlist as a value

  /** What `currently_playing_id` reports for a playing song. */
  function PlayingIdOf(cur: Option<PlayingSong>): Option<nat> {
    if cur.Some? then Some(cur.value.idx) else None
  }

  /** `play_ignore_err(idx)`. */
  function PlayEffect(t: PlaylistState, idx: nat, loader: Loader): (r: PlaylistState)
    ensures r.songs == t.songs && r.repeat == t.repeat && r.selected == t.selected
  {
    t.(current := PlayOutcome(t.current, t.songs, idx, loader))
  }

  /** `pause_resume`: the playing song is paused or resumed. */
  function Toggled(t: PlaylistState): (r: PlaylistState)
    ensures r.songs == t.songs && r.repeat == t.repeat && r.selected == t.selected
  {
    if t.current.Some? then t.(current := Some(t.current.value.(playing := !t.current.value.playing))) else t
  }

  /** `shuffle` with the draws `picks`; the playing song is followed. */
  function ShuffleEffect(t: PlaylistState, picks: seq<(nat, nat)>): PlaylistState
    requires PicksInRange(picks, |t.songs|)
  {
    t.(songs := Shuffled(t.songs, picks), current := ShuffledCurrent(t.current, picks))
  }

  /** The N key: next, or with Shift the Shift+N rule. */
  function NKeyEffect(t: PlaylistState, shift: bool, loader: Loader): (r: PlaylistState)
    ensures r.songs == t.songs && r.repeat == t.repeat && r.selected == t.selected
  {
    if shift then
      match PrevKeyIndex(PlayingIdOf(t.current), |t.songs|)
      case Some(j) => PlayEffect(t, j, loader)
      case None => t
    else PlayEffect(t, NextIndex(PlayingIdOf(t.current), |t.songs|), loader)
  }

  /** The end-of-track rule applied to a playing song. */
  function EndEffect(t: PlaylistState, loader: Loader): (r: PlaylistState)
    requires t.current.Some?
    ensures r.songs == t.songs && r.repeat == t.repeat && r.selected == t.selected
  {
    match EndOfTrack(t.current.value.idx, |t.songs|, t.repeat)
    case PlayNext(j) => PlayEffect(t, j, loader)
    case StopPlayback => t.(current := None)
    case Rewind => t
  }

  /** The keyboard state `update_music` reads. */
  datatype MusicKeys = MusicKeys(space: bool, n: bool, r: bool, m: bool, shift: bool, ctrl: bool)

  /** The playlist after the shortcut keys of `update_music`: Space, then N,
      then R. */
  function ShortcutEffect(t: PlaylistState, keys: MusicKeys, loader: Loader, picks: seq<(nat, nat)>): (r: PlaylistState)
    requires PicksInRange(picks, |t.songs|)
    ensures r.songs == if keys.r && keys.ctrl then Shuffled(t.songs, picks) else t.songs
    ensures r.repeat == if keys.r && !keys.ctrl then t.repeat.Next() else t.repeat
    ensures r.selected == t.selected
  {
    var t1 := if keys.space then Toggled(t) else t;
    var t2 := if keys.n then NKeyEffect(t1, keys.shift, loader) else t1;
    if keys.r then (if keys.ctrl then ShuffleEffect(t2, picks) else t2.(repeat := t2.repeat.Next())) else t2
  }

  /** The playlist after `update_music`: the shortcut keys, then the
      end-of-track rule if the stream has reached its end. Only Ctrl+R
      reorders the songs and only R alone changes the repeat mode. */
  function MusicEffect(t: PlaylistState, keys: MusicKeys, reachedEnd: bool, loader: Loader, picks: seq<(nat, nat)>): (r: PlaylistState)
    requires PicksInRange(picks, |t.songs|)
    ensures r.songs == if keys.r && keys.ctrl then Shuffled(t.songs, picks) else t.songs
    ensures r.repeat == if keys.r && !keys.ctrl then t.repeat.Next() else t.repeat
    ensures r.selected == t.selected
  {
    var s := ShortcutEffect(t, keys, loader, picks);
    if reachedEnd && s.current.Some? then EndEffect(s, loader) else s
  }

  /** Space, N and R keep the playing song on the slot it was started
      from, and only reorder the songs. */
  lemma ShortcutsKeepConsistent(t: PlaylistState, keys: MusicKeys, loader: Loader, picks: seq<(nat, nat)>)
    requires PicksInRange(picks, |t.songs|) && Consistent(t.current, t.songs)
    ensures var r := ShortcutEffect(t, keys, loader, picks);
      Consistent(r.current, r.songs) && multiset(r.songs) == multiset(t.songs)
  {
    var t1 := if keys.space then Toggled(t) else t;
    var t2 := if keys.n then NKeyEffect(t1, keys.shift, loader) else t1;
    assert Consistent(t2.current, t2.songs) && t2.songs == t.songs;
    if keys.r && keys.ctrl {
      ShuffleKeepsConsistent(t2.current, t.songs, picks);
      ShufflePermutes(t.songs, picks);
    }
  }

  /** The playback shortcuts and the end of a track keep the playing song
      on the slot it was started from, and only reorder the songs. */
  lemma MusicEffectKeepsConsistent(t: PlaylistState, keys: MusicKeys, reachedEnd: bool, loader: Loader, picks: seq<(nat, nat)>)
    requires PicksInRange(picks, |t.songs|) && Consistent(t.current, t.songs)
    ensures var r := MusicEffect(t, keys, reachedEnd, loader, picks);
      Consistent(r.current, r.songs) && multiset(r.songs) == multiset(t.songs)
  {
    ShortcutsKeepConsistent(t, keys, loader, picks);
  }

  /** Space, N and R in `update_music`. */
  method PlaybackShortcuts(p: Playlist, keys: MusicKeys, loader: Loader, picks: seq<(nat, nat)>, screenHeight: int)
    requires p.Valid()
    requires |picks| == |p.songs| && PicksInRange(picks, |p.songs|)
    modifies p
    ensures p.Valid()
    ensures p.State() == ShortcutEffect(old(p.State()), keys, loader, picks)
  {
    ghost var t0 := p.State();
    if keys.space {
      p.PauseResume();
    }
    ghost var t1 := p.State();
    assert t1 == if keys.space then Toggled(t0) else t0;
    if keys.n {
      if keys.shift {
        PrevTrackKey(p, loader, screenHeight);
      } else {
        NextTrack(p, loader, screenHeight);
      }
    }
    if keys.r {
      PressR(p, keys.ctrl, picks);
    }
  }

  /** `update_music`: the playback shortcuts, then the end-of-track rule.
      `reachedEnd` says whether the stream is at its end once the shortcuts
      are handled; `picks` are the random draws a shuffle would make. */
  method UpdateMusic(p: Playlist, st: MainGuiState, keys: MusicKeys, reachedEnd: bool,
                     loader: Loader, picks: seq<(nat, nat)>, screenHeight: int)
    requires p.Valid()
    requires |picks| == |p.songs| && PicksInRange(picks, |p.songs|)
    modifies p, st
    ensures p.Valid()
    ensures p.State() == MusicEffect(old(p.State()), keys, reachedEnd, loader, picks)
    ensures st.currentY == if keys.m && !keys.ctrl then 1 else old(st.currentY)
    ensures st.currentX == old(st.currentX) && st.currentlyUnselected == old(st.currentlyUnselected)
  {
    PlaybackShortcuts(p, keys, loader, picks, screenHeight);
    if keys.m && !keys.ctrl {
      // with Ctrl the master volume is muted or restored instead
      st.currentY := 1;
    }
    if p.current.Some? && reachedEnd {
      TrackEnded(p, loader, screenHeight);
    }
  }

  // ---------------------------------------------------------------------
  // The keyboard focus cursor of the main screen. Rows: 0 nothing, 1 the
  // window-bar buttons, 2 the playlist, 3 the progress bar, 4 the music
  // controls, 5 the volume bar.

  /** The focus cursor: column, row, and whether the playlist has taken the
      keyboard (`currently_unselected`). */
  datatype Focus = Focus(x: nat, y: nat, unselected: bool)

  /** The keys the focus cursor reacts to in one frame. */
  datatype NavKeys = NavKeys(down: bool, up: bool, right: bool, left: bool, enterReleased: bool, escapeReleased: bool)

  /** The rows exist and the column names a button: seven on the window bar,
      five among the music controls. */
  predicate FocusInRange(f: Focus) {
    f.y <= 5 && f.x <= 6 && (f.y == 4 ==> f.x <= 4)
  }

  /** The up and down arrows change the row; entering the music controls
      puts the cursor on the play button from above and on the previous
      button from below. */
  function VerticalMove(f: Focus, k: NavKeys): (r: Focus)
    ensures r.unselected == f.unselected
    ensures r.y + 1 == f.y || r.y == f.y || r.y == f.y + 1
    ensures f.y <= 5 ==> r.y <= 5
    ensures r.y > f.y ==> k.down && r.x == (if r.y == 4 then 2 else 0)
    ensures r.y < f.y ==> k.up && r.x == (if r.y == 4 then 1 else 0)
    ensures !k.down && !k.up ==> r == f
  {
    var f1 := if k.down && f.y < 5 then f.(y := f.y + 1, x := if f.y + 1 == 4 then 2 else 0) else f;
    if k.up && f1.y > 0 then f1.(y := f1.y - 1, x := if f1.y - 1 == 4 then 1 else 0) else f1
  }

  /** The left and right arrows move along the window bar or the music controls. */
  function HorizontalMove(f: Focus, k: NavKeys): (r: Focus)
    ensures r.y == f.y && r.unselected == f.unselected
    ensures f.y != 1 && f.y != 4 ==> r == f
    ensures r.x + 1 == f.x || r.x == f.x || r.x == f.x + 1
    ensures r.x > f.x ==> k.right && r.x <= (if f.y == 1 then 6 else 4)
    ensures r.x < f.x ==> k.left
  {
    var bound := if f.y == 1 then 6 else 4;
    if f.y == 1 || f.y == 4 then
      var f1 := if k.right && f.x < bound then f.(x := f.x + 1) else f;
      if k.left && f1.x > 0 then f1.(x := f1.x - 1) else f1
    else f
  }

  /** One frame of focus navigation: arrows and Enter act only while the
      playlist does not hold the keyboard; Enter on the playlist row hands it
      the keyboard, Escape takes it back or else leaves the rows. */
  function FocusStep(f: Focus, k: NavKeys): (r: Focus)
    ensures FocusInRange(f) ==> FocusInRange(r)
    ensures f.unselected ==> r == f.(unselected := !k.escapeReleased)
    ensures !f.unselected && !k.escapeReleased ==> (r.unselected <==> k.enterReleased && r.y == 2)
    ensures !f.unselected && k.escapeReleased ==> !r.unselected && (r.y == 0 || (r.y == 2 && k.enterReleased))
  {
    var moved :=
      if f.unselected then f
      else
        var g := HorizontalMove(VerticalMove(f, k), k);
        if k.enterReleased && g.y == 2 then g.(unselected := true) else g;
    if k.escapeReleased then
      if moved.unselected then moved.(unselected := false) else moved.(y := 0)
    else moved
  }

  /** Moving down from a row lands on the next row, on its first control or,
      for the music controls, on the play button. */
  lemma DownEntersNextRow(f: Focus, k: NavKeys)
    requires !f.unselected && f.y < 5
    requires k.down && !k.up && !k.left && !k.right && !k.escapeReleased
    ensures FocusStep(f, k).y == f.y + 1
    ensures FocusStep(f, k).x == if f.y + 1 == 4 then 2 else 0
  {
  }

  /** Moving up from a row lands on the row above, on its first control or,
      for the music controls, on the previous button. */
  lemma UpEntersPreviousRow(f: Focus, k: NavKeys)
    requires !f.unselected && f.y > 0
    requires k.up && !k.down && !k.left && !k.right && !k.escapeReleased
    ensures FocusStep(f, k).y == f.y - 1
    ensures FocusStep(f, k).x == if f.y - 1 == 4 then 1 else 0
  {
  }

  /** Focus after a run of frames. */
  function RunFocus(f: Focus, frames: seq<NavKeys>): Focus
    decreases |frames|
  {
    if frames == [] then f else RunFocus(FocusStep(f, frames[0]), frames[1..])
  }

  /** However the keys are pressed, the cursor never leaves the controls. */
  lemma {:induction false} FocusStaysInRange(f: Focus, frames: seq<NavKeys>)
    requires FocusInRange(f)
    ensures FocusInRange(RunFocus(f, frames))
    decreases |frames|
  {
    if frames != [] {
      FocusStaysInRange(FocusStep(f, frames[0]), frames[1..]);
    }
  }

  /** While the playlist holds the keyboard, no run of frames without Escape
      moves the cursor. */
  lemma {:induction false} ListHoldsFocus(f: Focus, frames: seq<NavKeys>)
    requires f.unselected
    requires forall i | 0 <= i < |frames| :: !frames[i].escapeReleased
    ensures RunFocus(f, frames) == f
    decreases |frames|
  {
    if frames != [] {
      ListHoldsFocus(FocusStep(f, frames[0]), frames[1..]);
    }
  }

  /** `MainGuiState`. */
  class MainGuiState {
    var currentX: nat
    var currentY: nat
    var currentlyUnselected: bool

    constructor ()
      ensures currentX == 0 && currentY == 0 && !currentlyUnselected
    {
      currentX := 0;
      currentY := 0;
      currentlyUnselected := false;
    }

    function Snapshot(): Focus
      reads this
    {
      Focus(currentX, currentY, currentlyUnselected)
    }
  }

  /** `init_select`: the selection cursor starts on the playing song, or on
      the first row with the list scrolled to the top. */
  method InitSelect(p: Playlist, screenHeight: int)
    requires p.Valid()
    modifies p`currentSelected, p`scrollIndex
    ensures p.Valid()
    ensures p.current.Some? ==> p.currentSelected == p.current.value.idx < |p.songs|
    ensures p.current.Some? ==> p.scrollIndex == CenterScroll(p.currentSelected, screenHeight - 180)
    ensures p.current.None? ==> p.currentSelected == 0 && p.scrollIndex == 0
  {
    var playing := p.CurrentlyPlayingId();
    if playing.Some? {
      p.currentSelected := playing.value;
      p.AdjustCenterSong(playing.value, screenHeight);
    } else {
      p.currentSelected := 0;
      p.scrollIndex := 0;
    }
  }

  /** The arrow-up and arrow-down part of the focus navigation. */
  method MoveVertically(st: MainGuiState, keys: NavKeys)
    modifies st`currentX, st`currentY
    ensures st.Snapshot() == VerticalMove(old(st.Snapshot()), keys)
  {
    if keys.down && st.currentY < 5 {
      st.currentY := st.currentY + 1;
      st.currentX := 0;
      if st.currentY == 4 {
        st.currentX := 2;
      }
    }
    if keys.up && st.currentY > 0 {
      st.currentY := st.currentY - 1;
      st.currentX := 0;
      if st.currentY == 4 {
        st.currentX := 1;
      }
    }
  }

  /** The arrow-left and arrow-right part of the focus navigation. */
  method MoveHorizontally(st: MainGuiState, keys: NavKeys)
    modifies st`currentX
    ensures st.Snapshot() == HorizontalMove(old(st.Snapshot()), keys)
  {
    if st.currentY == 1 {
      // the seven window-bar buttons
      if keys.right && st.currentX < 6 {
        st.currentX := st.currentX + 1;
      }
      if keys.left && st.currentX > 0 {
        st.currentX := st.currentX - 1;
      }
    }
    if st.currentY == 4 {
      // the five music controls
      if keys.right && st.currentX < 4 {
        st.currentX := st.currentX + 1;
      }
      if keys.left && st.currentX > 0 {
        st.currentX := st.currentX - 1;
      }
    }
  }

  /** Enter on the playlist row hands the playlist the keyboard. */
  predicate EntersList(f: Focus, keys: NavKeys) {
    !f.unselected && keys.enterReleased && VerticalMove(f, keys).y == 2
  }

  /** `init_select` runs when the playlist takes the keyboard: the selection
      goes to the playing song, or to the first row. */
  function NavEffect(t: PlaylistState, f: Focus, keys: NavKeys): PlaylistState {
    if EntersList(f, keys) then t.(selected := if t.current.Some? then t.current.value.idx else 0) else t
  }

  /** The focus-navigation block of `render_main_gui`. */
  method NavigateFocus(st: MainGuiState, p: Playlist, keys: NavKeys, screenHeight: int)
    requires p.Valid()
    modifies st, p`currentSelected, p`scrollIndex
    ensures p.Valid()
    ensures st.Snapshot() == FocusStep(old(st.Snapshot()), keys)
    ensures p.State() == NavEffect(old(p.State()), old(st.Snapshot()), keys)
    ensures !EntersList(old(st.Snapshot()), keys) ==> p.scrollIndex == old(p.scrollIndex)
    ensures EntersList(old(st.Snapshot()), keys) ==>
      p.scrollIndex == if p.current.Some? then CenterScroll(p.currentSelected, screenHeight - 180) else 0
  {
    if !st.currentlyUnselected {
      MoveVertically(st, keys);
      MoveHorizontally(st, keys);
      if keys.enterReleased && st.currentY == 2 {
        st.currentlyUnselected := true;
        InitSelect(p, screenHeight);
      }
    }
    if keys.escapeReleased {
      if st.currentlyUnselected {
        st.currentlyUnselected := false;
      } else {
        st.currentY := 0;
      }
    }
  }

  /** The keys the playlist's selection cursor reacts to. */
  datatype ListKeys = ListKeys(enterPressed: bool, up: bool, down: bool)

  /** One frame of the selection cursor over `len` rows: a step up unless on
      the first row, a step down unless on the last. */
  function SelectionStep(sel: nat, len: nat, keys: ListKeys): (r: nat)
    ensures sel < len ==> r < len
    ensures r == sel || r + 1 == sel || r == sel + 1
    ensures keys.up && !keys.down && sel > 0 ==> r == sel - 1
    ensures keys.down && !keys.up && sel + 1 < len ==> r == sel + 1
    ensures r == sel + 1 ==> keys.down && r < len
  {
    var s1 := if keys.up && sel > 0 then sel - 1 else sel;
    if keys.down && s1 + 1 < len then s1 + 1 else s1
  }

  /** The selection part of `Playlist::render` on the playlist as a value. */
  function SelectionEffect(t: PlaylistState, isFocused: bool, keys: ListKeys, loader: Loader): PlaylistState {
    if isFocused && |t.songs| > 0 then
      t.(selected := SelectionStep(t.selected, |t.songs|, keys),
         current := if keys.enterPressed then PlayOutcome(t.current, t.songs, t.selected, loader) else t.current)
    else t
  }

  /** The keyboard part of `Playlist::render`: Enter plays the selected song,
      the arrows move the selection and re-centre the list on it. */
  method RenderSelection(p: Playlist, isFocused: bool, keys: ListKeys, loader: Loader, screenHeight: int)
    requires p.Valid()
    modifies p
    ensures p.Valid()
    ensures p.songs == old(p.songs) && p.repeat == old(p.repeat)
    ensures isFocused && |p.songs| > 0 ==>
      p.currentSelected == SelectionStep(old(p.currentSelected), |p.songs|, keys) &&
      p.current == if keys.enterPressed then PlayOutcome(old(p.current), p.songs, old(p.currentSelected), loader) else old(p.current)
    ensures !(isFocused && |p.songs| > 0) ==> p.currentSelected == old(p.currentSelected) && p.current == old(p.current)
    ensures p.State() == SelectionEffect(old(p.State()), isFocused, keys, loader)
    ensures p.currentSelected != old(p.currentSelected) ==> p.scrollIndex == CenterScroll(p.currentSelected, screenHeight - 180)
  {
    if isFocused && p.Len() > 0 {
      if keys.enterPressed {
        p.PlayIgnoreErr(p.currentSelected, loader, screenHeight);
      }
      if keys.up && p.currentSelected > 0 {
        p.currentSelected := p.currentSelected - 1;
        p.AdjustCenterSong(p.currentSelected, screenHeight);
      }
      if keys.down && p.currentSelected < p.Len() - 1 {
        p.currentSelected := p.currentSelected + 1;
        p.AdjustCenterSong(p.currentSelected, screenHeight);
      }
    }
  }

  // ---------------------------------------------------------------------
  // Buttons

  /** The music controls, by column. */
  datatype ControlButton = ShuffleButton | PrevButton | PlayButton | NextButton | RepeatButton

  /** The music control the focus cursor highlights, if any. */
  function HighlightedControl(f: Focus): (r: Option<ControlButton>)
    ensures r.Some? <==> f.y == 4 && f.x <= 4
  {
    if f.y != 4 then None
    else if f.x == 0 then Some(ShuffleButton)
    else if f.x == 1 then Some(PrevButton)
    else if f.x == 2 then Some(PlayButton)
    else if f.x == 3 then Some(NextButton)
    else if f.x == 4 then Some(RepeatButton)
    else None
  }

  /** A music control was activated by the mouse or by Enter while highlighted. */
  predicate ControlActivated(b: ControlButton, f: Focus, clicked: Option<ControlButton>, enterReleased: bool)
    ensures ControlActivated(b, f, clicked, enterReleased) && clicked != Some(b) ==> f.y == 4 && enterReleased
  {
    clicked == Some(b) || (HighlightedControl(f) == Some(b) && enterReleased)
  }

  /** What one music control does to the playlist. The play button pauses
      or resumes a stream, and starts the first song when there is none. */
  function ControlEffect(t: PlaylistState, b: ControlButton, loader: Loader, picks: seq<(nat, nat)>): (r: PlaylistState)
    requires PicksInRange(picks, |t.songs|)
    ensures |r.songs| == |t.songs|
  {
    match b
    case ShuffleButton => ShuffleEffect(t, picks)
    case PrevButton => PlayEffect(t, PrevButtonIndex(PlayingIdOf(t.current), |t.songs|), loader)
    case NextButton => PlayEffect(t, NextIndex(PlayingIdOf(t.current), |t.songs|), loader)
    case RepeatButton => t.(repeat := t.repeat.Next())
    case PlayButton => if t.current.Some? then Toggled(t) else PlayEffect(t, 0, loader)
  }

  /** A music control only reorders the songs, keeps the playing song on its
      slot, leaves the selection alone, and changes the repeat mode exactly
      when it is the repeat button. */
  lemma ControlEffectKeepsConsistent(t: PlaylistState, b: ControlButton, loader: Loader, picks: seq<(nat, nat)>)
    requires PicksInRange(picks, |t.songs|) && Consistent(t.current, t.songs)
    ensures var r := ControlEffect(t, b, loader, picks);
      && Consistent(r.current, r.songs)
      && multiset(r.songs) == multiset(t.songs)
      && r.selected == t.selected
      && (r.repeat != t.repeat <==> b == RepeatButton)
  {
    if b == ShuffleButton {
      ShuffleKeepsConsistent(t.current, t.songs, picks);
      ShufflePermutes(t.songs, picks);
    }
  }

  /** What one music control does. */
  method PressControl(p: Playlist, b: ControlButton, loader: Loader, picks: seq<(nat, nat)>, screenHeight: int)
    requires p.Valid()
    requires |picks| == |p.songs| && PicksInRange(picks, |p.songs|)
    modifies p
    ensures p.Valid()
    ensures p.State() == ControlEffect(old(p.State()), b, loader, picks)
    ensures b == ShuffleButton ==>
      p.songs == Shuffled(old(p.songs), picks) && p.current == ShuffledCurrent(old(p.current), picks)
    ensures b != ShuffleButton ==> p.songs == old(p.songs)
    ensures b == RepeatButton ==> p.repeat == old(p.repeat).Next() && p.current == old(p.current)
    ensures b != RepeatButton ==> p.repeat == old(p.repeat)
    ensures b == PrevButton ==>
      p.current == PlayOutcome(old(p.current), p.songs, PrevButtonIndex(old(p.CurrentlyPlayingId()), |p.songs|), loader)
    ensures b == NextButton ==>
      p.current == PlayOutcome(old(p.current), p.songs, NextIndex(old(p.CurrentlyPlayingId()), |p.songs|), loader)
    ensures b == PlayButton && old(p.current).Some? ==> p.current == Some(old(p.current).value.(playing := !old(p.current).value.playing))
    ensures b == PlayButton && old(p.current).None? ==> p.current == PlayOutcome(None, p.songs, 0, loader)
    ensures var j := match b
        case PrevButton => PrevButtonIndex(old(p.CurrentlyPlayingId()), |p.songs|)
        case NextButton => NextIndex(old(p.CurrentlyPlayingId()), |p.songs|)
        case _ => 0;
      var starts := (b == PrevButton || b == NextButton || (b == PlayButton && old(p.current).None?)) &&
        Starts(old(p.current), p.songs, j, loader);
      p.scrollIndex == if starts then CenterScroll(j, screenHeight - 180) else old(p.scrollIndex)
  {
    match b
    case ShuffleButton =>
      p.Shuffle(picks);
    case PrevButton =>
      PrevTrackButton(p, loader, screenHeight);
    case NextButton =>
      NextTrack(p, loader, screenHeight);
    case RepeatButton =>
      p.repeat := p.repeat.Next();
    case PlayButton =>
      if p.HasMusicStream() {
        p.PauseResume();
      } else {
        p.PlayIgnoreErr(0, loader, screenHeight);
      }
  }

  /** The screen the window-bar button in column `x` asks for: five open a
      file screen; the sixth empties the playlist instead. */
  function BarAction(x: nat): (a: Action)
    ensures a != ExitProgram
    ensures a.SwitchGuiScreen? <==> x < 5
    ensures a.SwitchGuiScreen? ==> a.screen != Player && a.screen != Lyrics
  {
    match x
    case 0 => SwitchGuiScreen(FileSelectAddFile)
    case 1 => SwitchGuiScreen(FileSelectAddFolder)
    case 2 => SwitchGuiScreen(FileSelectOpenFile)
    case 3 => SwitchGuiScreen(FileSelectOpenFolder)
    case 4 => SwitchGuiScreen(FileSelectSaveFile)
    case _ => NoAction
  }

  /** Different file buttons open different screens. */
  lemma BarButtonsOpenDistinctScreens(x: nat, y: nat)
    requires x < 5 && y < 5 && x != y
    ensures BarAction(x) != BarAction(y)
  {
  }

  /** One window-bar button. */
  method PressBarButton(p: Playlist, x: nat) returns (action: Action)
    requires p.Valid()
    modifies p
    ensures p.Valid()
    ensures x == 5 ==> p.songs == [] && p.current == None
    ensures x != 5 ==> p.songs == old(p.songs) && p.current == old(p.current)
    ensures p.repeat == old(p.repeat) && p.currentSelected == old(p.currentSelected)
    ensures action == BarAction(x)
  {
    action := NoAction;
    if x == 0 {
      action := SwitchGuiScreen(FileSelectAddFile);
    } else if x == 1 {
      action := SwitchGuiScreen(FileSelectAddFolder);
    } else if x == 2 {
      action := SwitchGuiScreen(FileSelectOpenFile);
    } else if x == 3 {
      action := SwitchGuiScreen(FileSelectOpenFolder);
    } else if x == 4 {
      action := SwitchGuiScreen(FileSelectSaveFile);
    } else if x == 5 {
      p.Clear();
    }
  }

  /** The input of one frame of the main screen that the model follows. */
  datatype MainInput = MainInput(
    nav: NavKeys,
    enterPressed: bool,
    closeClicked: bool,                  // the window's close button
    clickedBar: Option<nat>,             // a window-bar button under the mouse
    clickedControl: Option<ControlButton>,
    nearTrackEnd: bool,                  // less than 6 seconds of the track are left
    screenHeight: int)

  /** The right arrow on the progress bar, with the track in its last 6
      seconds: the stream is paused and the song after it is asked for. */
  predicate SkipsAhead(f: Focus, input: MainInput) {
    (f.y == 3 || f.y == 0) && input.nav.right && input.nearTrackEnd
  }

  /** Skipping ahead from the progress bar: pause, then `play_ignore_err`
      of the following index, which does not wrap around. */
  function SkipEffect(t: PlaylistState, loader: Loader): PlaylistState {
    if t.current.Some? then PlayEffect(t.(current := Some(t.current.value.(playing := false))), t.current.value.idx + 1, loader)
    else t
  }

  /** Skipping ahead plays the following song when there is one and it
      loads; after the last song playback stops. */
  lemma {:induction false} SkipPlaysFollowingSong(t: PlaylistState, loader: Loader)
    requires t.current.Some?
    ensures var r := SkipEffect(t, loader); var i := t.current.value.idx;
      && r.songs == t.songs
      && (r.current.Some? <==> i + 1 < |t.songs| && loader(t.songs[i + 1].path).Loaded?)
      && (r.current.Some? ==> r.current.value.idx == i + 1 && r.current.value.playing)
  {
  }

  /** The progress-bar skip. */
  method SkipAhead(p: Playlist, loader: Loader, screenHeight: int)
    requires p.Valid()
    modifies p
    ensures p.Valid()
    ensures p.State() == SkipEffect(old(p.State()), loader)
    ensures p.scrollIndex ==
      if old(p.current).Some? && Starts(old(p.current), p.songs, old(p.current).value.idx + 1, loader)
      then CenterScroll(old(p.current).value.idx + 1, screenHeight - 180)
      else old(p.scrollIndex)
  {
    p.Pause();
    var playing := p.CurrentlyPlayingId();
    if playing.Some? {
      p.PlayIgnoreErr(playing.value + 1, loader, screenHeight);
    }
  }

  /** The window's close button, or Enter on the last window-bar button. */
  predicate Exits(f: Focus, input: MainInput) {
    input.closeClicked || (f.y == 1 && f.x == 6 && input.enterPressed)
  }

  /** A window-bar button was clicked, or Enter was released on it. */
  predicate BarPressed(f: Focus, input: MainInput, x: nat) {
    input.clickedBar == Some(x) || (f.y == 1 && f.x == x && input.nav.enterReleased)
  }

  /** The screen the window bar asks for: that of the last pressed file button. */
  function BarsAction(f: Focus, input: MainInput): (a: Action)
    ensures a != ExitProgram
    ensures a == NoAction <==> forall x | 0 <= x < 5 :: !BarPressed(f, input, x)
  {
    if BarPressed(f, input, 4) then BarAction(4)
    else if BarPressed(f, input, 3) then BarAction(3)
    else if BarPressed(f, input, 2) then BarAction(2)
    else if BarPressed(f, input, 1) then BarAction(1)
    else if BarPressed(f, input, 0) then BarAction(0)
    else NoAction
  }

  /** The close-playlist button empties the playlist. */
  function BarsEffect(t: PlaylistState, f: Focus, input: MainInput): PlaylistState {
    if BarPressed(f, input, 5) then t.(songs := [], current := None) else t
  }

  /** One music control, when activated. */
  function MaybePress(t: PlaylistState, b: ControlButton, f: Focus, input: MainInput, loader: Loader, picks: seq<(nat, nat)>): (r: PlaylistState)
    requires PicksInRange(picks, |t.songs|)
    ensures |r.songs| == |t.songs|
  {
    if ControlActivated(b, f, input.clickedControl, input.nav.enterReleased) then ControlEffect(t, b, loader, picks) else t
  }

  /** The shuffle draws, when they fit the list; a list the frame has just
      emptied draws nothing. */
  function Draws(t: PlaylistState, picks: seq<(nat, nat)>): (r: seq<(nat, nat)>)
    ensures PicksInRange(r, |t.songs|)
  {
    if |picks| == |t.songs| && PicksInRange(picks, |t.songs|) then picks else []
  }

  /** The music controls in the order they are drawn: shuffle, previous,
      next, repeat, then play. */
  function ControlsEffect(t: PlaylistState, f: Focus, input: MainInput, loader: Loader, picks: seq<(nat, nat)>): PlaylistState {
    var draws := Draws(t, picks);
    var t1 := MaybePress(t, ShuffleButton, f, input, loader, draws);
    var t2 := MaybePress(t1, PrevButton, f, input, loader, draws);
    var t3 := MaybePress(t2, NextButton, f, input, loader, draws);
    var t4 := MaybePress(t3, RepeatButton, f, input, loader, draws);
    MaybePress(t4, PlayButton, f, input, loader, draws)
  }

  /** The rest of a frame that does not exit: the window bar, the music
      controls, then the playlist's selection cursor. */
  function FrameEffect(t: PlaylistState, f: Focus, input: MainInput, loader: Loader, picks: seq<(nat, nat)>): PlaylistState {
    var cleared := BarsEffect(t, f, input);
    SelectionEffect(ControlsEffect(cleared, f, input, loader, picks), f.y == 2 && f.unselected,
                    ListKeys(input.enterPressed, input.nav.up, input.nav.down), loader)
  }

  /** One music control keeps the playing song on its slot and only
      reorders the songs. */
  lemma MaybePressKeepsSongs(t: PlaylistState, b: ControlButton, f: Focus, input: MainInput, loader: Loader, picks: seq<(nat, nat)>)
    requires PicksInRange(picks, |t.songs|) && Consistent(t.current, t.songs)
    ensures var r := MaybePress(t, b, f, input, loader, picks);
      Consistent(r.current, r.songs) && multiset(r.songs) == multiset(t.songs)
  {
    ControlEffectKeepsConsistent(t, b, loader, picks);
  }

  /** The controls of a frame keep the playing song on its slot and only
      reorder the songs. */
  lemma ControlsKeepSongs(t: PlaylistState, f: Focus, input: MainInput, loader: Loader, picks: seq<(nat, nat)>)
    requires Consistent(t.current, t.songs)
    ensures var r := ControlsEffect(t, f, input, loader, picks);
      Consistent(r.current, r.songs) && multiset(r.songs) == multiset(t.songs)
  {
    var draws := Draws(t, picks);
    var t1 := MaybePress(t, ShuffleButton, f, input, loader, draws);
    MaybePressKeepsSongs(t, ShuffleButton, f, input, loader, draws);
    var t2 := MaybePress(t1, PrevButton, f, input, loader, draws);
    MaybePressKeepsSongs(t1, PrevButton, f, input, loader, draws);
    var t3 := MaybePress(t2, NextButton, f, input, loader, draws);
    MaybePressKeepsSongs(t2, NextButton, f, input, loader, draws);
    var t4 := MaybePress(t3, RepeatButton, f, input, loader, draws);
    MaybePressKeepsSongs(t3, RepeatButton, f, input, loader, draws);
    var t5 := MaybePress(t4, PlayButton, f, input, loader, draws);
    MaybePressKeepsSongs(t4, PlayButton, f, input, loader, draws);
    assert ControlsEffect(t, f, input, loader, picks) == t5;
  }

  /** A frame keeps the playing song on the slot it was started from and
      keeps the songs, up to their order, unless it empties the list. */
  lemma FrameKeepsSongs(t: PlaylistState, f: Focus, input: MainInput, loader: Loader, picks: seq<(nat, nat)>)
    requires Consistent(t.current, t.songs)
    ensures var r := FrameEffect(t, f, input, loader, picks);
      && Consistent(r.current, r.songs)
      && (multiset(r.songs) == multiset(t.songs) || (r.songs == [] && BarPressed(f, input, 5)))
  {
    var cleared := BarsEffect(t, f, input);
    ControlsKeepSongs(cleared, f, input, loader, picks);
    var controlled := ControlsEffect(cleared, f, input, loader, picks);
    assert multiset(controlled.songs) == multiset(cleared.songs);
    if !BarPressed(f, input, 5) {
      assert cleared == t;
    } else {
      assert controlled.songs == [];
    }
  }

  /** The window bar: each pressed file button sets the screen to switch
      to, the close-playlist button empties the playlist. */
  method PressBars(p: Playlist, f: Focus, input: MainInput) returns (action: Action)
    requires p.Valid()
    modifies p
    ensures p.Valid()
    ensures action == BarsAction(f, input)
    ensures p.State() == BarsEffect(old(p.State()), f, input)
  {
    action := NoAction;
    if BarPressed(f, input, 0) {
      action := PressBarButton(p, 0);
    }
    if BarPressed(f, input, 1) {
      action := PressBarButton(p, 1);
    }
    if BarPressed(f, input, 2) {
      action := PressBarButton(p, 2);
    }
    if BarPressed(f, input, 3) {
      action := PressBarButton(p, 3);
    }
    if BarPressed(f, input, 4) {
      action := PressBarButton(p, 4);
    }
    if BarPressed(f, input, 5) {
      var _ := PressBarButton(p, 5);
    }
  }

  /** One `music_control_button!` and the action behind it: the control
      acts when clicked, or when Enter is released on it. */
  method PressIfActivated(p: Playlist, b: ControlButton, f: Focus, input: MainInput, loader: Loader, draws: seq<(nat, nat)>)
    requires p.Valid()
    requires |draws| == |p.songs| && PicksInRange(draws, |p.songs|)
    modifies p
    ensures p.Valid()
    ensures p.State() == MaybePress(old(p.State()), b, f, input, loader, draws)
  {
    if ControlActivated(b, f, input.clickedControl, input.nav.enterReleased) {
      PressControl(p, b, loader, draws, input.screenHeight);
    }
  }

  /** The music controls of one frame, in the order they are drawn. */
  method PressControls(p: Playlist, f: Focus, input: MainInput, loader: Loader, picks: seq<(nat, nat)>)
    requires p.Valid()
    requires (|picks| == |p.songs| && PicksInRange(picks, |p.songs|)) || p.songs == []
    modifies p
    ensures p.Valid()
    ensures p.State() == ControlsEffect(old(p.State()), f, input, loader, picks)
  {
    var draws: seq<(nat, nat)> := if |picks| == |p.songs| then picks else [];
    assert draws == Draws(p.State(), picks);
    PressIfActivated(p, ShuffleButton, f, input, loader, draws);
    PressIfActivated(p, PrevButton, f, input, loader, draws);
    PressIfActivated(p, NextButton, f, input, loader, draws);
    PressIfActivated(p, RepeatButton, f, input, loader, draws);
    PressIfActivated(p, PlayButton, f, input, loader, draws);
  }

  /** The playlist after the part of the frame before drawing: the focus
      navigation, then the progress-bar skip. */
  function PreDrawEffect(t: PlaylistState, before: Focus, input: MainInput, loader: Loader): PlaylistState {
    var t1 := NavEffect(t, before, input.nav);
    if SkipsAhead(FocusStep(before, input.nav), input) then SkipEffect(t1, loader) else t1
  }

  /** The part of `render_main_gui` before drawing: focus navigation, then
      the progress bar (rows 0 and 3). */
  method BeforeDrawing(p: Playlist, st: MainGuiState, input: MainInput, loader: Loader)
    requires p.Valid()
    modifies p, st
    ensures p.Valid()
    ensures st.Snapshot() == FocusStep(old(st.Snapshot()), input.nav)
    ensures p.State() == PreDrawEffect(old(p.State()), old(st.Snapshot()), input, loader)
  {
    NavigateFocus(st, p, input.nav, input.screenHeight);
    var focus := st.Snapshot();
    // the right arrow near the end of a track skips ahead; seeking and the
    // volume bar (row 5) work on floating-point positions
    if (focus.y == 3 || focus.y == 0) && input.nav.right && input.nearTrackEnd {
      SkipAhead(p, loader, input.screenHeight);
    }
  }

  /** The buttons and the playlist drawn by `render_main_gui`, after the
      exit check. */
  method AfterExitCheck(p: Playlist, focus: Focus, input: MainInput, loader: Loader, picks: seq<(nat, nat)>)
    returns (action: Action)
    requires p.Valid()
    requires |picks| == |p.songs| && PicksInRange(picks, |p.songs|)
    modifies p
    ensures p.Valid()
    ensures action == BarsAction(focus, input)
    ensures p.State() == FrameEffect(old(p.State()), focus, input, loader, picks)
  {
    action := PressBars(p, focus, input);
    ghost var cleared := p.State();
    PressControls(p, focus, input, loader, picks);
    ghost var controlled := p.State();
    assert controlled == ControlsEffect(cleared, focus, input, loader, picks);
    RenderSelection(p, focus.y == 2 && focus.unselected,
                    ListKeys(input.enterPressed, input.nav.up, input.nav.down), loader, input.screenHeight);
  }

  /** The state-changing part of `render_main_gui`: focus navigation, the
      progress-bar skip, the exit button, the window-bar buttons, the music
      controls (shuffle, previous, next, repeat, then play) and the
      playlist's selection cursor. */
  method RenderMainGui(p: Playlist, st: MainGuiState, input: MainInput, loader: Loader, picks: seq<(nat, nat)>)
    returns (action: Action)
    requires p.Valid()
    requires |picks| == |p.songs| && PicksInRange(picks, |p.songs|)
    modifies p, st
    ensures p.Valid()
    ensures st.Snapshot() == FocusStep(old(st.Snapshot()), input.nav)
    ensures FocusInRange(old(st.Snapshot())) ==> FocusInRange(st.Snapshot())
    ensures action == ExitProgram <==> Exits(st.Snapshot(), input)
    ensures var t := PreDrawEffect(old(p.State()), old(st.Snapshot()), input, loader);
      if Exits(st.Snapshot(), input) then p.State() == t
      else action == BarsAction(st.Snapshot(), input) && p.State() == FrameEffect(t, st.Snapshot(), input, loader, picks)
  {
    BeforeDrawing(p, st, input, loader);
    var focus := st.Snapshot();
    if input.closeClicked || (focus.y == 1 && focus.x == 6 && input.enterPressed) {
      return ExitProgram;
    }
    action := AfterExitCheck(p, focus, input, loader, picks);
  }
}
