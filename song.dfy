/** The playlist and its playback bookkeeping: an ordered list of song
    entries, at most one playing song that knows its slot in the list, and
    the repeat mode. Audio streams are reduced to a `playing` flag; whether
    a stream loads is decided by a `Loader` the caller supplies. */
module Song {
  import opened Common
  import opened Paths

  /** What the repeat button cycles through. */
  datatype RepeatBehavior = Normal | Repeat | RepeatSingle {

    /** The mode the repeat button (or the R key) switches to. */
    function Next(): (r: RepeatBehavior)
      ensures r != this
    {
      match this
      case Normal => Repeat
      case Repeat => RepeatSingle
      case RepeatSingle => Normal
    }

    /** The raygui icon text drawn on the repeat button. */
    function ToIcon(): (icon: string)
      ensures |icon| == 5 && icon[0] == '#' && icon[4] == '#'
    {
      match this
      case Normal => "#222#"
      case Repeat => "#224#"
      case RepeatSingle => "#223#"
    }
  }

  /** `next` visits all three modes and comes back after three presses. */
  lemma NextCycles(b: RepeatBehavior)
    ensures b.Next().Next() != b
    ensures b.Next().Next().Next() == b
  {
  }

  /** Each mode has its own icon. */
  lemma IconsDistinguishModes(a: RepeatBehavior, b: RepeatBehavior)
    ensures a.ToIcon() == b.ToIcon() ==> a == b
  {
  }

  /** The extensions a file must carry to enter the playlist. */
  const SUPPORTED_FORMATS: seq<Bytes> :=
    [Ascii("mp3"), Ascii("ogg"), Ascii("wav"), Ascii("qoa"), Ascii("flac"), Ascii("xm"), Ascii("mod")]

  /** The playlist-file extension. */
  const M3U: Bytes := Ascii("m3u")

  /** `SUPPORTED_FORMATS.iter().find(|ext| ext == extension).is_some()`,
      for a path that may have no extension at all. */
  predicate IsSupportedFormat(ext: Option<Bytes>)
    ensures IsSupportedFormat(ext) ==> ext.Some? && 2 <= |ext.value| <= 4
  {
    ext.Some? && ext.value in SUPPORTED_FORMATS
  }

  /** No supported extension holds a dot. */
  lemma FormatsHaveNoDot(f: Bytes)
    requires f in SUPPORTED_FORMATS
    ensures forall i | 0 <= i < |f| :: f[i] != DOT
  {
  }

  /** A name made of a non-empty stem, a dot and a supported extension
      passes the format check, and splits back into that stem and that
      extension. */
  lemma SupportedNamePasses(p: PathBuf, stem: Bytes, f: Bytes)
    requires FileName(p) == Some(stem + [DOT] + f)
    requires |stem| > 0 && f in SUPPORTED_FORMATS
    ensures Extension(p) == Some(f) && FileStem(p) == Some(stem)
    ensures IsSupportedFormat(Extension(p))
  {
    var name := stem + [DOT] + f;
    FormatsHaveNoDot(f);
    LastDotIsUnique(name, |stem|);
    assert name[..|stem|] == stem && name[|stem| + 1..] == f;
  }

  /** A name that passes the format check ends in a dot after its first
      byte and a supported extension. */
  lemma SupportedHasKnownSuffix(p: PathBuf)
    requires IsSupportedFormat(Extension(p))
    ensures FileName(p).Some?
    ensures var name := FileName(p).value;
      0 < |FileStem(p).value| < |name| && name[|FileStem(p).value|] == DOT &&
      name[|FileStem(p).value| + 1..] in SUPPORTED_FORMATS
  {
    var name, stem, f := FileName(p).value, FileStem(p).value, Extension(p).value;
    assert name == stem + [DOT] + f;
    assert name[|stem| + 1..] == f;
  }

  /** A file passes the format check exactly when its name has a dot after
      its first byte that is followed by one of the seven supported
      extensions. */
  lemma SupportedMeansKnownSuffix(p: PathBuf)
    ensures IsSupportedFormat(Extension(p)) <==>
      FileName(p).Some? &&
      exists k | 0 < k < |FileName(p).value| :: FileName(p).value[k] == DOT && FileName(p).value[k + 1..] in SUPPORTED_FORMATS
  {
    if FileName(p).Some? {
      var name := FileName(p).value;
      if k :| 0 < k < |name| && name[k] == DOT && name[k + 1..] in SUPPORTED_FORMATS {
        assert name == name[..k] + [DOT] + name[k + 1..];
        SupportedNamePasses(p, name[..k], name[k + 1..]);
      }
    }
    if IsSupportedFormat(Extension(p)) {
      SupportedHasKnownSuffix(p);
      var k := |FileStem(p).value|;
      assert 0 < k < |FileName(p).value| && FileName(p).value[k] == DOT && FileName(p).value[k + 1..] in SUPPORTED_FORMATS;
    }
  }

  /** An entry of the playlist: where the file is, and its display name as a
      NUL-terminated byte string. */
  datatype SongEntry = SongEntry(path: PathBuf, filename: Bytes)

  /** `SongEntry::new`: the display name is the file stem, terminated by a 0
      byte; a path without a stem, or with an empty one, gives no entry. */
  function NewSongEntry(path: PathBuf): (r: Option<SongEntry>)
    ensures r.None? <==> FileStem(path).None? || FileStem(path).value == []
    ensures r.Some? ==> r.value.path == path
    ensures r.Some? ==> |r.value.filename| > 0 && r.value.filename[|r.value.filename| - 1] == 0
    ensures r.Some? ==>
      var stem := FileStem(path).value;
      r.value.filename == stem + [0] || (r.value.filename == stem && stem[|stem| - 1] == 0)
    ensures r.Some? ==>
      var stem := FileStem(path).value;
      r.value.filename == stem <==> stem[|stem| - 1] == 0
  {
    match FileStem(path)
    case None => None
    case Some(stem) =>
      if |stem| < 1 then None
      else Some(SongEntry(path, if stem[|stem| - 1] != 0 then stem + [0] else stem))
  }

  /** The empty-stem branch of `SongEntry::new` never fires for a non-empty
      file name: an entry is refused only when the path has no file name. */
  lemma NewSongEntryNeedsOnlyAName(path: PathBuf)
    requires forall i | 0 <= i < |path| :: |path[i]| > 0
    ensures NewSongEntry(path).None? <==> FileName(path).None?
  {
    if FileName(path).Some? {
      assert |FileName(path).value| > 0;
    }
  }

  /** The song being played: its slot in the playlist, its display name and
      whether the stream is running or paused. */
  datatype PlayingSong = PlayingSong(idx: nat, filename: Bytes, playing: bool)

  datatype PlayError = OutOfBounds | IoError(message: string) | FileNameInvalid

  /** `Result<(), PlayError>`. */
  datatype Outcome = Ok | Err(error: PlayError)

  /** What happens when a stream is opened: it loads, the path is not valid
      UTF-8, or the audio library fails. */
  datatype StreamLoad = Loaded | NotUnicode | LoadFailed(message: string)

  /** The audio library, as far as the playlist sees it: the outcome of
      loading the file at a path. */
  type Loader = PathBuf -> StreamLoad

  /** The playlist invariant: a playing song names a valid slot, and that
      slot holds the entry it was started from. */
  predicate Consistent(cur: Option<PlayingSong>, songs: seq<SongEntry>)
    ensures cur.None? ==> Consistent(cur, songs)
    ensures Consistent(cur, songs) && cur.Some? ==> |songs| > 0
  {
    cur.Some? ==> cur.value.idx < |songs| && cur.value.filename == songs[cur.value.idx].filename
  }

  /** `play(idx)` finds the requested song already playing and only rewinds it. */
  predicate Rewinds(cur: Option<PlayingSong>, idx: nat) {
    cur.Some? && cur.value.idx == idx
  }

  /** `play(idx)` opens a new stream. */
  predicate Starts(cur: Option<PlayingSong>, songs: seq<SongEntry>, idx: nat, loader: Loader) {
    !Rewinds(cur, idx) && idx < |songs| && loader(songs[idx].path).Loaded?
  }

  /** The playing song after `play(idx)`: unchanged when it already is song
      `idx`; otherwise the old one is dropped, and song `idx` plays only if
      it exists and its stream loads. */
  function PlayOutcome(cur: Option<PlayingSong>, songs: seq<SongEntry>, idx: nat, loader: Loader): (r: Option<PlayingSong>)
    ensures Rewinds(cur, idx) ==> r == cur
    ensures r.Some? ==> r.value.idx == idx
    ensures r.Some? && !Rewinds(cur, idx) ==> idx < |songs| && r.value.filename == songs[idx].filename && r.value.playing
    ensures r.None? <==> !Rewinds(cur, idx) && (idx >= |songs| || !loader(songs[idx].path).Loaded?)
    ensures Consistent(cur, songs) ==> Consistent(r, songs)
  {
    if Rewinds(cur, idx) then cur
    else if Starts(cur, songs, idx, loader) then Some(PlayingSong(idx, songs[idx].filename, true))
    else None
  }

  /** What `play(idx)` returns: success exactly when a song plays afterwards;
      `OutOfBounds` exactly when the index is past the end and not already
      playing; otherwise the loader's error. */
  function PlayResult(cur: Option<PlayingSong>, songs: seq<SongEntry>, idx: nat, loader: Loader): (r: Outcome)
    ensures r == Ok <==> PlayOutcome(cur, songs, idx, loader).Some?
    ensures r == Err(OutOfBounds) <==> !Rewinds(cur, idx) && idx >= |songs|
    ensures r == Err(FileNameInvalid) <==> !Rewinds(cur, idx) && idx < |songs| && loader(songs[idx].path).NotUnicode?
    ensures r.Err? && r.error.IoError? <==> !Rewinds(cur, idx) && idx < |songs| && loader(songs[idx].path).LoadFailed?
    ensures r.Err? && r.error.IoError? ==> r.error.message == loader(songs[idx].path).message
  {
    if Rewinds(cur, idx) then Ok
    else if idx >= |songs| then Err(OutOfBounds)
    else match loader(songs[idx].path)
      case Loaded => Ok
      case NotUnicode => Err(FileNameInvalid)
      case LoadFailed(m) => Err(IoError(m))
  }

  /** The scroll offset that brings row `row` of a list of 30-pixel rows to
      the middle of a view `viewHeight` pixels high: never positive, zero
      while the row is already in the upper half, and otherwise exactly the
      amount that puts the row's top at the middle. */
  function CenterScroll(row: nat, viewHeight: int): (r: int)
    ensures r <= 0
    ensures r == 0 <==> row * 30 + 5 <= TruncHalf(viewHeight - 30)
    ensures r < 0 ==> row * 30 + 5 + r == TruncHalf(viewHeight - 30)
  {
    -Max(row * 30 + 5 - TruncHalf(viewHeight - 30), 0)
  }

  /** Rows further down are scrolled at least as far. */
  lemma CenterScrollMonotonic(a: nat, b: nat, viewHeight: int)
    requires a <= b
    ensures CenterScroll(b, viewHeight) <= CenterScroll(a, viewHeight)
  {
  }

  // ---------------------------------------------------------------------
  // Shuffling. `GetRandomValue` is replaced by the pairs of positions it
  // would have drawn, one pair per round.

  predicate PicksInRange(picks: seq<(nat, nat)>, n: nat) {
    forall k | 0 <= k < |picks| :: picks[k].0 < n && picks[k].1 < n
  }

  /** One round of `shuffle`: the songs at the two drawn positions trade places. */
  function SwapPick(s: seq<SongEntry>, pick: (nat, nat)): (r: seq<SongEntry>)
    requires pick.0 < |s| && pick.1 < |s|
    ensures |r| == |s|
  {
    if pick.0 == pick.1 then s else s[pick.0 := s[pick.1]][pick.1 := s[pick.0]]
  }

  /** Where one round of `shuffle` moves the playing index. */
  function FollowPick(i: nat, pick: (nat, nat)): nat {
    if pick.0 == pick.1 then i
    else if i == pick.0 then pick.1
    else if i == pick.1 then pick.0
    else i
  }

  /** The song list after the rounds `picks`. */
  function Shuffled(s: seq<SongEntry>, picks: seq<(nat, nat)>): (r: seq<SongEntry>)
    requires PicksInRange(picks, |s|)
    ensures |r| == |s|
    decreases |picks|
  {
    if picks == [] then s
    else SwapPick(Shuffled(s, picks[..|picks| - 1]), picks[|picks| - 1])
  }

  /** The three moves through `tmp` in `shuffle` swap the two slots,
      whatever `tmp` held before. */
  lemma ThreeMovesSwap(a: seq<SongEntry>, o: nat, n: nat, t: SongEntry)
    requires o < |a| && n < |a| && o != n
    ensures a[n := t][o := a[n]][n := a[o]] == SwapPick(a, (o, n))
  {
  }

  /** The first `k + 1` rounds are the first `k` followed by round `k`. */
  lemma ShuffleStep(s: seq<SongEntry>, cur: Option<PlayingSong>, picks: seq<(nat, nat)>, k: nat)
    requires PicksInRange(picks, |s|) && k < |picks|
    ensures PicksInRange(picks[..k], |s|)
    ensures Shuffled(s, picks[..k + 1]) == SwapPick(Shuffled(s, picks[..k]), picks[k])
    ensures var c := ShuffledCurrent(cur, picks[..k]);
      ShuffledCurrent(cur, picks[..k + 1]) == if c.Some? then Some(c.value.(idx := FollowPick(c.value.idx, picks[k]))) else None
  {
    assert picks[..k + 1][..k] == picks[..k];
  }

  /** The playing index after the rounds `picks`. */
  function TrackedIndex(i: nat, picks: seq<(nat, nat)>): nat
    decreases |picks|
  {
    if picks == [] then i
    else FollowPick(TrackedIndex(i, picks[..|picks| - 1]), picks[|picks| - 1])
  }

  function ShuffledCurrent(cur: Option<PlayingSong>, picks: seq<(nat, nat)>): Option<PlayingSong> {
    if cur.Some? then Some(cur.value.(idx := TrackedIndex(cur.value.idx, picks))) else None
  }

  /** Shuffling only reorders the songs. */
  lemma {:induction false} ShufflePermutes(s: seq<SongEntry>, picks: seq<(nat, nat)>)
    requires PicksInRange(picks, |s|)
    ensures multiset(Shuffled(s, picks)) == multiset(s)
    decreases |picks|
  {
    if picks != [] {
      var init := picks[..|picks| - 1];
      ShufflePermutes(s, init);
    }
  }

  /** The song that was at position `i` is at the tracked index afterwards:
      the playing index follows the playing song. */
  lemma {:induction false} ShuffleTracksEntry(s: seq<SongEntry>, picks: seq<(nat, nat)>, i: nat)
    requires PicksInRange(picks, |s|) && i < |s|
    ensures TrackedIndex(i, picks) < |s|
    ensures Shuffled(s, picks)[TrackedIndex(i, picks)] == s[i]
    decreases |picks|
  {
    if picks != [] {
      ShuffleTracksEntry(s, picks[..|picks| - 1], i);
    }
  }

  /** Shuffling keeps the playlist invariant. */
  lemma ShuffleKeepsConsistent(cur: Option<PlayingSong>, s: seq<SongEntry>, picks: seq<(nat, nat)>)
    requires Consistent(cur, s) && PicksInRange(picks, |s|)
    ensures Consistent(ShuffledCurrent(cur, picks), Shuffled(s, picks))
  {
    if cur.Some? {
      ShuffleTracksEntry(s, picks, cur.value.idx);
    }
  }

  // ---------------------------------------------------------------------
  // Adding files. The file system is given as the tree `fs::metadata` and
  // `read_dir` would find below a path.

  datatype FsNode =
    | Missing                          // the metadata or file type cannot be read
    | Special                          // neither a file nor a directory, such as a
                                       // symbolic link seen through `DirEntry::file_type`
    | File
    | Directory(entries: seq<FsEntry>) // in `read_dir` order
  datatype FsEntry = FsEntry(name: Bytes, node: FsNode)

  /** The entry `add_song` receives for a file, if it passes the format check. */
  function FileSong(path: PathBuf): (r: seq<SongEntry>)
    ensures |r| <= 1
    ensures r != [] <==> IsSupportedFormat(Extension(path)) && NewSongEntry(path).Some?
    ensures r != [] ==> r[0].path == path
  {
    if IsSupportedFormat(Extension(path)) then
      match NewSongEntry(path)
      case Some(e) => [e]
      case None => []
    else []
  }

  /** The songs `load_dir_recursively_mut_vec` adds for the first `k`
      entries of a directory listing, in listing order. */
  function ScanPrefix(dir: PathBuf, entries: seq<FsEntry>, k: nat): (r: seq<SongEntry>)
    requires k <= |entries|
    ensures forall j: nat | j <= k :: ScanPrefix(dir, entries, j) <= r
    decreases Directory(entries), 0, k
  {
    if k == 0 then []
    else ScanPrefix(dir, entries, k - 1) + ScanEntry(dir, entries[k - 1])
  }

  /** The songs `load_dir_recursively_mut_vec` adds for a whole listing. */
  function ScanEntries(dir: PathBuf, entries: seq<FsEntry>): seq<SongEntry>
    decreases Directory(entries), 1, 0
  {
    ScanPrefix(dir, entries, |entries|)
  }

  /** The songs `process_entry` adds for one entry of a directory. */
  function ScanEntry(dir: PathBuf, e: FsEntry): (r: seq<SongEntry>)
    ensures !e.node.Directory? && !e.node.File? ==> r == []
    ensures e.node.File? ==> |r| <= 1 && (r != [] <==> IsSupportedFormat(Extension(dir + [e.name])) && NewSongEntry(dir + [e.name]).Some?)
    decreases e.node, 2, 0
  {
    match e.node
    case Directory(children) => ScanEntries(dir + [e.name], children)
    case File => FileSong(dir + [e.name])
    case _ => []
  }

  /** The songs `add_song_by_path` adds for the node found at `path`. */
  function AddedByPath(path: PathBuf, node: FsNode): seq<SongEntry> {
    match node
    case Directory(entries) => ScanEntries(path, entries)
    case File => FileSong(path)
    case _ => []
  }

  /** Every song in `added` lies below `dir` and carries a supported extension. */
  predicate AddedBelow(dir: PathBuf, added: seq<SongEntry>) {
    forall e | e in added :: IsSupportedFormat(Extension(e.path)) && |e.path| > |dir| && e.path[..|dir|] == dir
  }

  /** A directory scan adds only supported files from inside the directory. */
  lemma {:induction false} ScanPrefixAddsOnlySupported(dir: PathBuf, entries: seq<FsEntry>, k: nat)
    requires k <= |entries|
    ensures AddedBelow(dir, ScanPrefix(dir, entries, k))
    decreases Directory(entries), 0, k
  {
    if k > 0 {
      ScanPrefixAddsOnlySupported(dir, entries, k - 1);
      ScanEntryAddsOnlySupported(dir, entries[k - 1]);
    }
  }

  lemma {:induction false} ScanEntryAddsOnlySupported(dir: PathBuf, e: FsEntry)
    ensures AddedBelow(dir, ScanEntry(dir, e))
    decreases e.node, 2, 0
  {
    match e.node
    case Directory(children) =>
      var sub := dir + [e.name];
      ScanPrefixAddsOnlySupported(sub, children, |children|);
      assert ScanEntry(dir, e) == ScanPrefix(sub, children, |children|);
      forall s | s in ScanEntry(dir, e)
        ensures |s.path| > |dir| && s.path[..|dir|] == dir
      {
        assert s.path[..|dir|] == s.path[..|sub|][..|dir|];
      }
    case File =>
      assert ScanEntry(dir, e) == FileSong(dir + [e.name]);
    case _ =>
  }

  /** A file without an extension is never added. */
  lemma ExtensionlessFilesAreNotAdded(path: PathBuf)
    requires Extension(path).None?
    ensures AddedByPath(path, File) == []
  {
  }

  // ---------------------------------------------------------------------

  /** The playlist as a value: its songs, the playing song, the repeat mode
      and the row of the selection cursor. */
  datatype PlaylistState = PlaylistState(songs: seq<SongEntry>, current: Option<PlayingSong>,
                                         repeat: RepeatBehavior, selected: nat)

  class Playlist {
    var songs: seq<SongEntry>
    var current: Option<PlayingSong>
    var repeat: RepeatBehavior
    /** The vertical scroll offset of the playlist panel. */
    var scrollIndex: int
    /** The row the keyboard selection cursor is on. */
    var currentSelected: nat

    predicate Valid()
      reads this
    {
      Consistent(current, songs)
    }

    /** `Playlist::default`. */
    constructor ()
      ensures Valid()
      ensures songs == [] && current == None && repeat == Normal
      ensures scrollIndex == 0 && currentSelected == 0
    {
      songs := [];
      current := None;
      repeat := Normal;
      scrollIndex := 0;
      currentSelected := 0;
    }

    function State(): PlaylistState
      reads this
    {
      PlaylistState(songs, current, repeat, currentSelected)
    }

    function Len(): nat
      reads this
    {
      |songs|
    }

    /** `currently_playing_id`: a present index always names a slot. */
    function CurrentlyPlayingId(): (r: Option<nat>)
      reads this
      ensures r.Some? <==> current.Some?
      ensures Valid() && r.Some? ==> r.value < |songs|
    {
      if current.Some? then Some(current.value.idx) else None
    }

    /** `has_music_stream`. */
    function HasMusicStream(): (r: bool)
      reads this
      ensures r <==> CurrentlyPlayingId().Some?
    {
      current.Some?
    }

    /** `is_music_playing`: a stream exists and is not paused. */
    function IsMusicPlaying(): (r: bool)
      reads this
      ensures r ==> HasMusicStream()
    {
      current.Some? && current.value.playing
    }

    /** `adjust_center_song`: scroll so that row `idx` is centred in the
        playlist panel, which is 180 pixels shorter than the screen. */
    method AdjustCenterSong(idx: nat, screenHeight: int)
      modifies this`scrollIndex
      ensures scrollIndex == CenterScroll(idx, screenHeight - 180)
    {
      var height := screenHeight - 180;
      var offsetTop := TruncHalf(height - 30);
      var yCoord := idx * 30 + 5;
      scrollIndex := -Max(yCoord - offsetTop, 0);
    }

    /** `play`: rewind the song if it is already song `idx`; otherwise drop
        it and start song `idx`, reporting why that fails. */
    method Play(idx: nat, loader: Loader, screenHeight: int) returns (res: Outcome)
      requires Valid()
      modifies this
      ensures Valid()
      ensures songs == old(songs) && repeat == old(repeat) && currentSelected == old(currentSelected)
      ensures current == PlayOutcome(old(current), songs, idx, loader)
      ensures res == PlayResult(old(current), songs, idx, loader)
      ensures scrollIndex ==
        if Starts(old(current), songs, idx, loader) then CenterScroll(idx, screenHeight - 180) else old(scrollIndex)
    {
      if current.Some? {
        var song := current.value;
        current := None;
        if song.idx == idx {
          // the stream is only seeked back to its start
          current := Some(song);
          return Ok;
        }
        // the old stream is paused and dropped
      }
      if idx < |songs| {
        var entry := songs[idx];
        match loader(entry.path)
        case Loaded =>
          current := Some(PlayingSong(idx, entry.filename, true));
          AdjustCenterSong(idx, screenHeight);
          res := Ok;
        case NotUnicode =>
          res := Err(FileNameInvalid);
        case LoadFailed(m) =>
          res := Err(IoError(m));
      } else {
        res := Err(OutOfBounds);
      }
    }

    /** `play_ignore_err`: `play` without the error report. */
    method PlayIgnoreErr(idx: nat, loader: Loader, screenHeight: int)
      requires Valid()
      modifies this
      ensures Valid()
      ensures songs == old(songs) && repeat == old(repeat) && currentSelected == old(currentSelected)
      ensures current == PlayOutcome(old(current), songs, idx, loader)
      ensures scrollIndex ==
        if Starts(old(current), songs, idx, loader) then CenterScroll(idx, screenHeight - 180) else old(scrollIndex)
    {
      var _ := Play(idx, loader, screenHeight);
    }

    /** `pause`. */
    method Pause()
      requires Valid()
      modifies this`current
      ensures Valid()
      ensures current == if old(current).Some? then Some(old(current).value.(playing := false)) else None
    {
      if current.Some? {
        current := Some(current.value.(playing := false));
      }
    }

    /** `resume`. */
    method Resume()
      requires Valid()
      modifies this`current
      ensures Valid()
      ensures current == if old(current).Some? then Some(old(current).value.(playing := true)) else None
    {
      if current.Some? {
        current := Some(current.value.(playing := true));
      }
    }

    /** `pause_resume`: toggle a running stream. */
    method PauseResume()
      requires Valid()
      modifies this`current
      ensures Valid()
      ensures current == if old(current).Some? then Some(old(current).value.(playing := !old(current).value.playing)) else None
    {
      if current.Some? {
        if current.value.playing {
          Pause();
        } else {
          Resume();
        }
      }
    }

    /** `shuffle`: `len` rounds, each swapping the songs at two drawn
        positions (by three swaps through a spare entry) and moving the
        playing index along with the playing song. */
    method Shuffle(picks: seq<(nat, nat)>)
      requires Valid()
      requires |picks| == |songs| && PicksInRange(picks, |songs|)
      modifies this
      ensures Valid()
      ensures songs == Shuffled(old(songs), picks)
      ensures current == ShuffledCurrent(old(current), picks)
      ensures repeat == old(repeat) && scrollIndex == old(scrollIndex) && currentSelected == old(currentSelected)
    {
      var len := |songs|;
      if len < 1 {
        return;
      }
      var tmp := songs[0];
      for k := 0 to len
        invariant songs == Shuffled(old(songs), picks[..k])
        invariant current == ShuffledCurrent(old(current), picks[..k])
        invariant repeat == old(repeat) && scrollIndex == old(scrollIndex) && currentSelected == old(currentSelected)
      {
        ShuffleStep(old(songs), old(current), picks, k);
        var (idxOld, idxNew) := picks[k];
        if idxOld == idxNew {
          continue;
        }
        if current.Some? {
          if current.value.idx == idxOld {
            current := Some(current.value.(idx := idxNew));
          } else if current.value.idx == idxNew {
            current := Some(current.value.(idx := idxOld));
          }
        }
        assert current == ShuffledCurrent(old(current), picks[..k + 1]);
        ghost var before, held := songs, tmp;
        songs, tmp := songs[idxNew := tmp], songs[idxNew];
        songs, tmp := songs[idxOld := tmp], songs[idxOld];
        songs, tmp := songs[idxNew := tmp], songs[idxNew];
        ThreeMovesSwap(before, idxOld, idxNew, held);
        assert songs == Shuffled(old(songs), picks[..k + 1]);
      }
      assert picks[..len] == picks;
      ShuffleKeepsConsistent(old(current), old(songs), picks);
    }

    /** `stop_playing`. */
    method StopPlaying()
      modifies this`current
      ensures Valid()
      ensures current == None
    {
      current := None;
    }

    /** `clear`: no songs and nothing playing. */
    method Clear()
      modifies this
      ensures Valid()
      ensures songs == [] && current == None
      ensures repeat == old(repeat) && scrollIndex == old(scrollIndex) && currentSelected == old(currentSelected)
    {
      songs := [];
      StopPlaying();
    }

    /** `add_song`: append at the end; the playing song keeps its slot. */
    method AddSong(entry: SongEntry)
      requires Valid()
      modifies this`songs
      ensures Valid()
      ensures songs == old(songs) + [entry]
    {
      songs := songs + [entry];
    }

    /** `add_song_by_path`: a directory is scanned recursively, a file is
        added if its extension is supported; fails only when the path's
        metadata cannot be read. */
    method AddSongByPath(path: PathBuf, node: FsNode) returns (ok: bool)
      requires Valid()
      modifies this`songs
      ensures Valid()
      ensures songs == old(songs) + AddedByPath(path, node)
      ensures ok <==> !node.Missing?
    {
      match node
      case Missing =>
        ok := false;
      case Directory(entries) =>
        LoadDirRecursively(path, entries);
        ok := true;
      case File =>
        if IsSupportedFormat(Extension(path)) {
          match NewSongEntry(path)
          case Some(entry) => AddSong(entry);
          case None =>
        }
        ok := true;
      case Special =>
        ok := true;
    }

    /** `load_dir_recursively_mut_vec`: process each listed entry in turn. */
    method LoadDirRecursively(dir: PathBuf, entries: seq<FsEntry>)
      requires Valid()
      modifies this`songs
      ensures Valid()
      ensures songs == old(songs) + ScanEntries(dir, entries)
      decreases Directory(entries), 1
    {
      for i := 0 to |entries|
        invariant Valid()
        invariant songs == old(songs) + ScanPrefix(dir, entries, i)
      {
        ProcessEntry(dir, entries[i]);
      }
    }

    /** `process_entry`: descend into a directory, add a supported file. */
    method ProcessEntry(dir: PathBuf, e: FsEntry)
      requires Valid()
      modifies this`songs
      ensures Valid()
      ensures songs == old(songs) + ScanEntry(dir, e)
      decreases e.node, 2
    {
      match e.node
      case Directory(children) =>
        LoadDirRecursively(dir + [e.name], children);
      case File =>
        var path := dir + [e.name];
        if IsSupportedFormat(Extension(path)) {
          match NewSongEntry(path)
          case Some(entry) => AddSong(entry);
          case None =>
        }
      case _ =>
    }
  }
}
