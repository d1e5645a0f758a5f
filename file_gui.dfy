/** The file picker: a listing of the current folder with a ".." button on
    top and, on the screens that choose a folder, an "Open this Folder" or
    "Save here" button below. Picking a file or a folder adds its songs to
    the playlist, or replaces the playlist with them. The file system is a
    function from paths to the node found there. */
module FileGui {
  import opened Common
  import opened Paths
  import opened Song

  /** What `fs::metadata` and `fs::read_dir` find at each path. */
  type FileSystem = PathBuf -> FsNode

  /** The raygui icon prefixes `#217#` (folder) and `#218#` (file). */
  const DIR_ICON: Bytes := [35, 50, 49, 55, 35]
  const FILE_ICON: Bytes := [35, 50, 49, 56, 35]

  function Icon(isFile: bool): Bytes {
    if isFile then FILE_ICON else DIR_ICON
  }

  predicate NulFree(b: Bytes) {
    forall i | 0 <= i < |b| :: b[i] != 0
  }

  lemma NulFreeConcat(a: Bytes, b: Bytes)
    ensures NulFree(a + b) <==> NulFree(a) && NulFree(b)
  {
    if NulFree(a) && NulFree(b) {
      forall i | 0 <= i < |a + b|
        ensures (a + b)[i] != 0
      {
        if i >= |a| {
          assert (a + b)[i] == b[i - |a|];
        }
      }
    }
    if NulFree(a + b) {
      forall i | 0 <= i < |a|
        ensures a[i] != 0
      {
        assert (a + b)[i] == a[i];
      }
      forall i | 0 <= i < |b|
        ensures b[i] != 0
      {
        assert (a + b)[|a| + i] == b[i];
      }
    }
  }

  /** A name without the one NUL byte it may end in. */
  function TrimNul(raw: Bytes): Bytes {
    if |raw| > 0 && raw[|raw| - 1] == 0 then raw[..|raw| - 1] else raw
  }

  /** The button label of an entry as a C string: the icon, then the name,
      NUL-terminated. `CString::from_vec_with_nul` refuses it when the name
      holds a NUL byte anywhere but at its very end. */
  function Label(raw: Bytes, isFile: bool): (r: Option<Bytes>)
    ensures r.Some? <==> NulFree(TrimNul(raw))
    ensures r.Some? ==> r.value == Icon(isFile) + TrimNul(raw) + [0]
  {
    var v := Icon(isFile) + raw;
    var withNul := if v[|v| - 1] != 0 then v + [0] else v;
    assert withNul[..|withNul| - 1] == Icon(isFile) + TrimNul(raw) by {
      if v[|v| - 1] != 0 {
        assert withNul[..|withNul| - 1] == v;
      } else {
        assert raw != [] && raw[|raw| - 1] == 0;
        assert v[..|v| - 1] == Icon(isFile) + raw[..|raw| - 1];
      }
    }
    NulFreeConcat(Icon(isFile), TrimNul(raw));
    if NulFree(withNul[..|withNul| - 1]) then Some(withNul) else None
  }

  /** A listed entry: its label, whether it is a file, and its raw name. */
  datatype DirEntry = DirEntry(fileName: Bytes, isFile: bool, raw: Bytes)

  /** The screens that choose a folder: they list folders only and carry a
      special button below the listing. */
  predicate SelectsFolder(screen: GuiScreen) {
    screen == FileSelectAddFolder || screen == FileSelectOpenFolder || screen == FileSelectSaveFile
  }

  /** Playlist files and the supported audio formats. */
  predicate ListableExtension(ext: Option<Bytes>) {
    ext.Some? && (ext.value == M3U || ext.value in SUPPORTED_FORMATS)
  }

  /** The filter of `refresh_folder_entries`: folders always; files only
      off the folder screens and with a listable extension; nothing else. */
  predicate Admitted(dir: PathBuf, e: FsEntry, folderOnly: bool)
    ensures e.node.Directory? ==> Admitted(dir, e, folderOnly)
    ensures Admitted(dir, e, folderOnly) && folderOnly ==> e.node.Directory?
    ensures Admitted(dir, e, folderOnly) && !e.node.Directory? ==>
      e.node.File? && Extension(dir + [e.name]).Some? &&
      (IsSupportedFormat(Extension(dir + [e.name])) || Extension(dir + [e.name]).value == M3U)
  {
    match e.node
    case Directory(_) => true
    case File => !folderOnly && ListableExtension(Extension(dir + [e.name]))
    case _ => false
  }

  /** The listing entry for one folder entry, if it passes the filter and
      its label is a valid C string. */
  function EntryOf(dir: PathBuf, e: FsEntry, folderOnly: bool): (r: Option<DirEntry>)
    ensures r.Some? ==> r.value.raw == e.name && r.value.isFile == e.node.File?
  {
    var tag := Label(e.name, e.node.File?);
    if Admitted(dir, e, folderOnly) && tag.Some? then Some(DirEntry(tag.value, e.node.File?, e.name)) else None
  }

  /** The candidate listing entries of a folder, one per folder entry. */
  function Candidates(dir: PathBuf, entries: seq<FsEntry>, folderOnly: bool): seq<Option<DirEntry>> {
    seq(|entries|, i requires 0 <= i < |entries| => EntryOf(dir, entries[i], folderOnly))
  }

  /** The entries that were built, in order, skipping the refused ones. */
  function Built(candidates: seq<Option<DirEntry>>): (r: seq<DirEntry>)
    ensures |r| <= |candidates|
    decreases |candidates|
  {
    if candidates == [] then []
    else
      Built(candidates[..|candidates| - 1]) +
        match candidates[|candidates| - 1]
        case Some(d) => [d]
        case None => []
  }

  /** Building one more candidate appends it when it was built. */
  lemma BuiltStep(candidates: seq<Option<DirEntry>>, i: nat)
    requires i < |candidates|
    ensures Built(candidates[..i + 1]) ==
      Built(candidates[..i]) + if candidates[i].Some? then [candidates[i].value] else []
  {
    assert candidates[..i + 1][..i] == candidates[..i];
  }

  /** `Built` keeps exactly the built entries. */
  lemma {:induction false} BuiltExactly(candidates: seq<Option<DirEntry>>)
    ensures forall d :: d in Built(candidates) <==> Some(d) in candidates
    decreases |candidates|
  {
    if candidates != [] {
      var init := candidates[..|candidates| - 1];
      BuiltExactly(init);
      assert candidates == init + [candidates[|candidates| - 1]];
    }
  }

  /** What `refresh_folder_entries` lists at `dir`: nothing when the folder
      cannot be read. */
  function Listing(fs: FileSystem, dir: PathBuf, screen: GuiScreen): (r: seq<DirEntry>)
    ensures !fs(dir).Directory? ==> r == []
    ensures fs(dir).Directory? ==> |r| <= |fs(dir).entries|
  {
    match fs(dir)
    case Directory(entries) => Built(Candidates(dir, entries, SelectsFolder(screen)))
    case _ => []
  }

  /** A listed entry is well formed: its label belongs to its name, and a
      file is listed only off the folder screens and with a listable extension. */
  predicate Shown(dir: PathBuf, d: DirEntry, folderOnly: bool) {
    Label(d.raw, d.isFile) == Some(d.fileName) &&
    (d.isFile ==> !folderOnly && ListableExtension(Extension(dir + [d.raw])))
  }

  /** A built entry is well formed and mirrors the folder entry. */
  lemma EntryOfIsShown(dir: PathBuf, e: FsEntry, folderOnly: bool)
    requires EntryOf(dir, e, folderOnly).Some?
    ensures Shown(dir, EntryOf(dir, e, folderOnly).value, folderOnly)
  {
  }

  /** Everything listed comes from the folder and passed the filter. */
  lemma ListingShowsOnlyAdmitted(dir: PathBuf, entries: seq<FsEntry>, folderOnly: bool)
    ensures forall d | d in Built(Candidates(dir, entries, folderOnly)) ::
      Shown(dir, d, folderOnly) &&
      exists j | 0 <= j < |entries| :: entries[j].name == d.raw && (d.isFile <==> entries[j].node.File?)
  {
    var candidates := Candidates(dir, entries, folderOnly);
    BuiltExactly(candidates);
    forall d | d in Built(candidates)
      ensures Shown(dir, d, folderOnly)
      ensures exists j | 0 <= j < |entries| :: entries[j].name == d.raw && (d.isFile <==> entries[j].node.File?)
    {
      var j :| 0 <= j < |candidates| && candidates[j] == Some(d);
      EntryOfIsShown(dir, entries[j], folderOnly);
    }
  }

  /** Nothing that passes the filter and has a valid label is missing. */
  lemma ListingMissesNothing(dir: PathBuf, entries: seq<FsEntry>, folderOnly: bool, j: nat)
    requires j < |entries|
    requires EntryOf(dir, entries[j], folderOnly).Some?
    ensures EntryOf(dir, entries[j], folderOnly).value in Built(Candidates(dir, entries, folderOnly))
  {
    var candidates := Candidates(dir, entries, folderOnly);
    BuiltExactly(candidates);
    assert candidates[j] == EntryOf(dir, entries[j], folderOnly);
  }

  /** A folder screen lists no files, and a file without an extension is
      never listed. */
  lemma FolderScreensListOnlyFolders(fs: FileSystem, dir: PathBuf, screen: GuiScreen)
    ensures SelectsFolder(screen) ==> forall d | d in Listing(fs, dir, screen) :: !d.isFile
    ensures forall d | d in Listing(fs, dir, screen) && d.isFile :: Extension(dir + [d.raw]).Some?
  {
    match fs(dir)
    case Directory(entries) =>
      ListingShowsOnlyAdmitted(dir, entries, SelectsFolder(screen));
    case _ =>
  }

  // ---------------------------------------------------------------------
  // Buttons and the keyboard cursor. Button ids: 1 is "..", 2 + k is the
  // k-th listed entry, and 2 + (number of entries) is the special button.

  /** The id of the last button the keyboard cursor can reach. */
  function LastButton(len: nat, special: bool): nat {
    if special then len + 2 else len + 1
  }

  /** What pressing the button with id `sel` asks for. */
  datatype Choice = NoChoice | GoUp | OpenEntry(k: nat) | SpecialButton

  function Choose(sel: nat, len: nat, special: bool): (r: Choice)
    ensures r == NoChoice <==> sel == 0 || sel > LastButton(len, special)
    ensures r == GoUp <==> sel == 1
    ensures r.OpenEntry? <==> 2 <= sel < len + 2
    ensures r.OpenEntry? ==> r.k + 2 == sel && r.k < len
    ensures r == SpecialButton <==> special && sel == len + 2
  {
    if sel == 0 then NoChoice
    else if sel == 1 then GoUp
    else if sel - 2 < len then OpenEntry(sel - 2)
    else if sel == len + 2 && special then SpecialButton
    else NoChoice
  }

  /** One frame of the keyboard cursor: up unless on nothing, down unless
      on the last button. */
  function CursorStep(sel: nat, len: nat, special: bool, up: bool, down: bool): (r: nat)
    ensures sel <= LastButton(len, special) ==> r <= LastButton(len, special)
    ensures up && sel > 0 ==> r + 1 == sel
    ensures !(up && sel > 0) && down && sel < LastButton(len, special) ==> r == sel + 1
    ensures !(up && sel > 0) && !(down && sel < LastButton(len, special)) ==> r == sel
  {
    var maxVal := if special then len + 1 else len;
    if up && sel > 0 then sel - 1
    else if down && sel <= maxVal then sel + 1
    else sel
  }

  /** The cursor, once on a button, stays on buttons that do something. */
  lemma CursorStaysOnButtons(sel: nat, len: nat, special: bool, up: bool, down: bool)
    requires 0 < sel <= LastButton(len, special)
    ensures var r := CursorStep(sel, len, special, up, down);
      r == 0 || Choose(r, len, special) != NoChoice
  {
  }

  /** `PathBuf::pop`: the parent folder; the root has none. */
  function Parent(p: PathBuf): (r: PathBuf)
    ensures |p| > 0 ==> r + [p[|p| - 1]] == p
    ensures |p| == 0 ==> r == []
  {
    if |p| == 0 then p else p[..|p| - 1]
  }

  /** ".." undoes entering a folder. */
  lemma UpUndoesEnter(p: PathBuf, name: Bytes)
    ensures Parent(p + [name]) == p
  {
    assert (p + [name])[..|p|] == p;
  }

  /** What the chosen button leads to. */
  datatype Pick =
    | Stay
    | Enter(path: PathBuf)                    // show another folder
    | AddPath(path: PathBuf, replace: bool)   // add the songs at `path`, replacing the playlist or not

  /** The dispatch of `render_file_gui`: ".." and folders are entered;
      a file is added (or opened, replacing the playlist) on the file
      screens; the special button adds or opens the current folder; saving
      a playlist does nothing. */
  function PickOf(c: Choice, entries: seq<DirEntry>, curPath: PathBuf, screen: GuiScreen): (r: Pick)
    requires c.OpenEntry? ==> c.k < |entries|
    ensures r.Enter? <==> c == GoUp || (c.OpenEntry? && !entries[c.k].isFile)
    ensures r.AddPath? && c.OpenEntry? ==> r.path == curPath + [entries[c.k].raw] && entries[c.k].isFile
    ensures r.AddPath? ==> (r.replace <==> screen == FileSelectOpenFile || screen == FileSelectOpenFolder)
    ensures r.AddPath? ==> !SelectsFolder(screen) || c == SpecialButton
    ensures c == SpecialButton && screen == FileSelectSaveFile ==> r == Stay
  {
    match c
    case NoChoice => Stay
    case GoUp => Enter(Parent(curPath))
    case OpenEntry(k) =>
      var entry := entries[k];
      if entry.isFile then
        if screen == FileSelectAddFile then AddPath(curPath + [entry.raw], false)
        else if screen == FileSelectOpenFile then AddPath(curPath + [entry.raw], true)
        else Stay
      else Enter(curPath + [entry.raw])
    case SpecialButton =>
      if screen == FileSelectOpenFolder then AddPath(curPath, true)
      else if screen == FileSelectAddFolder then AddPath(curPath, false)
      else Stay
  }

  /** Adding a folder only brings in supported songs from inside it. */
  lemma AddedFolderSongsLieInside(fs: FileSystem, path: PathBuf)
    requires fs(path).Directory?
    ensures AddedBelow(path, AddedByPath(path, fs(path)))
  {
    ScanPrefixAddsOnlySupported(path, fs(path).entries, |fs(path).entries|);
  }

  /** The playing song after songs were added: kept if it is running,
      otherwise song 0 is played. */
  function StartIfIdle(cur: Option<PlayingSong>, songs: seq<SongEntry>, loader: Loader): Option<PlayingSong> {
    if cur.Some? && cur.value.playing then cur else PlayOutcome(cur, songs, 0, loader)
  }

  /** Opening a file or a folder replaces the playlist and starts its first
      song whenever that song's stream loads. */
  lemma OpenStartsFirstSong(songs: seq<SongEntry>, loader: Loader)
    requires |songs| > 0 && loader(songs[0].path).Loaded?
    ensures StartIfIdle(None, songs, loader) == Some(PlayingSong(0, songs[0].filename, true))
  {
  }

  /** The body of the listing loop of `refresh_folder_entries`: skip what
      the filter rejects or what has no valid label, else build the entry. */
  method MakeDirEntry(dir: PathBuf, e: FsEntry, folderOnly: bool) returns (d: Option<DirEntry>)
    ensures d == EntryOf(dir, e, folderOnly)
  {
    if !e.node.Directory? && !e.node.File? {
      return None;
    }
    if !e.node.Directory? && folderOnly {
      return None;
    }
    var ext := Extension(dir + [e.name]);
    if ext.Some? {
      if e.node.File? && ext.value != M3U && ext.value !in SUPPORTED_FORMATS {
        return None;
      }
    } else if e.node.File? {
      return None;
    }
    var tag := BuildLabel(e.name, e.node.File?);
    if tag.None? {
      return None;
    }
    d := Some(DirEntry(tag.value, e.node.File?, e.name));
  }

  /** The label construction of the listing loop: icon and name, a NUL
      appended unless the name already ends in one, then the C-string check. */
  method BuildLabel(raw: Bytes, isFile: bool) returns (tag: Option<Bytes>)
    ensures tag == Label(raw, isFile)
  {
    var nameVec := Icon(isFile) + raw;
    if nameVec[|nameVec| - 1] != 0 {
      nameVec := nameVec + [0];
    }
    if !NulFree(nameVec[..|nameVec| - 1]) {
      return None;
    }
    tag := Some(nameVec);
  }

  /** The state of the file picker. */
  class FileGuiState {
    /** The id of the button the keyboard cursor is on; 0 is none. */
    var selected: nat
    var scrollValue: int
    var curPath: PathBuf
    var entries: seq<DirEntry>

    /** `FileGuiState::default`: start in the music folder. */
    constructor (musicPath: PathBuf, screen: GuiScreen, fs: FileSystem)
      ensures curPath == musicPath && selected == 0 && scrollValue == 0
      ensures entries == if screen == Player then [] else Listing(fs, musicPath, screen)
    {
      curPath := musicPath;
      scrollValue := 0;
      selected := 0;
      entries := [];
      new;
      RefreshFolderEntries(screen, fs);
    }

    /** `refresh_folder_entries`: list the current folder again and move a
        cursor that is on some button back to "..". */
    method RefreshFolderEntries(screen: GuiScreen, fs: FileSystem)
      modifies this`entries, this`selected
      ensures screen == Player ==> entries == old(entries) && selected == old(selected)
      ensures screen != Player ==> entries == Listing(fs, curPath, screen)
      ensures screen != Player ==> selected == if old(selected) != 0 then 1 else 0
    {
      if screen == Player {
        return;
      }
      var folderOnly := SelectsFolder(screen);
      entries := [];
      if selected != 0 {
        selected := 1;
      }
      match fs(curPath)
      case Directory(listing) =>
        ghost var candidates := Candidates(curPath, listing, folderOnly);
        for i := 0 to |listing|
          invariant entries == Built(candidates[..i])
          invariant selected == if old(selected) != 0 then 1 else 0
        {
          var d := MakeDirEntry(curPath, listing[i], folderOnly);
          BuiltStep(candidates, i);
          assert candidates[i] == d;
          if d.Some? {
            entries := entries + [d.value];
          }
        }
        assert candidates[..|listing|] == candidates;
      case _ =>
        // the folder cannot be read
    }
  }

  /** The four places that add songs: optionally clear the playlist, add
      what is at `path`, and play song 0 unless a song is running. */
  method AddAndStart(p: Playlist, path: PathBuf, fs: FileSystem, replace: bool, loader: Loader, screenHeight: int)
    requires p.Valid()
    modifies p
    ensures p.Valid()
    ensures p.songs == (if replace then [] else old(p.songs)) + AddedByPath(path, fs(path))
    ensures p.current == StartIfIdle(if replace then None else old(p.current), p.songs, loader)
    ensures p.repeat == old(p.repeat) && p.currentSelected == old(p.currentSelected)
    ensures var cur := if replace then None else old(p.current);
      p.scrollIndex ==
        if !(cur.Some? && cur.value.playing) && Starts(cur, p.songs, 0, loader) then CenterScroll(0, screenHeight - 180)
        else old(p.scrollIndex)
  {
    if replace {
      p.Clear();
    }
    var _ := p.AddSongByPath(path, fs(path));
    if !p.IsMusicPlaying() {
      p.PlayIgnoreErr(0, loader, screenHeight);
    }
  }

  /** The input of one frame of the file picker: `clicked` is the id of the
      button clicked with the mouse, 0 if none. */
  datatype FileInput = FileInput(closeClicked: bool, clicked: nat, escape: bool, enter: bool,
                                 up: bool, down: bool, screenHeight: int)

  /** The button acted on this frame: Enter acts on the keyboard cursor
      unless Escape was pressed too. */
  function Picked(input: FileInput, selected: nat): nat {
    if !input.escape && input.enter then selected else input.clicked
  }

  /** The arrow keys move the keyboard cursor and scroll it to the middle
      of the panel, which is 24 pixels shorter than the screen. */
  method MoveCursor(st: FileGuiState, special: bool, up: bool, down: bool, screenHeight: int)
    modifies st`selected, st`scrollValue
    ensures st.selected == CursorStep(old(st.selected), |st.entries|, special, up, down)
    ensures st.selected != old(st.selected) ==> st.scrollValue == CenterScroll(st.selected, screenHeight - 24)
    ensures st.selected == old(st.selected) ==> st.scrollValue == old(st.scrollValue)
  {
    var maxVal := if special then |st.entries| + 1 else |st.entries|;
    var offsetTop := TruncHalf(screenHeight - 24 - 30);
    if up && st.selected > 0 {
      st.selected := st.selected - 1;
      st.scrollValue := -Max(st.selected * 30 + 5 - offsetTop, 0);
    } else if down && st.selected <= maxVal {
      st.selected := st.selected + 1;
      st.scrollValue := -Max(st.selected * 30 + 5 - offsetTop, 0);
    }
  }

  /** Carry out the chosen button; `leaves` says whether the picker goes
      back to the player. */
  method ActOnChoice(p: Playlist, st: FileGuiState, screen: GuiScreen, choice: Choice,
                     fs: FileSystem, loader: Loader, screenHeight: int) returns (leaves: bool)
    requires p.Valid()
    requires screen != Player
    requires choice.OpenEntry? ==> choice.k < |st.entries|
    modifies p, st`curPath, st`entries, st`selected
    ensures p.Valid()
    ensures p.repeat == old(p.repeat) && p.currentSelected == old(p.currentSelected)
    ensures var pick := PickOf(choice, old(st.entries), old(st.curPath), screen);
      && leaves == pick.AddPath?
      && (pick.AddPath? ==>
            p.songs == (if pick.replace then [] else old(p.songs)) + AddedByPath(pick.path, fs(pick.path)) &&
            p.current == StartIfIdle(if pick.replace then None else old(p.current), p.songs, loader))
      && (!pick.AddPath? ==> p.songs == old(p.songs) && p.current == old(p.current))
      && (pick.Enter? ==>
            st.curPath == pick.path && st.entries == Listing(fs, pick.path, screen) &&
            st.selected == (if old(st.selected) != 0 then 1 else 0))
      && (!pick.Enter? ==>
            st.curPath == old(st.curPath) && st.entries == old(st.entries) && st.selected == old(st.selected))
  {
    leaves := false;
    match choice
    case NoChoice =>
    case GoUp =>
      st.curPath := Parent(st.curPath);
      st.RefreshFolderEntries(screen, fs);
    case OpenEntry(k) =>
      var entry := st.entries[k];
      if entry.isFile {
        var path := st.curPath + [entry.raw];
        if screen == FileSelectAddFile {
          AddAndStart(p, path, fs, false, loader, screenHeight);
          leaves := true;
        } else if screen == FileSelectOpenFile {
          AddAndStart(p, path, fs, true, loader, screenHeight);
          leaves := true;
        }
      } else {
        st.curPath := st.curPath + [entry.raw];
        st.RefreshFolderEntries(screen, fs);
      }
    case SpecialButton =>
      if screen == FileSelectOpenFolder {
        AddAndStart(p, st.curPath, fs, true, loader, screenHeight);
        leaves := true;
      } else if screen == FileSelectAddFolder {
        AddAndStart(p, st.curPath, fs, false, loader, screenHeight);
        leaves := true;
      }
      // saving a playlist is not implemented
  }

  /** The state-changing part of `render_file_gui`. */
  method RenderFileGui(p: Playlist, st: FileGuiState, screen: GuiScreen, input: FileInput,
                       fs: FileSystem, loader: Loader) returns (action: Action)
    requires p.Valid()
    requires screen != Player
    modifies p, st
    ensures p.Valid()
    ensures p.repeat == old(p.repeat) && p.currentSelected == old(p.currentSelected)
    ensures input.closeClicked ==>
      && action == SwitchGuiScreen(Player)
      && p.songs == old(p.songs) && p.current == old(p.current)
      && st.selected == old(st.selected) && st.curPath == old(st.curPath) && st.entries == old(st.entries)
    ensures !input.closeClicked ==>
      var special := SelectsFolder(screen);
      var c := Choose(Picked(input, old(st.selected)), |old(st.entries)|, special);
      var pick := PickOf(c, old(st.entries), old(st.curPath), screen);
      var cursor := CursorStep(old(st.selected), |old(st.entries)|, special, input.up, input.down);
      && action == (if input.escape || pick.AddPath? then SwitchGuiScreen(Player) else NoAction)
      && (pick.AddPath? ==>
            p.songs == (if pick.replace then [] else old(p.songs)) + AddedByPath(pick.path, fs(pick.path)) &&
            p.current == StartIfIdle(if pick.replace then None else old(p.current), p.songs, loader))
      && (!pick.AddPath? ==> p.songs == old(p.songs) && p.current == old(p.current))
      && (pick.Enter? ==>
            st.curPath == pick.path && st.entries == Listing(fs, pick.path, screen) &&
            st.selected == (if cursor != 0 then 1 else 0))
      && (!pick.Enter? ==>
            st.curPath == old(st.curPath) && st.entries == old(st.entries) && st.selected == cursor)
      && (cursor != old(st.selected) ==> st.scrollValue == CenterScroll(cursor, input.screenHeight - 24))
  {
    action := NoAction;
    if input.closeClicked {
      return SwitchGuiScreen(Player);
    }
    var special := SelectsFolder(screen);
    var picked := input.clicked;
    if input.escape {
      action := SwitchGuiScreen(Player);
    } else if input.enter {
      picked := st.selected;
    }
    MoveCursor(st, special, input.up, input.down, input.screenHeight);
    var choice := Choose(picked, |st.entries|, special);
    var leaves := ActOnChoice(p, st, screen, choice, fs, loader, input.screenHeight);
    if leaves {
      action := SwitchGuiScreen(Player);
    }
  }
}
