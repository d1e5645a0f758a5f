# mp3-player, modelled in Dafny

This project models the logic of a small desktop music player. The player
keeps a playlist of song files. It shows three kinds of screens: the main
player screen, a file picker and a lyrics box. The model covers:

- **The playlist** (`Song`, file `song.dfy`). This is the class `Playlist`.
  It holds the song entries, the song that is playing, the repeat mode and
  the scroll and selection state of the list. It covers playing a song by
  index, pausing and resuming, the in-place random shuffle, clearing, and
  adding songs from a path. Adding from a folder scans it recursively.
  The invariant is `Consistent`: a playing song names a slot of the list,
  and that slot holds the entry the song was started from.
- **The main screen** (`GuiMain`, file `gui_main.dfy`). This covers the rules
  that pick the next song: the N key, Shift+N, the previous and next
  buttons, and the end of a track in each repeat mode. It also covers the
  keyboard focus cursor that walks the screen's rows, the window-bar and
  music-control buttons, and the playlist's selection cursor.
- **The file picker** (`FileGui`, file `file_gui.dfy`). This is the class
  `FileGuiState`. It covers the filtered folder listing with its C-string
  labels, the keyboard cursor over the buttons, and the dispatch of a
  chosen button: go up a folder, enter a folder, add a file or folder, or
  open one (which replaces the playlist).
- **The lyrics box size** (`GuiLyrics`, file `gui_lyrics.dfy`).
  `get_dimensions` is modelled on the line splitting of Rust's `str::lines`.

`Common` and `Paths` hold shared vocabulary. `Common` has bytes, `Option`,
Rust's truncating `/ 2` and the screens. `Paths` has `Path::file_name`,
`file_stem` and `extension`, split at the last dot the way the standard
library does it.

Things outside the program become inputs:

- Loading an audio stream is a `Loader`: a function from a path to
  "loaded", "not UTF-8" or "failed".
- The random draws of `shuffle` are a sequence of index pairs, one pair per
  round.
- The file system is a tree of `FsNode`s, or a function from a path to the
  node found there.
- The font's text measurement is a function.
- Each frame's key presses and mouse clicks are datatype values.

Some facts are proved as stated in the source, even where they look odd:

- Shift+N on the first song asks for song 1. On a one-song playlist this
  stops playback (`GuiMain.PrevKeyOnSingleSongStops`).
- "Save here" does nothing.

## Model

| member | source | states |
|---|---|---|
| Common.TruncHalf | src/song.rs:221 | Rust's signed `/ 2` rounds toward zero: twice the quotient is the dividend or one off toward zero, also for negative dividends |
| Paths.FileName | src/song.rs:21 | the last path component, absent for an empty path or a trailing `..` |
| Paths.LastDotIsUnique | src/song.rs:367 | a dot with no dot after it is where the name is split |
| Paths.FileStem | src/song.rs:21 | a stem exists exactly when a file name does, and a non-empty name has a non-empty stem |
| Paths.Extension | src/song.rs:367 | an extension exists exactly when the file name has a dot after its first byte; then the stem is non-empty, stem, dot and extension give the name back, and the extension has no dot; without one the stem is the whole name |
| Song.RepeatBehavior.Next | src/song.rs:129-136 | the repeat button always changes the mode |
| Song.NextCycles | src/song.rs:129-136 | three presses of the repeat button return to the starting mode, two do not |
| Song.RepeatBehavior.ToIcon | src/song.rs:116-127 | each mode draws a five-character raygui icon code |
| Song.IconsDistinguishModes | src/song.rs:116-127 | different modes draw different icons |
| Song.IsSupportedFormat | src/song.rs:368-372 | a path passes the format check only when it has an extension of two to four bytes |
| Song.SupportedNamePasses | src/song.rs:366-373 | a name made of a non-empty stem, a dot and a supported extension passes the check and splits back into that stem and that extension |
| Song.SupportedHasKnownSuffix | src/song.rs:366-373 | a name that passes the check has a dot after its first byte, at the end of its stem, followed by a supported extension |
| Song.SupportedMeansKnownSuffix | src/song.rs:366-373 | a file passes the format check exactly when its name has a dot after its first byte followed by one of the seven supported extensions |
| Song.NewSongEntry | src/song.rs:20-36 | no entry exactly when the path has no stem or an empty one; otherwise the display name is the stem with a NUL appended exactly when the stem does not already end in one |
| Song.NewSongEntryNeedsOnlyAName | src/song.rs:21-25 | for paths with non-empty components, an entry is refused only when there is no file name |
| Song.Consistent | src/song.rs:166-191 | with nothing playing the invariant holds; a playing song implies a non-empty list |
| Song.PlayOutcome | src/song.rs:166-191 | asking for the playing song keeps it; otherwise song `idx` plays if it exists and loads, else nothing plays; the playlist invariant is kept |
| Song.PlayResult | src/song.rs:166-191 | `play` succeeds exactly when a song plays afterwards; it reports `OutOfBounds` exactly for a missing index that is not already playing, `FileNameInvalid` exactly for a path that is not valid Unicode, and `IoError` with the loader's message exactly for a failed load |
| Song.CenterScroll | src/song.rs:219-224 | the scroll offset is never positive, is 0 exactly when the row fits above the middle, and otherwise puts the row at the middle |
| Song.CenterScrollMonotonic | src/song.rs:219-224 | a later row is never scrolled less far |
| Song.Shuffled | src/song.rs:261-283 | the shuffle specification: one swap per random pair, keeping the length |
| Song.ThreeMovesSwap | src/song.rs:276-280 | the three moves through the temporary slot swap the two songs, whatever the temporary held |
| Song.ShuffleStep | src/song.rs:268-281 | the first `k + 1` rounds are the first `k` rounds followed by round `k`, for the songs and for the playing index |
| Song.ShufflePermutes | src/song.rs:261-283 | the shuffle rearranges the songs without adding or losing any (multiset equality) |
| Song.ShuffleTracksEntry | src/song.rs:268-281 | the index the playing song is moved to holds the entry that was at its old index |
| Song.ShuffleKeepsConsistent | src/song.rs:268-281 | after the shuffle the playing song still names the slot of its own entry |
| Song.FileSong | src/song.rs:366-375 | a file adds at most one entry, for its own path, and adds one exactly when it has a supported extension and a non-empty stem |
| Song.ScanPrefix | src/song.rs:463-471 | the songs of a prefix of the listing come first in the songs of every longer prefix, in listing order |
| Song.ScanEntry | src/song.rs:434-461 | an entry that is neither a file nor a folder adds nothing; a file adds at most one entry, exactly when it has a supported extension and a non-empty stem (playlist files excepted, see Left out) |
| Song.ScanPrefixAddsOnlySupported | src/song.rs:463-471 | a folder scan adds only files with a supported extension, all lying strictly below the folder (playlist files excepted, see Left out) |
| Song.ScanEntryAddsOnlySupported | src/song.rs:434-461 | a scanned entry adds only supported files lying strictly below the containing folder (playlist files excepted, see Left out) |
| Song.ExtensionlessFilesAreNotAdded | src/song.rs:366-375 | a file without an extension is never added |
| Song.Playlist.constructor | src/song.rs:152-162 | an empty playlist, nothing playing, repeat mode `Normal`, scroll and selection at 0 |
| Song.Playlist.CurrentlyPlayingId | src/song.rs:289-294 | an index is present exactly when a song plays, and it names a slot of the list |
| Song.Playlist.HasMusicStream | src/song.rs:301-303 | a stream exists exactly when a playing index exists |
| Song.Playlist.IsMusicPlaying | src/song.rs:305-311 | a running song implies a stream |
| Song.Playlist.AdjustCenterSong | src/song.rs:219-224 | the scroll offset becomes `CenterScroll` of the row in a panel 180 pixels shorter than the screen |
| Song.Playlist.Play | src/song.rs:166-191 | the playing song and the result follow `PlayOutcome` and `PlayResult`; the list scrolls only when a new song starts; nothing else changes |
| Song.Playlist.PlayIgnoreErr | src/song.rs:193-217 | the same change of the playing song as `play`, without a result |
| Song.Playlist.Pause | src/song.rs:226-230 | the playing song, if any, is paused and keeps its slot |
| Song.Playlist.Resume | src/song.rs:233-237 | the playing song, if any, runs again |
| Song.Playlist.PauseResume | src/song.rs:239-247 | the running flag of the playing song flips; with no song nothing changes |
| Song.Playlist.Shuffle | src/song.rs:261-283 | the in-place swaps leave exactly `Shuffled(old songs, picks)`, with the playing index moved along with its song; invariant kept |
| Song.Playlist.StopPlaying | src/song.rs:296-299 | nothing plays afterwards |
| Song.Playlist.Clear | src/song.rs:349-352 | no songs and nothing playing; the repeat mode and cursor stay |
| Song.Playlist.AddSong | src/song.rs:358-360 | the entry is appended at the end and the playing song keeps its slot |
| Song.Playlist.AddSongByPath | src/song.rs:362-379 | appends exactly the songs found at the path (recursively for a folder, playlist files excepted) and fails exactly when the path's metadata cannot be read |
| Song.Playlist.LoadDirRecursively | src/song.rs:463-471 | appends the songs of the listing in listing order (playlist files excepted, see Left out) |
| Song.Playlist.ProcessEntry | src/song.rs:434-461 | a folder entry appends its scan, a supported file appends its entry, anything else adds nothing |
| GuiMain.NextIndex | src/gui_main.rs:133-143 | next wraps from the last song to the first and starts at the first when nothing plays |
| GuiMain.PrevKeyIndex | src/gui_main.rs:114-131 | Shift+N asks for the song before, asks for song 1 at song 0 and for song 0 when nothing plays; it asks for nothing only for an index past an empty list |
| GuiMain.PrevButtonIndex | src/gui_main.rs:424-439 | the previous button replays the first song at the start (or when nothing plays) and otherwise goes one back, inside the list |
| GuiMain.NextAndPrevButtonAreInverse | src/gui_main.rs:424-457 | away from the ends of the list, next and previous undo each other |
| GuiMain.PrevKeyOnSingleSongStops | src/gui_main.rs:114-118 | on a one-song list, Shift+N asks for a missing song and playback stops |
| GuiMain.EndOfTrack | src/gui_main.rs:172-192 | at the end of a track, Normal moves on or stops after the last song, Repeat wraps to the first, RepeatSingle rewinds the same song |
| GuiMain.RepeatEndIsNext | src/gui_main.rs:183-190 | in Repeat mode the end of a track moves on exactly as the N key does |
| GuiMain.RepeatStep | src/gui_main.rs:183-190 | in Repeat mode a track end moves one song on, wrapping to the first after the last |
| GuiMain.RepeatIsRoundRobin | src/gui_main.rs:183-190 | in Repeat mode, `n` track ends move `n` songs on modulo the length, so every song comes round |
| GuiMain.NextTrack | src/gui_main.rs:133-143 | the playing song becomes what `play` makes of `NextIndex`; the list, the mode and the selection are untouched; the list is centred on the song exactly when it starts |
| GuiMain.PrevTrackKey | src/gui_main.rs:111-131 | the playing song becomes what `play` makes of `PrevKeyIndex`, if it asks for a song; the list is centred on the song exactly when it starts; nothing else changes |
| GuiMain.PrevTrackButton | src/gui_main.rs:418-439 | the playing song becomes what `play` makes of `PrevButtonIndex`; the list is centred on the song exactly when it starts; nothing else changes |
| GuiMain.TrackEnded | src/gui_main.rs:172-192 | the playing song follows `EndOfTrack`: play the next song, stop, or keep the song for a rewind; the list is re-centred only when a next song starts |
| GuiMain.PressR | src/gui_main.rs:146-156 | Ctrl+R shuffles (songs and playing index together), R alone advances the repeat mode; nothing else changes |
| GuiMain.PlayEffect | src/gui_main.rs:117-142 | asking for a song changes only the playing song |
| GuiMain.Toggled | src/gui_main.rs:106-109 | Space changes only the playing song's running flag |
| GuiMain.NKeyEffect | src/gui_main.rs:110-145 | the N key changes only the playing song |
| GuiMain.EndEffect | src/gui_main.rs:173-195 | the end of a track changes only the playing song |
| GuiMain.ShortcutEffect | src/gui_main.rs:106-156 | after Space, N and R the songs are shuffled exactly on Ctrl+R, the mode advances exactly on R alone, and the selection stays |
| GuiMain.MusicEffect | src/gui_main.rs:99-197 | the same three facts hold once the end of a track is handled too |
| GuiMain.ShortcutsKeepConsistent | src/gui_main.rs:106-156 | Space, N and R keep the playlist invariant and the multiset of songs |
| GuiMain.MusicEffectKeepsConsistent | src/gui_main.rs:99-197 | the shortcuts and the end of a track keep the playlist invariant and the multiset of songs |
| GuiMain.PlaybackShortcuts | src/gui_main.rs:106-156 | the playlist becomes exactly `ShortcutEffect` of the old one |
| GuiMain.UpdateMusic | src/gui_main.rs:99-197 | the playlist becomes exactly `MusicEffect` of the old one; M without Ctrl moves the focus to the window bar and nothing else of the focus changes |
| GuiMain.VerticalMove | src/gui_main.rs:210-223 | the row moves at most one step and stays at most 5; moving down lands on column 0 or on the play button, moving up on column 0 or on the previous button; no arrow, no change |
| GuiMain.HorizontalMove | src/gui_main.rs:224-241 | only the window bar and the music controls move sideways, by at most one column, never past column 6 or 4 |
| GuiMain.FocusStep | src/gui_main.rs:209-253 | focus stays on existing controls; while the playlist holds the keyboard only Escape acts; Enter on the playlist row hands it the keyboard |
| GuiMain.DownEntersNextRow | src/gui_main.rs:210-215 | down moves one row and lands on the first control, or on the play button among the music controls |
| GuiMain.UpEntersPreviousRow | src/gui_main.rs:217-222 | up moves one row and lands on the first control, or on the previous button among the music controls |
| GuiMain.FocusStaysInRange | src/gui_main.rs:209-253 | over any run of frames the focus never leaves the controls |
| GuiMain.ListHoldsFocus | src/gui_main.rs:209-253 | while the playlist holds the keyboard, frames without Escape leave the focus unchanged |
| GuiMain.MainGuiState.constructor | src/gui_main.rs:48-53 | focus on row 0, column 0, the playlist not holding the keyboard |
| GuiMain.MoveVertically | src/gui_main.rs:210-223 | the focus becomes `VerticalMove` of the old one |
| GuiMain.MoveHorizontally | src/gui_main.rs:224-241 | the focus becomes `HorizontalMove` of the old one |
| GuiMain.NavigateFocus | src/gui_main.rs:209-253 | the focus follows `FocusStep`; the playlist becomes `NavEffect`: entering the list puts its cursor on the playing song, or on row 0, and centres it; otherwise nothing changes |
| GuiMain.InitSelect | src/gui_main.rs:622-631 | the selection cursor starts on the playing song and centres it, or starts at row 0 scrolled to the top |
| GuiMain.SelectionStep | src/gui_main.rs:543-552 | the selection cursor moves at most one row and never leaves the list |
| GuiMain.RenderSelection | src/gui_main.rs:534-553 | the playlist becomes `SelectionEffect`: when focused, Enter plays the selected song and the arrows move the cursor; a moved cursor is centred |
| GuiMain.HighlightedControl | src/gui_main.rs:79 | a music control is highlighted exactly when the focus is on row 4 and on one of its five columns |
| GuiMain.ControlActivated | src/gui_main.rs:79-95 | a control not clicked is activated only by Enter released on row 4 |
| GuiMain.ControlEffect | src/gui_main.rs:408-496 | no music control changes the number of songs |
| GuiMain.ControlEffectKeepsConsistent | src/gui_main.rs:408-496 | each control keeps the invariant, the multiset of songs and the selection, and changes the mode exactly when it is the repeat button |
| GuiMain.PressControl | src/gui_main.rs:408-496 | the playlist becomes `ControlEffect`: shuffle reorders, previous and next follow their index rules, repeat changes only the mode, play toggles a stream or starts song 0; the list is re-centred exactly when a song starts |
| GuiMain.BarAction | src/gui_main.rs:315-332 | the first five window-bar buttons switch to a file screen, never the player or lyrics screen, and no button exits |
| GuiMain.BarButtonsOpenDistinctScreens | src/gui_main.rs:315-329 | different file buttons open different screens |
| GuiMain.PressBarButton | src/gui_main.rs:315-332 | the action is `BarAction`; only the sixth button changes the playlist, emptying it |
| GuiMain.SkipPlaysFollowingSong | src/gui_main.rs:260-265 | skipping ahead near the end of a track plays the following song exactly when there is one and it loads, and never wraps to the first |
| GuiMain.SkipAhead | src/gui_main.rs:262-265 | the playlist becomes `SkipEffect`: pause, then play the following index; the list is centred on it exactly when it starts |
| GuiMain.BarsAction | src/gui_main.rs:315-329 | the window bar never exits, and asks for no screen exactly when no file button is pressed |
| GuiMain.MaybePress | src/gui_main.rs:408-496 | an activated control or not, the number of songs stays |
| GuiMain.Draws | src/gui_main.rs:416 | the shuffle draws used always lie inside the list |
| GuiMain.MaybePressKeepsSongs | src/gui_main.rs:408-496 | one control keeps the invariant and the multiset of songs |
| GuiMain.ControlsKeepSongs | src/gui_main.rs:408-496 | the five controls of a frame keep the invariant and the multiset of songs |
| GuiMain.FrameKeepsSongs | src/gui_main.rs:315-553 | the rest of a frame keeps the invariant and the multiset of songs, unless the close-playlist button emptied the list |
| GuiMain.PressBars | src/gui_main.rs:315-332 | the action is `BarsAction` and the playlist becomes `BarsEffect` |
| GuiMain.PressIfActivated | src/gui_main.rs:76-96 | the playlist becomes `MaybePress`: the control's effect when it is clicked or Enter is released on it, no change otherwise |
| GuiMain.PressControls | src/gui_main.rs:408-496 | the playlist becomes `ControlsEffect`: the five controls in drawing order |
| GuiMain.BeforeDrawing | src/gui_main.rs:209-272 | the focus follows `FocusStep` and the playlist becomes `PreDrawEffect` |
| GuiMain.AfterExitCheck | src/gui_main.rs:315-522 | the action is `BarsAction` and the playlist becomes `FrameEffect` |
| GuiMain.RenderMainGui | src/gui_main.rs:200-524 | one frame moves the focus by `FocusStep`, exits exactly on the close button or Enter on the exit control, and otherwise returns `BarsAction` with the playlist at `FrameEffect` of `PreDrawEffect`; the focus stays in range |
| FileGui.Label | src/file_gui.rs:107-125 | the label is the icon, the name without a final NUL, and one NUL; it is refused exactly when the name holds a NUL elsewhere |
| FileGui.BuildLabel | src/file_gui.rs:107-125 | the label the loop builds is `Label` |
| FileGui.Admitted | src/file_gui.rs:84-105 | folders always pass; on the folder screens only folders pass; a passing non-folder is a file with an extension that is supported or `m3u` |
| FileGui.EntryOf | src/file_gui.rs:84-131 | an entry that is kept carries the folder entry's own name and is a file exactly when the folder entry is |
| FileGui.BuiltStep | src/file_gui.rs:127-131 | one more candidate is appended to the listing exactly when it was built |
| FileGui.BuiltExactly | src/file_gui.rs:74-132 | the listing holds exactly the candidates that were kept |
| FileGui.Listing | src/file_gui.rs:64-72 | a folder that cannot be read lists nothing; a listing never has more entries than the folder |
| FileGui.ListingShowsOnlyAdmitted | src/file_gui.rs:84-131 | every listed entry comes from the folder, carries its own label, and is a folder or a file with a playlist or supported extension, never a file on a folder screen |
| FileGui.ListingMissesNothing | src/file_gui.rs:74-132 | every folder entry that passes the filter and has a valid label is listed |
| FileGui.FolderScreensListOnlyFolders | src/file_gui.rs:57-104 | the folder screens list no files, and no file without an extension is listed |
| FileGui.Choose | src/file_gui.rs:292-349 | button 1 goes up, buttons 2 to len+1 open entries, button len+2 is the special button on the folder screens, anything else does nothing |
| FileGui.CursorStep | src/file_gui.rs:273-290 | the keyboard cursor moves at most one button and never past the last reachable button |
| FileGui.CursorStaysOnButtons | src/file_gui.rs:273-290 | a cursor on a button stays on buttons that do something |
| FileGui.Parent | src/file_gui.rs:295 | going up drops the last path component; the root stays |
| FileGui.UpUndoesEnter | src/file_gui.rs:295-324 | going up after entering a folder returns to the folder before |
| FileGui.PickOf | src/file_gui.rs:292-349 | ".." and folders are entered; files are added or opened only on the file screens; the special button adds or opens the folder; saving does nothing |
| FileGui.AddedFolderSongsLieInside | src/file_gui.rs:332-345 | adding a folder brings in only supported songs from inside it (playlist files excepted, see Left out) |
| FileGui.OpenStartsFirstSong | src/file_gui.rs:311-319 | opening replaces the playlist and starts its first song whenever that song loads |
| FileGui.MakeDirEntry | src/file_gui.rs:74-131 | one entry of the listing loop: skipped by the filter or the label check, else built with its label |
| FileGui.FileGuiState.constructor | src/file_gui.rs:41-51 | start in the music folder with the cursor on nothing and the folder listed |
| FileGui.FileGuiState.RefreshFolderEntries | src/file_gui.rs:53-133 | the entries become the filtered listing of the current folder (empty when unreadable) and a cursor on a button moves to ".." |
| FileGui.AddAndStart | src/file_gui.rs:302-319 | optionally clear, then append the songs at the path, then play song 0 unless a song is running; the repeat mode and the selection stay, and the list scrolls to the top row exactly when song 0 starts |
| FileGui.MoveCursor | src/file_gui.rs:273-290 | the cursor follows `CursorStep` and is centred when it moves |
| FileGui.ActOnChoice | src/file_gui.rs:292-350 | the playlist and the folder change as `PickOf` says, and the picker is left exactly when songs were added; the repeat mode and the playlist's selection stay |
| FileGui.RenderFileGui | src/file_gui.rs:146-353 | the close button leaves at once; otherwise Escape or adding songs leaves, and the cursor, folder and playlist change as the chosen button says; the repeat mode and the playlist's selection stay |
| GuiLyrics.Lines | src/gui_lyrics.rs:101 | lines hold no line feed, and only the empty text has no lines |
| GuiLyrics.LinesCount | src/gui_lyrics.rs:101 | one line per line feed, plus one for text after the last line feed |
| GuiLyrics.Widest | src/gui_lyrics.rs:98-102 | the box width is never negative |
| GuiLyrics.WidestIsMaximum | src/gui_lyrics.rs:98-102 | the width is at least every line's width, and equals one of them unless it is 0 |
| GuiLyrics.BoxHeight | src/gui_lyrics.rs:103-104 | no lines give the 12 pixels of padding; at a non-negative font size each line adds at least the font size |
| GuiLyrics.HeightAtFontSize10 | src/gui_lyrics.rs:103-104 | at font size 10 each line adds 15 pixels |
| GuiLyrics.GetDimensions | src/gui_lyrics.rs:97-108 | the width is the widest line: at least every line's width and equal to one of them unless 0; the height is 12 plus font size and half of it per line; empty text gives 0 by 12 |

## Left out

- Audio is reduced to a flag. Streams, lengths, progress, `update` and the
  seek positions are not modelled. `seek(0.0)` in `play` and `seek(0.1)` in
  `play_ignore_err` are both modelled as "the song stays".
- Starting a stream (`PlayingSong::new_play`) is the `Loader` parameter.
- `GetRandomValue` is the `picks` parameter.
- `measure_text` is a function parameter.
- The right arrow on the progress bar (rows 0 and 3) is modelled only when
  it skips to the next song; whether the track is in its last 6 seconds is
  the input `nearTrackEnd`. Seeking by 5 seconds, the volume-bar keys
  (row 5) and Ctrl+M (mute) are not modelled: they compare and set
  floating-point positions and volumes.
- Drawing, layout and scroll-panel mouse scrolling are left out. Mouse
  clicks are inputs given as button ids.
- The scroll offset of the playlist panel is not part of `PlaylistState`,
  so the state-level effects of the main screen say nothing about it.
  `Play`, `PlayIgnoreErr`, `AdjustCenterSong`, `InitSelect`,
  `NavigateFocus`, `NextTrack`, `PrevTrackKey`, `PrevTrackButton`,
  `TrackEnded`, `SkipAhead`, `PressControl` and `AddAndStart` state it.
  The methods that combine several of these in one frame
  (`PlaybackShortcuts`, `UpdateMusic`, `RenderSelection`, `PressControls`,
  `BeforeDrawing`, `AfterExitCheck`, `RenderMainGui`, `ActOnChoice`,
  `RenderFileGui`) leave it unstated; `RenderSelection` states it only when
  the cursor moves.
- Clicking a playlist row with the mouse is not modelled: it depends on the
  drawn row positions.
- `save_to_file`, `from_file` and `load_from_file` (playlist files) are not
  part of this model.
- Song.Playlist.ProcessEntry: a `.m3u` file found while scanning a folder
  adds nothing here. The source loads it as a playlist with
  `load_from_file`, which adds the path on each of its lines wherever it
  points (src/song.rs:424-426, 456-457). A playlist file that names its own
  folder makes the source's scan recurse without end.
- Song.ScanEntry: a `.m3u` file adds nothing, so "a file adds at most one
  entry" fails in the source once a scanned folder holds a playlist file.
- Song.ScanPrefixAddsOnlySupported: holds only because a `.m3u` file adds
  nothing; in the source a playlist file in the folder brings in songs from
  anywhere.
- Song.ScanEntryAddsOnlySupported: the same `.m3u` gap as
  `ScanPrefixAddsOnlySupported`.
- Song.Playlist.AddSongByPath: for a folder, appends the scanned songs
  without those named by `.m3u` files inside it. A `.m3u` given directly is
  not a supported format and adds nothing, as in the source.
- Song.Playlist.LoadDirRecursively: appends `ScanPrefix`, which drops the
  songs of `.m3u` files in the folder.
- FileGui.AddedFolderSongsLieInside: fails in the source once the added
  folder holds a `.m3u` file, whose songs may lie anywhere.
- Paths.FileName: a `.` component is taken as a file name. Rust's
  `Path::components` drops such components. The names the model splits come
  from folder entries and never are `.`.
- Song.Playlist.AdjustCenterSong: uses unbounded integers. It does not model
  the `as i32` cast of `idx * 30 + 5` or the `f32` store.
- FileGui.MoveCursor: uses unbounded integers and an integer scroll value.
  It does not model the source's `u32` and `f32` fields.
- GuiLyrics.GetDimensions: does not model `i32` overflow of the height for
  texts with billions of lines.
- The file system is a tree, or a function from paths to nodes. A folder
  entry's type comes from `DirEntry::file_type`, which does not follow
  symbolic links, so a link found while listing or scanning a folder is a
  `Special` node and is skipped (src/file_gui.rs:80-86,
  src/song.rs:435-445). Only `fs::metadata` in `add_song_by_path`
  (src/song.rs:363) follows links, so the node given for the added path is
  the link's target. An entry whose type cannot be read is `Missing`, and a
  folder that cannot be read is not a `Directory` node.
- FileGui.RenderFileGui: requires a screen other than the player screen.
  `src/main.rs` calls it only for the five file screens.
- The main event loop, window set-up and screen switching in `src/main.rs`
  are not part of this model.
- The lyrics drawing loop in `render_lyrics_gui` is left out. It reads the
  fields `lyrics` and `lyrics_dimensions`, which the playing song in
  `src/song.rs` does not have.
- Logging with `println!` is left out.
