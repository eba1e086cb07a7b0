# Java Swing MP3 player: a Dafny model of its core

The player is a small desktop application with the following parts:

- `Song` holds one track's metadata map: file path, `mm:ss` length, title, artist and genre. The map is filled once, from the MP3 file and its ID3 tag.
- `Library` is the catalog. It supports lookup by index or title, append, table rows, three case-insensitive sorts and a relevance search.
- `MusicPlayer` is the playback state machine behind the Play, Pause, Next and Prev buttons and the JLayer listener callbacks.
- `PlaylistDialogBox` holds the check-box table used to choose songs and writes the chosen paths to a playlist file. `loadPlaylist` reads such a file back line by line.

The model has one module per source file, plus two helper modules:

| module | file | models |
|---|---|---|
| `Wrappers` | `wrappers.dfy` | `Option`, standing for a Java reference that may be null |
| `Text` | `text.dfy` | the JDK string operations the code relies on: decimal printing, `%02d`, ASCII `toLowerCase`, `startsWith`/`contains`, the order behind `compareTo` |
| `Songs` | `song.dfy` | `Song.java` |
| `Catalog` | `library.dfy` | `Library.java` |
| `Player` | `music_player.dfy` | `MusicPlayer.java` |
| `Playlists` | `playlist_dialog.dfy` | `PlaylistDialogBox.java` and `PlaylistTableModel` |

How the Java code is represented:

- **Objects that change state are classes.**
  - `Library` keeps `songs: seq<Song>`, which the sorts and `AddToLibrary` reassign.
  - `PlaylistTableModel` keeps `selected: seq<bool>`.
  - `MusicPlayer` has the Java class's fields except the `musicPlayerGUI` reference. The `AdvancedPlayer` reference is reduced to `hasPlayer` (it is non-null) and `playerClosed` (that player played to its end and closed itself). The second flag matters because of two facts about JLayer 1.0.1's `AdvancedPlayer`, whose source is not part of this model. First, a song that plays to its end calls `close()`, which drops the audio device, and only then calls `playbackFinished`. Second, `stop()` builds its event from that device. So `stop()` on such a player throws a NullPointerException before the listener runs. Of the GUI callbacks, only the one that can throw is modelled: `updatePlaybackSlider` dereferences `getMp3File()` (MusicPlayerGUI.java:362), which is null for a song `Mp3File` could not read (`Song.HasMp3File` false).
  - `Song` is a class with one `const` map. It never changes after construction, and Java code compares songs by identity.
- **Each `MusicPlayer` method has a step function**, for example `NextStep` or `FinishedStep`, over a `PlayerState` value. Each class method repeats the Java body statement by statement and `ensures` that its new state equals that function applied to the old state. The properties are proved about the functions.
- **Exceptions.** An exception that escapes a Java method is an `Outcome.Threw`, or an `Option`/`ok` result. Cases the source throws on and the caller never triggers are stated as `requires`.
- **Library calls become parameters.** `Probe` says what mp3agic and jaudiotagger find in a file. `openable` is the set of paths JLayer can open, and `advance` is the frame count the pause callback adds. The library constructor and `LoadPlaylist` take the paths and lines that were read.
- **`Collections.sort` and `List.sort` are JDK calls.** The model gives each comparator a stable insertion sort. `Catalog.StableSortIsUnique` proves that every stable sort by that comparator returns the same list, so the model agrees with TimSort.

## Model

| member | source | states |
|---|---|---|
| `Text.ParseDecimalOfDecimal` | Java-Swing-MusicPlayer-main/src/Library.java:120 | the row number `myIndex + 1 + ""` is a digit string that reads back as the same number |
| `Text.DecimalUnique` | Java-Swing-MusicPlayer-main/src/Library.java:120 | a digit string with no leading zero equals `Decimal` of the number it reads as, so `Decimal` is the one string `"" + n` can be |
| `Text.ZeroPad2Properties` | Java-Swing-MusicPlayer-main/src/Song.java:100 | `%02d` gives at least two digits, exactly two below 100, and reads back as the number; below 10 it is "0" and the digit, from 10 on it is the plain decimal with no added zero |
| `Songs.FormatLength` | Java-Swing-MusicPlayer-main/src/Song.java:97-101 | the length string is digits, a `:`, then exactly two digits |
| `Songs.LengthFields` | Java-Swing-MusicPlayer-main/src/Song.java:98-100 | the seconds field is below 60, and minutes * 60 + seconds is the input length |
| `Songs.ShortLengthShape` | Java-Swing-MusicPlayer-main/src/Song.java:100 | under 6000 seconds the string is exactly `mm:ss`, with `:` at position 2 |
| `Songs.Metadata` | Java-Swing-MusicPlayer-main/src/Song.java:50-90 | the path is always stored; the length is stored iff `Mp3File` succeeds; title, artist and genre are stored together, iff the tag read succeeds too; they are "N/A" with no tag and the tag's values with one; no other key appears |
| `Songs.Song.constructor` | Java-Swing-MusicPlayer-main/src/Song.java:50-90 | fills the map entry by entry and ends with exactly `Metadata(path, probe)` |
| `Songs.Song.Get` | Java-Swing-MusicPlayer-main/src/Song.java:108-146 | a getter returns the stored value, or null (`None`) when the key is absent |
| `Songs.GettersAfterConstruction` | Java-Swing-MusicPlayer-main/src/Song.java:58-89 | `getFilePath` returns the argument even when loading fails; a non-MP3 file leaves every other getter null and `getMp3File` null; a failed tag read keeps the length and leaves title, artist and genre null; with no tag all three are "N/A"; all three are present iff the file is an MP3 whose tag could be read |
| `Catalog.SortByKeyPermutes` | Java-Swing-MusicPlayer-main/src/Library.java:153-172 | each sort returns a permutation of the library |
| `Catalog.SortByKeySorted` | Java-Swing-MusicPlayer-main/src/Library.java:153-172 | each sort leaves the library non-decreasing by the lower-cased key |
| `Catalog.SortByKeyStable` | Java-Swing-MusicPlayer-main/src/Library.java:153-172 | songs with equal folded keys keep their relative order |
| `Catalog.StableSortIsUnique` | Java-Swing-MusicPlayer-main/src/Library.java:153-172 | any sorted list with the same songs per key, in the same order, equals the modelled sort, so any stable sort agrees with it |
| `Catalog.Relevance` | Java-Swing-MusicPlayer-main/src/Library.java:186-216 | the score is at most 300, and it is positive iff the lower-cased term occurs in the title, artist or genre |
| `Catalog.EmptyTermScoresFull` | Java-Swing-MusicPlayer-main/src/Library.java:186-216 | the empty term is a prefix of every field, so every song scores 300 |
| `Catalog.TitlePrefixRanksFirst` | Java-Swing-MusicPlayer-main/src/Library.java:195-216 | a title that starts with the term scores at least 150; a song whose title lacks the term scores at most 150 |
| `Catalog.SortByScoreCorrect` | Java-Swing-MusicPlayer-main/src/Library.java:230-235 | the score sort returns a permutation in non-increasing score order |
| `Catalog.KeysInSomeOrder` | Java-Swing-MusicPlayer-main/src/Library.java:226 | `addAll(keySet())` lists each key of the score map exactly once, in an order left open |
| `Catalog.Library.constructor` | Java-Swing-MusicPlayer-main/src/Library.java:46-71 | one new song per listed file, in order, each built from its path |
| `Catalog.Library.SongAt` | Java-Swing-MusicPlayer-main/src/Library.java:79-81 | `getSong(int)` returns the library's element at that index |
| `Catalog.Library.GetSongByTitle` | Java-Swing-MusicPlayer-main/src/Library.java:89-99 | returns the first song whose title equals the argument, or null when none does; a song without a title before any match is the NullPointerException of `getSongTitle().equals` |
| `Catalog.Library.AddToLibrary` | Java-Swing-MusicPlayer-main/src/Library.java:106-108 | appends at the end; the length grows by one and earlier songs are unchanged |
| `Catalog.Library.ToArray` | Java-Swing-MusicPlayer-main/src/Library.java:115-126 | a new n-by-4 array; row i is exactly `Decimal(i+1)` (no leading zero, reading back as i+1), then title, artist and genre of song i |
| `Catalog.Library.SortByTitle` | Java-Swing-MusicPlayer-main/src/Library.java:153-156 | the library becomes the stable title sort of itself: a permutation, sorted by lower-cased title |
| `Catalog.Library.SortByArtist` | Java-Swing-MusicPlayer-main/src/Library.java:161-164 | the same, by artist |
| `Catalog.Library.SortByGenre` | Java-Swing-MusicPlayer-main/src/Library.java:169-172 | the same, by genre |
| `Catalog.Library.SearchSongs` | Java-Swing-MusicPlayer-main/src/Library.java:180-239 | throws (`None`) iff some song lacks a title, artist or genre; otherwise returns every library song with a positive score exactly once and nothing else, in non-increasing score order, each score in 1..300 |
| `Player.PlayStart` | Java-Swing-MusicPlayer-main/src/MusicPlayer.java:228-239 | playback starts only for an openable song: from `currentFrame` after a pause, otherwise from frame 0 |
| `Player.PlayStep` | Java-Swing-MusicPlayer-main/src/MusicPlayer.java:196-220 | an openable song gets a new, open player and is no longer paused; otherwise the exception is swallowed and nothing changes; no other field changes |
| `Player.MoveTo` | Java-Swing-MusicPlayer-main/src/MusicPlayer.java:159-169 | `playlist.get` throws iff the new index is outside the playlist; otherwise the song is the entry at that index with frame and time 0; then `updatePlaybackSlider` throws iff that entry has no `Mp3File`, before any player is made; otherwise the entry is played |
| `Player.FinishedStep` | Java-Swing-MusicPlayer-main/src/MusicPlayer.java:299-323 | paused: only `currentFrame` changes (it throws for a null song); after Next or Prev: nothing changes; otherwise `songFinished` is set; no advance at the end or without a playlist; otherwise exactly one advance to the next entry, which returns normally iff that entry has an `Mp3File` |
| `Player.EndStep` | Java-Swing-MusicPlayer-main/src/MusicPlayer.java:299-323 | a song's natural end: the player closes itself, then `playbackFinished` runs. It throws exactly in the callback's two cases: a paused null song, or an advance onto an entry without an `Mp3File`. Without an advance, the closed player stays in place. After an advance, the closed player is replaced iff the next entry has an `Mp3File` and opens |
| `Player.StopStep` | Java-Swing-MusicPlayer-main/src/MusicPlayer.java:141-147 | without a player nothing happens; after a normal return no player exists; a player that closed itself makes `stop()` throw before the listener, with nothing changed; otherwise a paused stop records the frames played, and the call throws exactly when the listener call inside `stop()` throws |
| `Player.NextStep` | Java-Swing-MusicPlayer-main/src/MusicPlayer.java:150-170 | no-op without a playlist or at the last index; otherwise index+1, the song at that index, frame and time 0, `pressedNext` set; it throws iff the stop throws (a player that closed itself, or a paused player with a null song) or the new entry has no `Mp3File` |
| `Player.PrevStep` | Java-Swing-MusicPlayer-main/src/MusicPlayer.java:173-193 | no-op without a playlist or at index 0; otherwise index-1 with the same guarantees and the same two exceptions as Next; it also throws when the old index points past the list by more than one |
| `Player.PauseStep` | Java-Swing-MusicPlayer-main/src/MusicPlayer.java:133-138 | no change without a player. With an open player and a song, the player is paused, it is gone and the frames are recorded. A player that closed itself throws in `stop()`: `isPaused` is set, and the frame and the player are kept |
| `Player.LoadSongStep` | Java-Swing-MusicPlayer-main/src/MusicPlayer.java:81-96 | the playlist is always cleared and the song is current; the call throws iff the song has not finished and the stop fails (a player that closed itself, or a paused stop with a null song); otherwise a non-null song gets frame and time 0 and is played |
| `Player.LoadPlaylistStep` | Java-Swing-MusicPlayer-main/src/MusicPlayer.java:99-130 | the playlist is the songs read and the index is kept; an empty list changes nothing else; otherwise the first song is current with frame and time 0, and the call throws iff that song has no `Mp3File`, leaving no new player |
| `Player.LoadPlaylistFixedStep` | Java-Swing-MusicPlayer-main/src/MusicPlayer.java:99-130 | corrected loader: the same as `loadPlaylist`, including the exception for a first entry without an `Mp3File`, but the index starts at 0 |
| `Player.SelectStep` | Java-Swing-MusicPlayer-main/src/MusicPlayer.java:278-281 | the selected song is current at frame 0, and nothing else changes |
| `Player.StartedStep` | Java-Swing-MusicPlayer-main/src/MusicPlayer.java:290-295 | the started song is neither finished nor skipped, and nothing else changes |
| `Player.NextKeepsIndexInRange` | Java-Swing-MusicPlayer-main/src/MusicPlayer.java:150-170 | Next keeps the index inside the playlist |
| `Player.PrevKeepsIndexInRange` | Java-Swing-MusicPlayer-main/src/MusicPlayer.java:173-193 | Prev keeps the index inside the playlist |
| `Player.FinishedKeepsIndexInRange` | Java-Swing-MusicPlayer-main/src/MusicPlayer.java:299-323 | the end-of-song callback keeps the index inside the playlist |
| `Player.EndKeepsIndexInRange` | Java-Swing-MusicPlayer-main/src/MusicPlayer.java:299-323 | a song's natural end keeps the index inside the playlist |
| `Player.StopKeepsIndexInRange` | Java-Swing-MusicPlayer-main/src/MusicPlayer.java:141-147 | stopping keeps the index inside the playlist |
| `Player.InRangePrevDoesNotOverrun` | Java-Swing-MusicPlayer-main/src/MusicPlayer.java:173-193 | with the index in range and a current song, Prev never indexes past the list: it throws iff the stop meets a player that closed itself or the previous entry has no `Mp3File` |
| `Player.NoMp3FileNoPlayback` | Java-Swing-MusicPlayer-main/src/MusicPlayer.java:159-169 | Next onto an entry without an `Mp3File` throws. Unless the stop fails on a player that closed itself, the entry is selected first, and no new player exists afterwards |
| `Player.OnlyStartedClearsSkipFlags` | Java-Swing-MusicPlayer-main/src/MusicPlayer.java:290-295 | no button or loading step (Next, Prev, Stop, Pause, load song, load playlist, select) clears `pressedNext` or `pressedPrev`; only `playbackStarted` does |
| `Player.CallbacksKeepSkipFlags` | Java-Swing-MusicPlayer-main/src/MusicPlayer.java:299-323 | neither `playbackFinished` nor a song's natural end clears `pressedNext` or `pressedPrev` |
| `Player.StopIsIdempotent` | Java-Swing-MusicPlayer-main/src/MusicPlayer.java:141-147 | a second stop changes nothing |
| `Player.PauseThenResume` | Java-Swing-MusicPlayer-main/src/MusicPlayer.java:133-138 | with an open player, a pause returns, and Play resumes from the old frame plus the frames played. With a player that closed itself, the pause throws, recording no frames, and Play resumes from the old frame. Either way the song is playing again |
| `Player.SeekResumesAtChosenFrame` | Java-Swing-MusicPlayer-main/src/MusicPlayerGUI.java:266-279 | the slider's drag handler (pause, set frame f, play) would resume at frame f; the pause returns iff the player had not closed itself. The slider is created hidden and never shown (MusicPlayerGUI.java:264), so this gesture cannot happen as the GUI stands |
| `Player.FreshPlayStartsAtZero` | Java-Swing-MusicPlayer-main/src/MusicPlayer.java:236-239 | an unpaused song starts from the beginning |
| `Player.AutoAdvance` | Java-Swing-MusicPlayer-main/src/MusicPlayer.java:306-321 | a song that ends by itself moves to the next entry, which plays normally iff it has an `Mp3File`; the last entry stops auto-play and returns normally |
| `Player.PauseAfterFailedAdvanceThrows` | Java-Swing-MusicPlayer-main/src/MusicPlayer.java:133-147 | load [a, b] and let a end on its own. The advance to b makes no player, because b has no `Mp3File` or does not open, so a's closed player stays. Pause then throws in `stop()` with `isPaused` set and frame 0 |
| `Player.NextWalksPlaylist` | Java-Swing-MusicPlayer-main/src/MusicPlayer.java:150-170 | with three MP3 songs, Next from a freshly loaded [a, b, c] visits b, then c, then does nothing |
| `Player.StaleIndexPrevThrows` | Java-Swing-MusicPlayer-main/src/MusicPlayer.java:173-183 | after loading a list, an index left over from a longer list makes Prev throw |
| `Player.StaleIndexNextSkips` | Java-Swing-MusicPlayer-main/src/MusicPlayer.java:150-160 | after loading a list with an index of 1 left over, Next moves to the third song unless the stop meets a player that closed itself; it returns normally iff neither that stop failure occurs nor the third song lacks an `Mp3File` |
| `Player.StaleIndexScenario` | Java-Swing-MusicPlayer-main/src/MusicPlayer.java:99-130 | load [a, b, c] where b and c are MP3s, Next, Next, load [d], Prev: `playlist.get(1)` throws |
| `Player.FixedLoadKeepsIndexInRange` | Java-Swing-MusicPlayer-main/src/MusicPlayer.java:99-130 | with the corrected loader the index is in range and points at the current song; Prev is a no-op; Next returns normally iff the stop does not meet a player that closed itself and the second song has an `Mp3File`, and without that stop failure it moves to the second song |
| `Player.MusicPlayer.constructor` | Java-Swing-MusicPlayer-main/src/MusicPlayer.java:76-78 | every field starts at its Java default |
| `Player.MusicPlayer.SetCurrentFrame` | Java-Swing-MusicPlayer-main/src/MusicPlayer.java:63-65 | only `currentFrame` changes |
| `Player.MusicPlayer.SetCurrentTimeInMilli` | Java-Swing-MusicPlayer-main/src/MusicPlayer.java:71-73 | only `currentTimeInMilli` changes |
| `Player.MusicPlayer.LoadSong` | Java-Swing-MusicPlayer-main/src/MusicPlayer.java:81-96 | the new state is `LoadSongStep` of the old one |
| `Player.MusicPlayer.LoadPlaylist` | Java-Swing-MusicPlayer-main/src/MusicPlayer.java:99-130 | one new song per line read, in order; then the new state and the exception are those of `LoadPlaylistStep` |
| `Player.MusicPlayer.PauseSong` | Java-Swing-MusicPlayer-main/src/MusicPlayer.java:133-138 | the new state and the exception are those of `PauseStep`, including the throw on a player that closed itself |
| `Player.MusicPlayer.StopSong` | Java-Swing-MusicPlayer-main/src/MusicPlayer.java:141-147 | the new state and the exception are those of `StopStep`: a player that closed itself throws before the listener; otherwise the listener is called before the close |
| `Player.MusicPlayer.NextSong` | Java-Swing-MusicPlayer-main/src/MusicPlayer.java:150-170 | the new state and the exception are those of `NextStep` |
| `Player.MusicPlayer.PrevSong` | Java-Swing-MusicPlayer-main/src/MusicPlayer.java:173-193 | the new state and the exception are those of `PrevStep` |
| `Player.MusicPlayer.SelectPlaylistEntry` | Java-Swing-MusicPlayer-main/src/MusicPlayer.java:159-169 | the shared tail of Next and Prev: the new state and the exception are those of `MoveTo` at the updated index |
| `Player.MusicPlayer.PlayCurrentSong` | Java-Swing-MusicPlayer-main/src/MusicPlayer.java:196-220 | returns where playback starts, and the new state is `PlayStep` of the old one |
| `Player.MusicPlayer.StartMusicThread` | Java-Swing-MusicPlayer-main/src/MusicPlayer.java:223-245 | starts at `currentFrame` if paused, otherwise at 0, and clears `isPaused` |
| `Player.MusicPlayer.SetSelectedSong` | Java-Swing-MusicPlayer-main/src/MusicPlayer.java:278-281 | the new state is `SelectStep` of the old one |
| `Player.MusicPlayer.PlaybackStarted` | Java-Swing-MusicPlayer-main/src/MusicPlayer.java:290-295 | the new state is `StartedStep` of the old one |
| `Player.MusicPlayer.PlaybackEnded` | Java-Swing-MusicPlayer-main/src/MusicPlayer.java:299-323 | the music thread at a song's natural end: the player is marked closed, then `playbackFinished` runs; the new state and the exception are those of `EndStep` |
| `Player.MusicPlayer.PlaybackFinished` | Java-Swing-MusicPlayer-main/src/MusicPlayer.java:299-323 | the new state and the exception are those of `FinishedStep` |
| `Playlists.PlaylistTableModel.constructor` | Java-Swing-MusicPlayer-main/src/PlaylistDialogBox.java:118-121 | one selection flag per song, all false |
| `Playlists.PlaylistTableModel.RowCount` | Java-Swing-MusicPlayer-main/src/PlaylistDialogBox.java:124-126 | the row count is the song count |
| `Playlists.PlaylistTableModel.ColumnCount` | Java-Swing-MusicPlayer-main/src/PlaylistDialogBox.java:129-131 | four columns: the check box, title, artist and genre |
| `Playlists.PlaylistTableModel.ColumnClassOf` | Java-Swing-MusicPlayer-main/src/PlaylistDialogBox.java:147-153 | the column is Boolean iff it is column 0, otherwise String |
| `Playlists.PlaylistTableModel.ColumnName` | Java-Swing-MusicPlayer-main/src/PlaylistDialogBox.java:156-166 | column 0 is headed "Select", 1 "Title", 2 "Artist", and every other column "Genre"; each header is given for exactly those columns |
| `Playlists.PlaylistTableModel.IsCellEditable` | Java-Swing-MusicPlayer-main/src/PlaylistDialogBox.java:169-171 | a cell is editable iff it is in column 0, whatever the row |
| `Playlists.PlaylistTableModel.ValueAt` | Java-Swing-MusicPlayer-main/src/PlaylistDialogBox.java:134-144 | column 0 is the row's flag, 1 the title, 2 the artist, anything else the genre |
| `Playlists.PlaylistTableModel.IsSelected` | Java-Swing-MusicPlayer-main/src/PlaylistDialogBox.java:181-183 | the row's flag, as column 0 shows it |
| `Playlists.PlaylistTableModel.SetValueAt` | Java-Swing-MusicPlayer-main/src/PlaylistDialogBox.java:174-179 | column 0 sets exactly that row's flag; any other column changes nothing; a row outside the table is the IndexOutOfBoundsException |
| `Playlists.ColumnsAgree` | Java-Swing-MusicPlayer-main/src/PlaylistDialogBox.java:134-171 | a column is editable iff it is the Boolean column iff it shows the flag iff it is headed "Select", i.e. iff it is column 0 |
| `Playlists.HeadersDistinct` | Java-Swing-MusicPlayer-main/src/PlaylistDialogBox.java:129-166 | the four columns have four different headers, and columns past 3 repeat "Genre" |
| `Playlists.HeaderNamesField` | Java-Swing-MusicPlayer-main/src/PlaylistDialogBox.java:134-166 | each column's header names what `getValueAt` shows under it: the flag under "Select", the title under "Title", the artist under "Artist", the genre under "Genre" |
| `Playlists.SelectedAtRows` | Java-Swing-MusicPlayer-main/src/PlaylistDialogBox.java:82-87 | the selected songs are exactly the flagged rows' songs, in increasing row order |
| `Playlists.SelectedEmpty` | Java-Swing-MusicPlayer-main/src/PlaylistDialogBox.java:89-92 | nothing is selected iff no flag is set |
| `Playlists.PlaylistRoundTrip` | Java-Swing-MusicPlayer-main/src/PlaylistDialogBox.java:102-106 | reading the written file back with `readLine` gives the same paths, in order, when no path holds a line break (LF or CRLF separator) |
| `Playlists.BrokenPathSplits` | Java-Swing-MusicPlayer-main/src/MusicPlayer.java:108-110 | a path `x + "\n" + y` with no other break is read back as the two lines x and y |
| `Playlists.PlaylistDialogBox.constructor` | Java-Swing-MusicPlayer-main/src/PlaylistDialogBox.java:23-40 | the dialog and its table model share the song list, and no row is selected |
| `Playlists.PlaylistDialogBox.SavePlaylist` | Java-Swing-MusicPlayer-main/src/PlaylistDialogBox.java:81-111 | the error dialog when no flag is set, nothing when the chooser is cancelled, otherwise a file holding each selected path followed by the line separator, in table order |
| `Playlists.SaveThenLoad` | Java-Swing-MusicPlayer-main/src/PlaylistDialogBox.java:81-106 | saving a selection and reading it back with `loadPlaylist`'s loop gives the flagged rows' paths in table order |

## Left out

- The Swing GUI (`MusicPlayerGUI.java`, `App.java`): layout, icons, button wiring, dialogs and `JFileChooser`. The seek gesture is used only as the scenario of `SeekResumesAtChosenFrame`, and the slider it needs is never made visible (MusicPlayerGUI.java:264).
- The GUI callbacks from `MusicPlayer` that only repaint: `setPlaybackSliderValue`, `enablePauseButtonDisablePlayButton`, `enablePlayButtonDisablePauseButton` and `updateSongTitleAndArtist` (which accepts null labels). The slider update's exception for a song without an `Mp3File` is modelled.
- The GUI calls methods that `Library.java` does not define: `searchOrder`, `sortByTitle(boolean)`, `toArray(boolean)`, `updatedSongLibrary` and `Library(String, String)`. Only `Library.java` as written is modelled. Its `searchSongs` also uses `HashMap` without importing it; the model gives that code its intended meaning.
- Threads: the music and slider threads, `playSignal` wait/notify, and the 1 ms slider loop. The music thread's first step, clearing `isPaused` and choosing the start frame, is modelled as taking effect immediately when `playCurrentSong` returns. The slider thread's `currentTimeInMilli++` ticks are not modelled.
- Floating point: the frame rate `frameCount / lengthMs`, the 2.08 slider factor, and `evt.getFrame() * rate`. The pause-time frame increment is the integer parameter `advance`.
- PauseStep: states the frames recorded for a pause as `advance`, an input. Their relation to the audio position is not modelled.
- JLayer, mp3agic and jaudiotagger. They are replaced by `Probe` (what parsing the file finds), `openable` (which paths play) and the `playbackStarted`/`playbackFinished` callbacks, which the environment calls (`PlaybackEnded` for a song's natural end). Of `getMp3File` only whether it is null is modelled (`HasMp3File`); its frame count and `getFrameRatePerMilliseconds` are not.
- A player lost without being stopped: `loadPlaylist`, or Play pressed while a song plays, overwrites `advancedPlayer` without stopping the old one. The old one may keep playing. `hasPlayer` records only whether the field is non-null, so this double playback is not captured. Nor is the natural end of such an orphaned player: `PlaybackEnded` always marks the current player closed.
- Java `int` overflow of `currentFrame`, `currentTimeInMilli` and `currentPlaylistIndex`. The model uses unbounded integers.
- File-system I/O:
  - directory listing, which becomes the constructor's `files` argument;
  - `FileReader`/`BufferedReader`: `loadPlaylist` takes the lines read before the end of the file or the first error;
  - a `BufferedWriter` `IOException` part-way through a save, and the playlist name, which only sets the chooser's default file name.
- Case folding is ASCII-only, for both `toLowerCase` and `String.CASE_INSENSITIVE_ORDER`. `LexLe` compares Unicode scalar values, while Java compares UTF-16 code units; the two orders differ between a supplementary character and a BMP character at or above U+E000. `String.format("%02d")` prints the default locale's digits; `ZeroPad2` always prints ASCII digits, as under an English locale.
- `Library.toString` and every `System.out` and `printStackTrace` diagnostic.
- Catalog.Library.SortByTitle: with two or more songs and one of them without a title, the Java comparator throws. The model requires every key to be present instead of modelling the half-sorted list the exception leaves behind. The same holds for Catalog.Library.SortByArtist and Catalog.Library.SortByGenre.
- Catalog.Library.SongAt: `getSong(int)` with an index out of range throws. The model requires an index in range.
- Playlists.PlaylistTableModel.SetValueAt: the value is a `bool`. A non-Boolean argument, which would be a ClassCastException, is not modelled.
- Playlists.PlaylistTableModel.ValueAt: the row must be in range, which is what `JTable` asks for. An out-of-range `get` exception is not modelled. The same holds for Playlists.PlaylistTableModel.IsSelected.
- Playlists.PlaylistDialogBox.SavePlaylist: requires every song to carry its path, which `Song`'s constructor guarantees. The NullPointerException of `write(null)` is therefore not modelled.
- The class `MusicPlayer` follows the code as written, so its `LoadPlaylist` keeps the stale index described under Findings. The corrected loader, `LoadPlaylistFixedStep`, is proved separately.

## Findings

| source | as written | input that shows it | evidently intended | confidence | as-written member | corrected member |
|---|---|---|---|---|---|---|
| Java-Swing-MusicPlayer-main/src/MusicPlayer.java:99-130 | `loadPlaylist` sets `currentSong` to the first entry but leaves `currentPlaylistIndex` as it was | load a 3-song playlist, press Next twice (index 2), load a 1-song playlist, press Prev: `playlist.get(1)` throws IndexOutOfBoundsException. With an old index of 1 and a new 3-song list, Next skips the second song | the index is reset to 0 together with `currentSong = playlist.get(0)` | high (not executed) | `Player.StaleIndexScenario` | `Player.FixedLoadKeepsIndexInRange` |
