/**
 * MusicPlayer.java: the playback state machine behind the GUI's buttons.
 *
 * The state is the Java fields of `MusicPlayer` except the `musicPlayerGUI`
 * reference, with `advancedPlayer` reduced to whether it is null
 * (`hasPlayer`) and whether it has closed itself (`playerClosed`). Each
 * Java method has a pure
 * step function over `PlayerState`. The class `MusicPlayer` repeats the Java
 * method bodies statement by statement and is proved equal to those
 * functions.
 *
 * Outside effects are parameters:
 *  - `openable` is the set of paths for which `FileInputStream` and
 *    `AdvancedPlayer` construction succeed;
 *  - `advance` is the frame count `playbackFinished` adds on a pause, already
 *    converted from the event's milliseconds.
 * A Java exception that escapes a method is `Threw(state at the throw)`.
 *
 * Two facts about JLayer 1.0.1's `AdvancedPlayer` are used (its source is not
 * part of this model): `stop()` builds its event from the audio device and
 * then calls the listener and `close()`; and a song that plays to its end
 * first calls `close()`, which drops the device, and then the listener. So
 * `stop()` on a player that has ended on its own throws before the listener.
 */
module Player {
  import opened Wrappers
  import opened Songs

  datatype PlayerState = PlayerState(
    currentSong: Song?,
    playlist: Option<seq<Song>>,   // null, or the loaded ArrayList
    index: int,                    // currentPlaylistIndex
    hasPlayer: bool,               // advancedPlayer != null
    playerClosed: bool,            // that player ended on its own and dropped its audio device
    isPaused: bool,
    songFinished: bool,
    pressedNext: bool,
    pressedPrev: bool,
    frame: int,                    // currentFrame
    timeMs: int)                   // currentTimeInMilli

  /** How a method call ends: normally, or with an exception that escapes it. */
  datatype Outcome = Returned(state: PlayerState) | Threw(state: PlayerState)

  function Wrap(threw: bool, st: PlayerState): Outcome {
    if threw then Threw(st) else Returned(st)
  }

  /** The fields of a freshly constructed player. */
  const Initial := PlayerState(null, None, 0, false, false, false, false, false, false, 0, 0)

  /** `playCurrentSong` gets a player only for a song whose file opens as MP3 audio. */
  predicate Playable(song: Song?, openable: set<string>) {
    song != null && song.Get(FilePathKey).Some? && song.Get(FilePathKey).value in openable
  }

  /** The frame the music thread starts from: `play(currentFrame, ...)` after a pause, else the start. */
  function StartOffset(s: PlayerState): int {
    if s.isPaused then s.frame else 0
  }

  /** Where playback starts when `playCurrentSong` runs in state `s`, if it starts at all. */
  function PlayStart(s: PlayerState, openable: set<string>): (r: Option<int>)
    ensures r.Some? <==> Playable(s.currentSong, openable)
    ensures r.Some? ==> r.value == (if s.isPaused then s.frame else 0)
  {
    if Playable(s.currentSong, openable) then Some(StartOffset(s)) else None
  }

  /**
   * `playCurrentSong` followed by the music thread's first statements: a new,
   * open player, and `isPaused` cleared. If opening the file fails, the
   * exception is caught and nothing changes.
   */
  function PlayStep(s: PlayerState, openable: set<string>): (r: PlayerState)
    ensures Playable(s.currentSong, openable) ==> r.hasPlayer && !r.playerClosed && !r.isPaused
    ensures !Playable(s.currentSong, openable) ==> r == s
    ensures r.(hasPlayer := s.hasPlayer, playerClosed := s.playerClosed, isPaused := s.isPaused) == s
  {
    if Playable(s.currentSong, openable) then s.(hasPlayer := true, playerClosed := false, isPaused := false) else s
  }

  /**
   * Moves to playlist position `i` and plays it. `playlist.get(i)` throws when
   * `i` is out of range; the GUI's `updatePlaybackSlider` then throws for an
   * entry without an `Mp3File`, after the song, frame and time are set and
   * before `playCurrentSong`.
   */
  function MoveTo(t: PlayerState, i: int, openable: set<string>): (r: Outcome)
    ensures r.Threw? <==> t.playlist.None? || !(0 <= i < |t.playlist.value|) || !t.playlist.value[i].HasMp3File()
    ensures (t.playlist.None? || !(0 <= i < |t.playlist.value|)) ==> r == Threw(t.(index := i))
    ensures t.playlist.Some? && 0 <= i < |t.playlist.value| ==>
              && r.state.index == i && r.state.currentSong == t.playlist.value[i]
              && r.state.playlist == t.playlist
              && r.state.frame == 0 && r.state.timeMs == 0
              && r.state.songFinished == t.songFinished
              && r.state.pressedNext == t.pressedNext && r.state.pressedPrev == t.pressedPrev
              && (r.Threw? ==> r.state.hasPlayer == t.hasPlayer && r.state.playerClosed == t.playerClosed
                                && r.state.isPaused == t.isPaused)
              && (r.Returned? && Playable(t.playlist.value[i], openable) ==>
                    r.state.hasPlayer && !r.state.playerClosed && !r.state.isPaused)
  {
    if t.playlist.None? || !(0 <= i < |t.playlist.value|) then Threw(t.(index := i))
    else
      var u := t.(index := i, currentSong := t.playlist.value[i], frame := 0, timeMs := 0);
      if !u.playlist.value[i].HasMp3File() then Threw(u) else Returned(PlayStep(u, openable))
  }

  /**
   * `playbackFinished`: JLayer calls it when a song ends and also from inside
   * `stop()`.
   *  - Paused: the played frames are added to `currentFrame`. This
   *    dereferences `currentSong`.
   *  - After Next or Prev: nothing happens.
   *  - Otherwise: the song is marked finished, and playback moves on to the
   *    next playlist entry unless the playlist is absent or this was its
   *    last entry.
   */
  function FinishedStep(s: PlayerState, advance: int, openable: set<string>): (r: Outcome)
    ensures s.isPaused ==>
              r == if s.currentSong == null then Threw(s) else Returned(s.(frame := s.frame + advance))
    ensures !s.isPaused && (s.pressedNext || s.pressedPrev) ==> r == Returned(s)
    ensures !s.isPaused && !s.pressedNext && !s.pressedPrev ==> r.state.songFinished
    ensures (!s.isPaused && !s.pressedNext && !s.pressedPrev &&
             (s.playlist.None? || s.index == |s.playlist.value| - 1 || s.index >= |s.playlist.value|)) ==>
              r == Returned(s.(songFinished := true))
    ensures !s.isPaused && !s.pressedNext && !s.pressedPrev && s.playlist.Some? &&
            0 <= s.index < |s.playlist.value| - 1 ==>
              && (r.Returned? <==> s.playlist.value[s.index + 1].HasMp3File())
              && r.state.index == s.index + 1
              && r.state.currentSong == s.playlist.value[s.index + 1]
              && r.state.playlist == s.playlist && r.state.frame == 0 && r.state.pressedNext
              && var next := s.playlist.value[s.index + 1];
                 && r.state.hasPlayer == (s.hasPlayer || (next.HasMp3File() && Playable(next, openable)))
                 && (r.state.playerClosed <==> s.playerClosed && !(next.HasMp3File() && Playable(next, openable)))
    decreases 1
  {
    if s.isPaused then
      if s.currentSong == null then Threw(s) else Returned(s.(frame := s.frame + advance))
    else if s.pressedNext || s.pressedPrev then Returned(s)
    else
      var f := s.(songFinished := true);
      if f.playlist.None? || f.index == |f.playlist.value| - 1 then Returned(f)
      else NextStep(f, advance, openable)
  }

  /**
   * The natural end of the current song, on the music thread: the player
   * closes itself and then calls `playbackFinished`.
   */
  function EndStep(s: PlayerState, advance: int, openable: set<string>): (r: Outcome)
    ensures 0 <= s.index ==>
              (r.Threw? <==> (s.isPaused && s.currentSong == null) ||
                             (!s.isPaused && !s.pressedNext && !s.pressedPrev && s.playlist.Some? &&
                              s.index < |s.playlist.value| - 1 && !s.playlist.value[s.index + 1].HasMp3File()))
    ensures s.isPaused || s.pressedNext || s.pressedPrev ||
            s.playlist.None? || s.index == |s.playlist.value| - 1 ==>
              r.state.hasPlayer == s.hasPlayer && r.state.playerClosed
    ensures !s.isPaused && !s.pressedNext && !s.pressedPrev && s.playlist.Some? &&
            0 <= s.index < |s.playlist.value| - 1 ==>
              var next := s.playlist.value[s.index + 1];
              && r.state.index == s.index + 1 && r.state.currentSong == next && r.state.songFinished
              && r.state.hasPlayer == (s.hasPlayer || (next.HasMp3File() && Playable(next, openable)))
              && (r.state.playerClosed <==> !(next.HasMp3File() && Playable(next, openable)))
  {
    FinishedStep(s.(playerClosed := true), advance, openable)
  }

  /**
   * `stopSong` throws before any auto-advance can run: the player closed
   * itself, so `stop()` finds no audio device, or a paused stop has no song
   * to measure the frames against.
   */
  predicate StopFails(s: PlayerState) {
    s.hasPlayer && (s.playerClosed || (s.isPaused && s.currentSong == null))
  }

  /**
   * `stopSong`: `advancedPlayer.stop()` sends `playbackFinished` first, then
   * the player is closed and the field nulled. On a player that closed itself
   * `stop()` throws before the listener; an exception out of the listener
   * skips the close.
   */
  function StopStep(s: PlayerState, advance: int, openable: set<string>): (r: Outcome)
    ensures !s.hasPlayer ==> r == Returned(s)
    ensures r.Returned? ==> !r.state.hasPlayer
    ensures s.hasPlayer && s.playerClosed ==> r == Threw(s)
    ensures s.hasPlayer && !s.playerClosed && s.isPaused ==>
              r == if s.currentSong == null then Threw(s)
                   else Returned(s.(frame := s.frame + advance, hasPlayer := false))
    ensures s.hasPlayer && !s.playerClosed && !s.isPaused && (s.pressedNext || s.pressedPrev) ==>
              r == Returned(s.(hasPlayer := false))
    ensures r.Threw? <==> s.hasPlayer && (s.playerClosed || FinishedStep(s, advance, openable).Threw?)
    ensures s.isPaused || s.pressedNext || s.pressedPrev || s.playlist.None? ==> (r.Threw? <==> StopFails(s))
    decreases 2
  {
    if !s.hasPlayer then Returned(s)
    else if s.playerClosed then Threw(s)
    else
      match FinishedStep(s, advance, openable)
      case Threw(t) => Threw(t)
      case Returned(t) => Returned(t.(hasPlayer := false))
  }

  /** `nextSong`. */
  function NextStep(s: PlayerState, advance: int, openable: set<string>): (r: Outcome)
    ensures s.playlist.None? || s.index + 1 > |s.playlist.value| - 1 ==> r == Returned(s)
    ensures s.playlist.Some? && 0 <= s.index && s.index + 1 < |s.playlist.value| ==>
              var stopThrows := !s.songFinished && StopFails(s);
              var next := s.playlist.value[s.index + 1];
              && (r.Threw? <==> stopThrows || !next.HasMp3File())
              && (!stopThrows ==>
                    && r.state.index == s.index + 1
                    && r.state.currentSong == next
                    && r.state.playlist == s.playlist
                    && r.state.frame == 0 && r.state.timeMs == 0 && r.state.pressedNext)
              && (r.Returned? && Playable(next, openable) ==> r.state.hasPlayer && !r.state.isPaused)
              && (s.songFinished ==>
                    && r.state.hasPlayer == (s.hasPlayer || (next.HasMp3File() && Playable(next, openable)))
                    && (r.state.playerClosed <==> s.playerClosed && !(next.HasMp3File() && Playable(next, openable))))
    decreases if s.songFinished then 0 else 3
  {
    if s.playlist.None? || s.index + 1 > |s.playlist.value| - 1 then Returned(s)
    else
      var marked := s.(pressedNext := true);
      var stopped := if marked.songFinished then Returned(marked) else StopStep(marked, advance, openable);
      match stopped
      case Threw(t) => Threw(t)
      case Returned(t) => MoveTo(t, t.index + 1, openable)
  }

  /** `prevSong`. The index is decremented before `playlist.get`, which throws for a stale index. */
  function PrevStep(s: PlayerState, advance: int, openable: set<string>): (r: Outcome)
    ensures s.playlist.None? || s.index - 1 < 0 ==> r == Returned(s)
    ensures s.playlist.Some? && 0 <= s.index - 1 < |s.playlist.value| ==>
              var stopThrows := !s.songFinished && StopFails(s);
              var prev := s.playlist.value[s.index - 1];
              && (r.Threw? <==> stopThrows || !prev.HasMp3File())
              && (!stopThrows ==>
                    && r.state.index == s.index - 1
                    && r.state.currentSong == prev
                    && r.state.playlist == s.playlist
                    && r.state.frame == 0 && r.state.timeMs == 0 && r.state.pressedPrev)
              && (r.Returned? && Playable(prev, openable) ==> r.state.hasPlayer && !r.state.isPaused)
    ensures s.playlist.Some? && s.index - 1 >= |s.playlist.value| ==> r.Threw?
  {
    if s.playlist.None? || s.index - 1 < 0 then Returned(s)
    else
      var marked := s.(pressedPrev := true);
      var stopped := if marked.songFinished then Returned(marked) else StopStep(marked, advance, openable);
      match stopped
      case Threw(t) => Threw(t)
      case Returned(t) => MoveTo(t, t.index - 1, openable)
  }

  /**
   * `pauseSong`: only a non-null player is paused; stopping records how far it
   * got. A player that closed itself throws in `stop()` with `isPaused` set.
   */
  function PauseStep(s: PlayerState, advance: int, openable: set<string>): (r: Outcome)
    ensures !s.hasPlayer ==> r == Returned(s)
    ensures s.hasPlayer && s.playerClosed ==> r == Threw(s.(isPaused := true))
    ensures s.hasPlayer && !s.playerClosed && s.currentSong != null ==>
              r == Returned(s.(isPaused := true, frame := s.frame + advance, hasPlayer := false))
    ensures s.hasPlayer && s.currentSong == null ==> r.Threw?
    ensures r.Threw? <==> StopFails(s.(isPaused := true))
  {
    if s.hasPlayer then StopStep(s.(isPaused := true), advance, openable) else Returned(s)
  }

  /** `loadSong`: drops the playlist, stops unless the song already finished, and plays `song`. */
  function LoadSongStep(s: PlayerState, song: Song?, advance: int, openable: set<string>): (r: Outcome)
    ensures r.state.playlist.None? && r.state.currentSong == song
    ensures r.Threw? <==> !s.songFinished && StopFails(s.(currentSong := song))
    ensures song != null && r.Returned? ==>
              && r.state.frame == 0 && r.state.timeMs == 0
              && (Playable(song, openable) ==> r.state.hasPlayer && !r.state.isPaused)
  {
    var t := s.(currentSong := song, playlist := None);
    var stopped := if t.songFinished then Returned(t) else StopStep(t, advance, openable);
    match stopped
    case Threw(u) => Threw(u)
    case Returned(u) =>
      if u.currentSong == null then Returned(u) else Returned(PlayStep(u.(frame := 0, timeMs := 0), openable))
  }

  /**
   * `loadPlaylist`, given the songs read before the end of the file or the
   * first read error. It does not reset `currentPlaylistIndex`. For a first
   * entry without an `Mp3File`, `updatePlaybackSlider` throws before
   * `playCurrentSong`.
   */
  function LoadPlaylistStep(s: PlayerState, songs: seq<Song>, openable: set<string>): (r: Outcome)
    ensures r.state.playlist == Some(songs) && r.state.index == s.index
    ensures |songs| == 0 ==> r == Returned(s.(playlist := Some(songs)))
    ensures |songs| > 0 ==>
              && (r.Threw? <==> !songs[0].HasMp3File())
              && r.state.currentSong == songs[0] && r.state.frame == 0 && r.state.timeMs == 0
              && (r.Threw? ==> r.state == s.(playlist := Some(songs), currentSong := songs[0], frame := 0, timeMs := 0))
              && (r.Returned? && Playable(songs[0], openable) ==> r.state.hasPlayer && !r.state.isPaused)
  {
    var t := s.(playlist := Some(songs));
    if |songs| == 0 then Returned(t)
    else
      var u := t.(timeMs := 0, currentSong := songs[0], frame := 0);
      if !songs[0].HasMp3File() then Threw(u) else Returned(PlayStep(u, openable))
  }

  /** `loadPlaylist` as evidently intended: the new playlist starts at position 0. */
  function LoadPlaylistFixedStep(s: PlayerState, songs: seq<Song>, openable: set<string>): (r: Outcome)
    ensures r.state.playlist == Some(songs) && r.state.index == 0
    ensures |songs| > 0 ==>
              && (r.Threw? <==> !songs[0].HasMp3File())
              && r.state.currentSong == songs[0] && r.state.frame == 0 && r.state.timeMs == 0
  {
    LoadPlaylistStep(s.(index := 0), songs, openable)
  }

  /** `setSelectedSong`. */
  function SelectStep(s: PlayerState, song: Song?): (r: PlayerState)
    ensures r.currentSong == song && r.frame == 0
    ensures r.(currentSong := s.currentSong, frame := s.frame) == s
  {
    s.(currentSong := song, frame := 0)
  }

  /** `playbackStarted`: a newly started song is neither finished nor skipped. */
  function StartedStep(s: PlayerState): (r: PlayerState)
    ensures !r.songFinished && !r.pressedNext && !r.pressedPrev
    ensures r.(songFinished := s.songFinished, pressedNext := s.pressedNext, pressedPrev := s.pressedPrev) == s
  {
    s.(songFinished := false, pressedNext := false, pressedPrev := false)
  }

  // ---------------------------------------------------------------------------
  // Properties of the step functions
  // ---------------------------------------------------------------------------

  /** The playlist position points into the playlist, or is 0 for an empty one. */
  predicate IndexInRange(s: PlayerState) {
    s.playlist.Some? ==> 0 <= s.index && (s.index < |s.playlist.value| || s.index == 0)
  }

  lemma NextKeepsIndexInRange(s: PlayerState, advance: int, openable: set<string>)
    requires IndexInRange(s)
    ensures IndexInRange(NextStep(s, advance, openable).state)
  {
  }

  lemma PrevKeepsIndexInRange(s: PlayerState, advance: int, openable: set<string>)
    requires IndexInRange(s)
    ensures IndexInRange(PrevStep(s, advance, openable).state)
  {
  }

  lemma FinishedKeepsIndexInRange(s: PlayerState, advance: int, openable: set<string>)
    requires IndexInRange(s)
    ensures IndexInRange(FinishedStep(s, advance, openable).state)
  {
    if !s.isPaused && !s.pressedNext && !s.pressedPrev && s.playlist.Some? && s.index != |s.playlist.value| - 1 {
      NextKeepsIndexInRange(s.(songFinished := true), advance, openable);
    }
  }

  lemma EndKeepsIndexInRange(s: PlayerState, advance: int, openable: set<string>)
    requires IndexInRange(s)
    ensures IndexInRange(EndStep(s, advance, openable).state)
  {
    FinishedKeepsIndexInRange(s.(playerClosed := true), advance, openable);
  }

  lemma StopKeepsIndexInRange(s: PlayerState, advance: int, openable: set<string>)
    requires IndexInRange(s)
    ensures IndexInRange(StopStep(s, advance, openable).state)
  {
    if s.hasPlayer {
      FinishedKeepsIndexInRange(s, advance, openable);
    }
  }

  /**
   * With the position in range and a current song, Prev never indexes past the
   * list: its only exceptions are `stop()` on a player that closed itself and
   * the slider update for an entry without an `Mp3File`.
   */
  lemma InRangePrevDoesNotOverrun(s: PlayerState, advance: int, openable: set<string>)
    requires IndexInRange(s)
    requires s.currentSong != null
    ensures PrevStep(s, advance, openable).Threw? <==>
              s.playlist.Some? && 1 <= s.index &&
              ((!s.songFinished && s.hasPlayer && s.playerClosed) || !s.playlist.value[s.index - 1].HasMp3File())
  {
  }

  /**
   * Next onto an entry that mp3agic could not read selects it and then throws
   * before `playCurrentSong`: no new player is created.
   */
  lemma NoMp3FileNoPlayback(s: PlayerState, advance: int, openable: set<string>)
    requires s.playlist.Some? && 0 <= s.index && s.index + 1 < |s.playlist.value|
    requires s.currentSong != null
    requires !s.playlist.value[s.index + 1].HasMp3File()
    ensures var r := NextStep(s, advance, openable);
            && r.Threw?
            && (s.songFinished || !s.playerClosed ==>
                  && r.state.index == s.index + 1
                  && r.state.currentSong == s.playlist.value[s.index + 1]
                  && r.state.hasPlayer == (s.hasPlayer && s.songFinished))
  {
  }

  /** Every skip flag set in `s` is still set in `t`. */
  predicate KeepsSkipFlags(s: PlayerState, t: PlayerState) {
    (s.pressedNext ==> t.pressedNext) && (s.pressedPrev ==> t.pressedPrev)
  }

  lemma FinishedKeepsSkipFlags(s: PlayerState, advance: int, openable: set<string>)
    ensures KeepsSkipFlags(s, FinishedStep(s, advance, openable).state)
  {
  }

  lemma StopKeepsSkipFlags(s: PlayerState, advance: int, openable: set<string>)
    ensures KeepsSkipFlags(s, StopStep(s, advance, openable).state)
  {
    FinishedKeepsSkipFlags(s, advance, openable);
  }

  lemma NextKeepsSkipFlags(s: PlayerState, advance: int, openable: set<string>)
    ensures KeepsSkipFlags(s, NextStep(s, advance, openable).state)
  {
    StopKeepsSkipFlags(s.(pressedNext := true), advance, openable);
  }

  lemma PrevKeepsSkipFlags(s: PlayerState, advance: int, openable: set<string>)
    ensures KeepsSkipFlags(s, PrevStep(s, advance, openable).state)
  {
    StopKeepsSkipFlags(s.(pressedPrev := true), advance, openable);
  }

  lemma LoadSongKeepsSkipFlags(s: PlayerState, song: Song?, advance: int, openable: set<string>)
    ensures KeepsSkipFlags(s, LoadSongStep(s, song, advance, openable).state)
  {
    StopKeepsSkipFlags(s.(currentSong := song, playlist := None), advance, openable);
  }

  lemma EndKeepsSkipFlags(s: PlayerState, advance: int, openable: set<string>)
    ensures KeepsSkipFlags(s, EndStep(s, advance, openable).state)
  {
    FinishedKeepsSkipFlags(s.(playerClosed := true), advance, openable);
  }

  lemma PauseKeepsSkipFlags(s: PlayerState, advance: int, openable: set<string>)
    ensures KeepsSkipFlags(s, PauseStep(s, advance, openable).state)
  {
    StopKeepsSkipFlags(s.(isPaused := true), advance, openable);
  }

  /**
   * `pressedNext` and `pressedPrev`, once set, survive every step except
   * `playbackStarted`: the button and loading steps here, the listener
   * callbacks in `CallbacksKeepSkipFlags`.
   */
  lemma OnlyStartedClearsSkipFlags(s: PlayerState, song: Song?, songs: seq<Song>, advance: int, openable: set<string>)
    ensures KeepsSkipFlags(s, NextStep(s, advance, openable).state)
    ensures KeepsSkipFlags(s, PrevStep(s, advance, openable).state)
    ensures KeepsSkipFlags(s, StopStep(s, advance, openable).state)
    ensures KeepsSkipFlags(s, PauseStep(s, advance, openable).state)
    ensures KeepsSkipFlags(s, LoadSongStep(s, song, advance, openable).state)
    ensures KeepsSkipFlags(s, LoadPlaylistStep(s, songs, openable).state)
    ensures KeepsSkipFlags(s, SelectStep(s, song))
  {
    NextKeepsSkipFlags(s, advance, openable);
    PrevKeepsSkipFlags(s, advance, openable);
    StopKeepsSkipFlags(s, advance, openable);
    PauseKeepsSkipFlags(s, advance, openable);
    LoadSongKeepsSkipFlags(s, song, advance, openable);
  }

  /** `playbackFinished`, sent by `stop()` or at a song's natural end, keeps the skip flags. */
  lemma CallbacksKeepSkipFlags(s: PlayerState, advance: int, openable: set<string>)
    ensures KeepsSkipFlags(s, FinishedStep(s, advance, openable).state)
    ensures KeepsSkipFlags(s, EndStep(s, advance, openable).state)
  {
    FinishedKeepsSkipFlags(s, advance, openable);
    EndKeepsSkipFlags(s, advance, openable);
  }

  /** Stopping twice is stopping once. */
  lemma StopIsIdempotent(s: PlayerState, advance: int, advance': int, openable: set<string>)
    requires StopStep(s, advance, openable).Returned?
    ensures var t := StopStep(s, advance, openable).state;
            StopStep(t, advance', openable) == Returned(t)
  {
  }

  /**
   * Pausing then pressing Play resumes from the frame reached, not from the
   * start. Pausing a player that closed itself throws and records nothing, so
   * Play then resumes from the old frame.
   */
  lemma PauseThenResume(s: PlayerState, advance: int, openable: set<string>)
    requires s.hasPlayer && Playable(s.currentSong, openable)
    ensures var p := PauseStep(s, advance, openable);
            && (p.Returned? <==> !s.playerClosed)
            && p.state.isPaused && (p.state.hasPlayer <==> s.playerClosed)
            && PlayStart(p.state, openable) == Some(if s.playerClosed then s.frame else s.frame + advance)
            && PlayStep(p.state, openable).hasPlayer && !PlayStep(p.state, openable).isPaused
  {
  }

  /**
   * Dragging the slider (`pauseSong`, `setCurrentFrame(f)`, `playCurrentSong`)
   * would resume at frame `f`, wherever the song was; the pause itself throws
   * on a player that closed itself.
   */
  lemma SeekResumesAtChosenFrame(s: PlayerState, advance: int, f: int, openable: set<string>)
    requires s.hasPlayer && Playable(s.currentSong, openable)
    ensures var p := PauseStep(s, advance, openable);
            (p.Returned? <==> !s.playerClosed) && PlayStart(p.state.(frame := f), openable) == Some(f)
  {
  }

  /** Without a live player, pressing Play from a non-paused state starts at frame 0. */
  lemma FreshPlayStartsAtZero(s: PlayerState, openable: set<string>)
    requires !s.isPaused && Playable(s.currentSong, openable)
    ensures PlayStart(s, openable) == Some(0)
  {
  }

  /**
   * A song that ends on its own (no pause, no Next or Prev pending) starts
   * the next playlist entry, and the last entry stops auto-play.
   */
  lemma AutoAdvance(s: PlayerState, advance: int, openable: set<string>)
    requires !s.isPaused && !s.pressedNext && !s.pressedPrev
    requires s.playlist.Some? && 0 <= s.index < |s.playlist.value|
    ensures var r := FinishedStep(s, advance, openable);
            && r.state.songFinished
            && (s.index < |s.playlist.value| - 1 ==>
                  && r.state.index == s.index + 1 && r.state.currentSong == s.playlist.value[s.index + 1]
                  && (r.Returned? <==> s.playlist.value[s.index + 1].HasMp3File()))
            && (s.index == |s.playlist.value| - 1 ==> r == Returned(s.(songFinished := true)))
  {
  }

  /**
   * Walking a three-song playlist with the Next button from a fresh player
   * visits the songs in order, then Next at the end does nothing.
   */
  lemma NextWalksPlaylist(a: Song, b: Song, c: Song, advance: int, openable: set<string>)
    requires a.HasMp3File() && b.HasMp3File() && c.HasMp3File()
    ensures var l0 := LoadPlaylistStep(Initial, [a, b, c], openable);
            var s0 := l0.state;
            var r1 := NextStep(s0, advance, openable);
            && l0.Returned? && s0.currentSong == a && s0.index == 0
            && r1.Returned? && r1.state.currentSong == b && r1.state.index == 1
            && var r2 := NextStep(StartedStep(r1.state), advance, openable);
               && r2.Returned? && r2.state.currentSong == c && r2.state.index == 2
               && NextStep(StartedStep(r2.state), advance, openable) == Returned(StartedStep(r2.state))
  {
    var s0 := LoadPlaylistStep(Initial, [a, b, c], openable).state;
    var r1 := NextStep(s0, advance, openable);
    assert r1.Returned? && r1.state.index == 1;
    var r2 := NextStep(StartedStep(r1.state), advance, openable);
    assert r2.Returned? && r2.state.index == 2;
  }

  /**
   * Load [a, b] and let a play to its end. The auto-advance to b makes no new
   * player (b has no `Mp3File`, or its file does not open), so a's closed
   * player stays in `advancedPlayer`, and Pause then throws inside `stop()`
   * with `isPaused` set and no frames recorded.
   */
  lemma PauseAfterFailedAdvanceThrows(a: Song, b: Song, advance: int, advance': int, openable: set<string>)
    requires a.HasMp3File() && Playable(a, openable)
    requires !(b.HasMp3File() && Playable(b, openable))
    ensures var l := LoadPlaylistStep(Initial, [a, b], openable);
            var e := EndStep(StartedStep(l.state), advance, openable);
            && l.Returned? && l.state.hasPlayer && !l.state.playerClosed
            && e.state.currentSong == b && e.state.hasPlayer && e.state.playerClosed && e.state.frame == 0
            && PauseStep(e.state, advance', openable) == Threw(e.state.(isPaused := true))
  {
    var l := LoadPlaylistStep(Initial, [a, b], openable);
    assert l.state.index == 0 && l.state.playlist == Some([a, b]);
    var e := EndStep(StartedStep(l.state), advance, openable);
    assert e.state.index == 1 && e.state.currentSong == b;
    assert e.state.hasPlayer && e.state.playerClosed && e.state.frame == 0;
  }

  // ---------------------------------------------------------------------------
  // The stale playlist index
  // ---------------------------------------------------------------------------

  /** As written, loading a playlist keeps an old position: Prev can then index past the new list. */
  lemma StaleIndexPrevThrows(s: PlayerState, songs: seq<Song>, advance: int, openable: set<string>)
    requires |songs| > 0 && s.index - 1 >= |songs|
    ensures PrevStep(LoadPlaylistStep(s, songs, openable).state, advance, openable).Threw?
  {
  }

  /**
   * As written, the new list's second song is skipped by Next when the old
   * position was 1 (unless `stop()` throws first on a player that closed itself).
   */
  lemma StaleIndexNextSkips(s: PlayerState, songs: seq<Song>, advance: int, openable: set<string>)
    requires |songs| >= 3 && s.index == 1
    ensures var t := LoadPlaylistStep(s, songs, openable).state;
            var r := NextStep(t, advance, openable);
            var stuck := !t.songFinished && t.hasPlayer && t.playerClosed;
            && (r.Threw? <==> stuck || !songs[2].HasMp3File())
            && (!stuck ==> r.state.index == 2 && r.state.currentSong == songs[2])
  {
  }

  /**
   * A reachable run: load [a, b, c], press Next twice, load the one-song
   * playlist [d], press Prev. `playlist.get(1)` throws.
   */
  lemma StaleIndexScenario(a: Song, b: Song, c: Song, d: Song, advance: int, openable: set<string>)
    requires b.HasMp3File() && c.HasMp3File()
    ensures var s0 := LoadPlaylistStep(Initial, [a, b, c], openable).state;
            var r1 := NextStep(s0, advance, openable);
            r1.Returned? &&
            var r2 := NextStep(r1.state, advance, openable);
            r2.Returned? && r2.state.index == 2 &&
            var s3 := LoadPlaylistStep(r2.state, [d], openable).state;
            s3.currentSong == d && !IndexInRange(s3) &&
            PrevStep(s3, advance, openable).Threw?
  {
    var s0 := LoadPlaylistStep(Initial, [a, b, c], openable).state;
    var r1 := NextStep(s0, advance, openable);
    assert r1.Returned? && r1.state.index == 1;
    var r2 := NextStep(r1.state, advance, openable);
    assert r2.Returned? && r2.state.index == 2;
    StaleIndexPrevThrows(r2.state, [d], advance, openable);
  }

  /** With the position reset, a loaded playlist plays its first song at position 0, whatever came before. */
  lemma FixedLoadKeepsIndexInRange(s: PlayerState, songs: seq<Song>, advance: int, openable: set<string>)
    ensures var t := LoadPlaylistFixedStep(s, songs, openable).state;
            var stuck := !t.songFinished && t.hasPlayer && t.playerClosed;
            && IndexInRange(t)
            && (|songs| > 0 ==> t.currentSong == songs[t.index])
            && PrevStep(t, advance, openable) == Returned(t)
            && (|songs| >= 2 ==>
                  && (!stuck ==> NextStep(t, advance, openable).state.currentSong == songs[1])
                  && (NextStep(t, advance, openable).Returned? <==> !stuck && songs[1].HasMp3File()))
  {
  }

  // ---------------------------------------------------------------------------
  // The player object
  // ---------------------------------------------------------------------------

  class MusicPlayer {
    var currentSong: Song?
    var playlist: Option<seq<Song>>
    var currentPlaylistIndex: int
    var hasPlayer: bool            // advancedPlayer != null
    var playerClosed: bool         // that player ended on its own and dropped its audio device
    var isPaused: bool
    var songFinished: bool
    var pressedNext: bool
    var pressedPrev: bool
    var currentFrame: int
    var currentTimeInMilli: int

    function State(): PlayerState
      reads this
    {
      PlayerState(currentSong, playlist, currentPlaylistIndex, hasPlayer, playerClosed, isPaused, songFinished,
                  pressedNext, pressedPrev, currentFrame, currentTimeInMilli)
    }

    constructor ()
      ensures State() == Initial
    {
      currentSong := null;
      playlist := None;
      currentPlaylistIndex := 0;
      hasPlayer := false;
      playerClosed := false;
      isPaused := false;
      songFinished := false;
      pressedNext := false;
      pressedPrev := false;
      currentFrame := 0;
      currentTimeInMilli := 0;
    }

    method SetCurrentFrame(frame: int)
      modifies this
      ensures State() == old(State()).(frame := frame)
    {
      currentFrame := frame;
    }

    method SetCurrentTimeInMilli(timeInMilli: int)
      modifies this
      ensures State() == old(State()).(timeMs := timeInMilli)
    {
      currentTimeInMilli := timeInMilli;
    }

    method LoadSong(song: Song?, advance: int, openable: set<string>) returns (threw: bool)
      modifies this
      ensures Wrap(threw, State()) == LoadSongStep(old(State()), song, advance, openable)
    {
      currentSong := song;
      playlist := None;
      threw := false;
      if !songFinished {
        threw := StopSong(advance, openable);
        if threw {
          return;
        }
      }
      if currentSong != null {
        currentFrame := 0;
        currentTimeInMilli := 0;
        var _ := PlayCurrentSong(openable);
      }
    }

    /** `loadPlaylist`: `lines` are the lines read from the file, each made into a `Song`. */
    method LoadPlaylist(lines: seq<string>, probe: string -> Probe, openable: set<string>) returns (threw: bool)
      modifies this
      ensures playlist.Some? && |playlist.value| == |lines|
      ensures forall j :: 0 <= j < |lines| ==>
                fresh(playlist.value[j]) && playlist.value[j].data == Metadata(lines[j], probe(lines[j]))
      ensures Wrap(threw, State()) == LoadPlaylistStep(old(State()), playlist.value, openable)
    {
      // the list `playlist.add` grows; no other field changes while the file is read
      var read: seq<Song> := [];
      for i := 0 to |lines|
        invariant |read| == i
        invariant forall j :: 0 <= j < i ==>
                    fresh(read[j]) && read[j].data == Metadata(lines[j], probe(lines[j]))
        invariant unchanged(this)
      {
        var song := new Song(lines[i], probe(lines[i]));
        read := read + [song];
      }
      playlist := Some(read);
      threw := false;
      if |playlist.value| > 0 {
        currentTimeInMilli := 0;
        currentSong := playlist.value[0];
        currentFrame := 0;
        if !currentSong.HasMp3File() {
          // musicPlayerGUI.updatePlaybackSlider dereferences getMp3File()
          return true;
        }
        var _ := PlayCurrentSong(openable);
      }
    }

    method PauseSong(advance: int, openable: set<string>) returns (threw: bool)
      modifies this
      ensures Wrap(threw, State()) == PauseStep(old(State()), advance, openable)
    {
      threw := false;
      if hasPlayer {
        isPaused := true;
        threw := StopSong(advance, openable);
      }
    }

    method StopSong(advance: int, openable: set<string>) returns (threw: bool)
      modifies this
      ensures Wrap(threw, State()) == StopStep(old(State()), advance, openable)
      decreases 2
    {
      threw := false;
      if hasPlayer {
        if playerClosed {
          // stop() reads the position of the audio device the player already dropped
          return true;
        }
        // AdvancedPlayer.stop() notifies the listener before closing
        threw := PlaybackFinished(advance, openable);
        if threw {
          return;
        }
        hasPlayer := false;
      }
    }

    method NextSong(advance: int, openable: set<string>) returns (threw: bool)
      modifies this
      ensures Wrap(threw, State()) == NextStep(old(State()), advance, openable)
      decreases if songFinished then 0 else 3
    {
      threw := false;
      if playlist.None? {
        return;
      }
      if currentPlaylistIndex + 1 > |playlist.value| - 1 {
        return;
      }
      pressedNext := true;
      if !songFinished {
        threw := StopSong(advance, openable);
        if threw {
          return;
        }
      }
      currentPlaylistIndex := currentPlaylistIndex + 1;
      threw := SelectPlaylistEntry(openable);
    }

    method PrevSong(advance: int, openable: set<string>) returns (threw: bool)
      modifies this
      ensures Wrap(threw, State()) == PrevStep(old(State()), advance, openable)
    {
      threw := false;
      if playlist.None? {
        return;
      }
      if currentPlaylistIndex - 1 < 0 {
        return;
      }
      pressedPrev := true;
      if !songFinished {
        threw := StopSong(advance, openable);
        if threw {
          return;
        }
      }
      currentPlaylistIndex := currentPlaylistIndex - 1;
      threw := SelectPlaylistEntry(openable);
    }

    /** The tail shared by `nextSong` and `prevSong`: take the entry at the new index and play it. */
    method SelectPlaylistEntry(openable: set<string>) returns (threw: bool)
      modifies this
      ensures Wrap(threw, State()) == MoveTo(old(State()), old(currentPlaylistIndex), openable)
    {
      if playlist.None? || !(0 <= currentPlaylistIndex < |playlist.value|) {
        // playlist.get throws
        return true;
      }
      currentSong := playlist.value[currentPlaylistIndex];
      currentFrame := 0;
      currentTimeInMilli := 0;
      if !currentSong.HasMp3File() {
        // musicPlayerGUI.updatePlaybackSlider dereferences getMp3File()
        return true;
      }
      var _ := PlayCurrentSong(openable);
      threw := false;
    }

    /** `playCurrentSong`; returns the frame playback starts from, or `None` if no player was made. */
    method PlayCurrentSong(openable: set<string>) returns (start: Option<int>)
      modifies this
      ensures start == PlayStart(old(State()), openable)
      ensures State() == PlayStep(old(State()), openable)
    {
      if currentSong == null {
        return None;
      }
      var path := currentSong.Get(FilePathKey);
      if path.None? || path.value !in openable {
        // the FileInputStream or AdvancedPlayer exception is caught and printed
        return None;
      }
      hasPlayer := true;
      playerClosed := false;
      var frame := StartMusicThread();
      start := Some(frame);
    }

    /** The music thread's first statements: clear `isPaused`, choose where `play` starts. */
    method StartMusicThread() returns (startFrame: int)
      modifies this
      ensures startFrame == StartOffset(old(State()))
      ensures State() == old(State()).(isPaused := false)
    {
      if isPaused {
        isPaused := false;
        startFrame := currentFrame;
      } else {
        startFrame := 0;
      }
    }

    method SetSelectedSong(song: Song?)
      modifies this
      ensures State() == SelectStep(old(State()), song)
    {
      currentSong := song;
      SetCurrentFrame(0);
    }

    method PlaybackStarted()
      modifies this
      ensures State() == StartedStep(old(State()))
    {
      songFinished := false;
      pressedNext := false;
      pressedPrev := false;
    }

    /** The music thread at the natural end of a song: `AdvancedPlayer.play` closes the player, then notifies. */
    method PlaybackEnded(advance: int, openable: set<string>) returns (threw: bool)
      modifies this
      ensures Wrap(threw, State()) == EndStep(old(State()), advance, openable)
    {
      playerClosed := true;
      threw := PlaybackFinished(advance, openable);
    }

    method PlaybackFinished(advance: int, openable: set<string>) returns (threw: bool)
      modifies this
      ensures Wrap(threw, State()) == FinishedStep(old(State()), advance, openable)
      decreases 1
    {
      threw := false;
      if isPaused {
        if currentSong == null {
          // currentSong.getFrameRatePerMilliseconds() throws
          return true;
        }
        currentFrame := currentFrame + advance;
      } else {
        if pressedNext || pressedPrev {
          return;
        }
        songFinished := true;
        if playlist.None? {
        } else if currentPlaylistIndex == |playlist.value| - 1 {
        } else {
          threw := NextSong(advance, openable);
        }
      }
    }
  }
}
