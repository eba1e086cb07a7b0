/**
 * PlaylistDialogBox.java: the "Create Playlist" dialog. Its table model
 * keeps one selection flag per song. Saving writes the selected songs'
 * paths to a text file, one per line, in table order.
 *
 * `BufferedReader.readLine`, which `loadPlaylist` uses to read such a file
 * back, is given here as `ReadLines` with the JDK's line-end rules. The
 * file's text round-trips through it.
 */
module Playlists {
  import opened Wrappers
  import opened Songs

  // ---------------------------------------------------------------------------
  // The table model
  // ---------------------------------------------------------------------------

  /** A table cell: the check box of column 0, or a song field (null when the song has none). */
  datatype Cell = Flag(checked: bool) | Field(value: Option<string>)

  /** `getColumnClass`'s two answers. */
  datatype ColumnClass = BooleanColumn | StringColumn

  const SelectHeader := "Select"
  const TitleHeader := "Title"
  const ArtistHeader := "Artist"
  const GenreHeader := "Genre"

  class PlaylistTableModel {
    const songs: seq<Song>
    var selected: seq<bool>

    /** The selection list stays parallel to the song list. */
    predicate Valid()
      reads this
    {
      |selected| == |songs|
    }

    constructor (songs: seq<Song>)
      ensures this.songs == songs
      ensures Valid() && forall i :: 0 <= i < |selected| ==> !selected[i]
    {
      this.songs := songs;
      selected := seq(|songs|, _ => false);
    }

    function RowCount(): (n: nat)
      ensures n == |songs|
    {
      |songs|
    }

    /** `getColumnCount`: the check box plus title, artist and genre. */
    function ColumnCount(): (n: nat)
      ensures n == 4
    {
      4
    }

    /** `getValueAt`: column 0 is the flag, 1 the title, 2 the artist, any other the genre. */
    function ValueAt(row: int, column: int): (c: Cell)
      reads this
      requires Valid() && 0 <= row < |songs|
      ensures c.Flag? <==> column == 0
      ensures column == 0 ==> c.checked == selected[row]
      ensures column == 1 ==> c.value == songs[row].Title()
      ensures column == 2 ==> c.value == songs[row].Artist()
      ensures column != 0 && column != 1 && column != 2 ==> c.value == songs[row].Genre()
    {
      if column == 0 then Flag(selected[row])
      else if column == 1 then Field(songs[row].Title())
      else if column == 2 then Field(songs[row].Artist())
      else Field(songs[row].Genre())
    }

    /** `getColumnClass`: only the check-box column is Boolean. */
    function ColumnClassOf(column: int): (k: ColumnClass)
      ensures k == BooleanColumn <==> column == 0
    {
      if column == 0 then BooleanColumn else StringColumn
    }

    /** `getColumnName`: "Select", "Title", "Artist", and "Genre" for every other column. */
    function ColumnName(column: int): (h: string)
      ensures h in {SelectHeader, TitleHeader, ArtistHeader, GenreHeader}
      ensures h == SelectHeader <==> column == 0
      ensures h == TitleHeader <==> column == 1
      ensures h == ArtistHeader <==> column == 2
      ensures h == GenreHeader <==> column != 0 && column != 1 && column != 2
    {
      if column == 0 then SelectHeader
      else if column == 1 then TitleHeader
      else if column == 2 then ArtistHeader
      else GenreHeader
    }

    /** `isCellEditable`: only the check boxes can be edited, in every row. */
    function IsCellEditable(row: int, column: int): (b: bool)
      ensures b <==> column == 0
    {
      column == 0
    }

    /** `isSelected`; `ArrayList.get` throws for a row outside the table. */
    function IsSelected(row: int): (b: bool)
      reads this
      requires Valid() && 0 <= row < |songs|
      ensures b == ValueAt(row, 0).checked
    {
      selected[row]
    }

    /**
     * `setValueAt`: only column 0 is stored, and only that row's flag
     * changes. `ok` is false for the IndexOutOfBoundsException of a row
     * outside the table.
     */
    method SetValueAt(value: bool, row: int, column: int) returns (ok: bool)
      modifies this
      requires Valid()
      ensures Valid()
      ensures ok <==> column != 0 || 0 <= row < |songs|
      ensures column == 0 && ok ==> selected == old(selected)[row := value]
      ensures column != 0 || !ok ==> selected == old(selected)
    {
      if column == 0 {
        if !(0 <= row < |selected|) {
          return false;
        }
        selected := selected[row := value];
      }
      return true;
    }
  }

  /** The editable column is the Boolean one, headed "Select", and the only one that shows the flag. */
  lemma ColumnsAgree(m: PlaylistTableModel, row: int, column: int)
    requires m.Valid() && 0 <= row < |m.songs|
    ensures m.IsCellEditable(row, column) <==> m.ColumnClassOf(column) == BooleanColumn
    ensures m.IsCellEditable(row, column) <==> m.ValueAt(row, column).Flag?
    ensures m.IsCellEditable(row, column) <==> m.ColumnName(column) == SelectHeader
  {
  }

  /** Each header names the field `getValueAt` shows in its column. */
  lemma HeaderNamesField(m: PlaylistTableModel, row: int, column: int)
    requires m.Valid() && 0 <= row < |m.songs|
    ensures m.ColumnName(column) == SelectHeader ==> m.ValueAt(row, column) == Flag(m.selected[row])
    ensures m.ColumnName(column) == TitleHeader ==> m.ValueAt(row, column) == Field(m.songs[row].Title())
    ensures m.ColumnName(column) == ArtistHeader ==> m.ValueAt(row, column) == Field(m.songs[row].Artist())
    ensures m.ColumnName(column) == GenreHeader ==> m.ValueAt(row, column) == Field(m.songs[row].Genre())
  {
  }

  /** The table's four columns carry four different headers; any further column repeats "Genre". */
  lemma HeadersDistinct(m: PlaylistTableModel)
    ensures forall c, d :: 0 <= c < d < m.ColumnCount() ==> m.ColumnName(c) != m.ColumnName(d)
    ensures forall c :: c >= m.ColumnCount() ==> m.ColumnName(c) == GenreHeader
  {
  }

  // ---------------------------------------------------------------------------
  // Selecting rows
  // ---------------------------------------------------------------------------

  /** The rows whose flag is set, in increasing order. */
  function SelectedRows(flags: seq<bool>): (rows: seq<int>)
    ensures forall k :: 0 <= k < |rows| ==> 0 <= rows[k] < |flags| && flags[rows[k]]
    ensures forall k, l :: 0 <= k < l < |rows| ==> rows[k] < rows[l]
    ensures forall i :: 0 <= i < |flags| && flags[i] ==> i in rows
  {
    if flags == [] then []
    else SelectedRows(flags[..|flags| - 1]) + (if flags[|flags| - 1] then [|flags| - 1] else [])
  }

  /** The songs of the flagged rows, in table order. */
  function Selected(songs: seq<Song>, flags: seq<bool>): (r: seq<Song>)
    requires |songs| == |flags|
    ensures forall s | s in r :: s in songs
  {
    if songs == [] then []
    else
      Selected(songs[..|songs| - 1], flags[..|flags| - 1])
      + (if flags[|flags| - 1] then [songs[|songs| - 1]] else [])
  }

  /** `Selected` picks exactly the songs at `SelectedRows`, one for one. */
  lemma {:induction false} SelectedAtRows(songs: seq<Song>, flags: seq<bool>)
    requires |songs| == |flags|
    ensures |Selected(songs, flags)| == |SelectedRows(flags)|
    ensures forall k :: 0 <= k < |SelectedRows(flags)| ==> Selected(songs, flags)[k] == songs[SelectedRows(flags)[k]]
    decreases |songs|
  {
    if songs != [] {
      var n := |songs| - 1;
      SelectedAtRows(songs[..n], flags[..n]);
    }
  }

  /** Nothing is selected exactly when no flag is set. */
  lemma SelectedEmpty(songs: seq<Song>, flags: seq<bool>)
    requires |songs| == |flags|
    ensures Selected(songs, flags) == [] <==> forall i :: 0 <= i < |flags| ==> !flags[i]
  {
    SelectedAtRows(songs, flags);
    var rows := SelectedRows(flags);
    if rows != [] {
      assert flags[rows[0]];
    }
  }

  // ---------------------------------------------------------------------------
  // The playlist file
  // ---------------------------------------------------------------------------

  /** `System.lineSeparator()`, which `BufferedWriter.newLine` writes. */
  datatype LineSeparator = LF | CRLF

  function Newline(sep: LineSeparator): string {
    match sep
    case LF => "\n"
    case CRLF => "\r\n"
  }

  predicate IsBreak(c: char) {
    c == '\n' || c == '\r'
  }

  predicate NoBreaks(s: string) {
    forall i :: 0 <= i < |s| ==> !IsBreak(s[i])
  }

  /** The file `savePlaylist` writes: each path followed by a line separator. */
  function PlaylistText(paths: seq<string>, sep: LineSeparator): string {
    if paths == [] then [] else paths[0] + Newline(sep) + PlaylistText(paths[1..], sep)
  }

  lemma {:induction false} PlaylistTextAppend(paths: seq<string>, p: string, sep: LineSeparator)
    ensures PlaylistText(paths + [p], sep) == PlaylistText(paths, sep) + p + Newline(sep)
    decreases |paths|
  {
    if paths == [] {
      assert [p][1..] == [];
    } else {
      assert (paths + [p])[1..] == paths[1..] + [p];
      PlaylistTextAppend(paths[1..], p, sep);
    }
  }

  /** Where the first line of `t` ends. */
  function LineEnd(t: string): (n: nat)
    ensures n <= |t| && NoBreaks(t[..n]) && (n < |t| ==> IsBreak(t[n]))
  {
    if t == [] || IsBreak(t[0]) then 0
    else
      var n := 1 + LineEnd(t[1..]);
      assert t[..n] == [t[0]] + t[1..][..n - 1];
      n
  }

  /**
   * The lines `readLine` returns before null. A line ends at '\n', at '\r',
   * or at "\r\n". A last line without a terminator still counts.
   */
  function ReadLines(t: string): seq<string>
    decreases |t|
  {
    if t == [] then []
    else
      var n := LineEnd(t);
      var rest := if n == |t| then []
                  else if t[n] == '\r' && n + 1 < |t| && t[n + 1] == '\n' then t[n + 2..]
                  else t[n + 1..];
      [t[..n]] + ReadLines(rest)
  }

  lemma {:induction false} LineEndAtBreak(p: string, rest: string)
    requires NoBreaks(p) && rest != [] && IsBreak(rest[0])
    ensures LineEnd(p + rest) == |p|
    decreases |p|
  {
    var t := p + rest;
    if p == [] {
      assert t == rest;
    } else {
      assert t[0] == p[0] && !IsBreak(t[0]);
      assert t[1..] == p[1..] + rest;
      assert NoBreaks(p[1..]) by {
        forall i | 0 <= i < |p[1..]|
          ensures !IsBreak(p[1..][i])
        {
          assert p[1..][i] == p[i + 1];
        }
      }
      LineEndAtBreak(p[1..], rest);
    }
  }

  lemma ReadFirstLine(p: string, sep: LineSeparator, rest: string)
    requires NoBreaks(p)
    ensures ReadLines(p + Newline(sep) + rest) == [p] + ReadLines(rest)
  {
    var t := p + Newline(sep) + rest;
    LineEndAtBreak(p, Newline(sep) + rest);
    assert t == p + (Newline(sep) + rest);
    assert t[..|p|] == p;
    match sep
    case LF => assert t[|p| + 1..] == rest;
    case CRLF => assert t[|p| + 2..] == rest;
  }

  /** Reading a saved playlist back line by line gives the saved paths, in order. */
  lemma {:induction false} PlaylistRoundTrip(paths: seq<string>, sep: LineSeparator)
    requires forall i :: 0 <= i < |paths| ==> NoBreaks(paths[i])
    ensures ReadLines(PlaylistText(paths, sep)) == paths
    decreases |paths|
  {
    if paths != [] {
      PlaylistRoundTrip(paths[1..], sep);
      ReadFirstLine(paths[0], sep, PlaylistText(paths[1..], sep));
    }
  }

  /** A path with a line break in it is read back as two paths, split at the break. */
  lemma BrokenPathSplits(x: string, y: string, sep: LineSeparator)
    requires NoBreaks(x) && NoBreaks(y)
    ensures ReadLines(PlaylistText([x + "\n" + y], sep)) == [x, y]
  {
    var t := PlaylistText([x + "\n" + y], sep);
    assert [x + "\n" + y][1..] == [];
    assert t == (x + "\n" + y) + Newline(sep) + PlaylistText([], sep);
    assert t == x + Newline(LF) + (y + Newline(sep) + []);
    ReadFirstLine(x, LF, y + Newline(sep) + []);
    ReadFirstLine(y, sep, []);
  }

  /** `getFilePath` of each song, in order. */
  function Paths(songs: seq<Song>): (r: seq<string>)
    requires forall s | s in songs :: s.Valid()
    ensures |r| == |songs| && forall i :: 0 <= i < |songs| ==> r[i] == songs[i].FilePath()
  {
    seq(|songs|, i requires 0 <= i < |songs| => songs[i].FilePath())
  }

  // ---------------------------------------------------------------------------
  // The dialog
  // ---------------------------------------------------------------------------

  /** How a click on Save ends. */
  datatype SaveOutcome =
    | NothingSelected               // the "No songs selected" error dialog
    | Cancelled                     // the file chooser was not approved
    | Written(contents: string)     // what the BufferedWriter wrote

  class PlaylistDialogBox {
    const playlistLibrary: seq<Song>
    const tableModel: PlaylistTableModel

    /** The dialog and its table model share one song list. */
    predicate Valid()
      reads this, tableModel
    {
      tableModel.songs == playlistLibrary && tableModel.Valid()
    }

    constructor (playlistLibrary: seq<Song>)
      ensures Valid() && fresh(tableModel)
      ensures this.playlistLibrary == playlistLibrary
      ensures forall i :: 0 <= i < |tableModel.selected| ==> !tableModel.selected[i]
    {
      this.playlistLibrary := playlistLibrary;
      tableModel := new PlaylistTableModel(playlistLibrary);
    }

    /**
     * `savePlaylist`: `approved` is the file chooser's answer and `sep` the
     * platform line separator. Every song here was made by `Song`'s
     * constructor, so each has its path.
     */
    method SavePlaylist(approved: bool, sep: LineSeparator) returns (outcome: SaveOutcome)
      requires Valid()
      requires forall s | s in playlistLibrary :: s.Valid()
      ensures var chosen := Selected(playlistLibrary, tableModel.selected);
              && (outcome.NothingSelected? <==> chosen == [])
              && (outcome.Cancelled? <==> chosen != [] && !approved)
              && (outcome.Written? ==> outcome.contents == PlaylistText(Paths(chosen), sep))
    {
      var selectedSongs: seq<Song> := [];
      for i := 0 to tableModel.RowCount()
        invariant selectedSongs == Selected(playlistLibrary[..i], tableModel.selected[..i])
      {
        if tableModel.IsSelected(i) {
          selectedSongs := selectedSongs + [playlistLibrary[i]];
        }
        assert playlistLibrary[..i + 1][..i] == playlistLibrary[..i];
        assert tableModel.selected[..i + 1][..i] == tableModel.selected[..i];
      }
      assert playlistLibrary[..|playlistLibrary|] == playlistLibrary;
      assert tableModel.selected[..|tableModel.selected|] == tableModel.selected;

      if selectedSongs == [] {
        return NothingSelected;
      }
      if !approved {
        return Cancelled;
      }
      var contents: string := [];
      for k := 0 to |selectedSongs|
        invariant contents == PlaylistText(Paths(selectedSongs[..k]), sep)
      {
        var path := selectedSongs[k].FilePath();
        assert Paths(selectedSongs[..k + 1]) == Paths(selectedSongs[..k]) + [path];
        PlaylistTextAppend(Paths(selectedSongs[..k]), path, sep);
        contents := contents + path + Newline(sep);
      }
      assert selectedSongs[..|selectedSongs|] == selectedSongs;
      return Written(contents);
    }
  }

  /**
   * Saving a selection and reading the file back gives the selected paths in
   * table order, provided no path contains a line break.
   */
  lemma SaveThenLoad(songs: seq<Song>, flags: seq<bool>, sep: LineSeparator)
    requires |songs| == |flags|
    requires forall s | s in songs :: s.Valid() && NoBreaks(s.FilePath())
    ensures var lines := ReadLines(PlaylistText(Paths(Selected(songs, flags)), sep));
            && |lines| == |SelectedRows(flags)|
            && forall k :: 0 <= k < |lines| ==> lines[k] == songs[SelectedRows(flags)[k]].FilePath()
  {
    SelectedAtRows(songs, flags);
    var chosen := Selected(songs, flags);
    PlaylistRoundTrip(Paths(chosen), sep);
  }
}
