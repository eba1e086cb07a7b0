/**
 * Song.java: a song's metadata map, filled once when the song is constructed.
 * The two tag libraries the constructor calls (mp3agic's `Mp3File`,
 * jaudiotagger's `AudioFileIO`) are replaced by a `Probe`, which says how far
 * reading the file got and what it found.
 */
module Songs {
  import opened Wrappers
  import opened Text

  // The keys of `mySongData`.
  const FilePathKey := "filePath"
  const TitleKey := "songTitle"
  const ArtistKey := "songArtist"
  const LengthKey := "songLength"
  const GenreKey := "songGenre"

  /** The value stored for each tag field when the file has no tag. */
  const NotAvailable := "N/A"

  /** The first TITLE, ARTIST and GENRE values of a tag (jaudiotagger's `getFirst`). */
  datatype Tag = Tag(title: string, artist: string, genre: string)

  /** What `AudioFileIO.read(file).getTag()` did once the MP3 length was known. */
  datatype TagRead =
    | ReadFailed          // AudioFileIO.read threw
    | Untagged            // getTag() returned null
    | Tagged(tag: Tag)

  /** What reading the file at a path yields. */
  datatype Probe =
    | NotMp3                                        // new Mp3File(path) threw
    | Mp3(lengthInSeconds: nat, tagRead: TagRead)

  /** `convertToSongLengthFormat`: `String.format("%02d:%02d", len / 60, len % 60)`. */
  function FormatLength(seconds: nat): (r: string)
    ensures |r| >= 5 && r[|r| - 3] == ':'
    ensures AllDigits(r[..|r| - 3]) && AllDigits(r[|r| - 2..])
  {
    ZeroPad2Properties(seconds / 60);
    ZeroPad2Properties(seconds % 60);
    var m := ZeroPad2(seconds / 60);
    var s := ZeroPad2(seconds % 60);
    assert (m + ":" + s)[..|m|] == m;
    assert (m + ":" + s)[|m| + 1..] == s;
    m + ":" + s
  }

  /** The two fields of a length string: minutes before the last ':', seconds after it. */
  lemma LengthFields(seconds: nat)
    ensures var r := FormatLength(seconds);
            var secs := ParseDecimal(r[|r| - 2..]);
            && secs < 60
            && ParseDecimal(r[..|r| - 3]) * 60 + secs == seconds
  {
    ZeroPad2Properties(seconds / 60);
    ZeroPad2Properties(seconds % 60);
    var m := ZeroPad2(seconds / 60);
    var s := ZeroPad2(seconds % 60);
    var r := m + ":" + s;
    assert r[..|r| - 3] == m;
    assert r[|r| - 2..] == s;
  }

  /** Below 100 minutes the length string is exactly `mm:ss`. */
  lemma ShortLengthShape(seconds: nat)
    requires seconds < 6000
    ensures |FormatLength(seconds)| == 5 && FormatLength(seconds)[2] == ':'
  {
    ZeroPad2Properties(seconds / 60);
    ZeroPad2Properties(seconds % 60);
  }

  /**
   * The map the constructor leaves in `mySongData`. The path goes in before
   * anything is parsed; the length goes in once `Mp3File` succeeds; the tag
   * fields go in only if `AudioFileIO.read` succeeds as well.
   */
  function Metadata(path: string, probe: Probe): (m: map<string, string>)
    ensures FilePathKey in m && m[FilePathKey] == path
    ensures (LengthKey in m) == probe.Mp3?
    ensures probe.Mp3? ==> m[LengthKey] == FormatLength(probe.lengthInSeconds)
    ensures TitleKey in m <==> ArtistKey in m
    ensures ArtistKey in m <==> GenreKey in m
    ensures GenreKey in m <==> probe.Mp3? && !probe.tagRead.ReadFailed?
    ensures probe.Mp3? && probe.tagRead.Untagged? ==>
              m[TitleKey] == NotAvailable && m[ArtistKey] == NotAvailable && m[GenreKey] == NotAvailable
    ensures probe.Mp3? && probe.tagRead.Tagged? ==>
              var t := probe.tagRead.tag;
              m[TitleKey] == t.title && m[ArtistKey] == t.artist && m[GenreKey] == t.genre
    ensures m.Keys <= {FilePathKey, LengthKey, TitleKey, ArtistKey, GenreKey}
  {
    var base := map[FilePathKey := path];
    match probe
    case NotMp3 => base
    case Mp3(len, tagRead) =>
      var timed := base[LengthKey := FormatLength(len)];
      match tagRead
      case ReadFailed => timed
      case Untagged =>
        timed[TitleKey := NotAvailable][ArtistKey := NotAvailable][GenreKey := NotAvailable]
      case Tagged(t) =>
        timed[TitleKey := t.title][ArtistKey := t.artist][GenreKey := t.genre]
  }

  /**
   * Song objects never change after construction, so their one field is a
   * `const`. Getters return `None` where Java's `HashMap.get` returns null.
   */
  class Song {
    const data: map<string, string>

    constructor (path: string, probe: Probe)
      ensures data == Metadata(path, probe)
    {
      var m := map[];
      m := m[FilePathKey := path];
      match probe {
        case NotMp3 =>
        case Mp3(len, tagRead) =>
          m := m[LengthKey := FormatLength(len)];
          match tagRead {
            case ReadFailed =>
            case Untagged =>
              m := m[TitleKey := NotAvailable];
              m := m[ArtistKey := NotAvailable];
              m := m[GenreKey := NotAvailable];
            case Tagged(t) =>
              m := m[TitleKey := t.title];
              m := m[ArtistKey := t.artist];
              m := m[GenreKey := t.genre];
          }
      }
      data := m;
    }

    function Get(key: string): (r: Option<string>)
      ensures r.Some? <==> key in data
      ensures r.Some? ==> r.value == data[key]
    {
      if key in data then Some(data[key]) else None
    }

    function Title(): Option<string> { Get(TitleKey) }
    function Artist(): Option<string> { Get(ArtistKey) }
    function Genre(): Option<string> { Get(GenreKey) }
    function Length(): Option<string> { Get(LengthKey) }

    /** Every constructed song has its path stored. */
    predicate Valid() {
      FilePathKey in data
    }

    function FilePath(): string
      requires Valid()
    {
      data[FilePathKey]
    }

    /**
     * `getMp3File() != null`: `myMp3File` is assigned exactly when
     * `new Mp3File(path)` succeeds, which is also when the length is stored.
     */
    predicate HasMp3File() {
      LengthKey in data
    }

    /** Title, artist and genre were all read (Library's string operations dereference them). */
    predicate Loaded() {
      Title().Some? && Artist().Some? && Genre().Some?
    }
  }

  /** What the getters of a freshly constructed song return, case by case. */
  lemma GettersAfterConstruction(path: string, probe: Probe, s: Song)
    requires s.data == Metadata(path, probe)
    ensures s.Valid() && s.FilePath() == path
    ensures probe.NotMp3? ==> s.Length().None? && s.Title().None? && s.Artist().None? && s.Genre().None?
    ensures probe.Mp3? ==> s.Length() == Some(FormatLength(probe.lengthInSeconds))
    ensures probe.Mp3? && probe.tagRead.ReadFailed? ==> s.Title().None? && s.Artist().None? && s.Genre().None?
    ensures probe.Mp3? && probe.tagRead.Untagged? ==>
              s.Title() == s.Artist() == s.Genre() == Some(NotAvailable)
    ensures probe.Mp3? && probe.tagRead.Tagged? ==>
              && s.Title() == Some(probe.tagRead.tag.title)
              && s.Artist() == Some(probe.tagRead.tag.artist)
              && s.Genre() == Some(probe.tagRead.tag.genre)
    ensures s.Loaded() <==> probe.Mp3? && !probe.tagRead.ReadFailed?
    ensures s.HasMp3File() <==> probe.Mp3?
  {
  }
}
