/**
 * Library.java: the song catalog. It supports lookup by index or by title,
 * append, conversion to table rows, three case-insensitive sorts and a
 * relevance search.
 *
 * `Collections.sort` and `List.sort` are JDK calls with no loop in this code.
 * They are modelled by one stable sort per comparator, defined as an
 * insertion sort. `StableSortIsUnique` shows that any stable sort gives the
 * same result, so TimSort's output and this definition agree.
 */
module Catalog {
  import opened Wrappers
  import opened Text
  import opened Songs

  // ---------------------------------------------------------------------------
  // Sorting by a case-folded key (sortByTitle, sortByArtist, sortByGenre)
  // ---------------------------------------------------------------------------

  datatype Field = TitleField | ArtistField | GenreField

  function KeyOf(s: Song, f: Field): Option<string> {
    match f
    case TitleField => s.Title()
    case ArtistField => s.Artist()
    case GenreField => s.Genre()
  }

  /**
   * The string `String.CASE_INSENSITIVE_ORDER` effectively compares. On ASCII,
   * comparing folded characters one by one is the same as comparing the
   * lower-cased strings lexicographically.
   */
  function FoldedKey(s: Song, f: Field): string {
    Lower(KeyOf(s, f).GetOr(""))
  }

  predicate KeyLe(x: Song, y: Song, f: Field) {
    LexLe(FoldedKey(x, f), FoldedKey(y, f))
  }

  predicate SortedByKey(s: seq<Song>, f: Field) {
    forall i, j :: 0 <= i < j < |s| ==> KeyLe(s[i], s[j], f)
  }

  /** The songs of `s` whose folded key is `k`, in their order in `s`. */
  function WithKey(s: seq<Song>, f: Field, k: string): seq<Song> {
    if s == [] then []
    else WithKey(s[..|s| - 1], f, k) + (if FoldedKey(s[|s| - 1], f) == k then [s[|s| - 1]] else [])
  }

  /** Inserts `x` after every element whose key is not greater (so equal keys keep their order). */
  function InsertByKey(s: seq<Song>, x: Song, f: Field): seq<Song>
    decreases |s|
  {
    if s == [] then [x]
    else if KeyLe(s[|s| - 1], x, f) then s + [x]
    else InsertByKey(s[..|s| - 1], x, f) + [s[|s| - 1]]
  }

  /** The stable sort `Collections.sort(list, Comparator.comparing(key, CASE_INSENSITIVE_ORDER))`. */
  function SortByKey(s: seq<Song>, f: Field): seq<Song> {
    if s == [] then [] else InsertByKey(SortByKey(s[..|s| - 1], f), s[|s| - 1], f)
  }

  lemma {:induction false} InsertByKeyPermutes(s: seq<Song>, x: Song, f: Field)
    ensures multiset(InsertByKey(s, x, f)) == multiset(s) + multiset{x}
    decreases |s|
  {
    if s != [] && !KeyLe(s[|s| - 1], x, f) {
      InsertByKeyPermutes(s[..|s| - 1], x, f);
      assert s == s[..|s| - 1] + [s[|s| - 1]];
    }
  }

  /** Appending a song whose key is at least every key in a sorted list keeps it sorted. */
  lemma AppendSortedByKey(s: seq<Song>, x: Song, f: Field)
    requires SortedByKey(s, f)
    requires forall y | y in s :: KeyLe(y, x, f)
    ensures SortedByKey(s + [x], f)
  {
    var r := s + [x];
    forall i, j | 0 <= i < j < |r|
      ensures KeyLe(r[i], r[j], f)
    {
      if j == |s| {
        assert r[i] in s;
      }
    }
  }

  lemma LastKeyIsGreatest(s: seq<Song>, x: Song, f: Field)
    requires SortedByKey(s, f)
    requires s != [] && KeyLe(s[|s| - 1], x, f)
    ensures forall y | y in s :: KeyLe(y, x, f)
  {
    forall y | y in s
      ensures KeyLe(y, x, f)
    {
      var m :| 0 <= m < |s| && s[m] == y;
      if m < |s| - 1 {
        LexLeTransitive(FoldedKey(y, f), FoldedKey(s[|s| - 1], f), FoldedKey(x, f));
      }
    }
  }

  lemma {:induction false} InsertByKeySorted(s: seq<Song>, x: Song, f: Field)
    requires SortedByKey(s, f)
    ensures SortedByKey(InsertByKey(s, x, f), f)
    decreases |s|
  {
    if s == [] {
    } else if KeyLe(s[|s| - 1], x, f) {
      LastKeyIsGreatest(s, x, f);
      AppendSortedByKey(s, x, f);
    } else {
      var n := |s| - 1;
      var init, last := s[..n], s[n];
      LexLeTotal(FoldedKey(last, f), FoldedKey(x, f));
      assert SortedByKey(init, f);
      InsertByKeySorted(init, x, f);
      InsertByKeyPermutes(init, x, f);
      var ins := InsertByKey(init, x, f);
      forall y | y in ins
        ensures KeyLe(y, last, f)
      {
        assert y in multiset(ins);
        if y != x {
          assert y in multiset(init);
          var m :| 0 <= m < |init| && init[m] == y;
          assert KeyLe(s[m], s[n], f);
        }
      }
      AppendSortedByKey(ins, last, f);
    }
  }

  lemma {:induction false} WithKeyAppend(a: seq<Song>, b: seq<Song>, f: Field, k: string)
    ensures WithKey(a + b, f, k) == WithKey(a, f, k) + WithKey(b, f, k)
    decreases |b|
  {
    if b == [] {
      assert a + b == a;
    } else {
      var n := |b| - 1;
      assert (a + b)[..|a + b| - 1] == a + b[..n];
      WithKeyAppend(a, b[..n], f, k);
    }
  }

  lemma WithKeySingleton(x: Song, f: Field, k: string)
    ensures WithKey([x], f, k) == if FoldedKey(x, f) == k then [x] else []
  {
    assert [x][..0] == [];
  }

  /** Two songs out of key order do not share a key. */
  lemma OutOfOrderKeysDiffer(last: Song, x: Song, f: Field, k: string)
    requires !KeyLe(last, x, f)
    ensures WithKey([x], f, k) == [] || WithKey([last], f, k) == []
  {
    LexLeReflexive(FoldedKey(x, f));
    WithKeySingleton(x, f, k);
    WithKeySingleton(last, f, k);
  }

  /** The recursive case of `InsertByKeyStable`: `x` passes `last`, whose key differs. */
  lemma InsertByKeyStableStep(init: seq<Song>, last: Song, x: Song, f: Field, k: string)
    requires !KeyLe(last, x, f)
    requires WithKey(InsertByKey(init, x, f), f, k) == WithKey(init, f, k) + WithKey([x], f, k)
    ensures WithKey(InsertByKey(init, x, f) + [last], f, k) == WithKey(init + [last], f, k) + WithKey([x], f, k)
  {
    var a, wx, wl := WithKey(init, f, k), WithKey([x], f, k), WithKey([last], f, k);
    WithKeyAppend(InsertByKey(init, x, f), [last], f, k);
    WithKeyAppend(init, [last], f, k);
    OutOfOrderKeysDiffer(last, x, f, k);
    if wx == [] {
      assert a + wx + wl == a + wl + wx;
    } else {
      assert wl == [];
      assert a + wx + wl == a + wl + wx;
    }
  }

  lemma {:induction false} InsertByKeyStable(s: seq<Song>, x: Song, f: Field, k: string)
    ensures WithKey(InsertByKey(s, x, f), f, k) == WithKey(s, f, k) + WithKey([x], f, k)
    decreases |s|
  {
    if s == [] {
      WithKeySingleton(x, f, k);
    } else if KeyLe(s[|s| - 1], x, f) {
      WithKeyAppend(s, [x], f, k);
    } else {
      var n := |s| - 1;
      assert s == s[..n] + [s[n]];
      InsertByKeyStable(s[..n], x, f, k);
      InsertByKeyStableStep(s[..n], s[n], x, f, k);
    }
  }

  lemma {:induction false} SortByKeyPermutes(s: seq<Song>, f: Field)
    ensures multiset(SortByKey(s, f)) == multiset(s)
    decreases |s|
  {
    if s != [] {
      var n := |s| - 1;
      SortByKeyPermutes(s[..n], f);
      InsertByKeyPermutes(SortByKey(s[..n], f), s[n], f);
      assert s == s[..n] + [s[n]];
    }
  }

  lemma {:induction false} SortByKeySorted(s: seq<Song>, f: Field)
    ensures SortedByKey(SortByKey(s, f), f)
    decreases |s|
  {
    if s != [] {
      var n := |s| - 1;
      SortByKeySorted(s[..n], f);
      InsertByKeySorted(SortByKey(s[..n], f), s[n], f);
    }
  }

  /** Stability: for every key, the songs with that key keep their relative order. */
  lemma {:induction false} SortByKeyStable(s: seq<Song>, f: Field, k: string)
    ensures WithKey(SortByKey(s, f), f, k) == WithKey(s, f, k)
    decreases |s|
  {
    if s != [] {
      var n := |s| - 1;
      SortByKeyStable(s[..n], f, k);
      InsertByKeyStable(SortByKey(s[..n], f), s[n], f, k);
      assert [s[n]][..0] == [];
    }
  }

  lemma {:induction false} InWithKey(s: seq<Song>, f: Field, x: Song)
    ensures x in s <==> x in WithKey(s, f, FoldedKey(x, f))
    decreases |s|
  {
    if s != [] {
      var n := |s| - 1;
      InWithKey(s[..n], f, x);
      assert s == s[..n] + [s[n]];
    }
  }

  /** The last song with key `k` is the last entry of `WithKey`, if the sequence ends with such a song. */
  lemma WithKeyLast(s: seq<Song>, f: Field)
    requires s != []
    ensures WithKey(s, f, FoldedKey(s[|s| - 1], f)) == WithKey(s[..|s| - 1], f, FoldedKey(s[|s| - 1], f)) + [s[|s| - 1]]
  {
  }

  /**
   * A sorted sequence with the same songs per key as `s` is `SortByKey(s, f)`:
   * every stable sort by this comparator returns the same list.
   */
  lemma StableSortIsUnique(s: seq<Song>, r: seq<Song>, f: Field)
    requires SortedByKey(r, f)
    requires forall k :: WithKey(r, f, k) == WithKey(s, f, k)
    ensures r == SortByKey(s, f)
  {
    SortByKeySorted(s, f);
    forall k
      ensures WithKey(r, f, k) == WithKey(SortByKey(s, f), f, k)
    {
      SortByKeyStable(s, f, k);
    }
    SortedSameGroupsEqual(r, SortByKey(s, f), f);
  }

  /** In a sorted list every song's key is at most the last song's key. */
  lemma KeyAtMostLast(s: seq<Song>, y: Song, f: Field)
    requires SortedByKey(s, f) && y in s
    ensures KeyLe(y, s[|s| - 1], f)
  {
    var m :| 0 <= m < |s| && s[m] == y;
    if m == |s| - 1 {
      LexLeReflexive(FoldedKey(y, f));
    }
  }

  /** A song of one list is in the other list when both have the same groups. */
  lemma SameGroupsSameSongs(a: seq<Song>, b: seq<Song>, f: Field, y: Song)
    requires forall k :: WithKey(a, f, k) == WithKey(b, f, k)
    requires y in b
    ensures y in a
  {
    InWithKey(b, f, y);
    assert WithKey(a, f, FoldedKey(y, f)) == WithKey(b, f, FoldedKey(y, f));
    InWithKey(a, f, y);
  }

  /** The last song of a list is the last song of its own group. */
  lemma LastOfGroup(s: seq<Song>, f: Field)
    requires s != []
    ensures |WithKey(s, f, FoldedKey(s[|s| - 1], f))| > 0
    ensures WithKey(s, f, FoldedKey(s[|s| - 1], f))[|WithKey(s, f, FoldedKey(s[|s| - 1], f))| - 1] == s[|s| - 1]
  {
    WithKeyLast(s, f);
  }

  /** Two sorted lists with the same groups end with songs of the same key. */
  lemma SameGroupsSameLastKey(a: seq<Song>, b: seq<Song>, f: Field)
    requires SortedByKey(a, f) && SortedByKey(b, f)
    requires forall k :: WithKey(a, f, k) == WithKey(b, f, k)
    requires a != [] && b != []
    ensures FoldedKey(a[|a| - 1], f) == FoldedKey(b[|b| - 1], f)
  {
    var x, y := a[|a| - 1], b[|b| - 1];
    SameGroupsSameSongs(a, b, f, y);
    SameGroupsSameSongs(b, a, f, x);
    KeyAtMostLast(a, y, f);
    KeyAtMostLast(b, x, f);
    LexLeAntisymmetric(FoldedKey(x, f), FoldedKey(y, f));
  }

  /** Two lists that end with songs of the same key, and agree on that key's group, end with the same song. */
  lemma SameGroupSameLast(a: seq<Song>, b: seq<Song>, f: Field)
    requires a != [] && b != []
    requires FoldedKey(a[|a| - 1], f) == FoldedKey(b[|b| - 1], f)
    requires WithKey(a, f, FoldedKey(a[|a| - 1], f)) == WithKey(b, f, FoldedKey(a[|a| - 1], f))
    ensures a[|a| - 1] == b[|b| - 1]
  {
    LastOfGroup(a, f);
    LastOfGroup(b, f);
  }

  /** Removing the same song from the end of both lists keeps their groups equal. */
  lemma DropLastKeepsGroups(a': seq<Song>, b': seq<Song>, x: Song, f: Field)
    requires forall k :: WithKey(a' + [x], f, k) == WithKey(b' + [x], f, k)
    ensures forall k :: WithKey(a', f, k) == WithKey(b', f, k)
  {
    forall k
      ensures WithKey(a', f, k) == WithKey(b', f, k)
    {
      WithKeyAppend(a', [x], f, k);
      WithKeyAppend(b', [x], f, k);
      var wa, wb, wx := WithKey(a', f, k), WithKey(b', f, k), WithKey([x], f, k);
      assert wa + wx == wb + wx;
      assert wa == (wa + wx)[..|wa|];
      assert wb == (wb + wx)[..|wb|];
    }
  }

  lemma {:induction false} SortedSameGroupsEqual(a: seq<Song>, b: seq<Song>, f: Field)
    requires SortedByKey(a, f) && SortedByKey(b, f)
    requires forall k :: WithKey(a, f, k) == WithKey(b, f, k)
    ensures a == b
    decreases |a|
  {
    if a == [] && b != [] {
      var y := b[|b| - 1];
      SameGroupsSameSongs(a, b, f, y);
    } else if a != [] && b == [] {
      var x := a[|a| - 1];
      SameGroupsSameSongs(b, a, f, x);
    } else if a != [] {
      SameGroupsSameLastKey(a, b, f);
      SameGroupSameLast(a, b, f);
      var x := a[|a| - 1];
      var a', b' := a[..|a| - 1], b[..|b| - 1];
      assert a == a' + [x] && b == b' + [x];
      DropLastKeepsGroups(a', b', x, f);
      SortedSameGroupsEqual(a', b', f);
    }
  }

  // ---------------------------------------------------------------------------
  // Relevance search (searchSongs)
  // ---------------------------------------------------------------------------

  /**
   * The score `searchSongs` gives one song: 100 for a title match (+50 if the
   * title starts with the term), 75 for an artist match (+25 if it starts with
   * the term), 50 for a genre match. Every string is lower-cased first.
   */
  function Relevance(title: string, artist: string, genre: string, term: string): (score: nat)
    ensures score <= 300
    ensures score > 0 <==>
              Contains(Lower(title), Lower(term)) || Contains(Lower(artist), Lower(term)) ||
              Contains(Lower(genre), Lower(term))
  {
    var t := Lower(term);
    var lt, la, lg := Lower(title), Lower(artist), Lower(genre);
    (if Contains(lt, t) then 100 + (if StartsWith(lt, t) then 50 else 0) else 0)
    + (if Contains(la, t) then 75 + (if StartsWith(la, t) then 25 else 0) else 0)
    + (if Contains(lg, t) then 50 else 0)
  }

  /** The empty search term is a prefix of everything, so every song gets the full 300. */
  lemma EmptyTermScoresFull(title: string, artist: string, genre: string)
    ensures Relevance(title, artist, genre, "") == 300
  {
    var lt, la, lg := Lower(title), Lower(artist), Lower(genre);
    assert StartsWith(lt, []) && StartsWith(la, []) && StartsWith(lg, []);
    StartsWithImpliesContains(lt, []);
    StartsWithImpliesContains(la, []);
    StartsWithImpliesContains(lg, []);
  }

  /**
   * A title that starts with the term ranks no lower than any song whose title
   * does not contain it (an artist prefix plus a genre match can tie at 150).
   */
  lemma TitlePrefixRanksFirst(s1: Song, s2: Song, term: string)
    requires s1.Loaded() && s2.Loaded()
    requires StartsWith(Lower(s1.Title().value), Lower(term))
    requires !Contains(Lower(s2.Title().value), Lower(term))
    ensures SongScore(s1, term) >= 150 >= SongScore(s2, term)
  {
    StartsWithImpliesContains(Lower(s1.Title().value), Lower(term));
  }

  function SongScore(s: Song, term: string): nat {
    Relevance(s.Title().GetOr(""), s.Artist().GetOr(""), s.Genre().GetOr(""), term)
  }

  predicate SortedByScore(s: seq<Song>, term: string) {
    forall i, j :: 0 <= i < j < |s| ==> SongScore(s[i], term) >= SongScore(s[j], term)
  }

  function InsertByScore(s: seq<Song>, x: Song, term: string): seq<Song>
    decreases |s|
  {
    if s == [] then [x]
    else if SongScore(s[|s| - 1], term) >= SongScore(x, term) then s + [x]
    else InsertByScore(s[..|s| - 1], x, term) + [s[|s| - 1]]
  }

  /** The stable sort by the comparator `matchScores.get(s2).compareTo(matchScores.get(s1))`. */
  function SortByScore(s: seq<Song>, term: string): seq<Song> {
    if s == [] then [] else InsertByScore(SortByScore(s[..|s| - 1], term), s[|s| - 1], term)
  }

  lemma {:induction false} InsertByScorePermutes(s: seq<Song>, x: Song, term: string)
    ensures multiset(InsertByScore(s, x, term)) == multiset(s) + multiset{x}
    decreases |s|
  {
    if s != [] && SongScore(s[|s| - 1], term) < SongScore(x, term) {
      InsertByScorePermutes(s[..|s| - 1], x, term);
      assert s == s[..|s| - 1] + [s[|s| - 1]];
    }
  }

  lemma AppendSortedByScore(s: seq<Song>, x: Song, term: string)
    requires SortedByScore(s, term)
    requires forall y | y in s :: SongScore(y, term) >= SongScore(x, term)
    ensures SortedByScore(s + [x], term)
  {
    var r := s + [x];
    forall i, j | 0 <= i < j < |r|
      ensures SongScore(r[i], term) >= SongScore(r[j], term)
    {
      if j == |s| {
        assert r[i] in s;
      }
    }
  }

  lemma {:induction false} InsertByScoreSorted(s: seq<Song>, x: Song, term: string)
    requires SortedByScore(s, term)
    ensures SortedByScore(InsertByScore(s, x, term), term)
    decreases |s|
  {
    if s == [] {
    } else if SongScore(s[|s| - 1], term) >= SongScore(x, term) {
      forall y | y in s
        ensures SongScore(y, term) >= SongScore(x, term)
      {
        var m :| 0 <= m < |s| && s[m] == y;
        assert m < |s| - 1 ==> SongScore(s[m], term) >= SongScore(s[|s| - 1], term);
      }
      AppendSortedByScore(s, x, term);
    } else {
      var n := |s| - 1;
      var init, last := s[..n], s[n];
      assert SortedByScore(init, term);
      InsertByScoreSorted(init, x, term);
      InsertByScorePermutes(init, x, term);
      var ins := InsertByScore(init, x, term);
      forall y | y in ins
        ensures SongScore(y, term) >= SongScore(last, term)
      {
        assert y in multiset(ins);
        if y != x {
          assert y in multiset(init);
          var m :| 0 <= m < |init| && init[m] == y;
          assert SongScore(s[m], term) >= SongScore(s[n], term);
        }
      }
      AppendSortedByScore(ins, last, term);
    }
  }

  lemma {:induction false} SortByScoreCorrect(s: seq<Song>, term: string)
    ensures multiset(SortByScore(s, term)) == multiset(s)
    ensures SortedByScore(SortByScore(s, term), term)
    decreases |s|
  {
    if s != [] {
      var n := |s| - 1;
      SortByScoreCorrect(s[..n], term);
      InsertByScorePermutes(SortByScore(s[..n], term), s[n], term);
      InsertByScoreSorted(SortByScore(s[..n], term), s[n], term);
      assert s == s[..n] + [s[n]];
    }
  }

  // ---------------------------------------------------------------------------
  // The library object
  // ---------------------------------------------------------------------------

  /** `getSong(String)`: a song, null, or the NullPointerException of `getSongTitle().equals(...)`. */
  datatype TitleLookup = Found(song: Song) | NotFound | NullTitle

  /** Every song before position `i` has a title, and it differs from `title`. */
  predicate TitlesDifferBefore(songs: seq<Song>, i: int, title: string)
    requires 0 <= i <= |songs|
  {
    forall j :: 0 <= j < i ==> songs[j].Title().Some? && songs[j].Title().value != title
  }

  /** Java's comparator throws on a null key once the list has two elements. */
  predicate KeysPresent(songs: seq<Song>, f: Field) {
    |songs| < 2 || forall i :: 0 <= i < |songs| ==> KeyOf(songs[i], f).Some?
  }

  /**
   * `searchResults.addAll(matchScores.keySet())`: every key once, in the
   * unspecified order of `HashMap` iteration.
   */
  method KeysInSomeOrder(keys: set<Song>) returns (results: seq<Song>)
    ensures forall x :: multiset(results)[x] == if x in keys then 1 else 0
  {
    var remaining := keys;
    results := [];
    while remaining != {}
      invariant remaining <= keys
      invariant forall x :: multiset(results)[x] == if x in keys && x !in remaining then 1 else 0
      decreases remaining
    {
      var x :| x in remaining;
      results := results + [x];
      remaining := remaining - {x};
    }
  }

  class Library {
    var songs: seq<Song>   // mySongLibrary

    /** `Library(folderPath)`, given the paths `listFiles` returned and what each file holds. */
    constructor (files: seq<string>, probe: string -> Probe)
      ensures |songs| == |files|
      ensures forall i :: 0 <= i < |files| ==> fresh(songs[i]) && songs[i].data == Metadata(files[i], probe(files[i]))
    {
      var result: seq<Song> := [];
      for i := 0 to |files|
        invariant |result| == i
        invariant forall j :: 0 <= j < i ==> fresh(result[j]) && result[j].data == Metadata(files[j], probe(files[j]))
      {
        var song := new Song(files[i], probe(files[i]));
        result := result + [song];
      }
      songs := result;
    }

    /** `getSong(int)`; an index out of range makes `ArrayList.get` throw, so callers must not pass one. */
    function SongAt(index: int): (s: Song)
      reads this
      requires 0 <= index < |songs|
      ensures s in songs && s == songs[index]
    {
      songs[index]
    }

    /** `getSong(String)`: the first song whose title equals `title`. */
    method GetSongByTitle(title: string) returns (r: TitleLookup)
      ensures r.Found? ==> exists i :: 0 <= i < |songs| && songs[i] == r.song &&
                                       songs[i].Title() == Some(title) && TitlesDifferBefore(songs, i, title)
      ensures r.NotFound? ==> TitlesDifferBefore(songs, |songs|, title)
      ensures r.NullTitle? ==> exists i :: 0 <= i < |songs| && songs[i].Title().None? &&
                                           TitlesDifferBefore(songs, i, title)
    {
      var i := 0;
      while i < |songs|
        invariant 0 <= i <= |songs|
        invariant TitlesDifferBefore(songs, i, title)
      {
        var t := songs[i].Title();
        if t.None? {
          return NullTitle;
        }
        if t.value == title {
          return Found(songs[i]);
        }
        i := i + 1;
      }
      return NotFound;
    }

    /** `addToLibrary`: appends at the end. */
    method AddToLibrary(song: Song)
      modifies this
      ensures songs == old(songs) + [song]
      ensures |songs| == |old(songs)| + 1 && songs[..|old(songs)|] == old(songs)
    {
      songs := songs + [song];
    }

    /** `toArray`: one row per song, `[row number, title, artist, genre]`, numbered from 1. */
    method ToArray() returns (rows: array2<Option<string>>)
      ensures fresh(rows)
      ensures rows.Length0 == |songs| && rows.Length1 == 4
      ensures forall i :: 0 <= i < |songs| ==>
                && rows[i, 0] == Some(Decimal(i + 1)) && Canonical(rows[i, 0].value)
                && ParseDecimal(rows[i, 0].value) == i + 1
                && rows[i, 1] == songs[i].Title()
                && rows[i, 2] == songs[i].Artist()
                && rows[i, 3] == songs[i].Genre()
    {
      // new String[size][4] starts out all null
      rows := new Option<string>[|songs|, 4]((_, _) => None);
      for i := 0 to |songs|
        invariant forall j :: 0 <= j < i ==>
                    && rows[j, 0] == Some(Decimal(j + 1))
                    && rows[j, 1] == songs[j].Title()
                    && rows[j, 2] == songs[j].Artist()
                    && rows[j, 3] == songs[j].Genre()
      {
        rows[i, 0] := Some(Decimal(i + 1));
        rows[i, 1] := songs[i].Title();
        rows[i, 2] := songs[i].Artist();
        rows[i, 3] := songs[i].Genre();
      }
      forall i | 0 <= i < |songs|
        ensures ParseDecimal(rows[i, 0].value) == i + 1
      {
        ParseDecimalOfDecimal(i + 1);
      }
    }

    method SortByTitle()
      modifies this
      requires KeysPresent(songs, TitleField)
      ensures songs == SortByKey(old(songs), TitleField)
      ensures multiset(songs) == multiset(old(songs)) && SortedByKey(songs, TitleField)
    {
      SortBy(TitleField);
    }

    method SortByArtist()
      modifies this
      requires KeysPresent(songs, ArtistField)
      ensures songs == SortByKey(old(songs), ArtistField)
      ensures multiset(songs) == multiset(old(songs)) && SortedByKey(songs, ArtistField)
    {
      SortBy(ArtistField);
    }

    method SortByGenre()
      modifies this
      requires KeysPresent(songs, GenreField)
      ensures songs == SortByKey(old(songs), GenreField)
      ensures multiset(songs) == multiset(old(songs)) && SortedByKey(songs, GenreField)
    {
      SortBy(GenreField);
    }

    method SortBy(f: Field)
      modifies this
      requires KeysPresent(songs, f)
      ensures songs == SortByKey(old(songs), f)
      ensures multiset(songs) == multiset(old(songs)) && SortedByKey(songs, f)
    {
      SortByKeyPermutes(songs, f);
      SortByKeySorted(songs, f);
      songs := SortByKey(songs, f);
    }

    /**
     * `searchSongs`: every song with a positive score, each once, by
     * non-increasing score. `None` stands for the NullPointerException raised
     * when some song lacks a title, artist or genre.
     */
    method SearchSongs(searchTerm: string) returns (r: Option<seq<Song>>)
      ensures r.None? <==> exists i :: 0 <= i < |songs| && !songs[i].Loaded()
      ensures r.Some? ==> forall x :: multiset(r.value)[x] == if x in songs && SongScore(x, searchTerm) > 0 then 1 else 0
      ensures r.Some? ==> SortedByScore(r.value, searchTerm)
      ensures r.Some? ==> forall i :: 0 <= i < |r.value| ==> 0 < SongScore(r.value[i], searchTerm) <= 300
    {
      var matchScores: map<Song, int> := map[];
      var term := Lower(searchTerm);
      for i := 0 to |songs|
        invariant forall j :: 0 <= j < i ==> songs[j].Loaded()
        invariant forall x :: x in matchScores <==> x in songs[..i] && SongScore(x, searchTerm) > 0
        invariant forall x :: x in matchScores ==> matchScores[x] == SongScore(x, searchTerm)
      {
        var song := songs[i];
        if !song.Loaded() {
          return None;
        }
        var title, artist, genre := Lower(song.Title().value), Lower(song.Artist().value), Lower(song.Genre().value);
        var score := 0;
        if Contains(title, term) {
          score := score + 100;
          if StartsWith(title, term) {
            score := score + 50;
          }
        }
        if Contains(artist, term) {
          score := score + 75;
          if StartsWith(artist, term) {
            score := score + 25;
          }
        }
        if Contains(genre, term) {
          score := score + 50;
        }
        assert score == SongScore(song, searchTerm);
        if score > 0 {
          matchScores := matchScores[song := score];
        }
        assert songs[..i + 1] == songs[..i] + [song];
      }
      assert songs[..|songs|] == songs;

      var results := KeysInSomeOrder(matchScores.Keys);

      SortByScoreCorrect(results, searchTerm);
      var sorted := SortByScore(results, searchTerm);
      forall i | 0 <= i < |sorted|
        ensures 0 < SongScore(sorted[i], searchTerm) <= 300
      {
        assert sorted[i] in multiset(results);
      }
      r := Some(sorted);
    }
  }
}
