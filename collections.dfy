/**
 * `Collection`: a named, ordered list of movies saved as one JSON file in
 * the collections directory. The file name is the collection name with
 * spaces turned into `_`, plus `.json`; the file holds one record
 * `{title, year, path, rating}` per movie, in list order.
 */
module Collections {
  import opened Wrappers
  import opened Text
  import opened CacheStore
  import opened DataProcess
  import opened MovieModel
  import DataImport
  import LegacyImport

  /** The characters `_name_filter` deletes. */
  const NameUnwanted: String := "/\\:'\""

  /** `_name_filter`: the name without the unwanted characters. It never refuses a name. */
  function NameFilter(name: String): (r: String)
    ensures |r| <= |name|
  {
    Without(name, NameUnwanted)
  }

  /** The filter keeps exactly the characters that are not unwanted. */
  lemma NameFilterMembers(name: String, c: char)
    ensures c in NameFilter(name) <==> c in name && c !in NameUnwanted
  {
    WithoutMembers(name, NameUnwanted, c);
  }

  lemma NameFilterIdempotent(name: String)
    ensures NameFilter(NameFilter(name)) == NameFilter(name)
  {
    var r := NameFilter(name);
    forall i | 0 <= i < |r| ensures r[i] !in NameUnwanted {
      NameFilterMembers(name, r[i]);
    }
    WithoutNothing(r, NameUnwanted);
  }

  lemma ExampleName(w1: String, w2: String)
    requires w1 == "My" && w2 == "collection"
    ensures forall i :: 0 <= i < |w1| ==> w1[i] !in NameUnwanted
    ensures forall i :: 0 <= i < |w2| ==> w2[i] !in NameUnwanted
    ensures ':' in NameUnwanted && '/' in NameUnwanted && '\\' in NameUnwanted && ' ' !in NameUnwanted
    ensures w1 + ": /" + w2 + "\\" == "My: /collection\\" && w1 + " " + w2 == "My collection"
  {
  }

  /** `"My: /collection\\"` is stored as `"My collection"`. */
  lemma NameFilterExample(name: String)
    requires name == "My: /collection\\"
    ensures NameFilter(name) == "My collection"
  {
    var w1, w2 := "My", "collection";
    ExampleName(w1, w2);
    WithoutSeparators(w1, w2, NameUnwanted);
  }

  /** Blank names are kept as they are: the empty name and a name of spaces are not refused. */
  lemma BlankNamesKept(name: String)
    requires forall i :: 0 <= i < |name| ==> name[i] == ' '
    ensures NameFilter(name) == name
  {
    WithoutNothing(name, NameUnwanted);
  }

  // ---------------------------------------------------------------------------
  // File names

  /** `path`: the collection's file name inside the collections directory. */
  function FileName(name: String): (r: String)
    ensures |r| == |name| + 5 && ' ' !in r
    ensures r[|name|..] == ".json"
  {
    ReplaceChar(name, ' ', '_') + ".json"
  }

  /** The name `retrieve_collections` gives the collection stored in `file`. */
  function NameFromFile(file: String): String {
    ReplaceChar(Stem(file), '_', ' ')
  }

  lemma StemOfFileName(name: String)
    requires name != []
    ensures Stem(FileName(name)) == ReplaceChar(name, ' ', '_')
  {
    var n := ReplaceChar(name, ' ', '_');
    var f := FileName(name);
    assert f[|n|] == '.';
    assert forall j :: |n| < j < |f| ==> f[j] != '.';
    assert RFind(f, '.') == |n|;
  }

  /**
   * A saved collection is listed by `glob("*.json")` and comes back under
   * its own name exactly when the name is not empty, does not start with a
   * dot and holds no `_` (which comes back as a space).
   */
  lemma NameRoundTrip(name: String)
    ensures Globbed(FileName(name)) && NameFromFile(FileName(name)) == name <==>
            name != [] && name[0] != '.' && '_' !in name
  {
    if name == [] {
      assert FileName(name) == ".json";
    } else {
      StemOfFileName(name);
      var back := NameFromFile(FileName(name));
      if '_' in name {
        var i :| 0 <= i < |name| && name[i] == '_';
        assert back[i] == ' ';
      } else {
        assert back == name;
      }
    }
  }

  // ---------------------------------------------------------------------------
  // The saved records

  /** The dictionary `save` writes for one movie. */
  function Record(d: MovieData): Json {
    JObject(map["title" := JStr(d.title), "year" := JInt(d.year), "path" := JStr(d.path), "rating" := JStr(d.rating)])
  }

  function Records(ds: seq<MovieData>): (r: seq<Json>)
    ensures |r| == |ds| && forall i :: 0 <= i < |ds| ==> r[i] == Record(ds[i])
  {
    seq(|ds|, i requires 0 <= i < |ds| => Record(ds[i]))
  }

  /** A movie whose saved record is read back as the same movie: its title is already in filtered form and short enough. */
  predicate Reloadable(d: MovieData, currentYear: int, disk: set<String>) {
    ValidData(d, currentYear, disk) && 2 <= |d.title| < TitleLimit && '\n' !in d.title &&
    exists i :: 0 <= i < |d.title| && IsWordChar(d.title[i])
  }

  lemma RecordValidates(d: MovieData, currentYear: int, disk: set<String>)
    requires Reloadable(d, currentYear, disk)
    ensures Validate(PyStr(d.title), PyInt(d.year), PyStr(d.path), PyStr(d.rating), currentYear, disk) == Ok(d)
  {
    FilterNameFixedPoint(d.title, TitleLimit);
  }

  /** Both versions of the import module read a saved record back as the arguments it was written from. */
  lemma RecordFields(d: MovieData)
    ensures DataImport.Fields(Record(d)) == Ok((PyStr(d.title), PyInt(d.year), PyStr(d.path), PyStr(d.rating)))
    ensures LegacyImport.Fields(Record(d)) == Ok((PyStr(d.title), PyInt(d.year), PyStr(d.path), PyStr(d.rating)))
  {
  }

  /** The values `f` gives for `xs`, in order, without the `None`s: `Accepted` for any element function. */
  function Kept<A, B>(xs: seq<A>, f: A -> Option<B>): seq<B> {
    if xs == [] then [] else
      var init := Kept(xs[..|xs| - 1], f);
      match f(xs[|xs| - 1])
      case Some(d) => init + [d]
      case None => init
  }

  lemma {:induction false} AcceptedKept(calls: seq<DataImport.Args>, currentYear: int, disk: set<String>)
    ensures DataImport.Accepted(calls, currentYear, disk) == Kept(calls, a => DataImport.ElementMovie(a, currentYear, disk))
    decreases |calls|
  {
    if calls != [] {
      AcceptedKept(calls[..|calls| - 1], currentYear, disk);
    }
  }

  lemma {:induction false} KeptAll<A, B>(ys: seq<B>, xs: seq<A>, f: A -> Option<B>)
    requires |xs| == |ys|
    requires forall i :: 0 <= i < |ys| ==> f(xs[i]) == Some(ys[i])
    ensures Kept(xs, f) == ys
    decreases |ys|
  {
    if ys != [] {
      var n := |ys| - 1;
      KeptAll(ys[..n], xs[..n], f);
      assert f(xs[n]) == Some(ys[n]);
      assert ys[..n] + [ys[n]] == ys;
    }
  }

  /** Arguments that each make the movie at the same position are all accepted, in order. */
  lemma AcceptedAll(ds: seq<MovieData>, calls: seq<DataImport.Args>, currentYear: int, disk: set<String>)
    requires |calls| == |ds|
    requires forall i :: 0 <= i < |ds| ==> DataImport.ElementMovie(calls[i], currentYear, disk) == Some(ds[i])
    ensures DataImport.Accepted(calls, currentYear, disk) == ds
  {
    AcceptedKept(calls, currentYear, disk);
    KeptAll(ds, calls, a => DataImport.ElementMovie(a, currentYear, disk));
  }

  lemma ArgsOfAll(els: seq<Json>, fields: Json -> Result<DataImport.Args, Raised>, calls: seq<DataImport.Args>)
    requires |calls| == |els| && forall i :: 0 <= i < |els| ==> fields(els[i]) == Ok(calls[i])
    ensures DataImport.ArgsOf(els, fields) == Ok(calls)
  {
    var r := DataImport.ArgsOf(els, fields);
    assert r.Ok?;
    assert r.value == calls;
  }

  /** The arguments a saved record gives back. */
  function RecordArgs(d: MovieData): DataImport.Args {
    (PyStr(d.title), PyInt(d.year), PyStr(d.path), PyStr(d.rating))
  }

  lemma RecordReloads(d: MovieData, rd: DataImport.Reading, currentYear: int, disk: set<String>)
    requires rd == DataImport.Current || rd == LegacyImport.Legacy
    requires Reloadable(d, currentYear, disk)
    ensures rd.fields(Record(d)) == Ok(RecordArgs(d))
    ensures DataImport.ElementMovie(RecordArgs(d), currentYear, disk) == Some(d)
  {
    RecordFields(d);
    RecordValidates(d, currentYear, disk);
  }

  lemma SavedElements(ds: seq<MovieData>, rd: DataImport.Reading)
    requires rd == DataImport.Current || rd == LegacyImport.Legacy
    ensures rd.elements(Some(Parsed(JList(Records(ds))))) == Ok(Records(ds))
  {
    if ds == [] {
      assert Records(ds) == [];
    }
  }

  /** Saving and loading again gives back the same movies, in order, with either version of the import module. */
  lemma SaveReload(ds: seq<MovieData>, rd: DataImport.Reading, currentYear: int, disk: set<String>)
    requires rd == DataImport.Current || rd == LegacyImport.Legacy
    requires forall d :: d in ds ==> Reloadable(d, currentYear, disk)
    ensures DataImport.CollectionMovies(Some(Parsed(JList(Records(ds)))), rd, currentYear, disk) == Ok(ds)
  {
    var els := Records(ds);
    SavedElements(ds, rd);
    var calls := seq(|ds|, i requires 0 <= i < |ds| => RecordArgs(ds[i]));
    forall i | 0 <= i < |ds|
      ensures rd.fields(els[i]) == Ok(calls[i])
      ensures DataImport.ElementMovie(calls[i], currentYear, disk) == Some(ds[i])
    {
      RecordReloads(ds[i], rd, currentYear, disk);
    }
    ArgsOfAll(els, rd.fields, calls);
    AcceptedAll(ds, calls, currentYear, disk);
  }

  lemma OneLetterChecks(t: String)
    requires t == "A:"
    ensures FirstViolation(ForbiddenNames(TitleLimit), t).None?
  {
    var table := ForbiddenNames(TitleLimit);
    assert '\n' !in t;
    NoSpacesMatch(t, 0);
    NoSpecialMatch(t, 0);
    assert !Matches(table[0].0, t) && !Matches(table[3].0, t);
  }

  /** The title `"A:"` passes the checks and is stored as the one-letter title `"A"`. */
  lemma OneLetterTitle(t: String)
    requires t == "A:"
    ensures CheckTitle(PyStr(t)) == Ok("A")
  {
    OneLetterChecks(t);
    assert Without(t, Unwanted) == "A";
    StripStripped("A");
  }

  /** A saved one-letter title is too short to pass the check again, so the movie silently drops out of its collection. */
  lemma OneLetterTitleLost(d: MovieData, rd: DataImport.Reading, currentYear: int, disk: set<String>)
    requires rd == DataImport.Current || rd == LegacyImport.Legacy
    requires d.title == "A"
    ensures DataImport.CollectionMovies(Some(Parsed(JList(Records([d])))), rd, currentYear, disk) == Ok([])
  {
    RecordFields(d);
    var els := Records([d]);
    SavedElements([d], rd);
    ArgsOfAll(els, rd.fields, [RecordArgs(d)]);
    assert DataImport.ElementMovie(RecordArgs(d), currentYear, disk).None?;
  }

  // ---------------------------------------------------------------------------
  // Removing a movie

  /** The index of the first movie equal to `d`, or -1. */
  function FirstSame(ds: seq<MovieData>, d: MovieData): (i: int)
    ensures -1 <= i < |ds|
    ensures i >= 0 ==> SameMovie(ds[i], d) && forall j :: 0 <= j < i ==> !SameMovie(ds[j], d)
    ensures i < 0 ==> forall j :: 0 <= j < |ds| ==> !SameMovie(ds[j], d)
  {
    if ds == [] then -1
    else if SameMovie(ds[0], d) then 0
    else
      var k := FirstSame(ds[1..], d);
      if k < 0 then -1 else k + 1
  }

  /** What `list.remove` raises when no element equals its argument. */
  datatype ListError = ValueError

  lemma DropLast<T>(s: seq<T>, x: T)
    ensures (s + [x])[..|s|] + (s + [x])[|s| + 1..] == s
  {
    assert (s + [x])[..|s|] == s;
    assert (s + [x])[|s| + 1..] == [];
  }

  /**
   * Adding a movie the collection did not hold and removing it again gives
   * back the list: the movie removed is the one just added, at the end.
   */
  lemma AddThenRemove(ds: seq<MovieData>, d: MovieData)
    requires FirstSame(ds, d) < 0
    ensures FirstSame(ds + [d], d) == |ds|
    ensures (ds + [d])[..|ds|] + (ds + [d])[|ds| + 1..] == ds
  {
    assert (ds + [d])[|ds|] == d;
    assert forall j :: 0 <= j < |ds| ==> (ds + [d])[j] == ds[j];
    DropLast(ds, d);
  }

  // ---------------------------------------------------------------------------
  // Renaming

  /**
   * The directory after `rename`: when the old file exists, the collection
   * is written under its new file name and the old file is then deleted.
   */
  function RenamedShelf(shelf: Shelf, oldFile: String, newFile: String, saved: Json): Shelf {
    if oldFile in shelf.files then Shelf(true, shelf.files[newFile := Parsed(saved)] - {oldFile})
    else shelf
  }

  /** A rename that changes the file name moves the file; one that keeps it deletes the saved collection. */
  lemma RenameOutcome(shelf: Shelf, oldFile: String, newFile: String, saved: Json)
    requires oldFile in shelf.files
    ensures oldFile !in RenamedShelf(shelf, oldFile, newFile, saved).files
    ensures newFile != oldFile ==> RenamedShelf(shelf, oldFile, newFile, saved).files[newFile] == Parsed(saved)
    ensures forall f :: f != oldFile && f != newFile ==>
              (f in RenamedShelf(shelf, oldFile, newFile, saved).files <==> f in shelf.files)
  {
  }

  /** Renaming a collection to a name with the same file name (`"a b"` to `"a_b"`, or to itself) deletes its file. */
  lemma RenameToSameFileDeletes(shelf: Shelf, name: String, newName: String, saved: Json)
    requires FileName(name) in shelf.files && FileName(NameFilter(newName)) == FileName(name)
    ensures FileName(NameFilter(newName)) !in RenamedShelf(shelf, FileName(name), FileName(NameFilter(newName)), saved).files
  {
  }

  // ---------------------------------------------------------------------------
  // The class

  class Collection {
    var name: String
    var movLst: seq<Movie>

    /** The name never holds a character `_name_filter` deletes. */
    ghost predicate Valid()
      reads this
    {
      forall c :: c in NameUnwanted ==> c !in name
    }

    /** `Collection(name, mov_lst)`: the name is filtered; no list means an empty one. */
    constructor (name0: String, movLst0: Option<seq<Movie>>)
      ensures name == NameFilter(name0)
      ensures movLst == if movLst0.Some? then movLst0.value else []
      ensures Valid()
    {
      name := NameFilter(name0);
      movLst := if movLst0.Some? then movLst0.value else [];
      new;
      forall c | c in NameUnwanted ensures c !in name {
        NameFilterMembers(name0, c);
      }
    }

    function Path(): String
      reads this
    {
      FileName(name)
    }

    /**
     * Renaming a collection to its own name keeps its name, so the saved
     * file is written and then deleted: `rename` loses it.
     */
    lemma RenameToOwnName(shelf: Shelf, saved: Json)
      requires Valid() && Path() in shelf.files
      ensures NameFilter(name) == name
      ensures Path() !in RenamedShelf(shelf, Path(), FileName(NameFilter(name)), saved).files
    {
      forall i | 0 <= i < |name| ensures name[i] !in NameUnwanted {
        assert name[i] in name;
      }
      WithoutNothing(name, NameUnwanted);
    }

    /** `add_movie`: the movie goes at the end. */
    method AddMovie(movie: Movie)
      modifies this
      ensures name == old(name) && movLst == old(movLst) + [movie]
    {
      movLst := movLst + [movie];
    }

    /** `remove_movie`: `list.remove` drops the first movie equal to `movie`, or raises `ValueError`. */
    method RemoveMovie(movie: Movie) returns (r: Result<(), ListError>)
      modifies this
      ensures name == old(name)
      ensures var i := FirstSame(DataOf(old(movLst)), movie.Data());
              (i < 0 ==> r == Err(ValueError) && movLst == old(movLst)) &&
              (i >= 0 ==> r == Ok(()) && movLst == old(movLst)[..i] + old(movLst)[i + 1..])
    {
      var i := FirstSame(DataOf(movLst), movie.Data());
      if i < 0 {
        return Err(ValueError);
      }
      movLst := movLst[..i] + movLst[i + 1..];
      return Ok(());
    }

    /** `remove`: the file is deleted if it exists; the result is always `True`. */
    function Remove(shelf: Shelf): (r: (bool, Shelf))
      reads this
      ensures r.0 && Path() !in r.1.files
      ensures forall f :: f != Path() ==> (f in r.1.files <==> f in shelf.files)
      ensures forall f :: f in r.1.files ==> f in shelf.files && r.1.files[f] == shelf.files[f]
      ensures r.1.present == shelf.present
    {
      if Path() in shelf.files then (true, Shelf(shelf.present, shelf.files - {Path()})) else (true, shelf)
    }

    /** `save`: the collections directory is created if needed and the file rewritten with one record per movie. */
    method Save(shelf: Shelf) returns (shelf': Shelf)
      ensures shelf'.present && Path() in shelf'.files
      ensures shelf'.files == shelf.files[Path() := Parsed(JList(Records(DataOf(movLst))))]
    {
      var data: seq<Json> := [];
      for i := 0 to |movLst|
        invariant data == Records(DataOf(movLst[..i]))
      {
        assert DataOf(movLst[..i + 1]) == DataOf(movLst[..i]) + [movLst[i].Data()];
        data := data + [Record(movLst[i].Data())];
      }
      assert movLst[..|movLst|] == movLst;
      shelf' := Shelf(true, shelf.files[Path() := Parsed(JList(data))]);
    }

    /** `rename`: the name is filtered and, when the old file exists, the collection is saved under the new name and the old file deleted. */
    method Rename(newName: String, shelf: Shelf) returns (shelf': Shelf)
      modifies this
      ensures name == NameFilter(newName) && movLst == old(movLst)
      ensures shelf' == RenamedShelf(shelf, FileName(old(name)), Path(), JList(Records(DataOf(movLst))))
      ensures Valid()
    {
      var oldPath := Path();
      name := NameFilter(newName);
      forall c | c in NameUnwanted ensures c !in name {
        NameFilterMembers(newName, c);
      }
      if oldPath in shelf.files {
        var saved := Save(shelf);
        shelf' := Shelf(saved.present, saved.files - {oldPath});
      } else {
        shelf' := shelf;
      }
    }
  }

  /** The movies the older import module reads from the collection file `file`. */
  function FileMovies(shelf: Shelf, file: String, currentYear: int, disk: set<String>): Result<seq<MovieData>, Raised> {
    DataImport.CollectionMovies(DataImport.ShelfFile(shelf, file), LegacyImport.Legacy, currentYear, disk)
  }

  /** `c` is named `name` and holds movies whose data is `data`. */
  predicate Holds(c: Collection, name: String, data: seq<MovieData>)
    reads c, c.movLst
  {
    c.name == name && DataOf(c.movLst) == data
  }

  /** `c` is the collection `retrieve_collections` makes of the file `file`. */
  predicate LoadedFrom(c: Collection, shelf: Shelf, file: String, currentYear: int, disk: set<String>)
    reads c, c.movLst
  {
    var got := FileMovies(shelf, file, currentYear, disk);
    got.Ok? && Holds(c, NameFilter(NameFromFile(file)), got.value)
  }

  /** One turn of the loop of `retrieve_collections`: the file's movies, then a new collection named after the file. */
  method LoadCollection(shelf: Shelf, file: String, currentYear: int, disk: set<String>)
    returns (r: Result<Collection, Raised>, ghost data: seq<MovieData>)
    ensures r.Err? ==> FileMovies(shelf, file, currentYear, disk) == Err(r.error)
    ensures r.Ok? ==> fresh(r.value) && FileMovies(shelf, file, currentYear, disk) == Ok(data)
    ensures r.Ok? ==> Holds(r.value, NameFilter(NameFromFile(file)), data)
  {
    var movies := DataImport.LoadCollectionMovies(DataImport.ShelfFile(shelf, file), LegacyImport.Legacy, currentYear, disk);
    if movies.Err? {
      return Err(movies.error), [];
    }
    var c := new Collection(NameFromFile(file), Some(movies.value));
    return Ok(c), DataOf(movies.value);
  }

  lemma AllLoaded(cs: seq<Collection>, datas: seq<seq<MovieData>>, shelf: Shelf, listing: seq<String>, currentYear: int, disk: set<String>)
    requires |cs| == |datas| == |listing|
    requires forall j :: 0 <= j < |listing| ==> FileMovies(shelf, listing[j], currentYear, disk) == Ok(datas[j])
    requires forall j :: 0 <= j < |listing| ==> Holds(cs[j], NameFilter(NameFromFile(listing[j])), datas[j])
    ensures forall j :: 0 <= j < |listing| ==> LoadedFrom(cs[j], shelf, listing[j], currentYear, disk)
  {
  }

  /** When every listed name is loaded in turn, every collection file the glob lists has its collection. */
  lemma EveryListedLoaded(cs: seq<Collection>, shelf: Shelf, listing: seq<String>, currentYear: int, disk: set<String>)
    requires Enumerates(listing, DataImport.ListedNames(shelf, LegacyImport.Legacy)) && |cs| == |listing|
    requires forall i :: 0 <= i < |listing| ==> LoadedFrom(cs[i], shelf, listing[i], currentYear, disk)
    ensures |cs| == |DataImport.ListedNames(shelf, LegacyImport.Legacy)|
    ensures forall n :: n in DataImport.ListedNames(shelf, LegacyImport.Legacy) ==>
              exists i :: 0 <= i < |cs| && listing[i] == n && LoadedFrom(cs[i], shelf, n, currentYear, disk)
  {
    EnumerationSize(listing, DataImport.ListedNames(shelf, LegacyImport.Legacy));
    forall n | n in DataImport.ListedNames(shelf, LegacyImport.Legacy)
      ensures exists i :: 0 <= i < |cs| && listing[i] == n && LoadedFrom(cs[i], shelf, n, currentYear, disk)
    {
      var i :| 0 <= i < |listing| && listing[i] == n;
      assert LoadedFrom(cs[i], shelf, listing[i], currentYear, disk);
    }
  }

  /**
   * `retrieve_collections`: one collection per file `glob` lists, named
   * after the file and holding the movies the older import module reads
   * from it; the first file that raises stops the loop.
   */
  method RetrieveCollections(shelf: Shelf, listing: seq<String>, currentYear: int, disk: set<String>)
    returns (r: Result<seq<Collection>, Raised>)
    requires Enumerates(listing, DataImport.ListedNames(shelf, LegacyImport.Legacy))
    ensures r.Ok? ==> |r.value| == |listing| == |DataImport.ListedNames(shelf, LegacyImport.Legacy)|
    ensures r.Ok? ==> forall i :: 0 <= i < |listing| ==> LoadedFrom(r.value[i], shelf, listing[i], currentYear, disk)
    ensures r.Ok? ==> forall n :: n in DataImport.ListedNames(shelf, LegacyImport.Legacy) ==>
              exists i :: 0 <= i < |r.value| && listing[i] == n && LoadedFrom(r.value[i], shelf, n, currentYear, disk)
    ensures r.Err? ==> exists i :: 0 <= i < |listing| && FileMovies(shelf, listing[i], currentYear, disk) == Err(r.error)
    ensures r.Err? ==> exists n :: n in DataImport.ListedNames(shelf, LegacyImport.Legacy) && FileMovies(shelf, n, currentYear, disk) == Err(r.error)
  {
    r := LoadListed(shelf, listing, currentYear, disk);
    if r.Ok? {
      EveryListedLoaded(r.value, shelf, listing, currentYear, disk);
    } else {
      var i :| 0 <= i < |listing| && FileMovies(shelf, listing[i], currentYear, disk) == Err(r.error);
      assert listing[i] in DataImport.ListedNames(shelf, LegacyImport.Legacy);
    }
  }

  /** The loop of `retrieve_collections`: each listed file in turn, stopping at the first that cannot be read. */
  method LoadListed(shelf: Shelf, listing: seq<String>, currentYear: int, disk: set<String>)
    returns (r: Result<seq<Collection>, Raised>)
    ensures r.Ok? ==> |r.value| == |listing|
    ensures r.Ok? ==> forall i :: 0 <= i < |listing| ==> LoadedFrom(r.value[i], shelf, listing[i], currentYear, disk)
    ensures r.Err? ==> exists i :: 0 <= i < |listing| && FileMovies(shelf, listing[i], currentYear, disk) == Err(r.error)
  {
    var collections: seq<Collection> := [];
    ghost var datas: seq<seq<MovieData>> := [];
    for i := 0 to |listing|
      invariant |collections| == |datas| == i
      invariant forall j :: 0 <= j < i ==> FileMovies(shelf, listing[j], currentYear, disk) == Ok(datas[j])
      invariant forall j :: 0 <= j < i ==> Holds(collections[j], NameFilter(NameFromFile(listing[j])), datas[j])
    {
      label before:
      var c, data := LoadCollection(shelf, listing[i], currentYear, disk);
      if c.Err? {
        return Err(c.error);
      }
      var cs' := collections + [c.value];
      ghost var ds' := datas + [data];
      forall j | 0 <= j <= i
        ensures FileMovies(shelf, listing[j], currentYear, disk) == Ok(ds'[j])
        ensures Holds(cs'[j], NameFilter(NameFromFile(listing[j])), ds'[j])
      {
        if j < i {
          assert cs'[j] == collections[j] && ds'[j] == datas[j];
          assert old@before(Holds(collections[j], NameFilter(NameFromFile(listing[j])), datas[j]));
          assert old@before(DataOf(collections[j].movLst)) == DataOf(collections[j].movLst);
        }
      }
      collections, datas := cs', ds';
    }
    AllLoaded(collections, datas, shelf, listing, currentYear, disk);
    return Ok(collections);
  }
}
