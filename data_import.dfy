/**
 * Reading what the application saved: video files under a folder, the
 * actors named in the cached `data.json` files, and the movies of saved
 * collection files. The cache is the value `Fs`; the collections directory
 * is the value `Shelf`; a directory walk is given as the sequence of paths
 * it yields, in the order it yields them.
 */
module DataImport {
  import opened Wrappers
  import opened Text
  import opened CacheStore
  import opened MovieModel

  // ---------------------------------------------------------------------------
  // find_movie_files

  /** The suffixes accepted as video files, compared after case folding. */
  const VideoSuffixes: seq<String> := [".avi", ".flv", ".m4v", ".mkv", ".mov", ".mp4", ".ogg", ".vob", ".wmv"]

  predicate IsVideo(p: String) {
    Lower(Suffix(BaseName(p))) in VideoSuffixes
  }

  /** The paths of `walk` that `keep` accepts, in their order. */
  function KeepPaths(walk: seq<String>, keep: String -> bool): (r: seq<String>)
    ensures |r| <= |walk|
    ensures forall p :: p in r <==> p in walk && keep(p)
  {
    if walk == [] then []
    else (if keep(walk[0]) then [walk[0]] else []) + KeepPaths(walk[1..], keep)
  }

  /** `find_movie_files`: the video files among the paths `rglob("*")` yields, or none when the folder is missing. */
  function FindMovieFiles(dirExists: bool, walk: seq<String>): (r: seq<String>)
    ensures !dirExists ==> r == []
    ensures forall p :: p in r <==> dirExists && p in walk && IsVideo(p)
  {
    if dirExists then KeepPaths(walk, IsVideo) else []
  }

  // ---------------------------------------------------------------------------
  // load_all_actors

  /**
   * What `set.update(v)` adds for the value `v`: the elements of a list, the
   * one-character strings of a string, the keys of a dictionary. A list
   * holding a list or a dictionary (unhashable), or a value that cannot be
   * iterated, raises `TypeError`.
   */
  function Hashables(v: Json): (r: Result<set<Json>, Raised>)
    ensures v.JList? ==> (r.Ok? <==> forall x :: x in v.items ==> !x.JList? && !x.JObject?)
    ensures v.JList? && r.Ok? ==> r.value == set x | x in v.items
    ensures v.JObject? ==> r.Ok? && forall x :: x in r.value <==> x.JStr? && x.s in v.fields
    ensures (v.JNull? || v.JBool? || v.JInt?) ==> r == Err(TypeError)
  {
    match v
    case JList(xs) => if forall x :: x in xs ==> !x.JList? && !x.JObject? then Ok(set x | x in xs) else Err(TypeError)
    case JStr(s) => Ok(set c | c in s :: JStr([c]))
    case JObject(m) => Ok(set k | k in m :: JStr(k))
    case _ => Err(TypeError)
  }

  /** The names one `data.json` contributes: its `"actors"` value, `[]` when absent; `{}` stands in for a garbled file. */
  function FileActors(f: JsonFile): (r: Result<set<Json>, Raised>)
    ensures f.Garbled? ==> r == Ok({})
    ensures f.Parsed? && !f.value.JObject? ==> r == Err(AttributeError)
  {
    var v := Get(LoadFileContent(Some(f)), "actors", JList([]));
    if v.None? then Err(AttributeError)
    else
      assert f.Garbled? ==> v.value == JList([]) && (set x | x in v.value.items) == {};
      Hashables(v.value)
  }

  // The folder `key` holds a `data.json` that the recursive glob of the cache yields.
  predicate HasDataFile(fs: Fs, key: String) {
    fs.rootExists && key in fs.entries && fs.entries[key].Folder? && fs.entries[key].data.Some?
  }

  ghost predicate AnyFails(fs: Fs, read: JsonFile -> Result<set<Json>, Raised>) {
    exists k :: HasDataFile(fs, k) && read(fs.entries[k].data.value).Err?
  }

  /** Everything the readable `data.json` files contribute. */
  ghost function Gathered(fs: Fs, read: JsonFile -> Result<set<Json>, Raised>): set<Json> {
    set k, x | k in fs.entries && HasDataFile(fs, k) && read(fs.entries[k].data.value).Ok? &&
               x in read(fs.entries[k].data.value).value :: x
  }

  /** The elements of a set, in some order and each once. */
  method ListOf(s: set<String>) returns (xs: seq<String>)
    ensures NoDup(xs) && forall a :: a in xs <==> a in s
  {
    xs := [];
    var todo := s;
    while todo != {}
      invariant NoDup(xs) && todo !! set a | a in xs
      invariant forall a :: a in s <==> a in xs || a in todo
      decreases |todo|
    {
      var a :| a in todo;
      xs := xs + [a];
      todo := todo - {a};
    }
  }

  /**
   * The loop of `load_all_actors`, shared by both versions of the module:
   * the values `read` gives for each `data.json`, visited in any order, are
   * collected in a set, which is then sorted by `str.casefold` (a value
   * that is not a string makes `str.casefold` raise `TypeError`). The first
   * failing file stops the loop; which file fails first depends on the
   * visiting order, so only the failure itself is specified.
   */
  method GatherActors(fs: Fs, read: JsonFile -> Result<set<Json>, Raised>) returns (r: Result<seq<String>, Raised>)
    ensures r.Err? <==> AnyFails(fs, read) || exists x :: x in Gathered(fs, read) && !x.JStr?
    ensures r.Ok? ==> SortedByFold(r.value) && NoDup(r.value)
    ensures r.Ok? ==> forall a :: a in r.value <==> JStr(a) in Gathered(fs, read)
  {
    var full: set<Json> := {};
    var todo := set k | k in fs.entries && HasDataFile(fs, k);
    ghost var done: set<String> := {};
    while todo != {}
      invariant todo !! done
      invariant forall k :: HasDataFile(fs, k) <==> k in todo || k in done
      invariant forall k :: k in done ==> read(fs.entries[k].data.value).Ok?
      invariant full == set k, x | k in done && read(fs.entries[k].data.value).Ok? &&
                                   x in read(fs.entries[k].data.value).value :: x
      decreases |todo|
    {
      var k :| k in todo;
      var got := read(fs.entries[k].data.value);
      if got.Err? {
        return Err(got.error);
      }
      full := full + got.value;
      todo := todo - {k};
      done := done + {k};
    }
    assert full == Gathered(fs, read);
    if exists x :: x in full && !x.JStr? {
      return Err(TypeError);
    }
    var names := ListOf(set x | x in full && x.JStr? :: x.s);
    var sorted := SortByFold(names);
    SortByFoldSorted(names);
    SortByFoldNoDup(names);
    forall a ensures a in sorted <==> a in names {
      assert a in sorted <==> a in multiset(sorted);
    }
    return Ok(sorted);
  }

  /** `load_all_actors`: every actor named by a cached `data.json`, once each, sorted by `str.casefold`. */
  method LoadAllActors(fs: Fs) returns (r: Result<seq<String>, Raised>)
    ensures r.Err? <==> AnyFails(fs, FileActors) || exists x :: x in Gathered(fs, FileActors) && !x.JStr?
    ensures r.Ok? ==> SortedByFold(r.value) && NoDup(r.value)
    ensures r.Ok? ==> forall a :: a in r.value <==> JStr(a) in Gathered(fs, FileActors)
  {
    r := GatherActors(fs, FileActors);
  }

  /** A garbled or actor-less `data.json` contributes nothing, and a name listed by one file is in the result. */
  lemma ActorsFromFiles(fs: Fs, k: String, a: String)
    requires HasDataFile(fs, k)
    ensures fs.entries[k].data.value.Garbled? ==> FileActors(fs.entries[k].data.value) == Ok({})
    ensures FileActors(fs.entries[k].data.value).Ok? && JStr(a) in FileActors(fs.entries[k].data.value).value ==>
              JStr(a) in Gathered(fs, FileActors)
  {
  }

  // ---------------------------------------------------------------------------
  // load_collection_movies and load_all_movies

  /** The four arguments handed to the movie constructor: title, year, path, rating. */
  type Args = (PyValue, PyValue, PyValue, PyValue)

  /**
   * How one version of the module reads a collection file: the elements its
   * comprehension visits (or the exception raised before it starts), and the
   * four arguments it takes from each element (or the exception raised),
   * and whether the glob that lists the collection files also lists names
   * starting with a dot (`Path.glob` does, `glob.glob` does not).
   */
  datatype Reading = Reading(elements: Option<JsonFile> -> Result<seq<Json>, Raised>, fields: Json -> Result<Args, Raised>,
                             dotFiles: bool)

  /** An empty, missing or garbled file has no elements; a non-empty value that is not a list raises `TypeError`. */
  function Elements(f: Option<JsonFile>): (r: Result<seq<Json>, Raised>)
    ensures !Truthy(LoadFileContent(f)) ==> r == Ok([])
    ensures Truthy(LoadFileContent(f)) ==> (r.Ok? <==> LoadFileContent(f).JList?)
    ensures r.Ok? && r.value != [] ==> LoadFileContent(f) == JList(r.value)
  {
    var content := LoadFileContent(f);
    if !Truthy(content) then Ok([])
    else if !content.JList? then Err(TypeError)
    else Ok(content.items)
  }

  /** `data["title"]`, `data["year"]`, `data["path"]`, `data["rating"]`: a missing key raises `KeyError`, a non-dictionary `TypeError`. */
  function Fields(el: Json): (r: Result<Args, Raised>)
    ensures !el.JObject? ==> r == Err(TypeError)
    ensures el.JObject? ==> (r.Ok? <==> "title" in el.fields && "year" in el.fields && "path" in el.fields && "rating" in el.fields)
    ensures r.Err? ==> r.error == TypeError || r.error == KeyError
  {
    match el
    case JObject(m) =>
      if "title" in m && "year" in m && "path" in m && "rating" in m then
        Ok((FromJson(m["title"]), FromJson(m["year"]), FromJson(m["path"]), FromJson(m["rating"])))
      else Err(KeyError)
    case _ => Err(TypeError)
  }

  /** How `data_import.py` reads a collection file. */
  const Current: Reading := Reading(Elements, Fields, true)

  /**
   * The arguments of every element, or the exception of the first element
   * that raises. The elements are read in order and `Movie.no_errors` never
   * raises, so reading them all before building any movie raises the same
   * exception the comprehension does.
   */
  function ArgsOf(els: seq<Json>, fields: Json -> Result<Args, Raised>): (r: Result<seq<Args>, Raised>)
    ensures r.Ok? <==> forall i :: 0 <= i < |els| ==> fields(els[i]).Ok?
    ensures r.Ok? ==> |r.value| == |els| && forall i :: 0 <= i < |els| ==> r.value[i] == fields(els[i]).value
    ensures r.Err? ==> exists k :: 0 <= k < |els| && fields(els[k]).Err? && r.error == fields(els[k]).error &&
                                   forall j :: 0 <= j < k ==> fields(els[j]).Ok?
  {
    if els == [] then Ok([])
    else
      var head := fields(els[0]);
      var rest := ArgsOf(els[1..], fields);
      if head.Err? then Err(head.error)
      else if rest.Err? then
        assert forall j :: 0 <= j < |els| - 1 ==> els[1..][j] == els[j + 1];
        rest
      else Ok([head.value] + rest.value)
  }

  /** The movie `Movie.no_errors` makes of the arguments, or `None`. */
  function ElementMovie(args: Args, currentYear: int, disk: set<String>): (r: Option<MovieData>)
    ensures r.Some? ==> ValidData(r.value, currentYear, disk)
  {
    var v := Validate(args.0, args.1, args.2, args.3, currentYear, disk);
    if v.Ok? then Some(v.value) else None
  }

  /** The movies the arguments make, in order, without the rejected ones. */
  function Accepted(calls: seq<Args>, currentYear: int, disk: set<String>): (r: seq<MovieData>)
    ensures |r| <= |calls|
    ensures forall d :: d in r ==> ValidData(d, currentYear, disk)
  {
    if calls == [] then []
    else
      var init := Accepted(calls[..|calls| - 1], currentYear, disk);
      match ElementMovie(calls[|calls| - 1], currentYear, disk)
      case Some(d) => init + [d]
      case None => init
  }

  /** `load_collection_movies`: the movies of one collection file, as `rd` reads it. */
  function CollectionMovies(f: Option<JsonFile>, rd: Reading, currentYear: int, disk: set<String>): (r: Result<seq<MovieData>, Raised>)
    ensures rd.elements(f).Err? ==> r == Err(rd.elements(f).error)
    ensures rd.elements(f).Ok? ==> (r.Ok? <==> ArgsOf(rd.elements(f).value, rd.fields).Ok?)
    ensures r.Ok? ==> forall d :: d in r.value ==> ValidData(d, currentYear, disk)
  {
    match rd.elements(f)
    case Err(e) => Err(e)
    case Ok(els) =>
      match ArgsOf(els, rd.fields)
      case Err(e) => Err(e)
      case Ok(calls) => Ok(Accepted(calls, currentYear, disk))
  }

  /** With `data_import.py`, an empty, missing or garbled collection file holds no movies, and a dictionary without a `"title"` key raises `KeyError`. */
  lemma CurrentCollectionMovies(f: Option<JsonFile>, currentYear: int, disk: set<String>, i: nat)
    ensures !Truthy(LoadFileContent(f)) ==> CollectionMovies(f, Current, currentYear, disk) == Ok([])
    ensures (LoadFileContent(f).JList? && i < |LoadFileContent(f).items| && LoadFileContent(f).items[i].JObject? &&
             "title" !in LoadFileContent(f).items[i].fields) ==> CollectionMovies(f, Current, currentYear, disk).Err?
  {
    var content := LoadFileContent(f);
    if content.JList? && i < |content.items| {
      assert Elements(f) == Ok(content.items);
    }
  }

  /** The comprehension's `Movie.no_errors` calls: one fresh `Movie` per accepted argument tuple, in order. */
  method MoviesOf(calls: seq<Args>, currentYear: int, disk: set<String>) returns (ms: seq<Movie>)
    ensures DataOf(ms) == Accepted(calls, currentYear, disk)
    ensures forall m :: m in ms ==> fresh(m)
  {
    ms := [];
    for i := 0 to |calls|
      invariant DataOf(ms) == Accepted(calls[..i], currentYear, disk)
      invariant forall m :: m in ms ==> fresh(m)
    {
      assert calls[..i + 1][..i] == calls[..i];
      ghost var before := DataOf(ms);
      var m := Movie.NoErrors(calls[i].0, calls[i].1, calls[i].2, calls[i].3, currentYear, disk);
      assert DataOf(ms) == before;
      assert m.Some? <==> ElementMovie(calls[i], currentYear, disk).Some?;
      if m.Some? {
        assert m.value.Data() == ElementMovie(calls[i], currentYear, disk).value;
        DataOfAppend(ms, [m.value]);
        ms := ms + [m.value];
      }
    }
    assert calls[..|calls|] == calls;
  }

  /** `load_collection_movies`, building one `Movie` per accepted element. */
  method LoadCollectionMovies(f: Option<JsonFile>, rd: Reading, currentYear: int, disk: set<String>)
    returns (r: Result<seq<Movie>, Raised>)
    ensures r.Ok? <==> CollectionMovies(f, rd, currentYear, disk).Ok?
    ensures r.Err? ==> r.error == CollectionMovies(f, rd, currentYear, disk).error
    ensures r.Ok? ==> DataOf(r.value) == CollectionMovies(f, rd, currentYear, disk).value
    ensures r.Ok? ==> forall m :: m in r.value ==> fresh(m)
  {
    var els := rd.elements(f);
    if els.Err? {
      return Err(els.error);
    }
    var calls := ArgsOf(els.value, rd.fields);
    if calls.Err? {
      return Err(calls.error);
    }
    var ms := MoviesOf(calls.value, currentYear, disk);
    return Ok(ms);
  }

  /** The file a listed name refers to; a name the directory does not hold reads as missing. */
  function ShelfFile(shelf: Shelf, name: String): Option<JsonFile> {
    if name in shelf.files then Some(shelf.files[name]) else None
  }

  /**
   * The collection files the module's glob lists: the `*.json` names in
   * the collections directory, and none when the directory is missing.
   */
  function ListedNames(shelf: Shelf, rd: Reading): (r: set<String>)
    ensures forall n :: n in r ==> n in shelf.files && JsonName(n)
    ensures !rd.dotFiles ==> forall n :: n in r ==> Globbed(n)
  {
    if !shelf.present then {}
    else set n | n in shelf.files && (if rd.dotFiles then JsonName(n) else Globbed(n))
  }

  /** `load_all_movies`: the movies of each collection file, in the order `glob` lists them. */
  function AllMovies(shelf: Shelf, listing: seq<String>, rd: Reading, currentYear: int, disk: set<String>)
    : (r: Result<seq<MovieData>, Raised>)
    ensures listing == [] ==> r == Ok([])
  {
    if listing == [] then Ok([])
    else
      var init := AllMovies(shelf, listing[..|listing| - 1], rd, currentYear, disk);
      var last := CollectionMovies(ShelfFile(shelf, listing[|listing| - 1]), rd, currentYear, disk);
      if init.Err? then init
      else if last.Err? then last
      else Ok(init.value + last.value)
  }

  /** A collection file that raises stops `load_all_movies`: later files do not change the outcome. */
  lemma {:induction false} AllMoviesStops(shelf: Shelf, listing: seq<String>, rd: Reading, i: nat, j: nat, currentYear: int, disk: set<String>)
    requires i <= j <= |listing| && AllMovies(shelf, listing[..i], rd, currentYear, disk).Err?
    ensures AllMovies(shelf, listing[..j], rd, currentYear, disk) == AllMovies(shelf, listing[..i], rd, currentYear, disk)
    decreases j
  {
    if j > i {
      AllMoviesStops(shelf, listing, rd, i, j - 1, currentYear, disk);
      assert listing[..j][..j - 1] == listing[..j - 1];
    }
  }

  /** Every movie `load_all_movies` returns comes from a listed collection file and passed validation. */
  lemma {:induction false} AllMoviesFromFiles(shelf: Shelf, listing: seq<String>, rd: Reading, currentYear: int, disk: set<String>, d: MovieData)
    requires AllMovies(shelf, listing, rd, currentYear, disk).Ok? && d in AllMovies(shelf, listing, rd, currentYear, disk).value
    ensures ValidData(d, currentYear, disk)
    ensures exists n :: n in listing && CollectionMovies(ShelfFile(shelf, n), rd, currentYear, disk).Ok? &&
                        d in CollectionMovies(ShelfFile(shelf, n), rd, currentYear, disk).value
  {
    var init := listing[..|listing| - 1];
    var n := listing[|listing| - 1];
    var last := CollectionMovies(ShelfFile(shelf, n), rd, currentYear, disk);
    if d in last.value {
      assert n in listing;
    } else {
      AllMoviesFromFiles(shelf, init, rd, currentYear, disk, d);
      var n' :| n' in init && CollectionMovies(ShelfFile(shelf, n'), rd, currentYear, disk).Ok? &&
                d in CollectionMovies(ShelfFile(shelf, n'), rd, currentYear, disk).value;
      assert n' in listing;
    }
  }

  /** `load_all_movies` succeeds exactly when every listed file can be read. */
  lemma {:induction false} AllMoviesOk(shelf: Shelf, listing: seq<String>, rd: Reading, currentYear: int, disk: set<String>)
    ensures AllMovies(shelf, listing, rd, currentYear, disk).Ok? <==>
              forall n :: n in listing ==> CollectionMovies(ShelfFile(shelf, n), rd, currentYear, disk).Ok?
  {
    if listing != [] {
      var init := listing[..|listing| - 1];
      var last := listing[|listing| - 1];
      AllMoviesOk(shelf, init, rd, currentYear, disk);
      assert AllMovies(shelf, listing, rd, currentYear, disk).Ok? <==>
             AllMovies(shelf, init, rd, currentYear, disk).Ok? && CollectionMovies(ShelfFile(shelf, last), rd, currentYear, disk).Ok?;
      ListingSplit(listing);
    }
  }

  lemma ListingSplit(listing: seq<String>)
    requires listing != []
    ensures forall n :: n in listing <==> n in listing[..|listing| - 1] || n == listing[|listing| - 1]
  {
    assert listing == listing[..|listing| - 1] + [listing[|listing| - 1]];
  }

  /** Every listed file is read: each of its movies is among those `load_all_movies` returns. */
  lemma {:induction false} AllMoviesReadsEvery(shelf: Shelf, listing: seq<String>, rd: Reading, currentYear: int, disk: set<String>, n: String)
    requires AllMovies(shelf, listing, rd, currentYear, disk).Ok? && n in listing
    ensures CollectionMovies(ShelfFile(shelf, n), rd, currentYear, disk).Ok?
    ensures forall d :: d in CollectionMovies(ShelfFile(shelf, n), rd, currentYear, disk).value ==>
              d in AllMovies(shelf, listing, rd, currentYear, disk).value
  {
    var init := listing[..|listing| - 1];
    if n != listing[|listing| - 1] {
      ListingSplit(listing);
      AllMoviesReadsEvery(shelf, init, rd, currentYear, disk, n);
    }
  }

  /**
   * Over the files the glob lists, `load_all_movies` succeeds exactly when
   * every collection file can be read, and then returns every movie of
   * every file.
   */
  lemma ListedFilesRead(shelf: Shelf, listing: seq<String>, rd: Reading, currentYear: int, disk: set<String>)
    requires Enumerates(listing, ListedNames(shelf, rd))
    ensures AllMovies(shelf, listing, rd, currentYear, disk).Ok? <==>
              forall n :: n in ListedNames(shelf, rd) ==> CollectionMovies(ShelfFile(shelf, n), rd, currentYear, disk).Ok?
    ensures AllMovies(shelf, listing, rd, currentYear, disk).Ok? ==> forall n :: n in ListedNames(shelf, rd) ==>
              CollectionMovies(ShelfFile(shelf, n), rd, currentYear, disk).Ok?
              && forall d :: d in CollectionMovies(ShelfFile(shelf, n), rd, currentYear, disk).value ==>
                   d in AllMovies(shelf, listing, rd, currentYear, disk).value
  {
    AllMoviesOk(shelf, listing, rd, currentYear, disk);
    if AllMovies(shelf, listing, rd, currentYear, disk).Ok? {
      forall n | n in ListedNames(shelf, rd)
        ensures CollectionMovies(ShelfFile(shelf, n), rd, currentYear, disk).Ok?
                && forall d :: d in CollectionMovies(ShelfFile(shelf, n), rd, currentYear, disk).value ==>
                     d in AllMovies(shelf, listing, rd, currentYear, disk).value
      {
        AllMoviesReadsEvery(shelf, listing, rd, currentYear, disk, n);
      }
    }
  }

  /**
   * The loop of `load_all_movies`, building the movies file by file over
   * the files the glob lists, in the order it lists them.
   */
  method LoadAllMovies(shelf: Shelf, listing: seq<String>, rd: Reading, currentYear: int, disk: set<String>)
    returns (r: Result<seq<Movie>, Raised>)
    requires Enumerates(listing, ListedNames(shelf, rd))
    ensures r.Ok? <==> forall n :: n in ListedNames(shelf, rd) ==> CollectionMovies(ShelfFile(shelf, n), rd, currentYear, disk).Ok?
    ensures r.Ok? ==> forall n :: n in ListedNames(shelf, rd) ==>
              CollectionMovies(ShelfFile(shelf, n), rd, currentYear, disk).Ok?
              && forall d :: d in CollectionMovies(ShelfFile(shelf, n), rd, currentYear, disk).value ==> d in DataOf(r.value)
    ensures r.Ok? <==> AllMovies(shelf, listing, rd, currentYear, disk).Ok?
    ensures r.Err? ==> r.error == AllMovies(shelf, listing, rd, currentYear, disk).error
    ensures r.Ok? ==> DataOf(r.value) == AllMovies(shelf, listing, rd, currentYear, disk).value
  {
    var full: seq<Movie> := [];
    for i := 0 to |listing|
      invariant AllMovies(shelf, listing[..i], rd, currentYear, disk) == Ok(DataOf(full))
    {
      assert listing[..i + 1][..i] == listing[..i];
      var got := LoadCollectionMovies(ShelfFile(shelf, listing[i]), rd, currentYear, disk);
      if got.Err? {
        AllMoviesStops(shelf, listing, rd, i + 1, |listing|, currentYear, disk);
        assert listing[..|listing|] == listing;
        ListedFilesRead(shelf, listing, rd, currentYear, disk);
        return Err(got.error);
      }
      DataOfAppend(full, got.value);
      full := full + got.value;
    }
    assert listing[..|listing|] == listing;
    ListedFilesRead(shelf, listing, rd, currentYear, disk);
    return Ok(full);
  }

  lemma DataOfAppend(a: seq<Movie>, b: seq<Movie>)
    ensures DataOf(a + b) == DataOf(a) + DataOf(b)
  {
  }
}
