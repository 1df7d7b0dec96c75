/**
 * The older version of the import module. It differs from `DataImport` in
 * what it accepts: six video suffixes compared case-sensitively, garbled
 * `data.json` files skipped and a missing `"actors"` read as `["Unknown"]`,
 * and collection files that must exist and parse, whose elements are read
 * with `dict.get` (a missing key gives `None`, so the movie is dropped
 * rather than the file refused).
 */
module LegacyImport {
  import opened Wrappers
  import opened Text
  import opened CacheStore
  import opened MovieModel
  import DataImport

  // ---------------------------------------------------------------------------
  // find_movie_files

  const LegacyVideoSuffixes: seq<String> := [".mkv", ".avi", ".mp4", ".flv", ".wmv", ".mov"]

  predicate IsLegacyVideo(p: String) {
    Suffix(BaseName(p)) in LegacyVideoSuffixes
  }

  /** `find_movie_files`: the paths `rglob("*")` yields whose suffix is one of the six, exactly as written. */
  function FindMovieFiles(dirExists: bool, walk: seq<String>): (r: seq<String>)
    ensures !dirExists ==> r == []
    ensures forall p :: p in r <==> dirExists && p in walk && IsLegacyVideo(p)
  {
    if dirExists then DataImport.KeepPaths(walk, IsLegacyVideo) else []
  }

  lemma LegacySuffixAccepted(s: String)
    requires s in LegacyVideoSuffixes
    ensures Lower(s) in DataImport.VideoSuffixes
  {
    if s == ".mkv" {
      assert Lower(s) == ".mkv";
    } else if s == ".avi" {
      assert Lower(s) == ".avi";
    } else if s == ".mp4" {
      assert Lower(s) == ".mp4";
    } else if s == ".flv" {
      assert Lower(s) == ".flv";
    } else if s == ".wmv" {
      assert Lower(s) == ".wmv";
    } else {
      assert Lower(s) == ".mov";
    }
  }

  /** Every file the older version finds, the newer one finds too. */
  lemma NewerFindsMore(dirExists: bool, walk: seq<String>, p: String)
    requires p in FindMovieFiles(dirExists, walk)
    ensures p in DataImport.FindMovieFiles(dirExists, walk)
  {
    LegacySuffixAccepted(Suffix(BaseName(p)));
  }

  // ---------------------------------------------------------------------------
  // load_all_actors

  /** The names one `data.json` contributes: a garbled file is skipped, and a file without `"actors"` names `"Unknown"`. */
  function FileActors(f: JsonFile): (r: Result<set<Json>, Raised>)
    ensures f.Garbled? ==> r == Ok({})
    ensures f.Parsed? && !f.value.JObject? ==> r == Err(AttributeError)
    ensures f.Parsed? && f.value.JObject? && "actors" !in f.value.fields ==> r == Ok({JStr("Unknown")})
  {
    match f
    case Garbled => Ok({})
    case Parsed(j) =>
      match Get(j, "actors", JList([JStr("Unknown")]))
      case None => Err(AttributeError)
      case Some(v) =>
        assert v == JList([JStr("Unknown")]) ==> (set x | x in v.items) == {JStr("Unknown")};
        DataImport.Hashables(v)
  }

  /** `load_all_actors`: every name the readable `data.json` files give, once each, sorted by `str.casefold`. */
  method LoadAllActors(fs: Fs) returns (r: Result<seq<String>, Raised>)
    ensures r.Err? <==> DataImport.AnyFails(fs, FileActors) || exists x :: x in DataImport.Gathered(fs, FileActors) && !x.JStr?
    ensures r.Ok? ==> SortedByFold(r.value) && NoDup(r.value)
    ensures r.Ok? ==> forall a :: a in r.value <==> JStr(a) in DataImport.Gathered(fs, FileActors)
  {
    r := DataImport.GatherActors(fs, FileActors);
  }

  /** A movie whose `data.json` names no actors adds `"Unknown"` to the list. */
  lemma UnknownActor(fs: Fs, k: String)
    requires DataImport.HasDataFile(fs, k)
    requires fs.entries[k].data.value.Parsed? && fs.entries[k].data.value.value.JObject?
    requires "actors" !in fs.entries[k].data.value.value.fields
    ensures JStr("Unknown") in DataImport.Gathered(fs, FileActors)
  {
    assert JStr("Unknown") in FileActors(fs.entries[k].data.value).value;
  }

  // ---------------------------------------------------------------------------
  // load_collection_movies and load_all_movies

  /**
   * The elements `for el in content` visits once `json.load` succeeds: a
   * missing file raises `FileNotFoundError`, a garbled one
   * `JSONDecodeError`. A dictionary is iterated by its keys, which are
   * strings and have no `get`: any key raises `AttributeError`.
   */
  function Elements(f: Option<JsonFile>): (r: Result<seq<Json>, Raised>)
    ensures f.None? ==> r == Err(FileNotFound)
    ensures f == Some(Garbled) ==> r == Err(JsonDecodeError)
    ensures f.Some? && f.value.Parsed? && f.value.value.JList? ==> r == Ok(f.value.value.items)
  {
    match f
    case None => Err(FileNotFound)
    case Some(Garbled) => Err(JsonDecodeError)
    case Some(Parsed(j)) =>
      match j
      case JList(els) => Ok(els)
      case JStr(s) => Ok(seq(|s|, i requires 0 <= i < |s| => JStr([s[i]])))
      case JObject(m) => if m == map[] then Ok([]) else Err(AttributeError)
      case _ => Err(TypeError)
  }

  /** The value of `el.get(name)`: `None` for a missing key. */
  function GetOrNone(m: map<String, Json>, name: String): PyValue {
    if name in m then FromJson(m[name]) else PyNone
  }

  /** `el.get('title')` … `el.get('rating')`: anything but a dictionary raises `AttributeError`. */
  function Fields(el: Json): (r: Result<DataImport.Args, Raised>)
    ensures r.Ok? <==> el.JObject?
    ensures r.Err? ==> r.error == AttributeError
  {
    match el
    case JObject(m) => Ok((GetOrNone(m, "title"), GetOrNone(m, "year"), GetOrNone(m, "path"), GetOrNone(m, "rating")))
    case _ => Err(AttributeError)
  }

  /**
   * `make_movie(...)[0]`, with `None` for `False`. Only `ValueError` is
   * caught, but the `return` in `finally` discards any other exception as
   * well, so the call never raises and drops exactly the arguments the
   * newer `Movie.no_errors` drops.
   */
  function MakeMovie(args: DataImport.Args, currentYear: int, disk: set<String>): (r: Option<MovieData>)
    ensures r.None? <==> Validate(args.0, args.1, args.2, args.3, currentYear, disk).Err?
    ensures r == DataImport.ElementMovie(args, currentYear, disk)
  {
    match Validate(args.0, args.1, args.2, args.3, currentYear, disk)
    case Err(_) => None
    case Ok(d) => Some(d)
  }

  /** How `dataimport.py` reads a collection file. */
  const Legacy: DataImport.Reading := DataImport.Reading(Elements, Fields, false)

  /**
   * The two versions part ways on an element without a `"title"`: the newer
   * one raises `KeyError` for the whole file, the older one drops that
   * movie. On a missing file the newer one returns no movies and the older
   * one raises.
   */
  lemma VersionsDiffer(el: Json, currentYear: int, disk: set<String>)
    requires el.JObject? && "title" !in el.fields
    ensures DataImport.Fields(el) == Err(KeyError)
    ensures Fields(el).Ok? && DataImport.ElementMovie(Fields(el).value, currentYear, disk).None?
    ensures DataImport.CollectionMovies(None, DataImport.Current, currentYear, disk) == Ok([])
    ensures DataImport.CollectionMovies(None, Legacy, currentYear, disk) == Err(FileNotFound)
  {
    assert Fields(el).value.0 == PyNone;
    assert DataImport.Elements(None) == Ok([]);
  }
}
