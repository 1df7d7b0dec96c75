/**
 * `Movie`: a validated (title, year, path, rating) record. Its cache folder
 * is named by its storage key, and two movies are equal when their storage
 * keys and years are.
 */
module MovieModel {
  import opened Wrappers
  import opened Text
  import opened DataProcess
  import opened CacheStore
  import opened Net

  /** A Python argument as the validators see it. */
  datatype PyValue = PyStr(s: String) | PyInt(i: int) | PyPath(p: String) | PyNone | PyOther

  /** The Python value `json.load` produces for a JSON value (`bool` is a subclass of `int`). */
  function FromJson(j: Json): PyValue {
    match j
    case JStr(s) => PyStr(s)
    case JInt(i) => PyInt(i)
    case JBool(b) => PyInt(if b then 1 else 0)
    case JNull => PyNone
    case _ => PyOther
  }

  datatype MovieError =
    | TitleNotString
    | TitleTooShort
    | TitleRejected(reason: NameError)
    | YearNotInteger
    | YearOutOfRange(latest: int)
    | PathNotString
    | PathNotFound(path: String)
    | RatingNotString
    | UnknownRating(rating: String)

  /** Every validation error is a `ValueError` except the missing path, which is a `FileNotFoundError`. */
  predicate IsValueError(e: MovieError) {
    !e.PathNotFound?
  }

  /** The keys of `MOVIE_RATINGS`. */
  const Ratings: seq<String> := ["-", "1", "2", "3", "4", "5"]

  const TitleLimit: nat := 60
  const EarliestYear: int := 1900
  const YearsAhead: int := 5

  // ---------------------------------------------------------------------------
  // Validators

  /** `check_title`: a string of at least two characters that `filter_name(limit=60)` accepts. */
  function CheckTitle(title: PyValue): (r: Result<String, MovieError>)
    ensures !title.PyStr? ==> r == Err(TitleNotString)
    ensures title.PyStr? && |title.s| < 2 ==> r == Err(TitleTooShort)
    ensures title.PyStr? && |title.s| >= TitleLimit && '\n' !in title.s ==> r.Err?
    ensures r.Ok? ==> r.value != [] && Stripped(r.value) && |r.value| <= |title.s|
    ensures r.Ok? ==> forall c :: c in Unwanted ==> c !in r.value
  {
    match title
    case PyStr(s) =>
      RejectsLongNames(s, TitleLimit);
      if |s| < 2 then Err(TitleTooShort)
      else if FilterNameSpec(s, TitleLimit).Ok? then
        FilterNameShape(s, TitleLimit);
        Ok(FilterNameSpec(s, TitleLimit).value)
      else
        Err(TitleRejected(FilterNameSpec(s, TitleLimit).error))
    case _ => Err(TitleNotString)
  }

  /**
   * Checking an accepted title again, as `rename` and a reload do, gives it
   * back unchanged when the raw title had no newline, unless the filter
   * left fewer than two characters: then the second check refuses it.
   */
  lemma CheckTitleStable(s: String)
    requires CheckTitle(PyStr(s)).Ok? && '\n' !in s
    ensures var t := CheckTitle(PyStr(s)).value;
      |t| >= 2 ==> CheckTitle(PyStr(t)) == Ok(t)
  {
    FilterNameIdempotent(s, TitleLimit);
  }

  /** `check_year`: an `int`, or a string of digits converted by `int`, between 1900 and five years from now. */
  function CheckYear(year: PyValue, currentYear: int): (r: Result<int, MovieError>)
    ensures r.Ok? ==> EarliestYear <= r.value <= currentYear + YearsAhead
    ensures year.PyInt? ==> (r.Ok? <==> EarliestYear <= year.i <= currentYear + YearsAhead)
    ensures year.PyInt? && r.Ok? ==> r.value == year.i
    ensures year.PyStr? && IsDecimal(year.s) ==>
              (r.Ok? <==> EarliestYear <= DecimalValue(year.s) <= currentYear + YearsAhead)
    ensures year.PyStr? && IsDecimal(year.s) && r.Ok? ==> r.value == DecimalValue(year.s)
    ensures !year.PyInt? && !(year.PyStr? && IsDecimal(year.s)) ==> r == Err(YearNotInteger)
  {
    var y := if year.PyStr? && IsDecimal(year.s) then PyInt(DecimalValue(year.s)) else year;
    if !y.PyInt? then Err(YearNotInteger)
    else if !(EarliestYear <= y.i <= currentYear + YearsAhead) then Err(YearOutOfRange(currentYear + YearsAhead))
    else Ok(y.i)
  }

  /** `Path(p).exists()`, given the set of existing paths; the empty path is the current directory. */
  predicate PathExists(p: String, disk: set<String>) {
    p == [] || p in disk
  }

  /** `check_path`: `None` becomes `""`; a string or `Path` must name something that exists. */
  function CheckPath(path: PyValue, disk: set<String>): (r: Result<String, MovieError>)
    ensures path.PyNone? ==> r == Ok([])
    ensures r.Ok? ==> PathExists(r.value, disk)
    ensures (path.PyStr? || path.PyPath?) ==> (r.Ok? <==> PathExists(if path.PyStr? then path.s else path.p, disk))
    ensures !(path.PyNone? || path.PyStr? || path.PyPath?) ==> r == Err(PathNotString)
  {
    match path
    case PyNone => Ok([])
    case PyStr(p) => if PathExists(p, disk) then Ok(p) else Err(PathNotFound(p))
    case PyPath(p) => if PathExists(p, disk) then Ok(p) else Err(PathNotFound(p))
    case _ => Err(PathNotString)
  }

  /** `check_rating`: exactly one of the keys of `MOVIE_RATINGS`. */
  function CheckRating(rating: PyValue): (r: Result<String, MovieError>)
    ensures r.Ok? <==> rating.PyStr? && rating.s in Ratings
    ensures r.Ok? ==> r.value == rating.s
  {
    match rating
    case PyStr(s) => if s in Ratings then Ok(s) else Err(UnknownRating(s))
    case _ => Err(RatingNotString)
  }

  // ---------------------------------------------------------------------------
  // The record and its identity

  datatype MovieData = MovieData(title: String, year: int, path: String, rating: String)

  /** What every constructed movie satisfies. */
  predicate ValidData(d: MovieData, currentYear: int, disk: set<String>) {
    d.title != [] && Stripped(d.title) && (forall c :: c in Unwanted ==> c !in d.title) &&
    EarliestYear <= d.year <= currentYear + YearsAhead &&
    PathExists(d.path, disk) &&
    d.rating in Ratings
  }

  /** `Movie.__init__`: the four checks in the order the constructor runs them; the first failure is raised. */
  function Validate(title: PyValue, year: PyValue, path: PyValue, rating: PyValue, currentYear: int, disk: set<String>)
    : (r: Result<MovieData, MovieError>)
    ensures r.Ok? ==> ValidData(r.value, currentYear, disk)
    ensures r.Ok? <==> CheckTitle(title).Ok? && CheckYear(year, currentYear).Ok? && CheckPath(path, disk).Ok? && CheckRating(rating).Ok?
    ensures CheckTitle(title).Err? ==> r == Err(CheckTitle(title).error)
  {
    var t := CheckTitle(title);
    if t.Err? then Err(t.error)
    else
      var y := CheckYear(year, currentYear);
      if y.Err? then Err(y.error)
      else
        var p := CheckPath(path, disk);
        if p.Err? then Err(p.error)
        else
          var g := CheckRating(rating);
          if g.Err? then Err(g.error)
          else Ok(MovieData(t.value, y.value, p.value, g.value))
  }

  /** `storage`: the lower-cased title with spaces turned into `_`, minus one leading `the_`. */
  function StorageKey(title: String): (key: String)
    ensures ' ' !in key
    ensures forall i :: 0 <= i < |key| ==> !IsUpper(key[i])
    ensures |key| <= |title|
  {
    var folder := ReplaceChar(Lower(title), ' ', '_');
    if StartsWith(folder, "the_") then folder[4..] else folder
  }

  lemma StorageKeyOfTheMatrix(title: String)
    requires title == "The Matrix"
    ensures StorageKey(title) == "matrix"
  {
    assert Lower(title) == "the matrix";
    assert ReplaceChar("the matrix", ' ', '_') == "the_matrix";
  }

  /** Only one leading `the_` goes: `"The The"` is stored as `"the"`, and `"The_"` as the empty key. */
  lemma StorageKeyDropsOneThe(a: String, b: String)
    requires a == "The The" && b == "The_"
    ensures StorageKey(a) == "the" && StorageKey(b) == []
  {
    assert Lower(a) == "the the";
    assert ReplaceChar("the the", ' ', '_') == "the_the";
    assert Lower(b) == "the_";
    assert ReplaceChar("the_", ' ', '_') == "the_";
  }

  /**
   * Keys that do not name a folder inside the cache: `pathlib` drops an
   * empty or `.` part, so `PATHS["cache"] / ""` and `PATHS["cache"] / "."`
   * are the cache root itself, and `PATHS["cache"] / ".."` is the base
   * directory that holds it.
   */
  predicate OutsideEntries(key: String) {
    key == "" || key == "." || key == ".."
  }

  /** The accepted titles `"The_.."`, `"The_."` and `"The_"` give exactly those keys. */
  lemma OutsideKeysReachable()
    ensures CheckTitle(PyStr("The_..")) == Ok("The_..") && StorageKey("The_..") == ".."
    ensures CheckTitle(PyStr("The_.")) == Ok("The_.") && StorageKey("The_.") == "."
    ensures CheckTitle(PyStr("The_")) == Ok("The_") && StorageKey("The_") == ""
  {
    AcceptedAsIs("The_..");
    AcceptedAsIs("The_.");
    AcceptedAsIs("The_");
    TheKeys();
  }

  /** A title of `T` and the characters `h`, `e`, `_` and `.`, short and with nothing to delete, is accepted as it is. */
  lemma AcceptedAsIs(t: String)
    requires 2 <= |t| < TitleLimit && t[0] == 'T' && forall i :: 1 <= i < |t| ==> t[i] in "he_."
    ensures CheckTitle(PyStr(t)) == Ok(t)
  {
    assert t[|t| - 1] in "he_." || |t| == 1;
    assert IsWordChar(t[0]);
    forall c | c in Unwanted ensures c !in t {
      UnwantedClass(c);
    }
    FilterNameFixedPoint(t, TitleLimit);
  }

  lemma TheKeys()
    ensures StorageKey("The_..") == ".." && StorageKey("The_.") == "." && StorageKey("The_") == ""
  {
    assert Lower("The_..") == "the_..";
    assert ReplaceChar("the_..", ' ', '_') == "the_..";
    assert Lower("The_.") == "the_.";
    assert ReplaceChar("the_.", ' ', '_') == "the_.";
    assert Lower("The_") == "the_";
    assert ReplaceChar("the_", ' ', '_') == "the_";
  }

  /** Titles that differ only in letter case share a storage key. */
  lemma StorageKeyIgnoresCase(a: String, b: String)
    requires |a| == |b| && forall i :: 0 <= i < |a| ==> LowerChar(a[i]) == LowerChar(b[i])
    ensures StorageKey(a) == StorageKey(b)
  {
    assert Lower(a) == Lower(b);
  }

  lemma {:induction false} LowerTitle(s: String, afterCased: bool)
    ensures Lower(TitleFrom(s, afterCased)) == Lower(s)
    decreases |s|
  {
    if s != [] {
      LowerTitle(s[1..], IsCased(s[0]));
      var t := TitleFrom(s, afterCased);
      assert t[1..] == TitleFrom(s[1..], IsCased(s[0]));
      forall i | 0 <= i < |s| ensures LowerChar(t[i]) == LowerChar(s[i]) {
        if i > 0 {
          assert LowerChar(t[i]) == Lower(t[1..])[i - 1];
        }
      }
    }
  }

  /** `str.title()` does not move a movie to another cache folder. */
  lemma StorageKeyOfTitleCase(title: String)
    ensures StorageKey(TitleCase(title)) == StorageKey(title)
  {
    LowerTitle(title, false);
  }

  /** `Movie.__eq__` between two movies. */
  predicate SameMovie(a: MovieData, b: MovieData) {
    StorageKey(a.title) == StorageKey(b.title) && a.year == b.year
  }

  /** `SameMovie` is an equivalence relation. */
  lemma SameMovieEquivalence(a: MovieData, b: MovieData, c: MovieData)
    ensures SameMovie(a, a)
    ensures SameMovie(a, b) ==> SameMovie(b, a)
    ensures SameMovie(a, b) && SameMovie(b, c) ==> SameMovie(a, c)
  {
  }

  /** `"The Matrix"` and `"matrix"` of the same year are the same movie, whatever their paths and ratings. */
  lemma SameMovieExample(a: MovieData, b: MovieData)
    requires a.title == "The Matrix" && b.title == "matrix" && a.year == b.year
    ensures SameMovie(a, b)
  {
    StorageKeyOfTheMatrix(a.title);
    assert Lower(b.title) == "matrix";
    var folder := ReplaceChar(Lower(b.title), ' ', '_');
    assert folder == "matrix";
    assert folder[..4][0] == 'm';
    assert StorageKey(b.title) == "matrix";
  }

  // ---------------------------------------------------------------------------
  // official_title

  /** `rem_expr`, in insertion order. */
  const CleanUps: seq<(String, String)> := [
    ("(film)", ""), ("film", ""), (" )", ")"), ("( ", "("), ("()", ""),
    ("/", ""), ("\\", ""), (": ", " - "), ("  ", " ")
  ]

  /** The replacements of `pairs` applied one after the other. */
  function ReplaceAll(pairs: seq<(String, String)>, s: String): String {
    if pairs == [] then s
    else Replace(ReplaceAll(pairs[..|pairs| - 1], s), pairs[|pairs| - 1].0, pairs[|pairs| - 1].1)
  }

  /**
   * `official_title`: `title.title()` when there is no data file; otherwise
   * the stored title (or that default), cleaned up and stripped. The data
   * file is read by `load_data_file`, which raises on a garbled file; a
   * content that is not a dict, or a title that is not a string, raises
   * `AttributeError`.
   */
  function OfficialTitleOf(title: String, file: Option<JsonFile>): Result<String, Raised> {
    var default := TitleCase(title);
    if file.None? then Ok(default)
    else
      match ReadJson(file)
      case Err(e) => Err(e)
      case Ok(content) =>
        match Get(content, "title", JStr(default))
        case Some(JStr(t)) => Ok(Strip(ReplaceAll(CleanUps, t)))
        case _ => Err(AttributeError)
  }

  lemma CleanUpsRemoveSlashes(t: String)
    ensures '/' !in ReplaceAll(CleanUps, t) && '\\' !in ReplaceAll(CleanUps, t)
  {
    var s5 := ReplaceAll(CleanUps[..5], t);
    var s6 := Replace(s5, "/", "");
    assert CleanUps[..6][..5] == CleanUps[..5];
    assert ReplaceAll(CleanUps[..6], t) == s6;
    ReplaceDeletes(s5, '/');
    WithoutMembers(s5, "/", '/');
    var s7 := Replace(s6, "\\", "");
    assert CleanUps[..7][..6] == CleanUps[..6];
    assert ReplaceAll(CleanUps[..7], t) == s7;
    ReplaceDeletes(s6, '\\');
    WithoutMembers(s6, "/", '\\');
    WithoutMembers(s6, "\\", '\\');
    WithoutMembers(s6, "\\", '/');
    var s8 := Replace(s7, ": ", " - ");
    assert CleanUps[..8][..7] == CleanUps[..7];
    assert ReplaceAll(CleanUps[..8], t) == s8;
    ReplaceKeepsAbsent(s7, ": ", " - ", '/');
    ReplaceKeepsAbsent(s7, ": ", " - ", '\\');
    var s9 := Replace(s8, "  ", " ");
    assert CleanUps[..9] == CleanUps;
    assert CleanUps[..9][..8] == CleanUps[..8];
    assert ReplaceAll(CleanUps, t) == s9;
    ReplaceKeepsAbsent(s8, "  ", " ", '/');
    ReplaceKeepsAbsent(s8, "  ", " ", '\\');
  }

  /** With a data file, the official title has no `/` or `\` and no surrounding whitespace. */
  lemma OfficialTitleClean(title: String, file: Option<JsonFile>)
    requires file.Some? && OfficialTitleOf(title, file).Ok?
    ensures var r := OfficialTitleOf(title, file).value;
      '/' !in r && '\\' !in r && Stripped(r)
  {
    var t := Get(ReadJson(file).value, "title", JStr(TitleCase(title))).value.s;
    CleanUpsRemoveSlashes(t);
    StripKeepsAbsent(ReplaceAll(CleanUps, t), '/');
    StripKeepsAbsent(ReplaceAll(CleanUps, t), '\\');
  }

  /**
   * No data file leaves `title.title()` as it is; a data file without a
   * title has that default cleaned up; a garbled one raises.
   */
  lemma OfficialTitleDefaults(title: String)
    ensures OfficialTitleOf(title, None) == Ok(TitleCase(title))
    ensures OfficialTitleOf(title, Some(Parsed(JObject(map[])))) == Ok(Strip(ReplaceAll(CleanUps, TitleCase(title))))
    ensures OfficialTitleOf(title, Some(Garbled)) == Err(JsonDecodeError)
  {
  }

  // ---------------------------------------------------------------------------
  // Copying a cache folder

  datatype RenameError = BadTitle(error: MovieError) | CopyRaised(fault: Fault)

  /** Why `shutil.copytree` fails: the two exceptions `rename` catches, or a source that is a plain file. */
  datatype CopyOutcome = Copied(fs: Fs) | SourceMissing | TargetExists | SourceNotAFolder

  /** `shutil.copytree(src, dst)`: the source is listed first, then the target is created. */
  function CopyTree(fs: Fs, src: String, dst: String): (r: CopyOutcome)
    ensures r.Copied? <==> IsFolder(fs, src) && dst !in fs.entries
    ensures r.Copied? ==> r.fs.entries == fs.entries[dst := fs.entries[src]]
  {
    if src !in fs.entries then SourceMissing
    else if fs.entries[src].PlainFile? then SourceNotAFolder
    else if dst in fs.entries then TargetExists
    else Copied(Fs(true, fs.entries[dst := fs.entries[src]]))
  }

  /** An argument of `==` with a movie: another movie, or anything else. */
  datatype Operand = MovieOperand(m: Movie) | OtherOperand

  class Movie {
    var title: String
    var year: int
    var path: String
    var rating: String

    function Data(): MovieData
      reads this
    {
      MovieData(title, year, path, rating)
    }

    /** The name of this movie's cache folder. */
    function Storage(): String
      reads this
    {
      StorageKey(title)
    }

    constructor FromData(d: MovieData)
      ensures Data() == d
    {
      title := d.title;
      year := d.year;
      path := d.path;
      rating := d.rating;
    }

    /** `Movie(title, year, path, rating)`: the fields are set one by one, each by its check. */
    static method New(title: PyValue, year: PyValue, path: PyValue, rating: PyValue, currentYear: int, disk: set<String>)
      returns (r: Result<Movie, MovieError>)
      ensures r.Ok? <==> Validate(title, year, path, rating, currentYear, disk).Ok?
      ensures r.Err? ==> r.error == Validate(title, year, path, rating, currentYear, disk).error
      ensures r.Ok? ==> fresh(r.value) && r.value.Data() == Validate(title, year, path, rating, currentYear, disk).value
    {
      var t := CheckTitle(title);
      if t.Err? {
        return Err(t.error);
      }
      var y := CheckYear(year, currentYear);
      if y.Err? {
        return Err(y.error);
      }
      var p := CheckPath(path, disk);
      if p.Err? {
        return Err(p.error);
      }
      var g := CheckRating(rating);
      if g.Err? {
        return Err(g.error);
      }
      var m := new Movie.FromData(MovieData(t.value, y.value, p.value, g.value));
      return Ok(m);
    }

    /** `no_errors`: `None` exactly when construction raises (every validation error is caught). */
    static method NoErrors(title: PyValue, year: PyValue, path: PyValue, rating: PyValue, currentYear: int, disk: set<String>)
      returns (r: Option<Movie>)
      ensures r.None? <==> Validate(title, year, path, rating, currentYear, disk).Err?
      ensures r.Some? ==> fresh(r.value) && r.value.Data() == Validate(title, year, path, rating, currentYear, disk).value
    {
      var m := New(title, year, path, rating, currentYear, disk);
      if m.Err? {
        assert IsValueError(m.error) || m.error.PathNotFound?;
        return None;
      }
      return Some(m.value);
    }

    /** `__eq__`: a movie equals another movie with the same storage key and year, and nothing else. */
    predicate Eq(other: Operand)
      reads this, if other.MovieOperand? then {other.m} else {}
    {
      other.MovieOperand? && SameMovie(Data(), other.m.Data())
    }

    /** `official_title`, with the loop over `rem_expr`. */
    method OfficialTitle(fs: Fs) returns (r: Result<String, Raised>)
      ensures r == OfficialTitleOf(title, DataFile(fs, Storage()))
    {
      var default := TitleCase(title);
      var file := DataFile(fs, Storage());
      if file.None? {
        return Ok(default);
      }
      var content := ReadJson(file);
      if content.Err? {
        return Err(content.error);
      }
      var got := Get(content.value, "title", JStr(default));
      if !(got.Some? && got.value.JStr?) {
        return Err(AttributeError);
      }
      var t := got.value.s;
      for k := 0 to |CleanUps|
        invariant t == ReplaceAll(CleanUps[..k], got.value.s)
      {
        assert CleanUps[..k + 1][..k] == CleanUps[..k];
        t := Replace(t, CleanUps[k].0, CleanUps[k].1);
      }
      assert CleanUps[..|CleanUps|] == CleanUps;
      return Ok(Strip(t));
    }

    /**
     * `rename`: the new title replaces the old one as soon as it is accepted;
     * the cache folder is then copied (the old one stays) unless the key is
     * unchanged. A failed copy returns `false` with the title already changed.
     */
    method Rename(newTitle: PyValue, fs: Fs) returns (r: Result<bool, RenameError>, fs': Fs)
      modifies this
      ensures year == old(year) && path == old(path) && rating == old(rating)
      ensures CheckTitle(newTitle).Err? ==> r == Err(BadTitle(CheckTitle(newTitle).error)) && title == old(title) && fs' == fs
      ensures CheckTitle(newTitle).Ok? ==> title == CheckTitle(newTitle).value
      ensures CheckTitle(newTitle).Ok? && StorageKey(title) == StorageKey(old(title)) ==> r == Ok(true) && fs' == fs
      ensures CheckTitle(newTitle).Ok? && StorageKey(title) != StorageKey(old(title)) ==>
                match CopyTree(fs, StorageKey(old(title)), StorageKey(title))
                case Copied(after) => r == Ok(true) && fs' == after
                case SourceNotAFolder => r == Err(CopyRaised(NotAFolder(StorageKey(old(title))))) && fs' == fs
                case _ => r == Ok(false) && fs' == fs
    {
      var oldStorage := Storage();
      var t := CheckTitle(newTitle);
      if t.Err? {
        return Err(BadTitle(t.error)), fs;
      }
      title := t.value;
      if Storage() == oldStorage {
        return Ok(true), fs;
      }
      match CopyTree(fs, oldStorage, Storage())
      case Copied(after) =>
        return Ok(true), after;
      case SourceNotAFolder =>
        return Err(CopyRaised(NotAFolder(oldStorage))), fs;
      case _ =>
        return Ok(false), fs;
    }

    /**
     * `remove_cache`: `rmtree` of the storage path when it exists. For a key
     * outside the entries that path is the cache root or the directory
     * holding it, which exists when the root does: the whole cache goes.
     */
    function RemoveCache(fs: Fs): (r: Result<Fs, Fault>)
      reads this
      ensures r.Err? <==> !OutsideEntries(Storage()) && Storage() in fs.entries && fs.entries[Storage()].PlainFile?
      ensures !OutsideEntries(Storage()) && Storage() !in fs.entries ==> r == Ok(fs)
      ensures !OutsideEntries(Storage()) && IsFolder(fs, Storage()) ==>
                r == Ok(Fs(fs.rootExists, fs.entries - {Storage()}))
      ensures OutsideEntries(Storage()) && fs.rootExists ==> r == Ok(Fs(false, map[]))
      ensures OutsideEntries(Storage()) && !fs.rootExists ==> r == Ok(fs)
      ensures WellFormed(fs) && r.Ok? ==> WellFormed(r.value) && Storage() !in r.value.entries
    {
      if OutsideEntries(Storage()) then
        if fs.rootExists then Ok(Fs(false, map[])) else Ok(fs)
      else if Storage() !in fs.entries then Ok(fs)
      else if fs.entries[Storage()].PlainFile? then Err(NotAFolder(Storage()))
      else Ok(Fs(fs.rootExists, fs.entries - {Storage()}))
    }

    /** `set_default_poster`: the thumbnail becomes a copy of the default poster, creating the folder if needed. */
    function SetDefaultPoster(fs: Fs): (r: Result<Fs, Fault>)
      reads this
      ensures r.Ok? <==> !(Storage() in fs.entries && fs.entries[Storage()].PlainFile?)
      ensures r.Ok? ==> Thumb(r.value, Storage()) == Some(DefaultArt) && DataFile(r.value, Storage()) == DataFile(fs, Storage())
      ensures r.Ok? ==> r.value.entries.Keys == fs.entries.Keys + {Storage()}
      ensures r.Ok? ==> forall k :: k in fs.entries && k != Storage() ==> r.value.entries[k] == fs.entries[k]
    {
      match MakeFolder(fs, Storage())
      case Err(e) => Err(e)
      case Ok(made) => WriteThumb(made, Storage(), DefaultArt)
    }
  }

  /** The data of a list of movies, in order. */
  function DataOf(ms: seq<Movie>): (ds: seq<MovieData>)
    reads ms
    ensures |ds| == |ms| && forall i :: 0 <= i < |ms| ==> ds[i] == ms[i].Data()
  {
    seq(|ms|, i requires 0 <= i < |ms| reads ms => ms[i].Data())
  }

  /** Python equality of movies is `SameMovie` on their data. */
  lemma EqIsSameMovie(a: Movie, b: Movie)
    ensures a.Eq(MovieOperand(b)) <==> SameMovie(a.Data(), b.Data())
    ensures !a.Eq(OtherOperand)
  {
  }
}
