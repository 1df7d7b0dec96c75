/**
 * `recommendations.py`: picks three saved movies at random, asks
 * TasteDive for movies like them, and keeps three distinct suggestions,
 * each turned into a movie paired with its YouTube trailer link.
 *
 * As the module is written, `PATHS` has no `"recommendations"` entry and
 * the `MovieScraper` it imports is the older one, which has neither
 * `get_recommendations` nor `get_youtube_link`. An `Env` says which way
 * each of the two goes, so that both the code as written and the run it
 * was meant to make are modelled.
 */
module Recommendations {
  import opened Wrappers
  import opened Text
  import opened Net
  import opened CacheStore
  import opened MovieModel
  import opened DataRetrieve
  import DataImport
  import LegacyImport

  /** Which `MovieScraper` class the module imports. */
  datatype ScraperClass = LegacyClass | CurrentClass

  /**
   * The surroundings of one run: whether `PATHS` has a `"recommendations"`
   * entry, the scraper class, the web, the current year and the paths on
   * disk.
   */
  datatype Env = Env(configured: bool, cls: ScraperClass, web: Web, currentYear: int, disk: set<String>)

  /** The module as written. */
  function AsWritten(web: Web, currentYear: int, disk: set<String>): (e: Env)
    ensures !e.configured && e.cls == LegacyClass
  {
    Env(false, LegacyClass, web, currentYear, disk)
  }

  /** The recommendations folder: whether it exists and the files in it. */
  datatype RecDir = RecDir(present: bool, files: set<String>)

  /** What stops `main`. */
  datatype Problem =
    | MissingAttribute(name: String)  // a missing attribute: `mkdir` on `None`, or a scraper method
    | LoadFailed(raised: Raised)    // `load_all_movies`
    | Failed(failure: Failure)      // a `Movie` or `MovieScraper` constructor, or a request

  /** How `main` returns. */
  datatype Ended =
    | NothingToDo                    // no folder or no saved movie
    | TooFew(found: set<String>)     // fewer than three distinct suggestions
    | Done(found: set<String>, titles: map<String, String>, picks: map<String, (MovieData, String)>)

  /** The keys of `lucky_movies`, in insertion order. */
  const Picks: seq<String> := ["Movie A", "Movie B", "Movie C"]
  const PickKeys: set<String> := {"Movie A", "Movie B", "Movie C"}

  /** `dummy_year`. */
  const DummyYear: int := 2000

  lemma PicksEnumerate()
    ensures Enumerates(Picks, PickKeys) && |PickKeys| == 3
  {
    assert "Movie A"[6] == 'A' && "Movie B"[6] == 'B' && "Movie C"[6] == 'C';
    NoDupSize(Picks);
    assert (set x | x in Picks) == PickKeys;
  }

  /**
   * `check_folder`: the folder is created when missing and the answer is
   * `True`; without a `PATHS` entry, `None.mkdir` raises.
   */
  function CheckFolder(env: Env, dir: RecDir): (r: Result<(RecDir, bool), Problem>)
    ensures r.Err? <==> !env.configured
    ensures r.Ok? ==> r.value == (RecDir(true, dir.files), true)
  {
    if !env.configured then Err(MissingAttribute("mkdir")) else Ok((RecDir(true, dir.files), true))
  }

  /**
   * `film_picker`: an empty dictionary when there is no saved movie;
   * otherwise each of the three keys gets a movie chosen from the list,
   * repeats allowed.
   */
  method FilmPicker(all: seq<MovieData>) returns (picked: map<String, MovieData>)
    ensures picked == map[] <==> all == []
    ensures all != [] ==> picked.Keys == PickKeys && forall k :: k in picked ==> picked[k] in all
  {
    picked := map[];
    for i := 0 to |Picks|
      invariant picked.Keys == set j | 0 <= j < i :: Picks[j]
      invariant forall k :: k in picked ==> picked[k] in all
    {
      if all == [] {
        return map[];
      }
      assert all[0] in all;
      var m :| m in all;
      picked := picked[Picks[i] := m];
    }
    if all == [] {
      return map[];
    }
    assert Picks[0] in picked && Picks[1] in picked && Picks[2] in picked;
    assert picked.Keys == PickKeys;
  }

  /** `Movie(title=value, year=dummy_year)`. */
  function AsMovie(title: String, env: Env): (r: Result<MovieData, MovieError>)
    ensures r.Ok? ==> r.value.year == DummyYear && r.value.path == [] && ValidData(r.value, env.currentYear, env.disk)
    ensures r.Ok? <==> CheckTitle(PyStr(title)).Ok? && EarliestYear <= DummyYear <= env.currentYear + YearsAhead
  {
    Validate(PyStr(title), PyInt(DummyYear), PyNone, PyStr("-"), env.currentYear, env.disk)
  }

  /**
   * The loop shape `str_to_movie` shares: every value of `d`, in the
   * dictionary's order `order`, is replaced by its image under `f`, and
   * the first failure is raised.
   */
  method MapValues<V, W, E>(d: map<String, V>, order: seq<String>, f: V -> Result<W, E>) returns (r: Result<map<String, W>, E>)
    requires Enumerates(order, d.Keys)
    ensures r.Ok? <==> forall k :: k in d ==> f(d[k]).Ok?
    ensures r.Ok? ==> r.value.Keys == d.Keys && forall k :: k in d ==> f(d[k]) == Ok(r.value[k])
    ensures r.Err? ==> exists i :: 0 <= i < |order| && f(d[order[i]]) == Err(r.error)
                                && forall j :: 0 <= j < i ==> f(d[order[j]]).Ok?
  {
    var out: map<String, W> := map[];
    for i := 0 to |order|
      invariant forall k :: k in out <==> k in order[..i]
      invariant forall k :: k in out ==> k in d && f(d[k]) == Ok(out[k])
    {
      var m := f(d[order[i]]);
      if m.Err? {
        assert forall j :: 0 <= j < i ==> order[j] in out;
        return Err(m.error);
      }
      assert order[..i + 1] == order[..i] + [order[i]];
      out := out[order[i] := m.value];
    }
    assert order[..|order|] == order;
    return Ok(out);
  }

  /**
   * `str_to_movie`: every value, in the dictionary's order, becomes a
   * movie of that title and the dummy year; the first that fails
   * validation raises.
   */
  method StrToMovie(d: map<String, String>, order: seq<String>, env: Env) returns (r: Result<map<String, MovieData>, MovieError>)
    requires Enumerates(order, d.Keys)
    ensures r.Ok? <==> forall k :: k in d ==> AsMovie(d[k], env).Ok?
    ensures r.Ok? ==> r.value.Keys == d.Keys && forall k :: k in d ==> AsMovie(d[k], env) == Ok(r.value[k])
    ensures r.Err? ==> exists i :: 0 <= i < |order| && AsMovie(d[order[i]], env) == Err(r.error)
                                && forall j :: 0 <= j < i ==> AsMovie(d[order[j]], env).Ok?
  {
    r := MapValues(d, order, t => AsMovie(t, env));
  }

  /** The scraper `MovieScraper(movie)` builds, apart from its folder. */
  function ScraperFor(m: MovieData, env: Env): Result<Scraper, MovieError> {
    match Validate(PyStr(m.title), PyInt(m.year), PyNone, PyStr("-"), env.currentYear, env.disk)
    case Err(e) => Err(e)
    case Ok(v) => Ok(Scraper(v.title, v.year))
  }

  /** The trailer link `collect_trailer_links` finds for one movie, as the YouTube search without the year gives it. */
  predicate TrailerOf(m: MovieData, env: Env, link: String) {
    ScraperFor(m, env).Ok? && Ok(link) == YoutubeLink(env.web.http, ScraperFor(m, env).value, false)
  }

  /**
   * `b` is the cache `a` with folders added and nothing already there
   * changed: every entry of `a` is kept as it was, and every new entry is
   * a freshly made, empty folder.
   */
  predicate Grows(a: Fs, b: Fs) {
    (a.rootExists ==> b.rootExists)
    && (forall k :: k in a.entries ==> k in b.entries && b.entries[k] == a.entries[k])
    && (forall k :: k in b.entries && k !in a.entries ==> b.entries[k] == EmptyFolder)
  }

  /** `b` grows from `a`, and every folder it adds has one of the names `keys`. */
  predicate Extends(a: Fs, b: Fs, keys: set<String>) {
    Grows(a, b) && forall k :: k in b.entries && k !in a.entries ==> k in keys
  }

  /** The cache folders `MovieScraper` makes for the movies `ms`. */
  function FolderKeys(ms: set<MovieData>, env: Env): set<String> {
    set m | m in ms && ScraperFor(m, env).Ok? :: Key(ScraperFor(m, env).value)
  }

  /** The movies `str_to_movie` can make of the suggestions `found`. */
  function SuggestedMovies(found: set<String>, env: Env): set<MovieData> {
    set x | x in found && AsMovie(x, env).Ok? :: AsMovie(x, env).value
  }

  /** The movies of the picks, each paired with its trailer link. */
  function PickedMovies(picks: map<String, (MovieData, String)>): set<MovieData> {
    set k | k in picks :: picks[k].0
  }

  lemma PickedMoviesAre(d: map<String, MovieData>, picks: map<String, (MovieData, String)>)
    requires picks.Keys == d.Keys && forall k :: k in d ==> picks[k].0 == d[k]
    ensures PickedMovies(picks) == d.Values
  {
    forall m | m in d.Values
      ensures m in PickedMovies(picks)
    {
      var k :| k in d && d[k] == m;
      assert picks[k].0 == m;
    }
  }

  /** Movies made of suggestions have their folders among the suggested movies' folders. */
  lemma MadeFromSuggestions(titles: map<String, String>, made: map<String, MovieData>, found: set<String>, env: Env)
    requires made.Keys == titles.Keys
    requires forall k :: k in titles ==> titles[k] in found && AsMovie(titles[k], env) == Ok(made[k])
    ensures FolderKeys(made.Values, env) <= FolderKeys(SuggestedMovies(found, env), env)
  {
    forall m | m in made.Values
      ensures m in SuggestedMovies(found, env)
    {
      var k :| k in made && made[k] == m;
      assert AsMovie(titles[k], env) == Ok(m);
    }
    FolderKeysMono(made.Values, SuggestedMovies(found, env), env);
  }

  lemma ExtendsTrans(a: Fs, b: Fs, c: Fs, k1: set<String>, k2: set<String>)
    requires Extends(a, b, k1) && Extends(b, c, k2)
    ensures Extends(a, c, k1 + k2)
  {
  }

  lemma ExtendsMono(a: Fs, b: Fs, k1: set<String>, k2: set<String>)
    requires Extends(a, b, k1) && k1 <= k2
    ensures Extends(a, b, k2)
  {
  }

  lemma FolderKeysMono(ms: set<MovieData>, ns: set<MovieData>, env: Env)
    requires ms <= ns
    ensures FolderKeys(ms, env) <= FolderKeys(ns, env)
  {
  }

  /** `MovieScraper(m)` adds at most the folder of `m`'s scraper to the cache, and changes nothing else. */
  lemma NewScraperExtends(m: MovieData, fs: Fs, env: Env)
    ensures NewScraper(m, fs, env.currentYear, env.disk).Ok? ==>
              Extends(fs, NewScraper(m, fs, env.currentYear, env.disk).value.1, FolderKeys({m}, env))
  {
    if NewScraper(m, fs, env.currentYear, env.disk).Err? {
      return;
    }
    var s := NewScraper(m, fs, env.currentYear, env.disk).value.0;
    assert ScraperFor(m, env) == Ok(s);
    assert Key(s) in FolderKeys({m}, env);
  }

  /**
   * One step of `collect_trailer_links`: `MovieScraper(value)`, which
   * creates the movie's cache folder, and its `get_youtube_link(year=False)`.
   */
  function Trailer(m: MovieData, env: Env, fs: Fs): (r: (Result<(MovieData, String), Failure>, Fs))
    ensures r.0.Ok? ==> r.0.value.0 == m && TrailerOf(m, env, r.0.value.1)
    ensures Extends(fs, r.1, FolderKeys({m}, env))
    ensures r.0.Ok? ==> IsFolder(r.1, Key(ScraperFor(m, env).value))
  {
    match NewScraper(m, fs, env.currentYear, env.disk)
    case Err(e) => (Err(e), fs)
    case Ok((s, after)) =>
      NewScraperExtends(m, fs, env);
      match YoutubeLink(env.web.http, s, false)
      case Err(f) => (Err(Faulted(f)), after)
      case Ok(link) => (Ok((m, link)), after)
  }

  /**
   * The loop shape `collect_trailer_links` has: every value of `d`, in the
   * order `order`, is replaced by what `step` makes of it while a state
   * (the cache) is threaded through; the first failure is raised. Every
   * value `step` accepts satisfies `good`, and the state keeps every
   * property `inv` that each step on a value of `d` keeps.
   */
  method MapValuesThreaded<V, W, E, S>(d: map<String, V>, order: seq<String>, start: S,
                                       step: (V, S) -> (Result<W, E>, S), good: (V, W) -> bool, ghost inv: S -> bool)
    returns (r: Result<map<String, W>, E>, state: S)
    requires Enumerates(order, d.Keys)
    requires forall v, s :: step(v, s).0.Ok? ==> good(v, step(v, s).0.value)
    requires inv(start) && forall k, s :: k in d && inv(s) ==> inv(step(d[k], s).1)
    ensures r.Ok? ==> r.value.Keys == d.Keys && forall k :: k in d ==> good(d[k], r.value[k])
    ensures inv(state)
  {
    var out: map<String, W> := map[];
    state := start;
    for i := 0 to |order|
      invariant forall k :: k in out <==> k in order[..i]
      invariant forall k :: k in out ==> k in d && good(d[k], out[k])
      invariant inv(state)
    {
      var (w, next) := step(d[order[i]], state);
      state := next;
      if w.Err? {
        return Err(w.error), state;
      }
      assert order[..i + 1] == order[..i] + [order[i]];
      out := out[order[i] := w.value];
    }
    assert order[..|order|] == order;
    return Ok(out), state;
  }

  /**
   * `collect_trailer_links`: every movie, in the dictionary's order, gets a
   * scraper and is paired with the YouTube link found without the year;
   * the first constructor or request that fails raises. The cache only
   * gains the folders of those movies' scrapers.
   */
  method CollectTrailerLinks(d: map<String, MovieData>, order: seq<String>, env: Env, fs: Fs)
    returns (r: Result<map<String, (MovieData, String)>, Failure>, after: Fs)
    requires Enumerates(order, d.Keys)
    ensures r.Ok? ==> r.value.Keys == d.Keys
    ensures r.Ok? ==> forall k :: k in d ==> r.value[k].0 == d[k] && TrailerOf(d[k], env, r.value[k].1)
    ensures Extends(fs, after, FolderKeys(d.Values, env))
  {
    ghost var keys := FolderKeys(d.Values, env);
    forall k, s | k in d && Extends(fs, s, keys)
      ensures Extends(fs, Trailer(d[k], env, s).1, keys)
    {
      FolderKeysMono({d[k]}, d.Values, env);
      ExtendsTrans(fs, s, Trailer(d[k], env, s).1, keys, FolderKeys({d[k]}, env));
    }
    r, after := MapValuesThreaded(d, order, fs, (m, st) => Trailer(m, env, st),
                                  (m: MovieData, p: (MovieData, String)) => p.0 == m && TrailerOf(m, env, p.1),
                                  st => Extends(fs, st, keys));
  }

  /** A trailer link is empty, when the search page did not answer 200 or held no embed link, or an embed link. */
  lemma TrailerShape(m: MovieData, env: Env, link: String)
    requires TrailerOf(m, env, link)
    ensures link == [] || IsEmbedLink(link)
    ensures env.web.http(YoutubeSearch(ScraperFor(m, env).value, false)).status != 200 ==> link == []
  {
  }

  /**
   * The loop of `main` over the picked movies from the `i`-th key on, as a
   * value: each gets a scraper, which creates its cache folder, and its
   * suggestions join `found`. The first constructor or request that fails
   * raises; the older scraper class has no `get_recommendations`.
   */
  function Gathering(picked: map<String, MovieData>, env: Env, fs: Fs, i: nat, found: set<String>): (Result<set<String>, Problem>, Fs)
    requires picked.Keys == PickKeys && i <= |Picks|
    decreases |Picks| - i
  {
    if i == |Picks| then (Ok(found), fs)
    else
      match NewScraper(picked[Picks[i]], fs, env.currentYear, env.disk)
      case Err(e) => (Err(Failed(e)), fs)
      case Ok((s, after)) =>
        if env.cls == LegacyClass then (Err(MissingAttribute("get_recommendations")), after)
        else
          match TasteAnswer(env.web, TasteUrls(s))
          case Err(f) => (Err(Failed(Faulted(f))), after)
          case Ok(rec) => Gathering(picked, env, after, i + 1, found + AsSet(rec))
  }

  /** The union of the three picks' suggestions, in key order, and the cache afterwards. */
  function Gathered(picked: map<String, MovieData>, env: Env, fs: Fs): (Result<set<String>, Problem>, Fs)
    requires picked.Keys == PickKeys
  {
    Gathering(picked, env, fs, 0, {})
  }

  /** The loop over the picks only adds the picked movies' scraper folders to the cache. */
  /** The scraper of a picked movie adds at most one of the picks' folders. */
  lemma PickScraperExtends(picked: map<String, MovieData>, env: Env, base: Fs, fs: Fs, i: nat, keys: set<String>)
    requires picked.Keys == PickKeys && i < |Picks|
    requires FolderKeys(picked.Values, env) <= keys && Extends(base, fs, keys)
    ensures NewScraper(picked[Picks[i]], fs, env.currentYear, env.disk).Ok? ==>
              Extends(base, NewScraper(picked[Picks[i]], fs, env.currentYear, env.disk).value.1, keys)
  {
    var m := picked[Picks[i]];
    if NewScraper(m, fs, env.currentYear, env.disk).Err? {
      return;
    }
    assert m in picked.Values;
    FolderKeysMono({m}, picked.Values, env);
    NewScraperExtends(m, fs, env);
    ExtendsTrans(base, fs, NewScraper(m, fs, env.currentYear, env.disk).value.1, keys, FolderKeys({m}, env));
  }

  /**
   * The loop of `main` over the picked movies: each gets a scraper whose
   * suggestions join the set. The older scraper class has no
   * `get_recommendations`.
   */
  method Gather(picked: map<String, MovieData>, env: Env, fs: Fs) returns (r: Result<set<String>, Problem>, after: Fs)
    requires picked.Keys == PickKeys
    ensures (r, after) == Gathered(picked, env, fs)
    ensures Extends(fs, after, FolderKeys(picked.Values, env))
    ensures env.cls == LegacyClass ==> r.Err?
    ensures r.Ok? ==> forall x :: x in r.value ==> Stripped(x)
    ensures r.Ok? ==> |r.value| <= 9
  {
    var found: set<String> := {};
    after := fs;
    for i := 0 to |Picks|
      invariant Gathered(picked, env, fs) == Gathering(picked, env, after, i, found)
      invariant forall x :: x in found ==> Stripped(x)
      invariant |found| <= 3 * i
      invariant env.cls == LegacyClass ==> i == 0
      invariant Extends(fs, after, FolderKeys(picked.Values, env))
    {
      var made := NewScraper(picked[Picks[i]], after, env.currentYear, env.disk);
      if made.Err? {
        return Err(Failed(made.error)), after;
      }
      PickScraperExtends(picked, env, fs, after, i, FolderKeys(picked.Values, env));
      after := made.value.1;
      if env.cls == LegacyClass {
        return Err(MissingAttribute("get_recommendations")), after;
      }
      var rec, _ := GetRecommendations(env.web, made.value.0);
      if rec.Err? {
        return Err(Failed(Faulted(rec.error))), after;
      }
      var more := AsSet(rec.value);
      SetOfSeqSize(rec.value);
      UnionSize(found, more);
      found := found + more;
    }
    return Ok(found), after;
  }

  /** The distinct titles of a list of suggestions. */
  function AsSet(xs: seq<String>): set<String> {
    set x | x in xs
  }

  lemma {:induction false} SetOfSeqSize(xs: seq<String>)
    ensures |AsSet(xs)| <= |xs|
  {
    if xs != [] {
      SetOfSeqSize(xs[1..]);
      assert AsSet(xs) == {xs[0]} + AsSet(xs[1..]);
    }
  }

  lemma UnionSize(a: set<String>, b: set<String>)
    ensures |a + b| <= |a| + |b|
  {
    assert |a + b| == |a| + |b - a|;
    assert b - a <= b;
  }

  /** The loop of `main` that pops one distinct suggestion for each key. */
  method PopThree(found: set<String>) returns (titles: map<String, String>)
    requires |found| >= 3
    ensures titles.Keys == PickKeys
    ensures forall k :: k in titles ==> titles[k] in found
    ensures forall k, l :: k in titles && l in titles && k != l ==> titles[k] != titles[l]
  {
    PicksEnumerate();
    titles := map[];
    var rest := found;
    for i := 0 to |Picks|
      invariant rest <= found && |rest| == |found| - i
      invariant titles.Keys == set j | 0 <= j < i :: Picks[j]
      invariant forall k :: k in titles ==> titles[k] in found && titles[k] !in rest
      invariant forall k, l :: k in titles && l in titles && k != l ==> titles[k] != titles[l]
    {
      var x :| x in rest;
      rest := rest - {x};
      titles := titles[Picks[i] := x];
    }
    assert titles.Keys == PickKeys;
  }

  /**
   * `main`. Without the folder entry it raises before anything else; old
   * recommendation files are deleted only once the folder exists and the
   * picker found a saved movie; fewer than three distinct suggestions end
   * the run; otherwise the three keys get pairwise distinct suggestions,
   * which become movies paired with their trailer links. The older
   * scraper class never gets that far.
   */
  method RunRecommendations(env: Env, dir: RecDir, fs: Fs, shelf: Shelf, listing: seq<String>)
    returns (r: Result<Ended, Problem>, dirAfter: RecDir, fsAfter: Fs)
    requires Enumerates(listing, DataImport.ListedNames(shelf, LegacyImport.Legacy))
    ensures !env.configured ==> r == Err(MissingAttribute("mkdir")) && dirAfter == dir && fsAfter == fs
    ensures env.configured ==> dirAfter.present
    ensures dirAfter.files == dir.files || dirAfter.files == {}
    ensures dirAfter.files != dir.files ==>
              env.configured && var all := DataImport.AllMovies(shelf, listing, LegacyImport.Legacy, env.currentYear, env.disk);
              all.Ok? && all.value != []
    ensures r.Ok? && r.value.NothingToDo? ==> dirAfter.files == dir.files
    ensures r.Ok? && r.value.TooFew? ==> |r.value.found| < 3
    ensures r.Ok? && r.value.Done? ==>
              3 <= |r.value.found| <= 9 && r.value.titles.Keys == PickKeys && r.value.picks.Keys == PickKeys
              && (forall k :: k in PickKeys ==>
                    (r.value.titles[k] in r.value.found && AsMovie(r.value.titles[k], env) == Ok(r.value.picks[k].0)))
              && (forall k, l :: k in PickKeys && l in PickKeys && k != l ==> r.value.titles[k] != r.value.titles[l])
    ensures r.Ok? && r.value.Done? ==> forall k :: k in PickKeys ==> TrailerOf(r.value.picks[k].0, env, r.value.picks[k].1)
    ensures env.cls == LegacyClass ==> r.Err? || r == Ok(NothingToDo)
    ensures r.Ok? && !r.value.NothingToDo? ==>
              var all := DataImport.AllMovies(shelf, listing, LegacyImport.Legacy, env.currentYear, env.disk);
              all.Ok? && exists picked: map<String, MovieData> ::
                picked.Keys == PickKeys && (forall k :: k in picked ==> picked[k] in all.value)
                && Gathered(picked, env, fs).0 == Ok(r.value.found)
                && Extends(fs, fsAfter, FolderKeys(picked.Values, env) + FolderKeys(SuggestedMovies(r.value.found, env), env))
                && (r.value.TooFew? ==> fsAfter == Gathered(picked, env, fs).1)
    ensures r.Ok? && r.value.NothingToDo? ==> fsAfter == fs
    ensures Grows(fs, fsAfter)
  {
    var checked := CheckFolder(env, dir);
    if checked.Err? {
      return Err(checked.error), dir, fs;
    }
    dirAfter := checked.value.0;
    fsAfter := fs;
    var movies := DataImport.LoadAllMovies(shelf, listing, LegacyImport.Legacy, env.currentYear, env.disk);
    if movies.Err? {
      return Err(LoadFailed(movies.error)), dirAfter, fsAfter;
    }
    var picked := FilmPicker(DataOf(movies.value));
    if picked == map[] {
      return Ok(NothingToDo), dirAfter, fsAfter;
    }
    dirAfter := RecDir(true, {});
    r, fsAfter := Recommend(picked, env, fsAfter);
  }

  /**
   * The end of `main` once three distinct suggestions are there: three
   * pairwise distinct ones are popped, turned into movies and paired with
   * their trailer links. The cache only gains the scraper folders of
   * suggested movies, and on success those of the three picks.
   */
  method PickAndLink(found: set<String>, env: Env, fs: Fs)
    returns (r: Result<(map<String, String>, map<String, (MovieData, String)>), Problem>, fsAfter: Fs)
    requires |found| >= 3
    ensures r.Ok? ==> r.value.0.Keys == PickKeys && r.value.1.Keys == PickKeys
    ensures r.Ok? ==> forall k :: k in PickKeys ==> r.value.0[k] in found && AsMovie(r.value.0[k], env) == Ok(r.value.1[k].0)
    ensures r.Ok? ==> forall k :: k in PickKeys ==> TrailerOf(r.value.1[k].0, env, r.value.1[k].1)
    ensures r.Ok? ==> forall k, l :: k in PickKeys && l in PickKeys && k != l ==> r.value.0[k] != r.value.0[l]
    ensures Extends(fs, fsAfter, FolderKeys(SuggestedMovies(found, env), env))
    ensures r.Ok? ==> Extends(fs, fsAfter, FolderKeys(PickedMovies(r.value.1), env))
  {
    var titles := PopThree(found);
    PicksEnumerate();
    var made := StrToMovie(titles, Picks, env);
    if made.Err? {
      return Err(Failed(Invalid(made.error))), fs;
    }
    MadeFromSuggestions(titles, made.value, found, env);
    var linked;
    linked, fsAfter := CollectTrailerLinks(made.value, Picks, env, fs);
    ExtendsMono(fs, fsAfter, FolderKeys(made.value.Values, env), FolderKeys(SuggestedMovies(found, env), env));
    if linked.Err? {
      return Err(Failed(linked.error)), fsAfter;
    }
    PickedMoviesAre(made.value, linked.value);
    return Ok((titles, linked.value)), fsAfter;
  }

  /**
   * The part of `main` after the picker: the suggestions for the picked
   * movies are gathered; fewer than three distinct ones end the run,
   * otherwise three pairwise distinct ones become movies paired with their
   * trailer links.
   */
  method Recommend(picked: map<String, MovieData>, env: Env, fs: Fs) returns (r: Result<Ended, Problem>, fsAfter: Fs)
    requires picked.Keys == PickKeys
    ensures r.Ok? ==> r.value.TooFew? || r.value.Done?
    ensures r.Ok? && r.value.TooFew? ==> |r.value.found| < 3
    ensures r.Ok? && r.value.Done? ==>
              3 <= |r.value.found| <= 9 && r.value.titles.Keys == PickKeys && r.value.picks.Keys == PickKeys
              && (forall k :: k in PickKeys ==>
                    (r.value.titles[k] in r.value.found && AsMovie(r.value.titles[k], env) == Ok(r.value.picks[k].0)))
              && (forall k, l :: k in PickKeys && l in PickKeys && k != l ==> r.value.titles[k] != r.value.titles[l])
    ensures r.Ok? && r.value.Done? ==> forall k :: k in PickKeys ==> TrailerOf(r.value.picks[k].0, env, r.value.picks[k].1)
    ensures env.cls == LegacyClass ==> r.Err?
    ensures r.Ok? ==> Gathered(picked, env, fs).0 == Ok(r.value.found)
    ensures Gathered(picked, env, fs).0.Err? ==> r == Err(Gathered(picked, env, fs).0.error)
    ensures Gathered(picked, env, fs).0.Err? || (r.Ok? && r.value.TooFew?) ==> fsAfter == Gathered(picked, env, fs).1
    ensures Gathered(picked, env, fs).0.Ok? ==>
              Extends(Gathered(picked, env, fs).1, fsAfter, FolderKeys(SuggestedMovies(Gathered(picked, env, fs).0.value, env), env))
    ensures r.Ok? && r.value.Done? ==>
              Extends(Gathered(picked, env, fs).1, fsAfter, FolderKeys(PickedMovies(r.value.picks), env))
    ensures Grows(fs, fsAfter)
    ensures r.Ok? ==> Extends(fs, fsAfter, FolderKeys(picked.Values, env) + FolderKeys(SuggestedMovies(r.value.found, env), env))
  {
    var found;
    found, fsAfter := Gather(picked, env, fs);
    ghost var gathered := fsAfter;
    if found.Err? {
      return Err(found.error), fsAfter;
    }
    if |found.value| < 3 {
      return Ok(TooFew(found.value)), fsAfter;
    }
    var linked;
    linked, fsAfter := PickAndLink(found.value, env, fsAfter);
    ExtendsTrans(fs, gathered, fsAfter, FolderKeys(picked.Values, env), FolderKeys(SuggestedMovies(found.value, env), env));
    if linked.Err? {
      return Err(linked.error), fsAfter;
    }
    return Ok(Done(found.value, linked.value.0, linked.value.1)), fsAfter;
  }
}
