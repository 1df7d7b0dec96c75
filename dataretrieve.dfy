/**
 * `dataretrieve.py`: the older scraper, the one the worker thread and the
 * recommendation job import. It tries eight IMP Awards variants of a
 * sanitised title in a fixed order, cleans up actor names itself, reports
 * success as a boolean, and looks the page and the summary up in two
 * separate loops.
 */
module LegacyRetrieve {
  import opened Wrappers
  import opened Text
  import opened Net
  import opened CacheStore
  import opened MovieModel
  import DataImport
  import opened DataRetrieve

  // ---------------------------------------------------------------------------
  // imp_sanitized_title and generate_imp_links

  const LegacySuffixes: seq<String> := ["_ver2", "_ver3", "_ver4", "_ver5", "_ver6", "_ver7", "_xlg", "_xxlg"]

  /** `imp_sanitized_title`: stripped, lower-cased, one leading `"the "` dropped, spaces turned into `_`. */
  function ImpSanitizedTitle(title: String): (r: String)
    ensures ' ' !in r
  {
    var t := Lower(Strip(title));
    ReplaceChar(if StartsWith(t, "the ") then t[4..] else t, ' ', '_')
  }

  /**
   * For a stripped title the IMP Awards name is the cache folder's name,
   * unless the lower-cased title starts with `the_`: the folder name drops
   * that prefix and the IMP Awards name keeps it.
   */
  lemma ImpTitleIsStorageKey(title: String)
    requires Stripped(title) && !StartsWith(Lower(title), "the_")
    ensures ImpSanitizedTitle(title) == StorageKey(title)
  {
    StripStripped(title);
    DropTheAgrees(Lower(title));
  }

  /** Dropping `"the "` before turning spaces into `_` agrees with dropping `"the_"` after, unless `t` starts with `"the_"`. */
  lemma DropTheAgrees(t: String)
    requires !StartsWith(t, "the_")
    ensures var f := ReplaceChar(t, ' ', '_');
      ReplaceChar(if StartsWith(t, "the ") then t[4..] else t, ' ', '_') == if StartsWith(f, "the_") then f[4..] else f
  {
    var f := ReplaceChar(t, ' ', '_');
    if StartsWith(t, "the ") {
      assert f[..4] == "the_" by {
        assert t[0] == 't' && t[1] == 'h' && t[2] == 'e' && t[3] == ' ';
      }
      ReplaceCharDrop(t, ' ', '_', 4);
    }
  }

  /** `"The_Matrix"` is a valid title whose two names differ. */
  lemma ImpTitleDiffers(title: String)
    requires title == "The_Matrix"
    ensures Stripped(title)
    ensures ImpSanitizedTitle(title) == "the_matrix" && StorageKey(title) == "matrix"
  {
    StripStripped(title);
    var t := "the_matrix";
    LowerTheMatrix();
    assert !StartsWith(t, "the ") by { assert t[3] == '_'; }
    assert ImpSanitizedTitle(title) == t;
    TheMatrixKey(title);
  }

  lemma TheMatrixKey(title: String)
    requires title == "The_Matrix"
    ensures StorageKey(title) == "matrix"
  {
    var t := "the_matrix";
    LowerTheMatrix();
    assert StartsWith(t, "the_") && t[4..] == "matrix";
  }

  /** The lower-cased title, with `_` for its spaces, of `"The_Matrix"`. */
  lemma LowerTheMatrix()
    ensures Lower("The_Matrix") == "the_matrix"
    ensures ReplaceChar("the_matrix", ' ', '_') == "the_matrix"
  {
  }

  function DefaultImpLink(s: Scraper): String {
    ImpSite + IntText(s.year) + "/posters/" + ImpSanitizedTitle(s.title) + ".jpg"
  }

  /** `generate_imp_links`: the default link, then the eight variants cut four characters from its end. */
  function LegacyImpLinks(s: Scraper): (links: seq<String>)
    ensures |links| == 9 && links[0] == DefaultImpLink(s)
  {
    var d := DefaultImpLink(s);
    [d] + seq(8, i requires 0 <= i < 8 => d[..|d| - 4] + LegacySuffixes[i] + ".jpg")
  }

  /** Each variant is the default link with its suffix just before `.jpg`, in the order of the tuple. */
  lemma LegacyLinkShape(s: Scraper, i: nat)
    requires i < 8
    ensures LegacyImpLinks(s)[i + 1] == ImpSite + IntText(s.year) + "/posters/" + ImpSanitizedTitle(s.title) + LegacySuffixes[i] + ".jpg"
  {
    var d := DefaultImpLink(s);
    assert d[..|d| - 4] == ImpSite + IntText(s.year) + "/posters/" + ImpSanitizedTitle(s.title);
  }

  // ---------------------------------------------------------------------------
  // get_actors

  predicate HasDigit(x: String) {
    exists i :: 0 <= i < |x| && IsDigit(x[i])
  }

  /** The names that hold no digit, in order. */
  function WithoutDigits(xs: seq<String>): (r: seq<String>)
    ensures forall x :: x in r <==> x in xs && !HasDigit(x)
    ensures forall x :: multiset(r)[x] == if HasDigit(x) then 0 else multiset(xs)[x]
  {
    if xs == [] then []
    else
      assert xs == [xs[0]] + xs[1..];
      (if HasDigit(xs[0]) then [] else [xs[0]]) + WithoutDigits(xs[1..])
  }

  /**
   * `get_actors` after parsing: no `Starring` header gives no actors; the
   * link texts without digits are sorted by `str.casefold`, stably; when a
   * `ul` follows, its item texts without digits join them in a set first,
   * iterated in `order` and then sorted.
   */
  function GetActors(found: Starring, order: SetOrder): (actors: seq<String>)
    ensures found.NoStarring? ==> actors == []
    ensures SortedByFold(actors)
    ensures forall x :: x in actors ==> !HasDigit(x)
    ensures found.Starring? && found.list.None? ==> multiset(actors) == multiset(WithoutDigits(found.anchors))
    ensures found.Starring? && found.list.None? ==>
              forall k :: WithFold(actors, k) == WithFold(WithoutDigits(found.anchors), k)
    ensures found.Starring? && found.list.Some? ==>
              NoDup(actors) && forall x :: x in actors <==> x in found.anchors + found.list.value && !HasDigit(x)
  {
    if found.NoStarring? then []
    else if found.list.None? then
      AnchorsSorted(found.anchors);
      SortByFold(WithoutDigits(found.anchors))
    else
      var union := (set x | x in WithoutDigits(found.anchors)) + (set x | x in WithoutDigits(found.list.value));
      UnionSorted(found.anchors, found.list.value, order(union));
      SortByFold(order(union))
  }

  /** Without a `ul`: the digit-free link texts, sorted stably by `str.casefold`. */
  lemma AnchorsSorted(anchors: seq<String>)
    ensures var r := SortByFold(WithoutDigits(anchors));
      SortedByFold(r) && (forall x :: x in r ==> !HasDigit(x))
      && multiset(r) == multiset(WithoutDigits(anchors))
      && forall k :: WithFold(r, k) == WithFold(WithoutDigits(anchors), k)
  {
    var tryA := WithoutDigits(anchors);
    SortByFoldSorted(tryA);
    SortByFoldMembers(tryA);
    SortByFoldStable(tryA);
  }

  /** With a `ul`: the union of both digit-free lists, listed once each in any order, then sorted. */
  lemma UnionSorted(a: seq<String>, b: seq<String>, listed: seq<String>)
    requires Enumerates(listed, (set x | x in WithoutDigits(a)) + (set x | x in WithoutDigits(b)))
    ensures var r := SortByFold(listed);
      SortedByFold(r) && NoDup(r) && forall x :: x in r <==> x in a + b && !HasDigit(x)
  {
    SortByFoldSorted(listed);
    SortByFoldNoDup(listed);
    SortByFoldMembers(listed);
    UnionMembers(a, b, listed);
  }

  lemma UnionMembers(a: seq<String>, b: seq<String>, listed: seq<String>)
    requires forall x :: x in listed <==> x in (set x | x in WithoutDigits(a)) + (set x | x in WithoutDigits(b))
    ensures forall x :: x in listed <==> x in a + b && !HasDigit(x)
  {
    forall x ensures x in listed <==> x in a + b && !HasDigit(x) {
      assert x in listed <==> x in WithoutDigits(a) || x in WithoutDigits(b);
      assert x in WithoutDigits(a) <==> x in a && !HasDigit(x);
      assert x in WithoutDigits(b) <==> x in b && !HasDigit(x);
      assert x in a + b <==> x in a || x in b;
    }
  }

  // ---------------------------------------------------------------------------
  // _write_img_on_disk, download_poster, download_cnm_poster

  /**
   * `_write_img_on_disk`: writes and resizes `thumb.jpg`, then reports
   * whether `modify_raw_poster` returned something truthy; it returns
   * `None`, so the answer is always `False`.
   */
  function WriteImgOnDisk(fs: Fs, key: String, url: String): (r: Result<(Fs, bool), Fault>)
    ensures r.Ok? <==> IsFolder(fs, key)
    ensures r.Ok? ==> !r.value.1
    ensures r.Ok? ==> Thumb(r.value.0, key) == Some(Resized(Fetched(url), PosterWidth, PosterHeight))
    ensures r.Ok? ==> DataFile(r.value.0, key) == DataFile(fs, key) && r.value.0.entries.Keys == fs.entries.Keys
  {
    match WriteThumb(fs, key, Fetched(url))
    case Err(f) => Err(f)
    case Ok(written) =>
      var (poster, res) := ModifyRawPoster(Thumb(written, key));
      match WriteThumb(written, key, poster.value)
      case Err(f) => Err(f)
      case Ok(resized) => Ok((resized, res == Some(true)))
  }

  /** What `download_poster` returns once `_write_img_on_disk` has run. */
  function Written(fs: Fs, key: String, url: String): (r: Result<(Fs, Option<bool>), Fault>)
    ensures r.Ok? ==> r.value.1 == Some(false)
  {
    match WriteImgOnDisk(fs, key, url)
    case Err(f) => Err(f)
    case Ok(w) => Ok((w.0, Some(w.1)))
  }

  /**
   * The loop of `download_poster` over `links`: the value is `None` before
   * any link is tried, `False` after a refused one, and the write's answer
   * after the first `ok` response, which ends the loop.
   */
  method TryLinks(http: Http, fs: Fs, key: String, links: seq<String>)
    returns (r: Result<(Fs, Option<bool>), Fault>, tried: seq<String>)
    ensures var k := FirstStop(IsOkStatus, http, links);
      tried == links[..if k < |links| then k + 1 else k]
      && (k == |links| ==> r == Ok((fs, if links == [] then None else Some(false))))
      && (k < |links| && http(links[k]).NoReply? ==> r == Err(RequestFailed(links[k])))
      && (k < |links| && http(links[k]).Reply? ==> r == Written(fs, key, links[k]))
  {
    tried := [];
    var value: Option<bool> := None;
    var i := 0;
    while i < |links|
      invariant 0 <= i <= |links| && tried == links[..i]
      invariant forall j :: 0 <= j < i ==> Refused(IsOkStatus, http(links[j]))
      invariant value == if i == 0 then None else Some(false)
    {
      var response := http(links[i]);
      tried := tried + [links[i]];
      if response.NoReply? {
        StopsAt(IsOkStatus, http, links, i);
        return Err(RequestFailed(links[i])), tried;
      }
      if IsOk(response.status) {
        StopsAt(IsOkStatus, http, links, i);
        r := Written(fs, key, links[i]);
        return r, tried;
      }
      value := Some(false);
      i := i + 1;
    }
    StopsAt(IsOkStatus, http, links, i);
    return Ok((fs, value)), tried;
  }

  /**
   * `download_poster`: `True` at once when `thumb.jpg` exists; otherwise
   * the nine IMP Awards links and then the MoviePosterDB ones (`pdb`) are
   * tried in order. Only an existing poster gives `True`.
   */
  method DownloadPoster(http: Http, fs: Fs, s: Scraper, pdb: seq<String>)
    returns (r: Result<(Fs, Option<bool>), Fault>, tried: seq<String>)
    ensures Thumb(fs, Key(s)).Some? ==> r == Ok((fs, Some(true))) && tried == []
    ensures Thumb(fs, Key(s)).None? ==>
      var links := LegacyImpLinks(s) + pdb;
      var k := FirstStop(IsOkStatus, http, links);
      tried == links[..if k < |links| then k + 1 else k]
      && (k == |links| ==> r == Ok((fs, Some(false))))
      && (k < |links| && http(links[k]).NoReply? ==> r == Err(RequestFailed(links[k])))
      && (k < |links| && http(links[k]).Reply? ==> r == Written(fs, Key(s), links[k]))
    ensures r.Ok? && r.value.1 == Some(true) <==> Thumb(fs, Key(s)).Some?
  {
    if Thumb(fs, Key(s)).Some? {
      return Ok((fs, Some(true))), [];
    }
    r, tried := TryLinks(http, fs, Key(s), LegacyImpLinks(s) + pdb);
  }

  /**
   * `download_cnm_poster`, given what `generate_cnm_link` found (`""` when
   * nothing): `False` without a link, the write's answer after an `ok`
   * response, `None` after a refused one. It never reports success.
   */
  function DownloadCnmPoster(http: Http, fs: Fs, s: Scraper, cnm: String): (r: Result<(Fs, Option<bool>), Fault>)
    ensures r.Ok? ==> r.value.1 != Some(true)
    ensures cnm == [] ==> r == Ok((fs, Some(false)))
    ensures cnm != [] ==> (r.Ok? && r.value.1.None? <==> Refused(IsOkStatus, http(cnm)))
    ensures cnm != [] ==> (r.Err? <==> http(cnm).NoReply? || (http(cnm).Reply? && IsOk(http(cnm).status) && !IsFolder(fs, Key(s))))
  {
    if cnm == [] then Ok((fs, Some(false)))
    else
      match http(cnm)
      case NoReply => Err(RequestFailed(cnm))
      case Reply(status, _) =>
        if IsOk(status) then Written(fs, Key(s), cnm) else Ok((fs, None))
  }

  // ---------------------------------------------------------------------------
  // download_info

  const LongDefaultSummary: String :=
    "The summary could not be retrieved, movie title may be incomplete, incorrect or too vague"

  /** `MOVIE_GENRES`, in the order of the list. */
  const MovieGenres: seq<String> := [
    "Action", "Adventure", "Animation", "Comedy", "Crime", "Documentary",
    "Drama", "Experimental", "Fantasy", "Historical", "Horror", "Martial Arts",
    "Mistery", "Romance", "Science Fiction", "Thriller", "War", "Western"
  ]

  /**
   * The page loop: up to `left` attempts; a lookup error switches to the
   * `film` query, a timeout ends the loop, a page gives the title and cast.
   * The result holds the title, the actors and every call made.
   */
  function PageFrom(web: Web, s: Scraper, query: String, calls: seq<WikiCall>, left: nat)
    : Result<(String, seq<String>, seq<WikiCall>), Fault>
    decreases left
  {
    if left == 0 then Ok((DefaultTitle(s), [], calls))
    else
      var calls' := calls + [PageCall(query)];
      match web.page(query)
      case Found(p) => Ok((p.title, GetActors(web.starring(p.html), web.order), calls'))
      case TimedOut => Ok((DefaultTitle(s), [], calls'))
      case OtherError => Err(WikiFailed(query))
      case _ => PageFrom(web, s, FilmQuery(s), calls', left - 1)
  }

  /**
   * The summary loop: up to `left` attempts and no `break` on success: each
   * summary found replaces the last one and its genre sentence; a lookup
   * error switches to the `film` query, a timeout ends the loop.
   */
  function SummaryFrom(web: Web, s: Scraper, query: String, summary: String, sentence: Option<String>,
                       calls: seq<WikiCall>, left: nat)
    : Result<(String, Option<String>, seq<WikiCall>), Fault>
    decreases left
  {
    if left == 0 then Ok((summary, sentence, calls))
    else
      var calls' := calls + [SummaryCall(query)];
      match web.summary(query)
      case Found(text) => SummaryFrom(web, s, query, text, Some(GenreSentence(text, s.title)), calls', left - 1)
      case TimedOut => Ok((summary, sentence, calls'))
      case OtherError => Err(WikiFailed(query))
      case _ => SummaryFrom(web, s, FilmQuery(s), summary, sentence, calls', left - 1)
  }

  /** `MOVIE_GENRES` entries whose case-folded name occurs in the sentence, in list order. */
  function GenresIn(vocab: seq<String>, sentence: String): (r: seq<String>)
    ensures |r| <= |vocab|
    ensures forall g :: g in r <==> g in vocab && Contains(sentence, Lower(g))
  {
    if vocab == [] then []
    else (if Contains(sentence, Lower(vocab[0])) then [vocab[0]] else []) + GenresIn(vocab[1..], sentence)
  }

  /** The genres: none unless a summary was found and its sentence is not empty. */
  function LegacyGenres(sentence: Option<String>): seq<String> {
    if sentence.None? || sentence.value == [] then [] else GenresIn(MovieGenres, sentence.value)
  }

  /** `a` keeps some of the elements of `b`, in the order `b` has them. */
  predicate SubsequenceOf<T(==)>(a: seq<T>, b: seq<T>)
    decreases |b|
  {
    a == [] || (b != [] && ((a[0] == b[0] && SubsequenceOf(a[1..], b[1..])) || SubsequenceOf(a, b[1..])))
  }

  lemma {:induction false} GenresInOrder(vocab: seq<String>, sentence: String)
    ensures SubsequenceOf(GenresIn(vocab, sentence), vocab)
    ensures NoDup(vocab) ==> NoDup(GenresIn(vocab, sentence))
  {
    if vocab != [] {
      if NoDup(vocab) {
        assert NoDup(vocab[1..]);
      }
      GenresInOrder(vocab[1..], sentence);
      var rest := GenresIn(vocab[1..], sentence);
      if !Contains(sentence, Lower(vocab[0])) {
        assert GenresIn(vocab, sentence) == rest;
      } else {
        var r := GenresIn(vocab, sentence);
        assert r == [vocab[0]] + rest;
        assert r[0] == vocab[0] && r[1..] == rest;
        assert SubsequenceOf(r, vocab);
        if NoDup(vocab) {
          assert vocab[0] !in vocab[1..];
        }
      }
    }
  }

  /** The first two characters of a name, as one number ordered like the pair. */
  function Initials(g: String): int
    requires |g| >= 2
  {
    g[0] as int * 0x1_0000 + g[1] as int
  }

  /** Names whose initials increase along the list are distinct. */
  lemma {:induction false} InitialsIncrease(vocab: seq<String>)
    requires forall i :: 0 <= i < |vocab| ==> |vocab[i]| >= 2
    requires forall i :: 0 <= i < |vocab| - 1 ==> Initials(vocab[i]) < Initials(vocab[i + 1])
    ensures forall i, j :: 0 <= i < j < |vocab| ==> Initials(vocab[i]) < Initials(vocab[j])
    decreases |vocab|
  {
    if |vocab| > 1 {
      var tail := vocab[1..];
      forall i | 0 <= i < |tail| - 1 ensures Initials(tail[i]) < Initials(tail[i + 1]) {
        assert tail[i] == vocab[i + 1] && tail[i + 1] == vocab[i + 2];
      }
      InitialsIncrease(tail);
      forall i, j | 0 <= i < j < |vocab| ensures Initials(vocab[i]) < Initials(vocab[j]) {
        if i > 0 {
          assert vocab[i] == tail[i - 1] && vocab[j] == tail[j - 1];
        } else if j > 1 {
          assert vocab[1] == tail[0] && vocab[j] == tail[j - 1];
        }
      }
    }
  }

  /** `MOVIE_GENRES` lists each genre once: their first two letters already differ, in alphabetical order. */
  lemma MovieGenresDistinct()
    ensures NoDup(MovieGenres)
  {
    InitialsIncrease(MovieGenres);
  }

  /** The genres are distinct entries of `MOVIE_GENRES`, in its order, each named in the sentence. */
  lemma LegacyGenresListed(sentence: Option<String>)
    ensures var g := LegacyGenres(sentence);
      SubsequenceOf(g, MovieGenres) && NoDup(g)
      && (forall x :: x in g <==> sentence.Some? && sentence.value != [] && x in MovieGenres && Contains(sentence.value, Lower(x)))
  {
    MovieGenresDistinct();
    if sentence.Some? && sentence.value != [] {
      GenresInOrder(MovieGenres, sentence.value);
    }
  }

  function LegacyRecord(title: String, summary: String, actors: seq<String>, genres: seq<String>): (j: Json)
    ensures j.JObject? && j.fields.Keys == {"title", "summary", "actors", "genre"}
  {
    JObject(map["title" := JStr(title), "summary" := JStr(summary), "actors" := Strs(actors), "genre" := Strs(genres)])
  }

  /**
   * `download_info` of the older scraper as a value: `True` at once when a
   * data file exists; otherwise the page loop, the summary loop from the
   * first query again, the genres, and the four-key record written, after
   * which the file exists and the answer is `True`.
   */
  function LegacyInfoOf(web: Web, fs: Fs, s: Scraper): Result<(Fs, bool), Fault> {
    if DataFile(fs, Key(s)).Some? then Ok((fs, true))
    else
      match PageFrom(web, s, FirstQuery(s), [], 2)
      case Err(f) => Err(f)
      case Ok((title, actors, calls)) =>
        match SummaryFrom(web, s, FirstQuery(s), LongDefaultSummary, None, calls, 2)
        case Err(f) => Err(f)
        case Ok((summary, sentence, _)) =>
          match WriteData(fs, Key(s), LegacyRecord(title, summary, actors, LegacyGenres(sentence)))
          case Err(f) => Err(f)
          case Ok(written) => Ok((written, DataFile(written, Key(s)).Some?))
  }

  /** The page loop of `download_info`. */
  method PageLoop(web: Web, s: Scraper) returns (r: Result<(String, seq<String>, seq<WikiCall>), Fault>)
    ensures r == PageFrom(web, s, FirstQuery(s), [], 2)
  {
    var officialTitle := DefaultTitle(s);
    var actors: seq<String> := [];
    var calls: seq<WikiCall> := [];
    var query := FirstQuery(s);
    var attempt := 0;
    while attempt < 2
      invariant 0 <= attempt <= 2 && officialTitle == DefaultTitle(s) && actors == []
      invariant PageFrom(web, s, FirstQuery(s), [], 2) == PageFrom(web, s, query, calls, 2 - attempt)
    {
      attempt := attempt + 1;
      calls := calls + [PageCall(query)];
      var pr := web.page(query);
      if IsLookupError(pr) {
        query := FilmQuery(s);
        continue;
      } else if pr.TimedOut? {
        break;
      } else if pr.OtherError? {
        return Err(WikiFailed(query));
      }
      return Ok((pr.value.title, GetActors(web.starring(pr.value.html), web.order), calls));
    }
    return Ok((officialTitle, actors, calls));
  }

  /** The summary loop of `download_info`, which starts again from the first query. */
  method SummaryLoop(web: Web, s: Scraper, calls0: seq<WikiCall>) returns (r: Result<(String, Option<String>, seq<WikiCall>), Fault>)
    ensures r == SummaryFrom(web, s, FirstQuery(s), LongDefaultSummary, None, calls0, 2)
  {
    var summary := LongDefaultSummary;
    var sentence: Option<String> := None;
    var calls := calls0;
    var query := FirstQuery(s);
    var attempt := 0;
    while attempt < 2
      invariant 0 <= attempt <= 2
      invariant SummaryFrom(web, s, FirstQuery(s), LongDefaultSummary, None, calls0, 2)
             == SummaryFrom(web, s, query, summary, sentence, calls, 2 - attempt)
    {
      attempt := attempt + 1;
      calls := calls + [SummaryCall(query)];
      var sr := web.summary(query);
      if IsLookupError(sr) {
        query := FilmQuery(s);
        continue;
      } else if sr.TimedOut? {
        break;
      } else if sr.OtherError? {
        return Err(WikiFailed(query));
      }
      summary := sr.value;
      sentence := Some(GenreSentence(summary, s.title));
    }
    return Ok((summary, sentence, calls));
  }

  /** The comprehension over `MOVIE_GENRES`. */
  method ListGenres(sentence: Option<String>) returns (genres: seq<String>)
    ensures genres == LegacyGenres(sentence)
  {
    genres := [];
    if sentence.None? || sentence.value == [] {
      return;
    }
    genres := ScanGenres(MovieGenres, sentence.value);
  }

  /** The loop of the comprehension: the entries of `vocab` the sentence mentions, in order. */
  method ScanGenres(vocab: seq<String>, sentence: String) returns (genres: seq<String>)
    ensures genres == GenresIn(vocab, sentence)
  {
    genres := [];
    for i := 0 to |vocab|
      invariant genres == GenresIn(vocab[..i], sentence)
    {
      GenresInPrefix(vocab, i, sentence);
      if Contains(sentence, Lower(vocab[i])) {
        genres := genres + [vocab[i]];
      }
    }
    assert vocab[..|vocab|] == vocab;
  }

  /** `download_info` of the older scraper. */
  method DownloadInfo(web: Web, fs: Fs, s: Scraper) returns (r: Result<(Fs, bool), Fault>)
    ensures r == LegacyInfoOf(web, fs, s)
  {
    if DataFile(fs, Key(s)).Some? {
      return Ok((fs, true));
    }
    var page := PageLoop(web, s);
    if page.Err? {
      return Err(page.error);
    }
    var (officialTitle, actors, calls) := page.value;
    var summaries := SummaryLoop(web, s, calls);
    if summaries.Err? {
      return Err(summaries.error);
    }
    var (summary, sentence, _) := summaries.value;
    var genres := ListGenres(sentence);
    var written := WriteData(fs, Key(s), LegacyRecord(officialTitle, summary, actors, genres));
    if written.Err? {
      return Err(written.error);
    }
    return Ok((written.value, DataFile(written.value, Key(s)).Some?));
  }

  /** Extending the vocabulary by one entry extends the genres by at most that entry. */
  lemma {:induction false} GenresInPrefix(vocab: seq<String>, i: nat, sentence: String)
    requires i < |vocab|
    ensures GenresIn(vocab[..i + 1], sentence)
         == GenresIn(vocab[..i], sentence) + (if Contains(sentence, Lower(vocab[i])) then [vocab[i]] else [])
    decreases i
  {
    if i > 0 {
      GenresInPrefix(vocab[1..], i - 1, sentence);
      assert vocab[..i + 1][1..] == vocab[1..][..i];
      assert vocab[..i][1..] == vocab[1..][..i - 1];
      assert vocab[..i + 1][0] == vocab[..i][0] == vocab[0] && vocab[1..][i - 1] == vocab[i];
    } else {
      assert vocab[..1] == [vocab[0]] && vocab[..0] == [];
    }
  }

  /**
   * The page loop makes one or two calls: the first for `"{title} {year}"`,
   * a second, for `"{title} film"`, only after a lookup error. A page found
   * gives its title and the actors `get_actors` reads from it; a timeout or
   * a second lookup error leaves the default title and no actors.
   */
  lemma LegacyPageCalls(web: Web, s: Scraper)
    requires PageFrom(web, s, FirstQuery(s), [], 2).Ok?
    ensures var r := PageFrom(web, s, FirstQuery(s), [], 2).value;
      var calls := r.2;
      1 <= |calls| <= 2 && calls[0] == PageCall(FirstQuery(s))
      && (|calls| == 2 <==> IsLookupError(web.page(FirstQuery(s))))
      && (|calls| == 2 ==> calls[1] == PageCall(FilmQuery(s)))
      && (web.page(calls[|calls| - 1].query).Found? ==>
            var p := web.page(calls[|calls| - 1].query).value;
            r.0 == p.title && r.1 == GetActors(web.starring(p.html), web.order))
      && (!web.page(calls[|calls| - 1].query).Found? ==> r.0 == DefaultTitle(s) && r.1 == [])
  {
    var q1, q2 := FirstQuery(s), FilmQuery(s);
    assert [] + [PageCall(q1)] == [PageCall(q1)];
    if IsLookupError(web.page(q1)) {
      assert PageFrom(web, s, q1, [], 2) == PageFrom(web, s, q2, [PageCall(q1)], 1);
      assert [PageCall(q1)] + [PageCall(q2)] == [PageCall(q1), PageCall(q2)];
    }
  }

  /** A timeout on the first page request ends the loop at once with the default title and no actors. */
  lemma LegacyPageTimeout(web: Web, s: Scraper)
    requires web.page(FirstQuery(s)).TimedOut?
    ensures PageFrom(web, s, FirstQuery(s), [], 2) == Ok((DefaultTitle(s), [], [PageCall(FirstQuery(s))]))
  {
    assert [] + [PageCall(FirstQuery(s))] == [PageCall(FirstQuery(s))];
  }

  /** The actors the page loop yields are sorted by `str.casefold` and hold no digit. */
  lemma {:induction false} PageActors(web: Web, s: Scraper, query: String, calls: seq<WikiCall>, left: nat)
    requires PageFrom(web, s, query, calls, left).Ok?
    ensures var actors := PageFrom(web, s, query, calls, left).value.1;
      SortedByFold(actors) && forall x :: x in actors ==> !HasDigit(x)
    decreases left
  {
    if left > 0 && IsLookupError(web.page(query)) {
      PageActors(web, s, FilmQuery(s), calls + [PageCall(query)], left - 1);
    }
  }

  /**
   * When the older `download_info` writes, it writes the four keys, and the
   * actors it stores are sorted by `str.casefold` and hold no digit; nothing
   * else in the cache changes.
   */
  lemma LegacyActorsWritten(web: Web, fs: Fs, s: Scraper)
    requires DataFile(fs, Key(s)).None? && LegacyInfoOf(web, fs, s).Ok?
    ensures var fs' := LegacyInfoOf(web, fs, s).value.0;
      DataFile(fs', Key(s)).Some? && DataFile(fs', Key(s)).value.Parsed? &&
      var j := DataFile(fs', Key(s)).value.value;
      j.JObject? && j.fields.Keys == {"title", "summary", "actors", "genre"} &&
      exists actors :: j.fields["actors"] == Strs(actors) && SortedByFold(actors) && (forall x :: x in actors ==> !HasDigit(x))
    ensures var fs' := LegacyInfoOf(web, fs, s).value.0;
      fs'.entries.Keys == fs.entries.Keys && forall k :: k in fs.entries && k != Key(s) ==> fs'.entries[k] == fs.entries[k]
  {
    var page := PageFrom(web, s, FirstQuery(s), [], 2).value;
    PageActors(web, s, FirstQuery(s), [], 2);
    var summaries := SummaryFrom(web, s, FirstQuery(s), LongDefaultSummary, None, page.2, 2).value;
    var rec := LegacyRecord(page.0, summaries.0, page.1, LegacyGenres(summaries.1));
    assert WriteData(fs, Key(s), rec) == Ok(LegacyInfoOf(web, fs, s).value.0);
    assert rec.fields["actors"] == Strs(page.1);
  }

  /** An existing data file is never rewritten; otherwise the answer is `True` whenever nothing raises. */
  lemma LegacyInfoAnswer(web: Web, fs: Fs, s: Scraper)
    ensures DataFile(fs, Key(s)).Some? ==> LegacyInfoOf(web, fs, s) == Ok((fs, true))
    ensures LegacyInfoOf(web, fs, s).Ok? ==> LegacyInfoOf(web, fs, s).value.1
  {
  }

  /**
   * The summary loop never stops early on success: from any state it makes
   * all its attempts unless the last call made timed out.
   */
  lemma {:induction false} SummaryCallsMade(web: Web, s: Scraper, query: String, summary: String, sentence: Option<String>,
                                            calls: seq<WikiCall>, left: nat)
    requires SummaryFrom(web, s, query, summary, sentence, calls, left).Ok?
    ensures var l := SummaryFrom(web, s, query, summary, sentence, calls, left).value.2;
      |calls| <= |l| <= |calls| + left
      && (|l| == |calls| + left || (|l| > |calls| && web.summary(l[|l| - 1].query).TimedOut?))
    decreases left
  {
    if left > 0 {
      var calls' := calls + [SummaryCall(query)];
      match web.summary(query)
      case Found(text) =>
        SummaryCallsMade(web, s, query, text, Some(GenreSentence(text, s.title)), calls', left - 1);
      case TimedOut =>
      case OtherError =>
      case _ =>
        SummaryCallsMade(web, s, FilmQuery(s), summary, sentence, calls', left - 1);
    }
  }

  /** A summary found on the first query is asked for a second time, and the second answer is the one kept. */
  lemma SummaryAskedTwice(web: Web, s: Scraper, calls: seq<WikiCall>, text: String)
    requires web.summary(FirstQuery(s)) == Found(text)
    ensures SummaryFrom(web, s, FirstQuery(s), LongDefaultSummary, None, calls, 2)
         == Ok((text, Some(GenreSentence(text, s.title)), calls + [SummaryCall(FirstQuery(s)), SummaryCall(FirstQuery(s))]))
  {
    var q := FirstQuery(s);
    assert calls + [SummaryCall(q)] + [SummaryCall(q)] == calls + [SummaryCall(q), SummaryCall(q)];
  }
}
