/**
 * `data_retrieve.py`: the scraper of the current version. It builds the
 * IMP Awards, YouTube, IMDb and TasteDive links of a movie, downloads a
 * poster from the first source that answers, and gathers the movie's
 * information (title, summary, cast, genres, trailer, IMDb page) into its
 * `data.json`.
 *
 * Every answer from the network is a parameter (`Web`): the HTTP responses
 * by URL, the `wikipedia` package by query, and the parts of a page that
 * BeautifulSoup extracts. The YouTube and IMDb regular expressions are
 * modelled by `Text.Search`; the TasteDive one by the `groups` answer and
 * the cast one by the `cast` answer of `Web`.
 */
module DataRetrieve {
  import opened Wrappers
  import opened Text
  import opened Net
  import opened CacheStore
  import opened MovieModel

  const ImpSite: String := "http://www.impawards.com/"
  const PdbSite: String := "https://www.movieposterdb.com/"
  const CnmSite: String := "https://www.cinematerial.com/"
  const YoutubeSite: String := "https://www.youtube.com/"
  const TasteSite: String := "https://tastedive.com/"

  /** What BeautifulSoup finds around the `Starring` header of a page. */
  datatype Starring =
    | NoStarring
    | Starring(anchors: seq<String>, list: Option<seq<String>>)  // the texts of the row's links, of the next `ul`'s items

  /**
   * The order in which CPython iterates over a set of strings. It follows
   * the strings' hashes, which change from run to run, so it is an input;
   * every element comes exactly once.
   */
  type SetOrder = f: set<String> -> seq<String> | forall u :: Enumerates(f(u), u)
    ghost witness (u: set<String>) => AnyOrder(u)

  ghost function AnyOrder(u: set<String>): (r: seq<String>)
    ensures Enumerates(r, u)
    decreases u
  {
    if u == {} then []
    else
      var x :| x in u;
      [x] + AnyOrder(u - {x})
  }

  /** Everything the scraper learns from outside. */
  datatype Web = Web(
    http: Http,                                          // `requests.get`, by URL
    divs: String -> seq<String>,                         // the `rightsidesmallbordered` divs of an IMP Awards page, as text
    groups: String -> Option<(String, String, String)>,  // the `"recommendations"` match on a TasteDive page
    page: String -> WikiReply<WikiPage>,                 // `wikipedia.page(q)`
    summary: String -> WikiReply<String>,                // `wikipedia.summary(q, 3)`
    cast: String -> seq<String>,                         // `get_actors` of the current scraper on the HTML of a page
    starring: String -> Starring,                        // the `Starring` row the older scraper parses from that HTML
    order: SetOrder)                                     // how a set of names is iterated

  /** A `MovieScraper`: the title and year it re-validated from the movie it was given. */
  datatype Scraper = Scraper(title: String, year: int)

  /** Anything that escapes a scraper method. */
  datatype Failure =
    | Invalid(error: MovieError)  // the constructor's validation
    | Faulted(fault: Fault)       // a request, a `wikipedia` call or a file write
    | Unreadable(raised: Raised)  // `load_data_file`
    | Raising(raised: Raised)     // an exception the scraper's own code raises

  function Key(s: Scraper): String {
    StorageKey(s.title)
  }

  /**
   * `MovieScraper(movie)`: `Movie.__init__(movie.title, movie.year)` runs
   * again (no path, rating `"-"`), then the cache folder is created.
   */
  function NewScraper(m: MovieData, fs: Fs, currentYear: int, disk: set<String>): (r: Result<(Scraper, Fs), Failure>)
    ensures var v := Validate(PyStr(m.title), PyInt(m.year), PyNone, PyStr("-"), currentYear, disk);
      (v.Err? ==> r == Err(Invalid(v.error)))
      && (r.Ok? ==> v.Ok? && r.value.0 == Scraper(v.value.title, v.value.year) && IsFolder(r.value.1, Key(r.value.0)))
    ensures r.Ok? ==> r.value.0.year == m.year
  {
    match Validate(PyStr(m.title), PyInt(m.year), PyNone, PyStr("-"), currentYear, disk)
    case Err(e) => Err(Invalid(e))
    case Ok(d) =>
      var s := Scraper(d.title, d.year);
      match MakeFolder(fs, Key(s))
      case Err(f) => Err(Faulted(f))
      case Ok(fs') => Ok((s, fs'))
  }

  // ---------------------------------------------------------------------------
  // generate_imp_links

  const ImpSuffixes: set<String> := {
    "_ver2", "_ver3", "_ver4", "_ver5", "_ver6", "_ver7",
    "_ver8", "_ver9", "_ver10", "_xlg", "_xxlg"
  }

  /** The default IMP Awards link; the name is the `stem` of the cache folder. */
  function ImpPage(s: Scraper, end: String): String {
    ImpSite + IntText(s.year) + "/posters/" + Stem(Key(s)) + "." + end
  }

  /** `end` first occurs in the default link where the link ends. */
  predicate EndsOnlyAtEnd(link: String, end: String) {
    |end| <= |link| && Find(link, end) == |link| - |end|
  }

  /** `def_imp_link.index(end)` is found, and is not at the very start. */
  lemma ImpCutInRange(s: Scraper, end: String)
    requires end == "jpg" || end == "html"
    ensures 1 <= Find(ImpPage(s, end), end) <= |ImpPage(s, end)| - |end|
  {
    var d := ImpPage(s, end);
    assert d[..|ImpSite|] == ImpSite;
    assert OccursAt(d, end, |d| - |end|);
    if end == "jpg" {
      assert d[0] != end[0];
    } else {
      assert d[2] != end[2];
    }
    assert !OccursAt(d, end, 0);
  }

  /** The links `generate_imp_links(end)` builds before any `posters/` is removed. */
  function ImpRaw(s: Scraper, end: String, order: seq<String>): (links: seq<String>)
    requires end == "jpg" || end == "html"
    ensures |links| == |order| + 1 && links[0] == ImpPage(s, end)
  {
    var d := ImpPage(s, end);
    ImpCutInRange(s, end);
    var cut := Find(d, end) - 1;
    [d] + seq(|order|, i requires 0 <= i < |order| => d[..cut] + order[i] + "." + end)
  }

  /**
   * `generate_imp_links(end)`: the default link, then one link per suffix in
   * the order the set is iterated, each cut just before the first
   * occurrence of `end` less one character; for `html`, `posters/` is
   * removed from every link.
   */
  function ImpLinks(s: Scraper, end: String, order: seq<String>): (links: seq<String>)
    requires end == "jpg" || end == "html"
    ensures |links| == |order| + 1
  {
    var all := ImpRaw(s, end, order);
    if end == "html" then seq(|all|, i requires 0 <= i < |all| => Replace(all[i], "posters/", "")) else all
  }

  /** When `end` first occurs where the default link ends, each variant is the stem followed by its suffix. */
  lemma ImpRawVariant(s: Scraper, end: String, order: seq<String>, i: nat)
    requires end == "jpg" || end == "html"
    requires EndsOnlyAtEnd(ImpPage(s, end), end) && i < |order|
    ensures ImpRaw(s, end, order)[i + 1] == ImpSite + IntText(s.year) + "/" + ("posters/" + (Stem(Key(s)) + order[i] + "." + end))
  {
    var d := ImpPage(s, end);
    var p := ImpSite + IntText(s.year) + "/" + ("posters/" + Stem(Key(s)));
    ImpPageParts(s, end);
    assert d[..|d| - |end| - 1] == p;
    assert ImpRaw(s, end, order)[i + 1] == p + order[i] + "." + end;
    Regroup(ImpSite + IntText(s.year) + "/", "posters/", Stem(Key(s)), order[i], end);
  }

  /** Concatenation regrouped around a variant's suffix. */
  lemma Regroup(a: String, b: String, k: String, v: String, e: String)
    ensures a + (b + k) + v + "." + e == a + (b + (k + v + "." + e))
  {
  }

  /** The default link is the folder part, then `.` and the extension. */
  lemma ImpPageParts(s: Scraper, end: String)
    ensures ImpPage(s, end) == ImpSite + IntText(s.year) + "/" + ("posters/" + Stem(Key(s))) + ("." + end)
  {
  }

  /** Twelve links, the default first. */
  lemma ImpLinkCount(s: Scraper, order: seq<String>)
    requires Enumerates(order, ImpSuffixes)
    ensures |ImpLinks(s, "jpg", order)| == 12 && |ImpLinks(s, "html", order)| == 12
    ensures ImpLinks(s, "jpg", order)[0] == ImpPage(s, "jpg")
  {
    ImpSuffixCount();
    EnumerationSize(order, ImpSuffixes);
  }

  /** The eleven suffixes are distinct. */
  lemma ImpSuffixCount()
    ensures |ImpSuffixes| == 11
  {
  }

  /** When the stem does not hold `jpg` earlier, each variant is the stem followed by its suffix. */
  lemma ImpJpgLinks(s: Scraper, order: seq<String>, i: nat)
    requires EndsOnlyAtEnd(ImpPage(s, "jpg"), "jpg") && i < |order|
    ensures ImpLinks(s, "jpg", order)[i + 1] == ImpSite + IntText(s.year) + "/posters/" + Stem(Key(s)) + order[i] + ".jpg"
  {
    ImpRawVariant(s, "jpg", order, i);
  }

  /** No `p` of the IMP Awards address is followed by an `o`. */
  lemma ImpSiteHasNoPo()
    ensures forall j :: 0 <= j < |ImpSite| - 1 ==> ImpSite[j] != 'p' || ImpSite[j + 1] != 'o'
  {
  }

  /** `posters/` cannot start where the text does not read `po`. */
  lemma NotPostersAt(t: String, j: int)
    requires 0 <= j && j + 1 < |t| && (t[j] != 'p' || t[j + 1] != 'o')
    ensures !OccursAt(t, "posters/", j)
  {
    if j + 8 <= |t| {
      assert t[j..j + 8][0] == t[j] && t[j..j + 8][1] == t[j + 1];
    }
  }

  /** No occurrence of `posters/` starts inside the site and year part of a link. */
  lemma NoPostersBeforeName(y: String, rest: String)
    requires forall i :: 0 <= i < |y| ==> IsDigit(y[i]) || y[i] == '-'
    ensures forall j :: 0 <= j < |ImpSite + y + "/"| ==> !OccursAt(ImpSite + y + "/" + rest, "posters/", j)
  {
    var pre := ImpSite + y + "/";
    var t := pre + rest;
    forall j | 0 <= j < |pre|
      ensures !OccursAt(t, "posters/", j)
    {
      if j + 1 < |t| {
        if j < |ImpSite| - 1 {
          ImpSiteHasNoPo();
          assert t[j] == ImpSite[j] && t[j + 1] == ImpSite[j + 1];
        } else if j == |ImpSite| - 1 {
          assert t[j] == '/';
        } else if j < |ImpSite| + |y| {
          assert t[j] == y[j - |ImpSite|];
        } else {
          assert t[j] == '/';
        }
        NotPostersAt(t, j);
      }
    }
  }

  /** Removing `posters/` from a link whose name holds none of its own leaves the site, the year and the name. */
  lemma DropPosters(y: String, rest: String)
    requires forall i :: 0 <= i < |y| ==> IsDigit(y[i]) || y[i] == '-'
    requires !Contains(rest, "posters/")
    ensures Replace(ImpSite + y + "/" + ("posters/" + rest), "posters/", "") == ImpSite + y + "/" + rest
  {
    NoPostersBeforeName(y, "posters/" + rest);
    DeleteOnce(ImpSite + y + "/", "posters/", rest);
  }

  /** An `html` link is its `jpg`-style counterpart without `posters/`, when the name holds no `posters/` of its own. */
  lemma ImpHtmlLinks(s: Scraper, order: seq<String>, i: nat)
    requires EndsOnlyAtEnd(ImpPage(s, "html"), "html") && i < |order|
    requires !Contains(Stem(Key(s)) + order[i] + ".html", "posters/")
    ensures ImpLinks(s, "html", order)[i + 1] == ImpSite + IntText(s.year) + "/" + Stem(Key(s)) + order[i] + ".html"
  {
    var rest := Stem(Key(s)) + order[i] + ".html";
    ImpRawVariant(s, "html", order, i);
    assert Stem(Key(s)) + order[i] + "." + "html" == rest;
    IntTextChars(s.year);
    DropPosters(IntText(s.year), rest);
  }

  // ---------------------------------------------------------------------------
  // get_youtube_link

  const EmbedBase: String := YoutubeSite + "embed/"
  const YoutubePattern: Pattern := Pattern("watch?v=", 11, NonSpaceClass, "")

  /** The search terms: the stripped title with `+` for spaces, then the year if asked for. */
  function YoutubeQuery(s: Scraper, withYear: bool): String {
    ReplaceChar(Strip(s.title), ' ', '+') + (if withYear then "+" + IntText(s.year) else "")
  }

  function YoutubeSearch(s: Scraper, withYear: bool): String {
    YoutubeSite + "results?search_query=" + YoutubeQuery(s, withYear) + "+trailer"
  }

  /** An embedded video link: the embed base and an 11-character identifier without whitespace. */
  predicate IsEmbedLink(l: String) {
    |l| == |EmbedBase| + 11 && l[..|EmbedBase|] == EmbedBase && forall j :: |EmbedBase| <= j < |l| ==> !IsSpace(l[j])
  }

  /** `get_youtube_link`: the first `watch?v=` identifier on the results page, or `""`. */
  function YoutubeLink(http: Http, s: Scraper, withYear: bool): (r: Result<String, Fault>)
    ensures r.Err? <==> http(YoutubeSearch(s, withYear)).NoReply?
    ensures r.Ok? ==> r.value == [] || IsEmbedLink(r.value)
    ensures r.Ok? && http(YoutubeSearch(s, withYear)).status != 200 ==> r.value == []
  {
    var page := YoutubeSearch(s, withYear);
    match http(page)
    case NoReply => Err(RequestFailed(page))
    case Reply(status, text) =>
      if status != 200 then Ok([])
      else
        match Search(text, YoutubePattern)
        case None => Ok([])
        case Some(id) => Ok(EmbedBase + id)
  }

  /** The query holds no space: every space of the stripped title became `+`. */
  lemma YoutubeQueryHasNoSpace(s: Scraper, withYear: bool)
    ensures ' ' !in YoutubeQuery(s, withYear)
  {
    IntTextChars(s.year);
  }

  // ---------------------------------------------------------------------------
  // get_imdb_page_link

  const ImdbBase: String := "https://www.imdb.com/title/"
  const ImdbPattern: Pattern := Pattern("title/", 9, WordClass, "\"")

  /** `https://www.imdb.com/title/`, nine word characters, `/`. */
  predicate IsImdbLink(l: String) {
    |l| == |ImdbBase| + 10 && l[..|ImdbBase|] == ImdbBase && l[|l| - 1] == '/'
    && forall j :: |ImdbBase| <= j < |l| - 1 ==> IsWordChar(l[j])
  }

  function ImdbLink(id: Option<String>): (l: String)
    requires id.Some? ==> |id.value| == 9 && forall j :: 0 <= j < 9 ==> IsWordChar(id.value[j])
    ensures l == [] || IsImdbLink(l)
  {
    if id.None? then [] else ImdbBase + id.value + "/"
  }

  /** The identifier the loop over the divs ends with: each div naming `www.imdb.com` overwrites it. */
  function LastImdbId(divs: seq<String>): (r: Option<String>)
    ensures r.Some? ==> |r.value| == 9 && forall j :: 0 <= j < 9 ==> IsWordChar(r.value[j])
  {
    if divs == [] then None
    else if Contains(divs[|divs| - 1], "www.imdb.com") then Search(divs[|divs| - 1], ImdbPattern)
    else LastImdbId(divs[..|divs| - 1])
  }

  /** The last div that names `www.imdb.com` decides, even when it holds no identifier. */
  lemma {:induction false} LastQualifyingDecides(divs: seq<String>, k: nat)
    requires k < |divs| && Contains(divs[k], "www.imdb.com")
    requires forall j :: k < j < |divs| ==> !Contains(divs[j], "www.imdb.com")
    ensures LastImdbId(divs) == Search(divs[k], ImdbPattern)
    decreases |divs|
  {
    if k < |divs| - 1 {
      var init := divs[..|divs| - 1];
      assert init[k] == divs[k];
      LastQualifyingDecides(init, k);
    }
  }

  /** `get_imdb_page_link(imp_url)` as a value. */
  function ImdbPageLink(web: Web, url: String): (r: Result<String, Fault>)
    ensures r.Err? <==> web.http(url).NoReply?
    ensures r.Ok? ==> r.value == [] || IsImdbLink(r.value)
    ensures r.Ok? && web.http(url).status != 200 ==> r.value == []
  {
    match web.http(url)
    case NoReply => Err(RequestFailed(url))
    case Reply(status, text) => if status != 200 then Ok([]) else Ok(ImdbLink(LastImdbId(web.divs(text))))
  }

  /** `get_imdb_page_link`, with its loop over the divs. */
  method GetImdbPageLink(web: Web, url: String) returns (r: Result<String, Fault>)
    ensures r == ImdbPageLink(web, url)
  {
    var response := web.http(url);
    if response.NoReply? {
      return Err(RequestFailed(url));
    }
    if response.status != 200 {
      return Ok([]);
    }
    var divs := web.divs(response.text);
    var id: Option<String> := None;
    for k := 0 to |divs|
      invariant id == LastImdbId(divs[..k])
    {
      assert divs[..k + 1][..k] == divs[..k];
      var element := divs[k];
      if !Contains(element, "www.imdb.com") {
        continue;
      }
      id := Search(element, ImdbPattern);
    }
    assert divs[..|divs|] == divs;
    return Ok(ImdbLink(id));
  }

  /** The first non-empty IMDb link the pages give, or `""`. */
  function FirstImdb(web: Web, links: seq<String>): (r: Result<String, Fault>)
    ensures r.Ok? ==> r.value == [] || IsImdbLink(r.value)
  {
    if links == [] then Ok([])
    else
      match ImdbPageLink(web, links[0])
      case Err(f) => Err(f)
      case Ok(l) => if l != [] then Ok(l) else FirstImdb(web, links[1..])
  }

  /** The loop over the IMP Awards pages: stops at the first page that yields a link. */
  method FindImdb(web: Web, links: seq<String>) returns (r: Result<String, Fault>)
    ensures r == FirstImdb(web, links)
  {
    var imdb: String := [];
    var i := 0;
    while i < |links|
      invariant 0 <= i <= |links|
      invariant FirstImdb(web, links) == FirstImdb(web, links[i..])
      invariant imdb == []
    {
      assert links[i..][1..] == links[i + 1..];
      var got := GetImdbPageLink(web, links[i]);
      if got.Err? {
        return Err(got.error);
      }
      imdb := got.value;
      if imdb != [] {
        break;
      }
      i := i + 1;
    }
    return Ok(imdb);
  }

  // ---------------------------------------------------------------------------
  // get_recommendations

  /** The title without `(year)`, split into words, each title-cased, joined by `-`. */
  function TasteTitle(s: Scraper): String {
    var words := Words(Strip(Replace(s.title, "(" + IntText(s.year) + ")", "")));
    Join(seq(|words|, i requires 0 <= i < |words| => TitleCase(words[i])), "-")
  }

  /** The pages `site + query` for the queries `x-Movie`, `x-{year}` and `x`, in that order. */
  function LikePages(site: String, x: String, year: String): (urls: seq<String>)
    ensures |urls| == 3 && urls[2] == site + x
    ensures urls[0] == urls[2] + "-Movie" && urls[1] == urls[2] + "-" + year
  {
    var queries := [x + "-Movie", x + "-" + year, x];
    assert site + queries[0] == site + x + "-Movie";
    assert site + queries[1] == site + x + "-" + year;
    seq(3, i requires 0 <= i < 3 => site + queries[i])
  }

  /** The three pages asked for, in order: `X-Movie`, `X-{year}`, then the bare title page `X`. */
  function TasteUrls(s: Scraper): (urls: seq<String>)
    ensures |urls| == 3 && urls[2] == TasteSite + "movies/like/" + TasteTitle(s)
    ensures urls[0] == urls[2] + "-Movie" && urls[1] == urls[2] + "-" + IntText(s.year)
  {
    LikePages(TasteSite + "movies/like/", TasteTitle(s), IntText(s.year))
  }

  /** The groups that are not empty, stripped, in order. */
  function Suggestions(gs: seq<String>): (r: seq<String>)
    ensures |r| <= |gs|
    ensures forall i :: 0 <= i < |r| ==> Stripped(r[i])
    ensures forall x :: x in r <==> exists g :: g in gs && g != [] && x == Strip(g)
  {
    if gs == [] then []
    else
      var init := gs[..|gs| - 1];
      var g := gs[|gs| - 1];
      assert gs == init + [g];
      Suggestions(init) + (if g != [] then [Strip(g)] else [])
  }

  /**
   * The outcome of asking for the pages `urls` in order until one answers
   * 200: `tried` is the list of URLs requested; a request that raises is
   * the error, otherwise the match on the last page read gives the
   * suggestions.
   */
  ghost predicate AskedInOrder(web: Web, urls: seq<String>, r: Result<seq<String>, Fault>, tried: seq<String>)
    requires |urls| == 3
  {
    var k := FirstStop(Is200, web.http, urls);
    tried == urls[..if k < 3 then k + 1 else 3]
    && (k < 3 && web.http(urls[k]).NoReply? ==> r == Err(RequestFailed(urls[k])))
    && (!(k < 3 && web.http(urls[k]).NoReply?) ==>
          web.http(tried[|tried| - 1]).Reply? &&
          r == Ok(match web.groups(web.http(tried[|tried| - 1]).text)
                  case None => []
                  case Some(g) => Suggestions([g.0, g.1, g.2])))
  }

  /**
   * What `get_recommendations` answers for the pages `urls`: the request
   * that stops the loop raises, or the match on the last page read gives
   * the suggestions.
   */
  function TasteAnswer(web: Web, urls: seq<String>): (r: Result<seq<String>, Fault>)
    requires |urls| == 3
    ensures r.Ok? ==> |r.value| <= 3
  {
    var k := FirstStop(Is200, web.http, urls);
    var last := urls[if k < 3 then k else 2];
    match web.http(last)
    case NoReply => Err(RequestFailed(last))
    case Reply(_, text) =>
      Ok(match web.groups(text)
         case None => []
         case Some(g) => Suggestions([g.0, g.1, g.2]))
  }

  /** The outcome of the loop determines the answer. */
  lemma AskedAnswer(web: Web, urls: seq<String>, r: Result<seq<String>, Fault>, tried: seq<String>)
    requires |urls| == 3 && AskedInOrder(web, urls, r, tried)
    ensures r == TasteAnswer(web, urls)
  {
    var k := FirstStop(Is200, web.http, urls);
    var last := urls[if k < 3 then k else 2];
    if k == 3 {
      assert Refused(Is200, web.http(urls[2]));
      assert tried == urls;
    } else {
      assert |tried| == k + 1 && tried[k] == urls[k];
    }
    assert tried[|tried| - 1] == last;
    assert web.http(last).NoReply? <==> k < 3 && web.http(urls[k]).NoReply?;
  }

  /**
   * `get_recommendations`: the three queries are tried in order until one
   * answers 200; the match on the last page read gives at most three
   * suggestions. `tried` is the list of URLs requested.
   */
  method GetRecommendations(web: Web, s: Scraper) returns (r: Result<seq<String>, Fault>, tried: seq<String>)
    ensures AskedInOrder(web, TasteUrls(s), r, tried)
    ensures r == TasteAnswer(web, TasteUrls(s))
    ensures r.Ok? ==> |r.value| <= 3
  {
    r, tried := AskTasteDive(web, TasteUrls(s));
    AskedAnswer(web, TasteUrls(s), r, tried);
  }

  /** The loop of `get_recommendations` over the three pages, then the match on the last page read. */
  method AskTasteDive(web: Web, urls: seq<String>) returns (r: Result<seq<String>, Fault>, tried: seq<String>)
    requires |urls| == 3
    ensures AskedInOrder(web, urls, r, tried)
    ensures r.Ok? ==> |r.value| <= 3
  {
    tried := [];
    var response: Reply := NoReply;
    var i := 0;
    ghost var k := 3;
    while i < 3
      invariant 0 <= i <= 3 && tried == urls[..i]
      invariant forall j :: 0 <= j < i ==> Refused(Is200, web.http(urls[j]))
      invariant i > 0 ==> response == web.http(urls[i - 1])
    {
      response := web.http(urls[i]);
      tried := tried + [urls[i]];
      if response.NoReply? {
        StopsAt(Is200, web.http, urls, i);
        return Err(RequestFailed(urls[i])), tried;
      }
      if response.status != 200 {
        i := i + 1;
        continue;
      }
      k := i;
      break;
    }
    StopsAt(Is200, web.http, urls, k);
    assert tried == urls[..if k < 3 then k + 1 else 3] && response == web.http(tried[|tried| - 1]);
    var found := web.groups(response.text);
    if found.None? {
      return Ok([]), tried;
    }
    var valid := KeepSuggestions([found.value.0, found.value.1, found.value.2]);
    return Ok(valid), tried;
  }

  /** The loop over `recommendations.group(i)`: each non-empty group, stripped, in order. */
  method KeepSuggestions(gs: seq<String>) returns (valid: seq<String>)
    ensures valid == Suggestions(gs)
  {
    valid := [];
    for k := 0 to |gs|
      invariant valid == Suggestions(gs[..k])
    {
      assert gs[..k + 1][..k] == gs[..k];
      if gs[k] != [] {
        valid := valid + [Strip(gs[k])];
      }
    }
    assert gs[..|gs|] == gs;
  }

  // ---------------------------------------------------------------------------
  // download_poster

  /** `_write_img_to_disk`: the response body becomes `thumb.jpg`, which `modify_raw_poster` then resizes. */
  function WriteImgToDisk(fs: Fs, key: String, url: String): (r: Result<Fs, Fault>)
    ensures r.Ok? <==> IsFolder(fs, key)
    ensures r.Ok? ==> Thumb(r.value, key) == Some(Resized(Fetched(url), PosterWidth, PosterHeight))
    ensures r.Ok? ==> DataFile(r.value, key) == DataFile(fs, key) && r.value.entries.Keys == fs.entries.Keys
  {
    match WriteThumb(fs, key, Fetched(url))
    case Err(f) => Err(f)
    case Ok(written) => WriteThumb(written, key, ModifyRawPoster(Thumb(written, key)).0.value)
  }

  /** The candidate links: CineMaterial, the IMP Awards images when the year is trusted, MoviePosterDB. */
  function PosterCandidates(s: Scraper, withYear: bool, cnm: seq<String>, pdb: seq<String>, order: seq<String>): seq<String> {
    if withYear then cnm + ImpLinks(s, "jpg", order) + pdb else cnm + pdb
  }

  /**
   * The outcome of requesting `links` in order until one answers 200:
   * `tried` is the links requested; a request that raises is the error, a
   * 200 writes the thumbnail, and when every link is refused nothing is
   * written.
   */
  ghost predicate PosterFetched(web: Web, fs: Fs, key: String, links: seq<String>,
                                r: Result<Fs, Fault>, tried: seq<String>)
  {
    var k := FirstStop(Is200, web.http, links);
    tried == links[..if k < |links| then k + 1 else k]
    && (k == |links| ==> r == Ok(fs))
    && (k < |links| && web.http(links[k]).NoReply? ==> r == Err(RequestFailed(links[k])))
    && (k < |links| && web.http(links[k]).Reply? ==> r == WriteImgToDisk(fs, key, links[k]))
  }

  /**
   * `download_poster(override, year=withYear)` into the movie's `thumb.jpg`.
   * `cnm` and `pdb` are what `generate_cnm_link` and
   * `generate_movie_pdb_link` found, `order` the iteration order of the
   * suffix set; `links` is the shuffled list and `tried` the links requested.
   */
  method DownloadPoster(web: Web, fs: Fs, s: Scraper, override: bool, withYear: bool,
                        cnm: seq<String>, pdb: seq<String>, order: seq<String>)
    returns (r: Result<Fs, Fault>, links: seq<String>, tried: seq<String>)
    ensures Thumb(fs, Key(s)).Some? && !override ==> r == Ok(fs) && tried == []
    ensures !(Thumb(fs, Key(s)).Some? && !override) ==>
      multiset(links) == multiset(PosterCandidates(s, withYear, cnm, pdb, order)) &&
      PosterFetched(web, fs, Key(s), links, r, tried)
  {
    tried := [];
    links := [];
    if Thumb(fs, Key(s)).Some? && !override {
      return Ok(fs), links, tried;
    }
    var candidates := PosterCandidates(s, withYear, cnm, pdb, order);
    links :| multiset(links) == multiset(candidates);
    r, tried := FetchPoster(web, fs, Key(s), links);
  }

  /** The loop of `download_poster` over the shuffled links. */
  method FetchPoster(web: Web, fs: Fs, key: String, links: seq<String>) returns (r: Result<Fs, Fault>, tried: seq<String>)
    ensures PosterFetched(web, fs, key, links, r, tried)
  {
    tried := [];
    var i := 0;
    while i < |links|
      invariant 0 <= i <= |links| && tried == links[..i]
      invariant forall j :: 0 <= j < i ==> Refused(Is200, web.http(links[j]))
    {
      var response := web.http(links[i]);
      tried := tried + [links[i]];
      if response.NoReply? {
        StopsAt(Is200, web.http, links, i);
        return Err(RequestFailed(links[i])), tried;
      }
      if response.status == 200 {
        StopsAt(Is200, web.http, links, i);
        r := WriteImgToDisk(fs, key, links[i]);
        return r, tried;
      }
      i := i + 1;
    }
    StopsAt(Is200, web.http, links, i);
    return Ok(fs), tried;
  }

  /** At most one file is written, and only the thumbnail of this movie. */
  lemma PosterWritesOnlyThumb(fs: Fs, s: Scraper, url: String)
    requires WriteImgToDisk(fs, Key(s), url).Ok?
    ensures var fs' := WriteImgToDisk(fs, Key(s), url).value;
      forall k :: k in fs.entries && k != Key(s) ==> fs'.entries[k] == fs.entries[k]
  {
  }

  // ---------------------------------------------------------------------------
  // download_info: the Wikipedia loop

  const DefaultSummary: String := "The summary could not be retrieved."

  function DefaultTitle(s: Scraper): String {
    TitleCase(s.title) + " (" + IntText(s.year) + ")"
  }

  function FirstQuery(s: Scraper): String {
    s.title + " " + IntText(s.year)
  }

  function FilmQuery(s: Scraper): String {
    s.title + " film"
  }

  /** What the loop leaves behind: title, summary and cast to store, and the calls it made. */
  datatype Lookup = Lookup(title: String, summary: String, actors: seq<String>, calls: seq<WikiCall>)

  /**
   * The loop from a given state, with `left` attempts to go. The page is
   * asked for only while none was found; the summary only while it holds
   * the default text. A lookup error switches to the `film` query, a
   * timeout ends the loop, success takes the page's title and cast.
   */
  function LookupFrom(web: Web, s: Scraper, query: String, page: Option<WikiPage>, summary: String,
                      calls: seq<WikiCall>, left: nat): Result<Lookup, Fault>
    decreases left
  {
    if left == 0 then Ok(Lookup(DefaultTitle(s), summary, [], calls))
    else
      var pr := if page.None? then web.page(query) else Found(page.value);
      var calls1 := if page.None? then calls + [PageCall(query)] else calls;
      match pr
      case Found(p) =>
        if summary == DefaultSummary then
          var calls2 := calls1 + [SummaryCall(query)];
          match web.summary(query)
          case Found(text) => Ok(Lookup(p.title, text, web.cast(p.html), calls2))
          case TimedOut => Ok(Lookup(DefaultTitle(s), summary, [], calls2))
          case OtherError => Err(WikiFailed(query))
          case _ => LookupFrom(web, s, FilmQuery(s), Some(p), summary, calls2, left - 1)
        else Ok(Lookup(p.title, summary, web.cast(p.html), calls1))
      case TimedOut => Ok(Lookup(DefaultTitle(s), summary, [], calls1))
      case OtherError => Err(WikiFailed(query))
      case _ => LookupFrom(web, s, FilmQuery(s), page, summary, calls1, left - 1)
  }

  /** The two attempts of `download_info`. */
  function WikiLookup(web: Web, s: Scraper): Result<Lookup, Fault> {
    LookupFrom(web, s, FirstQuery(s), None, DefaultSummary, [], 2)
  }

  /** The Wikipedia loop of `download_info`, as written. */
  method LookUp(web: Web, s: Scraper) returns (r: Result<Lookup, Fault>)
    ensures r == WikiLookup(web, s)
  {
    var title := DefaultTitle(s);
    var summary := DefaultSummary;
    var actors: seq<String> := [];
    var query := FirstQuery(s);
    var page: Option<WikiPage> := None;
    var calls: seq<WikiCall> := [];
    var attempt := 0;
    while attempt < 2
      invariant 0 <= attempt <= 2
      invariant title == DefaultTitle(s) && actors == []
      invariant WikiLookup(web, s) == LookupFrom(web, s, query, page, summary, calls, 2 - attempt)
    {
      attempt := attempt + 1;
      var pr: WikiReply<WikiPage>;
      if page.None? {
        calls := calls + [PageCall(query)];
        pr := web.page(query);
      } else {
        pr := Found(page.value);
      }
      if IsLookupError(pr) {
        query := FilmQuery(s);
        continue;
      } else if pr.TimedOut? {
        break;
      } else if pr.OtherError? {
        return Err(WikiFailed(query));
      }
      page := Some(pr.value);
      if summary == DefaultSummary {
        calls := calls + [SummaryCall(query)];
        var sr := web.summary(query);
        if IsLookupError(sr) {
          query := FilmQuery(s);
          continue;
        } else if sr.TimedOut? {
          break;
        } else if sr.OtherError? {
          return Err(WikiFailed(query));
        }
        summary := sr.value;
      }
      title := pr.value.title;
      actors := web.cast(pr.value.html);
      break;
    }
    return Ok(Lookup(title, summary, actors, calls));
  }

  /**
   * From any state, the loop only appends calls, at most two per attempt
   * left, each with the current query or the `film` one; with no page yet,
   * the first call it appends asks for the page.
   */
  lemma {:induction false} LookupAppendsCalls(web: Web, s: Scraper, query: String, page: Option<WikiPage>, summary: String,
                                              calls: seq<WikiCall>, left: nat)
    requires LookupFrom(web, s, query, page, summary, calls, left).Ok?
    ensures var l := LookupFrom(web, s, query, page, summary, calls, left).value.calls;
      |calls| <= |l| <= |calls| + 2 * left && l[..|calls|] == calls
      && (forall i :: |calls| <= i < |l| ==> l[i].query == query || l[i].query == FilmQuery(s))
      && (left > 0 && page.None? ==> |l| > |calls| && l[|calls|] == PageCall(query))
    decreases left
  {
    if left > 0 {
      var pr := if page.None? then web.page(query) else Found(page.value);
      var calls1 := if page.None? then calls + [PageCall(query)] else calls;
      var calls2 := calls1 + [SummaryCall(query)];
      if pr.Found? && summary == DefaultSummary && IsLookupError(web.summary(query)) {
        LookupAppendsCalls(web, s, FilmQuery(s), Some(pr.value), summary, calls2, left - 1);
        var l := LookupFrom(web, s, FilmQuery(s), Some(pr.value), summary, calls2, left - 1).value.calls;
        assert l[..|calls2|][..|calls|] == l[..|calls|];
        assert l[..|calls2|][..|calls1|] == l[..|calls1|];
      } else if IsLookupError(pr) {
        LookupAppendsCalls(web, s, FilmQuery(s), page, summary, calls1, left - 1);
        var l := LookupFrom(web, s, FilmQuery(s), page, summary, calls1, left - 1).value.calls;
        assert l[..|calls1|][..|calls|] == l[..|calls|];
      }
    }
  }

  /** The loop starts with the page for `"{title} {year}"`, makes at most four calls, and asks only the two queries. */
  lemma WikiLookupCalls(web: Web, s: Scraper)
    requires WikiLookup(web, s).Ok?
    ensures var calls := WikiLookup(web, s).value.calls;
      1 <= |calls| <= 4 && calls[0] == PageCall(FirstQuery(s))
      && forall i :: 0 <= i < |calls| ==> calls[i].query == FirstQuery(s) || calls[i].query == FilmQuery(s)
  {
    LookupAppendsCalls(web, s, FirstQuery(s), None, DefaultSummary, [], 2);
  }

  /** A timeout on the first page request ends the loop with the defaults. */
  lemma WikiTimeoutStops(web: Web, s: Scraper)
    requires web.page(FirstQuery(s)).TimedOut?
    ensures WikiLookup(web, s) == Ok(Lookup(DefaultTitle(s), DefaultSummary, [], [PageCall(FirstQuery(s))]))
  {
    var q1 := FirstQuery(s);
    assert WikiLookup(web, s) == LookupFrom(web, s, q1, None, DefaultSummary, [], 2);
    assert [] + [PageCall(q1)] == [PageCall(q1)];
    assert LookupFrom(web, s, q1, None, DefaultSummary, [], 2) == Ok(Lookup(DefaultTitle(s), DefaultSummary, [], [PageCall(q1)]));
  }

  /** A page found on the first attempt is kept: the second attempt asks only for the summary. */
  lemma WikiPageKept(web: Web, s: Scraper, p: WikiPage, text: String)
    requires web.page(FirstQuery(s)) == Found(p) && IsLookupError(web.summary(FirstQuery(s)))
    requires web.summary(FilmQuery(s)) == Found(text)
    ensures WikiLookup(web, s) == Ok(Lookup(p.title, text, web.cast(p.html),
              [PageCall(FirstQuery(s)), SummaryCall(FirstQuery(s)), SummaryCall(FilmQuery(s))]))
  {
    var q1 := FirstQuery(s);
    var c2 := [PageCall(q1), SummaryCall(q1)];
    assert [] + [PageCall(q1)] + [SummaryCall(q1)] == c2;
    assert WikiLookup(web, s) == LookupFrom(web, s, FilmQuery(s), Some(p), DefaultSummary, c2, 1);
    assert c2 + [SummaryCall(FilmQuery(s))] == [PageCall(q1), SummaryCall(q1), SummaryCall(FilmQuery(s))];
  }

  /** A summary other than the default is the answer to the last call, a summary request. */
  lemma {:induction false} SummaryFromLastCall(web: Web, s: Scraper, query: String, page: Option<WikiPage>,
                                               calls: seq<WikiCall>, left: nat)
    requires LookupFrom(web, s, query, page, DefaultSummary, calls, left).Ok?
    ensures var l := LookupFrom(web, s, query, page, DefaultSummary, calls, left).value;
      l.summary != DefaultSummary ==>
        l.calls != [] && l.calls[|l.calls| - 1].SummaryCall? &&
        web.summary(l.calls[|l.calls| - 1].query) == Found(l.summary)
    decreases left
  {
    if left > 0 {
      var pr := if page.None? then web.page(query) else Found(page.value);
      var calls1 := if page.None? then calls + [PageCall(query)] else calls;
      if pr.Found? && IsLookupError(web.summary(query)) {
        SummaryFromLastCall(web, s, FilmQuery(s), Some(pr.value), calls1 + [SummaryCall(query)], left - 1);
      } else if IsLookupError(pr) {
        SummaryFromLastCall(web, s, FilmQuery(s), page, calls1, left - 1);
      }
    }
  }

  // ---------------------------------------------------------------------------
  // download_info: genres, record

  /** The first sentence of the summary, case-folded, with the case-folded title removed. */
  function GenreSentence(summary: String, title: String): String {
    Replace(Lower(FirstSegment(summary, '.')), Lower(title), [])
  }

  /** The sentence never reaches past the first full stop. */
  lemma GenreSentenceIsOneSentence(summary: String, title: String)
    ensures '.' !in GenreSentence(summary, title)
  {
    ReplaceKeepsAbsent(Lower(FirstSegment(summary, '.')), Lower(title), [], '.');
  }

  /** One tag per vocabulary entry whose key or value occurs in the sentence, in vocabulary order. */
  function GenresOf(vocab: seq<(String, String)>, sentence: String): (r: seq<String>)
    ensures |r| <= |vocab|
  {
    if vocab == [] then []
    else
      var e := vocab[|vocab| - 1];
      GenresOf(vocab[..|vocab| - 1], sentence) + (if Contains(sentence, e.0) || Contains(sentence, e.1) then [TitleCase(e.0)] else [])
  }

  lemma {:induction false} GenresMembers(vocab: seq<(String, String)>, sentence: String, g: String)
    ensures g in GenresOf(vocab, sentence) <==>
              exists e :: e in vocab && (Contains(sentence, e.0) || Contains(sentence, e.1)) && g == TitleCase(e.0)
    decreases |vocab|
  {
    if vocab != [] {
      var init := vocab[..|vocab| - 1];
      GenresMembers(init, sentence, g);
      assert vocab == init + [vocab[|vocab| - 1]];
    }
  }

  /** The genre loop of `download_info`, over `MOVIE_GENRES.items()`. */
  method InferGenres(vocab: seq<(String, String)>, summary: String, title: String) returns (genre: seq<String>)
    ensures genre == GenresOf(vocab, GenreSentence(summary, title))
  {
    var sentence := GenreSentence(summary, title);
    genre := [];
    for i := 0 to |vocab|
      invariant genre == GenresOf(vocab[..i], sentence)
    {
      assert vocab[..i + 1][..i] == vocab[..i];
      var (key, value) := vocab[i];
      if Contains(sentence, key) || Contains(sentence, value) {
        genre := genre + [TitleCase(key)];
      }
    }
    assert vocab[..|vocab|] == vocab;
  }

  function Strs(xs: seq<String>): (j: Json)
    ensures j.JList? && |j.items| == |xs|
  {
    JList(seq(|xs|, i requires 0 <= i < |xs| => JStr(xs[i])))
  }

  const InfoKeys: set<String> := {"title", "summary", "actors", "genre", "trailer", "imdb"}

  function InfoRecord(l: Lookup, genre: seq<String>, trailer: String, imdb: String): (j: Json)
    ensures j.JObject? && j.fields.Keys == InfoKeys
  {
    JObject(map["title" := JStr(l.title), "summary" := JStr(l.summary), "actors" := Strs(l.actors),
                "genre" := Strs(genre), "trailer" := JStr(trailer), "imdb" := JStr(imdb)])
  }

  /**
   * `download_info` as a value: nothing happens when `load_data_file` gives
   * a non-empty content; otherwise the trailer, the Wikipedia data, the
   * genres and the IMDb link are gathered and written.
   */
  function InfoOf(web: Web, vocab: seq<(String, String)>, order: seq<String>, fs: Fs, s: Scraper): Result<Fs, Failure> {
    match ReadJson(DataFile(fs, Key(s)))
    case Err(e) => Err(Unreadable(e))
    case Ok(content) =>
      if Truthy(content) then Ok(fs)
      else
        match YoutubeLink(web.http, s, true)
        case Err(f) => Err(Faulted(f))
        case Ok(trailer) =>
          match WikiLookup(web, s)
          case Err(f) => Err(Faulted(f))
          case Ok(l) =>
            var genre := GenresOf(vocab, GenreSentence(l.summary, s.title));
            match FirstImdb(web, ImpLinks(s, "html", order))
            case Err(f) => Err(Faulted(f))
            case Ok(imdb) =>
              match WriteData(fs, Key(s), InfoRecord(l, genre, trailer, imdb))
              case Err(f) => Err(Faulted(f))
              case Ok(written) => Ok(written)
  }

  /** `download_info`, with its three loops. */
  method DownloadInfo(web: Web, vocab: seq<(String, String)>, order: seq<String>, fs: Fs, s: Scraper)
    returns (r: Result<Fs, Failure>)
    ensures r == InfoOf(web, vocab, order, fs, s)
  {
    var content := ReadJson(DataFile(fs, Key(s)));
    if content.Err? {
      return Err(Unreadable(content.error));
    }
    if Truthy(content.value) {
      return Ok(fs);
    }
    var trailer := YoutubeLink(web.http, s, true);
    if trailer.Err? {
      return Err(Faulted(trailer.error));
    }
    var l := LookUp(web, s);
    if l.Err? {
      return Err(Faulted(l.error));
    }
    var genre := InferGenres(vocab, l.value.summary, s.title);
    var imdb := FindImdb(web, ImpLinks(s, "html", order));
    if imdb.Err? {
      return Err(Faulted(imdb.error));
    }
    var written := WriteData(fs, Key(s), InfoRecord(l.value, genre, trailer.value, imdb.value));
    if written.Err? {
      return Err(Faulted(written.error));
    }
    return Ok(written.value);
  }

  /**
   * `download_info` as written: `constants.MOVIE_GENRES` is a list, so the
   * `.items()` of the genre loop raises `AttributeError` once the trailer
   * and the Wikipedia lookup have answered, before the IMDb search and
   * before anything is written.
   */
  function InfoAsWritten(web: Web, fs: Fs, s: Scraper): Result<Fs, Failure> {
    match ReadJson(DataFile(fs, Key(s)))
    case Err(e) => Err(Unreadable(e))
    case Ok(content) =>
      if Truthy(content) then Ok(fs)
      else
        match YoutubeLink(web.http, s, true)
        case Err(f) => Err(Faulted(f))
        case Ok(_) =>
          match WikiLookup(web, s)
          case Err(f) => Err(Faulted(f))
          case Ok(_) => Err(Raising(AttributeError))
  }

  /**
   * As written, `download_info` never writes `data.json`: each run that the
   * intended version ends with a write raises `AttributeError` instead, and
   * a run that succeeds leaves the cache as it was.
   */
  lemma InfoAsWrittenNeverWrites(web: Web, vocab: seq<(String, String)>, order: seq<String>, fs: Fs, s: Scraper)
    ensures InfoAsWritten(web, fs, s).Ok? ==> InfoAsWritten(web, fs, s).value == fs
    ensures InfoOf(web, vocab, order, fs, s).Ok? && InfoOf(web, vocab, order, fs, s).value != fs ==>
              InfoAsWritten(web, fs, s) == Err(Raising(AttributeError))
  {
    if InfoOf(web, vocab, order, fs, s).Ok? && InfoOf(web, vocab, order, fs, s).value != fs {
      InfoWriteRaises(web, vocab, order, fs, s);
    }
  }

  lemma InfoWriteRaises(web: Web, vocab: seq<(String, String)>, order: seq<String>, fs: Fs, s: Scraper)
    requires InfoOf(web, vocab, order, fs, s).Ok? && InfoOf(web, vocab, order, fs, s).value != fs
    ensures InfoAsWritten(web, fs, s) == Err(Raising(AttributeError))
  {
    var _ := InfoWrite(web, vocab, order, fs, s);
    var content := ReadJson(DataFile(fs, Key(s)));
    assert content.Ok? && !Truthy(content.value);
  }

  /** A non-empty data file is left alone. */
  lemma InfoKeepsFilledFile(web: Web, vocab: seq<(String, String)>, order: seq<String>, fs: Fs, s: Scraper, j: Json)
    requires DataFile(fs, Key(s)) == Some(Parsed(j)) && Truthy(j)
    ensures InfoOf(web, vocab, order, fs, s) == Ok(fs)
  {
  }

  /**
   * `load_data_file` is the loader of `dataimport.py`, which raises on a
   * missing file: a movie without `data.json` gets `FileNotFoundError`
   * before any request is made.
   */
  lemma InfoNeedsDataFile(web: Web, vocab: seq<(String, String)>, order: seq<String>, fs: Fs, s: Scraper)
    requires DataFile(fs, Key(s)).None?
    ensures InfoOf(web, vocab, order, fs, s) == Err(Unreadable(FileNotFound))
  {
  }

  /**
   * When it writes, `download_info` writes exactly the six keys: the genres
   * are those of the stored summary, the trailer is empty or an embed link,
   * the IMDb entry empty or a title link; nothing else in the cache changes.
   */
  lemma InfoRecordWritten(web: Web, vocab: seq<(String, String)>, order: seq<String>, fs: Fs, s: Scraper)
    requires InfoOf(web, vocab, order, fs, s).Ok? && InfoOf(web, vocab, order, fs, s).value != fs
    ensures var fs' := InfoOf(web, vocab, order, fs, s).value;
      DataFile(fs', Key(s)).Some? && DataFile(fs', Key(s)).value.Parsed? &&
      var j := DataFile(fs', Key(s)).value.value;
      j.JObject? && j.fields.Keys == InfoKeys && j.fields["summary"].JStr? &&
      j.fields["genre"] == Strs(GenresOf(vocab, GenreSentence(j.fields["summary"].s, s.title))) &&
      j.fields["trailer"].JStr? && (j.fields["trailer"].s == [] || IsEmbedLink(j.fields["trailer"].s)) &&
      j.fields["imdb"].JStr? && (j.fields["imdb"].s == [] || IsImdbLink(j.fields["imdb"].s)) &&
      fs'.entries.Keys == fs.entries.Keys && Thumb(fs', Key(s)) == Thumb(fs, Key(s))
    ensures var fs' := InfoOf(web, vocab, order, fs, s).value;
      forall k :: k in fs.entries && k != Key(s) ==> fs'.entries[k] == fs.entries[k]
  {
    var rec := InfoWrite(web, vocab, order, fs, s);
    var l := WikiLookup(web, s).value;
    assert rec.fields["summary"] == JStr(l.summary);
    assert rec.fields["genre"] == Strs(GenresOf(vocab, GenreSentence(l.summary, s.title)));
    assert rec.fields["trailer"] == JStr(YoutubeLink(web.http, s, true).value);
    assert rec.fields["imdb"] == JStr(FirstImdb(web, ImpLinks(s, "html", order)).value);
  }

  /** A write by `download_info` is that of the record built from the trailer, the lookup, the genres and the IMDb link. */
  lemma InfoWrite(web: Web, vocab: seq<(String, String)>, order: seq<String>, fs: Fs, s: Scraper) returns (rec: Json)
    requires InfoOf(web, vocab, order, fs, s).Ok? && InfoOf(web, vocab, order, fs, s).value != fs
    ensures YoutubeLink(web.http, s, true).Ok? && WikiLookup(web, s).Ok? && FirstImdb(web, ImpLinks(s, "html", order)).Ok?
    ensures var l := WikiLookup(web, s).value;
      rec == InfoRecord(l, GenresOf(vocab, GenreSentence(l.summary, s.title)),
                        YoutubeLink(web.http, s, true).value, FirstImdb(web, ImpLinks(s, "html", order)).value)
    ensures WriteData(fs, Key(s), rec) == Ok(InfoOf(web, vocab, order, fs, s).value)
  {
    var l := WikiLookup(web, s).value;
    rec := InfoRecord(l, GenresOf(vocab, GenreSentence(l.summary, s.title)),
                      YoutubeLink(web.http, s, true).value, FirstImdb(web, ImpLinks(s, "html", order)).value);
  }
}
