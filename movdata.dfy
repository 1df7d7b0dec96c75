/**
 * `movdata.py`: the oldest scraper. It takes a title and a year as they
 * are, without validation, and tries the IMP Awards default link, then
 * its variants, before falling back on a copy of the bundled default
 * poster.
 */
module MovData {
  import opened Wrappers
  import opened Text
  import opened Net
  import opened CacheStore
  import LegacyRetrieve
  import DataRetrieve

  /** A `MovieScrapper`: the title and year it was given. */
  datatype Scrapper = Scrapper(title: String, year: int)

  /**
   * The suffix set as written: a missing comma makes `"_ver5" "_xlg"` one
   * string, so there are five suffixes, one of them `"_ver5_xlg"`.
   */
  const SomeSuffixes: set<String> := {"_ver2", "_ver3", "_ver4", "_ver5" + "_xlg", "_xxlg"}

  lemma FusedSuffix()
    ensures |SomeSuffixes| == 5
    ensures "_ver5_xlg" in SomeSuffixes && "_ver5" !in SomeSuffixes && "_xlg" !in SomeSuffixes
  {
    assert "_ver5" + "_xlg" == "_ver5_xlg";
    assert SomeSuffixes == {"_ver2", "_ver3", "_ver4", "_ver5_xlg", "_xxlg"};
    assert "_ver5" != "_ver5_xlg" && "_xlg" != "_ver5_xlg";
  }

  /** `sanitized_title`, the same rule as `imp_sanitized_title` of the older scraper. */
  function SanitizedTitle(sc: Scrapper): (r: String)
    ensures ' ' !in r
  {
    LegacyRetrieve.ImpSanitizedTitle(sc.title)
  }

  /** `default_download_link`. */
  function DefaultDownloadLink(sc: Scrapper): (l: String)
    ensures l == DataRetrieve.ImpSite + IntText(sc.year) + "/posters/" + SanitizedTitle(sc) + ".jpg"
    ensures l == LegacyRetrieve.DefaultImpLink(DataRetrieve.Scraper(sc.title, sc.year))
  {
    DataRetrieve.ImpSite + IntText(sc.year) + "/posters/" + SanitizedTitle(sc) + ".jpg"
  }

  /** `generate_links`: one link per suffix in the set's iteration order, cut four characters from the default's end. */
  function GenerateLinks(sc: Scrapper, order: seq<String>): (links: seq<String>)
    ensures |links| == |order|
  {
    var d := DefaultDownloadLink(sc);
    seq(|order|, i requires 0 <= i < |order| => d[..|d| - 4] + order[i] + ".jpg")
  }

  /** Five links, each the default with a suffix before `.jpg`; the default itself is not among them. */
  lemma GeneratedLinks(sc: Scrapper, order: seq<String>)
    requires Enumerates(order, SomeSuffixes)
    ensures |GenerateLinks(sc, order)| == 5
    ensures forall i :: 0 <= i < |order| ==>
              GenerateLinks(sc, order)[i] == DataRetrieve.ImpSite + IntText(sc.year) + "/posters/" + SanitizedTitle(sc) + order[i] + ".jpg"
    ensures DefaultDownloadLink(sc) !in GenerateLinks(sc, order)
  {
    EnumerationSize(order, SomeSuffixes);
    FusedSuffix();
    var d := DefaultDownloadLink(sc);
    var stem := DataRetrieve.ImpSite + IntText(sc.year) + "/posters/" + SanitizedTitle(sc);
    assert d[..|d| - 4] == stem;
    forall i | 0 <= i < |order|
      ensures GenerateLinks(sc, order)[i] != d
    {
      assert order[i] in SomeSuffixes;
      assert |order[i]| > 0;
      assert |GenerateLinks(sc, order)[i]| > |d|;
    }
  }

  /** `copy(DEFAULT_POSTER, storage)`: `default.jpg` appears in the folder `key`. */
  function CopyDefault(fs: Fs, key: String): (r: Result<Fs, Fault>)
    ensures r.Ok? <==> IsFolder(fs, key)
    ensures r.Ok? ==> r.value.rootExists == fs.rootExists && r.value.entries.Keys == fs.entries.Keys
    ensures r.Ok? ==> IsFolder(r.value, key) && r.value.entries[key].defaultJpg
    ensures r.Ok? ==> Thumb(r.value, key) == Thumb(fs, key) && DataFile(r.value, key) == DataFile(fs, key)
    ensures r.Ok? ==> forall k :: k in fs.entries && k != key ==> r.value.entries[k] == fs.entries[k]
  {
    if IsFolder(fs, key) then Ok(Fs(fs.rootExists, fs.entries[key := fs.entries[key].(defaultJpg := true)]))
    else if key in fs.entries then Err(NotAFolder(key))
    else Err(MissingFolder(key))
  }

  /**
   * What `download_poster` does once the folder exists without a
   * `thumb.jpg`: the links are requested in order and the first `ok` body
   * becomes `thumb.jpg` with `True`; when none answers, `default.jpg` is
   * copied in unless it is there already, and the answer is `False`. The
   * answer is `True` exactly when `thumb.jpg` is there afterwards, a
   * `False` leaves `default.jpg` there, and no other folder changes.
   */
  function Settle(http: Http, fs: Fs, key: String, links: seq<String>): (r: Result<(Fs, bool), Fault>)
    requires IsFolder(fs, key) && Thumb(fs, key).None?
    ensures r.Ok? ==> IsFolder(r.value.0, key) && (r.value.1 <==> Thumb(r.value.0, key).Some?)
    ensures r.Ok? && !r.value.1 ==> r.value.0.entries[key].defaultJpg
    ensures r.Ok? ==> r.value.0.entries.Keys == fs.entries.Keys
    ensures r.Ok? ==> forall k :: k in fs.entries && k != key ==> r.value.0.entries[k] == fs.entries[k]
    ensures r.Err? <==> FirstStop(IsOkStatus, http, links) < |links| && http(links[FirstStop(IsOkStatus, http, links)]).NoReply?
  {
    var k := FirstStop(IsOkStatus, http, links);
    if k < |links| then
      if http(links[k]).NoReply? then Err(RequestFailed(links[k]))
      else Ok((WriteThumb(fs, key, Fetched(links[k])).value, true))
    else if fs.entries[key].defaultJpg then Ok((fs, false))
    else Ok((CopyDefault(fs, key).value, false))
  }

  /** `download_poster` as a value: the folder is created first, and an existing `thumb.jpg` gives `True`. */
  function PosterOf(http: Http, fs: Fs, sc: Scrapper, order: seq<String>): Result<(Fs, bool), Fault> {
    var key := SanitizedTitle(sc);
    match MakeFolder(fs, key)
    case Err(f) => Err(f)
    case Ok(made) =>
      if Thumb(made, key).Some? then Ok((made, true))
      else Settle(http, made, key, [DefaultDownloadLink(sc)] + GenerateLinks(sc, order))
  }

  /** The loop of `download_poster` over the variants: the index at which it stops. */
  method ProbeVariants(http: Http, links: seq<String>) returns (k: nat)
    ensures k == FirstStop(IsOkStatus, http, links)
  {
    k := 0;
    while k < |links|
      invariant k <= |links|
      invariant forall j :: 0 <= j < k ==> Refused(IsOkStatus, http(links[j]))
    {
      var response := http(links[k]);
      if response.NoReply? || IsOk(response.status) {
        StopsAt(IsOkStatus, http, links, k);
        return;
      }
      k := k + 1;
    }
    StopsAt(IsOkStatus, http, links, k);
  }

  /** `download_poster`: the folder, the existing poster, the default link, then the variants and the fallback. */
  method DownloadPoster(http: Http, fs: Fs, sc: Scrapper, order: seq<String>) returns (r: Result<(Fs, bool), Fault>)
    ensures r == PosterOf(http, fs, sc, order)
  {
    var key := SanitizedTitle(sc);
    var made := MakeFolder(fs, key);
    if made.Err? {
      return Err(made.error);
    }
    var storage := made.value;
    if Thumb(storage, key).Some? {
      return Ok((storage, true));
    }
    var default := DefaultDownloadLink(sc);
    var links := GenerateLinks(sc, order);
    var response := http(default);
    if response.NoReply? || IsOk(response.status) {
      StopsAt(IsOkStatus, http, [default] + links, 0);
      if response.NoReply? {
        return Err(RequestFailed(default));
      }
      return Ok((WriteThumb(storage, key, Fetched(default)).value, true));
    }
    var k := ProbeVariants(http, links);
    assert ([default] + links)[1..] == links;
    assert FirstStop(IsOkStatus, http, [default] + links) == k + 1;
    if k < |links| {
      if http(links[k]).NoReply? {
        return Err(RequestFailed(links[k]));
      }
      return Ok((WriteThumb(storage, key, Fetched(links[k])).value, true));
    }
    if storage.entries[key].defaultJpg {
      return Ok((storage, false));
    }
    return Ok((CopyDefault(storage, key).value, false));
  }

  /**
   * The answer is `True` exactly when the movie's folder ends up with a
   * `thumb.jpg`; a `False` leaves `default.jpg` there; no other entry of
   * the cache is added, removed or changed. Only an unanswered request
   * raises.
   */
  lemma PosterAnswer(http: Http, fs: Fs, sc: Scrapper, order: seq<String>)
    requires PosterOf(http, fs, sc, order).Ok?
    ensures var (after, ok) := PosterOf(http, fs, sc, order).value;
      var key := SanitizedTitle(sc);
      IsFolder(after, key) && (ok <==> Thumb(after, key).Some?)
      && (!ok ==> after.entries[key].defaultJpg)
      && (forall k :: k != key ==> (k in after.entries <==> k in fs.entries))
      && (forall k :: k in fs.entries && k != key ==> after.entries[k] == fs.entries[k])
  {
    var key := SanitizedTitle(sc);
    var made := MakeFolder(fs, key).value;
    assert forall k :: k in fs.entries && k != key ==> made.entries[k] == fs.entries[k];
  }

  /** An existing `thumb.jpg` answers `True` before any request. */
  lemma PosterKept(http: Http, fs: Fs, sc: Scrapper, order: seq<String>)
    requires IsFolder(fs, SanitizedTitle(sc)) && Thumb(fs, SanitizedTitle(sc)).Some?
    ensures PosterOf(http, fs, sc, order) == Ok((fs, true))
  {
  }
}
