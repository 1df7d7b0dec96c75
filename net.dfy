/**
 * The network as the model sees it: every `requests.get` and every call to
 * the `wikipedia` package is answered by a function given as a parameter.
 */
module Net {
  import opened Text

  /** The answer to `requests.get(url)`: a response, or an exception (connection error, timeout). */
  datatype Reply = Reply(status: int, text: String) | NoReply

  /** `requests.get`, keyed by URL. */
  type Http = String -> Reply

  /** `Response.ok`: `raise_for_status` raises exactly for the 4xx and 5xx codes. */
  predicate IsOk(status: int) {
    !(400 <= status < 600)
  }

  /** How a download loop judges a response: `status_code == 200`, or `Response.ok`. */
  datatype Accept = Is200 | IsOkStatus

  predicate Accepts(a: Accept, status: int) {
    match a
    case Is200 => status == 200
    case IsOkStatus => IsOk(status)
  }

  /** A response that the loop passes over before trying the next link. */
  predicate Refused(a: Accept, reply: Reply) {
    reply.Reply? && !Accepts(a, reply.status)
  }

  /**
   * The index at which a loop that requests `links` in order stops: the
   * first link whose response is accepted or whose request raises, or
   * `|links|` when every response is refused.
   */
  function FirstStop(a: Accept, http: Http, links: seq<String>): (k: nat)
    ensures k <= |links|
    ensures forall j :: 0 <= j < k ==> Refused(a, http(links[j]))
    ensures k < |links| ==> !Refused(a, http(links[k]))
  {
    if links == [] || !Refused(a, http(links[0])) then 0 else 1 + FirstStop(a, http, links[1..])
  }

  /** A loop that passed over the first `i` links and stops at link `i` stops where `FirstStop` says. */
  lemma StopsAt(a: Accept, http: Http, links: seq<String>, i: nat)
    requires i <= |links| && forall j :: 0 <= j < i ==> Refused(a, http(links[j]))
    requires i < |links| ==> !Refused(a, http(links[i]))
    ensures FirstStop(a, http, links) == i
  {
  }

  /** An exception that the modelled code lets propagate to its caller. */
  datatype Fault =
    | RequestFailed(url: String)       // `requests.get` raised
    | WikiFailed(query: String)        // a `wikipedia` exception no handler catches
    | MissingFolder(key: String)       // `open(..., 'w')` inside a cache folder that does not exist
    | NotAFolder(key: String)          // a plain file stands where a cache folder is expected

  /**
   * The answer of `wikipedia.page(q)` or `wikipedia.summary(q, 3)`.
   * `Disambiguation`, `PageMissing` and `Redirect` are the three lookup
   * errors the retry loops catch; `TimedOut` is `HTTPTimeoutError`.
   */
  datatype WikiReply<T> = Found(value: T) | Disambiguation | PageMissing | Redirect | TimedOut | OtherError

  predicate IsLookupError<T>(r: WikiReply<T>) {
    r.Disambiguation? || r.PageMissing? || r.Redirect?
  }

  /** A Wikipedia page: its title and the cast list its infobox yields. */
  datatype WikiPage = WikiPage(title: String, html: String)

  /** One call made on the `wikipedia` package, in the order it was made. */
  datatype WikiCall = PageCall(query: String) | SummaryCall(query: String)
}
