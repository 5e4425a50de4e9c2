/** Entities shared by the page-side collector and the popup: the candidate
    record, its source tag, and the reply the page side sends. */
module Favicon {

  datatype Option<+T> = None | Some(value: T)

  type String = seq<char>

  /** How a candidate was discovered: declared by a `<link>` element, one of
      the well-known paths tried by the page side, or the popup's fallback. */
  datatype Source = Html | Common | Fallback

  /** One hypothesised icon location; `mimeType` is the `type` attribute. */
  datatype Candidate = Candidate(url: String, rel: String, sizes: String, mimeType: String, source: Source)

  /** The page side's answer to a `getFavicons` request. */
  datatype Response = Response(favicons: seq<Candidate>, pageTitle: String, pageUrl: String)

  /** The urls of a candidate list, in the same order (`favicons.map(f => f.url)`). */
  function UrlsOf(cs: seq<Candidate>): (r: seq<String>)
    ensures |r| == |cs|
    ensures forall i :: 0 <= i < |cs| ==> r[i] == cs[i].url
  {
    seq(|cs|, i requires 0 <= i < |cs| => cs[i].url)
  }
}

/** What the browser supplies and the model does not interpret. URL
    resolution, URL parsing and the kilobyte formatting of a byte count are
    passed in as functions; network answers are passed in as values. */
module Browser {
  import opened Favicon

  /** `new URL(reference, base)`: `parses(reference, base)` is false where
      the constructor throws, and `href(reference, base)` is the resolved
      absolute url where it does not. */
  datatype Resolver = Resolver(parses: (String, String) -> bool, href: (String, String) -> String)

  /** The parts of a parsed absolute URL the popup reads. */
  datatype UrlParts = UrlParts(origin: String, pathname: String)

  /** How the network answers one existence probe: `response.ok` true,
      `response.ok` false, or the fetch promise rejected. */
  datatype ProbeResult = Ok | NotOk | Thrown

  /** A fetched payload: its byte count and its MIME type (`blob.type`). */
  datatype Blob = Blob(size: nat, mimeType: String)

  /** `parseUrl(u)` is `new URL(u)` (None when the constructor throws);
      `kbText(n)` is `(n / 1024).toFixed(2)`. */
  datatype Env = Env(parseUrl: String -> Option<UrlParts>, kbText: nat -> String)

  /** The pathname of `url`, or None when `url` does not parse. */
  function PathnameOf(env: Env, url: String): Option<String>
  {
    match env.parseUrl(url)
    case Some(parts) => Some(parts.pathname)
    case None => None
  }
}
