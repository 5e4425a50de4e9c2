/** The page-side collector (content.js): candidates declared by
    `<link rel*="icon">` elements, then the well-known paths the page does
    not already declare, and the message listener that returns them. */
module Content {
  import opened Favicon
  import opened Browser

  /** One `<link>` element matched by `link[rel*="icon"]`; each optional
      attribute is None when `getAttribute` returns null. */
  datatype Link = Link(rel: String, href: Option<String>, sizes: Option<String>, mimeType: Option<String>)

  /** What the page exposes: `document.title`, `window.location.href`,
      `window.location.origin`, and the matched links in document order. */
  datatype Page = Page(title: String, href: String, origin: String, links: seq<Link>)

  /** The well-known icon paths, in the order they are tried. */
  const CommonPaths: seq<String> :=
    ["/favicon.ico", "/favicon.png", "/apple-touch-icon.png", "/apple-touch-icon-precomposed.png"]

  /** `if (href)`: the attribute is present and not empty. */
  predicate HasHref(link: Link)
  {
    link.href.Some? && link.href.value != ""
  }

  /** `link.getAttribute(name) || ''`. */
  function AttributeOrEmpty(a: Option<String>): String
  {
    match a
    case Some(s) => s
    case None => ""
  }

  /** The candidate one link with an href contributes. */
  function HtmlCandidate(link: Link, pageHref: String, resolve: Resolver): Candidate
    requires HasHref(link)
  {
    Candidate(resolve.href(link.href.value, pageHref), link.rel,
              AttributeOrEmpty(link.sizes), AttributeOrEmpty(link.mimeType), Html)
  }

  /** The first loop's result on `links`: one candidate per link with an href. */
  function HtmlCandidates(links: seq<Link>, pageHref: String, resolve: Resolver): seq<Candidate>
  {
    if links == [] then []
    else
      var last := links[|links| - 1];
      HtmlCandidates(links[..|links| - 1], pageHref, resolve)
        + (if HasHref(last) then [HtmlCandidate(last, pageHref, resolve)] else [])
  }

  /** The candidate a well-known path contributes. */
  function CommonCandidate(url: String): Candidate
  {
    Candidate(url, "icon", "", "", Common)
  }

  /** The second loop's result on `paths`: each path resolved against the
      origin, kept when its url is not in the snapshot `existing`. */
  function CommonCandidates(paths: seq<String>, existing: seq<String>, origin: String, resolve: Resolver): seq<Candidate>
  {
    if paths == [] then []
    else
      var url := resolve.href(paths[|paths| - 1], origin);
      CommonCandidates(paths[..|paths| - 1], existing, origin, resolve)
        + (if url !in existing then [CommonCandidate(url)] else [])
  }

  /** What `findFavicons` returns for `page`. */
  function Favicons(page: Page, resolve: Resolver): seq<Candidate>
  {
    var html := HtmlCandidates(page.links, page.href, resolve);
    html + CommonCandidates(CommonPaths, UrlsOf(html), page.origin, resolve)
  }

  /** The indices of the links that contribute a candidate. */
  function LinksWithHref(links: seq<Link>): set<nat>
  {
    set i: nat | i < |links| && HasHref(links[i])
  }

  /** The indices of the paths whose resolved url is not in `existing`. */
  function NewPaths(paths: seq<String>, existing: seq<String>, origin: String, resolve: Resolver): set<nat>
  {
    set i: nat | i < |paths| && resolve.href(paths[i], origin) !in existing
  }

  /** Every `new URL` call `findFavicons` makes succeeds: the one for each
      link with an href, against the page url, and the one for each
      well-known path, against the origin. */
  predicate AllResolve(page: Page, resolve: Resolver)
  {
    && (forall i :: 0 <= i < |page.links| && HasHref(page.links[i]) ==> resolve.parses(page.links[i].href.value, page.href))
    && (forall k :: 0 <= k < |CommonPaths| ==> resolve.parses(CommonPaths[k], page.origin))
  }

  /** `findFavicons`: two loops that extend the candidate list. None stands
      for the TypeError a failing `new URL` throws out of the function. */
  method FindFavicons(page: Page, resolve: Resolver) returns (found: Option<seq<Candidate>>)
    ensures found.Some? <==> AllResolve(page, resolve)
    ensures found.Some? ==> found.value == Favicons(page, resolve)
    ensures found.Some? ==> found.value != []
    ensures found.Some? ==>
              |found.value| == |LinksWithHref(page.links)|
                + |NewPaths(CommonPaths, UrlsOf(HtmlCandidates(page.links, page.href, resolve)), page.origin, resolve)|
  {
    var favicons := [];
    var links := page.links;
    var i := 0;
    while i < |links|
      invariant 0 <= i <= |links|
      invariant favicons == HtmlCandidates(links[..i], page.href, resolve)
      invariant forall j :: 0 <= j < i && HasHref(links[j]) ==> resolve.parses(links[j].href.value, page.href)
    {
      var link := links[i];
      assert links[..i + 1][..i] == links[..i];
      if link.href.Some? && link.href.value != "" {
        if !resolve.parses(link.href.value, page.href) {
          return None;
        }
        var absoluteUrl := resolve.href(link.href.value, page.href);
        favicons := favicons + [Candidate(absoluteUrl, link.rel, AttributeOrEmpty(link.sizes),
                                          AttributeOrEmpty(link.mimeType), Html)];
      }
      i := i + 1;
    }
    assert links[..i] == links;
    ghost var html := favicons;

    var existingUrls := UrlsOf(favicons);
    var j := 0;
    while j < |CommonPaths|
      invariant 0 <= j <= |CommonPaths|
      invariant favicons == html + CommonCandidates(CommonPaths[..j], existingUrls, page.origin, resolve)
      invariant forall k :: 0 <= k < j ==> resolve.parses(CommonPaths[k], page.origin)
    {
      if !resolve.parses(CommonPaths[j], page.origin) {
        return None;
      }
      var url := resolve.href(CommonPaths[j], page.origin);
      assert CommonPaths[..j + 1][..j] == CommonPaths[..j];
      if url !in existingUrls {
        favicons := favicons + [Candidate(url, "icon", "", "", Common)];
      }
      j := j + 1;
    }
    assert CommonPaths[..j] == CommonPaths;
    FaviconsNotEmpty(page, resolve);
    FaviconsCount(page, resolve);
    found := Some(favicons);
  }

  /** The listener: a `getFavicons` request gets a reply holding the
      collected candidates, the title and the page url, unless collecting
      throws first; any other request gets none. */
  method OnMessage(action: String, page: Page, resolve: Resolver) returns (reply: Option<Response>)
    ensures reply.Some? <==> action == "getFavicons" && AllResolve(page, resolve)
    ensures reply.Some? ==> reply.value == Response(Favicons(page, resolve), page.title, page.href)
  {
    reply := None;
    if action == "getFavicons" {
      var found := FindFavicons(page, resolve);
      if found.Some? {
        reply := Some(Response(found.value, page.title, page.href));
      }
    }
  }

  // ---------------------------------------------------------------------
  // Properties of the HTML-declared candidates

  /** Every link contributes in its own place, in document order: the
      candidates of `a + [l] + b` are those of `a`, then `l`'s own (none
      when it has no href), then those of `b`. Duplicates are kept. */
  lemma {:induction false} HtmlCandidatesInOrder(a: seq<Link>, l: Link, b: seq<Link>, pageHref: String, resolve: Resolver)
    ensures HtmlCandidates(a + [l] + b, pageHref, resolve)
         == HtmlCandidates(a, pageHref, resolve)
          + (if HasHref(l) then [HtmlCandidate(l, pageHref, resolve)] else [])
          + HtmlCandidates(b, pageHref, resolve)
  {
    HtmlCandidatesAppend(a + [l], b, pageHref, resolve);
    assert (a + [l])[..|a + [l]| - 1] == a;
  }

  lemma {:induction false} HtmlCandidatesAppend(a: seq<Link>, b: seq<Link>, pageHref: String, resolve: Resolver)
    ensures HtmlCandidates(a + b, pageHref, resolve)
         == HtmlCandidates(a, pageHref, resolve) + HtmlCandidates(b, pageHref, resolve)
  {
    if b == [] {
      assert a + b == a;
    } else {
      HtmlCandidatesAppend(a, b[..|b| - 1], pageHref, resolve);
      assert (a + b)[..|a + b| - 1] == a + b[..|b| - 1];
    }
  }

  /** Each HTML candidate is tagged `Html` and is the resolved form of some
      link with an href; each link with an href yields one. */
  lemma {:induction false} HtmlCandidatesFromLinks(links: seq<Link>, pageHref: String, resolve: Resolver)
    ensures forall c :: c in HtmlCandidates(links, pageHref, resolve) ==>
              c.source == Html && exists l :: l in links && HasHref(l) && c == HtmlCandidate(l, pageHref, resolve)
    ensures forall l :: l in links && HasHref(l) ==> HtmlCandidate(l, pageHref, resolve) in HtmlCandidates(links, pageHref, resolve)
  {
    if links != [] {
      var init := links[..|links| - 1];
      HtmlCandidatesFromLinks(init, pageHref, resolve);
      assert links == init + [links[|links| - 1]];
      forall l | l in init ensures l in links { }
    }
  }

  /** An HTML candidate's fields: the href resolved against the page url,
      the link's rel, and sizes and type defaulting to the empty string. */
  lemma HtmlCandidateFields(link: Link, pageHref: String, resolve: Resolver)
    requires HasHref(link)
    ensures var c := HtmlCandidate(link, pageHref, resolve);
      && c.url == resolve.href(link.href.value, pageHref)
      && c.rel == link.rel
      && c.source == Html
      && (link.sizes.None? ==> c.sizes == "")
      && (link.sizes.Some? ==> c.sizes == link.sizes.value)
      && (link.mimeType.None? ==> c.mimeType == "")
      && (link.mimeType.Some? ==> c.mimeType == link.mimeType.value)
  {
  }

  /** There are exactly as many HTML candidates as links with an href. */
  lemma {:induction false} HtmlCandidatesCount(links: seq<Link>, pageHref: String, resolve: Resolver)
    ensures |HtmlCandidates(links, pageHref, resolve)| == |LinksWithHref(links)|
  {
    if links != [] {
      var n := |links| - 1;
      var init := links[..n];
      HtmlCandidatesCount(init, pageHref, resolve);
      var s, s0 := LinksWithHref(links), LinksWithHref(init);
      assert s == if HasHref(links[n]) then s0 + {n} else s0 by {
        forall i: nat | i < n ensures (i in s <==> i in s0) {
          assert links[i] == init[i];
        }
      }
      assert n !in s0;
    }
  }

  // ---------------------------------------------------------------------
  // Properties of the well-known-path candidates

  /** The snapshot `existing` is fixed for the whole loop: the candidates of
      `a + b` are those of `a` followed by those of `b`. */
  lemma {:induction false} CommonCandidatesAppend(a: seq<String>, b: seq<String>, existing: seq<String>, origin: String, resolve: Resolver)
    ensures CommonCandidates(a + b, existing, origin, resolve)
         == CommonCandidates(a, existing, origin, resolve) + CommonCandidates(b, existing, origin, resolve)
  {
    if b == [] {
      assert a + b == a;
    } else {
      CommonCandidatesAppend(a, b[..|b| - 1], existing, origin, resolve);
      assert (a + b)[..|a + b| - 1] == a + b[..|b| - 1];
    }
  }

  /** A path contributes exactly when its resolved url is not in the
      snapshot, and every common candidate is a fixed `icon` record tagged
      `Common` whose url is not in the snapshot. */
  lemma {:induction false} CommonCandidatesFromPaths(paths: seq<String>, existing: seq<String>, origin: String, resolve: Resolver)
    ensures forall c :: c in CommonCandidates(paths, existing, origin, resolve) ==>
              c.rel == "icon" && c.sizes == "" && c.mimeType == "" && c.source == Common
              && c.url !in existing
              && exists p :: p in paths && c.url == resolve.href(p, origin)
    ensures forall p :: p in paths ==>
              (resolve.href(p, origin) !in existing <==> CommonCandidate(resolve.href(p, origin)) in CommonCandidates(paths, existing, origin, resolve))
  {
    if paths != [] {
      var init := paths[..|paths| - 1];
      CommonCandidatesFromPaths(init, existing, origin, resolve);
      assert paths == init + [paths[|paths| - 1]];
      forall p | p in init ensures p in paths { }
    }
  }

  /** There are exactly as many common candidates as paths whose url is new. */
  lemma {:induction false} CommonCandidatesCount(paths: seq<String>, existing: seq<String>, origin: String, resolve: Resolver)
    ensures |CommonCandidates(paths, existing, origin, resolve)| == |NewPaths(paths, existing, origin, resolve)|
    ensures |NewPaths(paths, existing, origin, resolve)| <= |paths|
  {
    if paths != [] {
      var n := |paths| - 1;
      var init := paths[..n];
      CommonCandidatesCount(init, existing, origin, resolve);
      NewPathsStep(paths, existing, origin, resolve);
    }
  }

  /** Adding one path adds its index to the new paths exactly when its url
      is new. */
  lemma NewPathsStep(paths: seq<String>, existing: seq<String>, origin: String, resolve: Resolver)
    requires paths != []
    ensures var n := |paths| - 1;
      var s0 := NewPaths(paths[..n], existing, origin, resolve);
      && n !in s0
      && NewPaths(paths, existing, origin, resolve)
         == if resolve.href(paths[n], origin) !in existing then s0 + {n} else s0
  {
    var n := |paths| - 1;
    var init := paths[..n];
    var s, s0 := NewPaths(paths, existing, origin, resolve), NewPaths(init, existing, origin, resolve);
    forall i: nat | i < n ensures (i in s <==> i in s0) {
      assert paths[i] == init[i];
    }
  }

  // ---------------------------------------------------------------------
  // Properties of the whole collector output

  /** HTML candidates come first, then the common ones: positions below the
      number of links with an href are `Html`, the rest `Common`, and no
      common candidate repeats an HTML candidate's url. */
  lemma FaviconsLayout(page: Page, resolve: Resolver)
    ensures var r, h := Favicons(page, resolve), |LinksWithHref(page.links)|;
      && h <= |r|
      && r[..h] == HtmlCandidates(page.links, page.href, resolve)
      && (forall i :: 0 <= i < h ==> r[i].source == Html)
      && (forall i :: h <= i < |r| ==> r[i].source == Common && r[i].url !in UrlsOf(r[..h]))
  {
    var html := HtmlCandidates(page.links, page.href, resolve);
    var common := CommonCandidates(CommonPaths, UrlsOf(html), page.origin, resolve);
    var r := Favicons(page, resolve);
    HtmlCandidatesCount(page.links, page.href, resolve);
    HtmlCandidatesFromLinks(page.links, page.href, resolve);
    CommonCandidatesFromPaths(CommonPaths, UrlsOf(html), page.origin, resolve);
    assert r[..|html|] == html;
    forall i | 0 <= i < |html| ensures r[i].source == Html {
      assert r[i] == html[i] && html[i] in html;
    }
    forall i | |html| <= i < |r| ensures r[i].source == Common && r[i].url !in UrlsOf(r[..|html|]) {
      assert r[i] == common[i - |html|] && common[i - |html|] in common;
    }
  }

  /** The common candidates that survive keep the fixed path order: the
      output after the HTML part is the per-path contributions of
      `/favicon.ico`, `/favicon.png`, `/apple-touch-icon.png`,
      `/apple-touch-icon-precomposed.png`, in that order. */
  lemma CommonCandidatesFixedOrder(page: Page, resolve: Resolver)
    ensures var html := HtmlCandidates(page.links, page.href, resolve);
      var existing := UrlsOf(html);
      Favicons(page, resolve) == html
        + CommonCandidates([CommonPaths[0]], existing, page.origin, resolve)
        + CommonCandidates([CommonPaths[1]], existing, page.origin, resolve)
        + CommonCandidates([CommonPaths[2]], existing, page.origin, resolve)
        + CommonCandidates([CommonPaths[3]], existing, page.origin, resolve)
  {
    var existing := UrlsOf(HtmlCandidates(page.links, page.href, resolve));
    var p := CommonPaths;
    assert p == [p[0]] + [p[1]] + [p[2]] + [p[3]];
    CommonCandidatesAppend([p[0]] + [p[1]] + [p[2]], [p[3]], existing, page.origin, resolve);
    CommonCandidatesAppend([p[0]] + [p[1]], [p[2]], existing, page.origin, resolve);
    CommonCandidatesAppend([p[0]], [p[1]], existing, page.origin, resolve);
  }

  /** Each well-known path's resolved url is somewhere in the output,
      declared by the page or added as a common candidate. */
  lemma FaviconsCoverCommonPaths(page: Page, resolve: Resolver)
    ensures forall p :: p in CommonPaths ==> resolve.href(p, page.origin) in UrlsOf(Favicons(page, resolve))
  {
    var html := HtmlCandidates(page.links, page.href, resolve);
    var existing := UrlsOf(html);
    var common := CommonCandidates(CommonPaths, existing, page.origin, resolve);
    var r := Favicons(page, resolve);
    CommonCandidatesFromPaths(CommonPaths, existing, page.origin, resolve);
    forall p | p in CommonPaths ensures resolve.href(p, page.origin) in UrlsOf(r) {
      var u := resolve.href(p, page.origin);
      if u in existing {
        var i :| 0 <= i < |existing| && existing[i] == u;
        assert r[i] == html[i];
        assert UrlsOf(r)[i] == u;
      } else {
        var c := CommonCandidate(u);
        assert c in common;
        var i :| 0 <= i < |common| && common[i] == c;
        assert r[|html| + i] == c;
        assert UrlsOf(r)[|html| + i] == u;
      }
    }
  }

  /** The collector never returns an empty list. */
  lemma FaviconsNotEmpty(page: Page, resolve: Resolver)
    ensures Favicons(page, resolve) != []
  {
  }

  /** The output length is the number of links with an href plus the number
      of well-known paths not already declared, so at most that link count
      plus four. */
  lemma FaviconsCount(page: Page, resolve: Resolver)
    ensures var html := HtmlCandidates(page.links, page.href, resolve);
      |Favicons(page, resolve)| == |LinksWithHref(page.links)| + |NewPaths(CommonPaths, UrlsOf(html), page.origin, resolve)|
    ensures |Favicons(page, resolve)| <= |LinksWithHref(page.links)| + 4
  {
    var html := HtmlCandidates(page.links, page.href, resolve);
    HtmlCandidatesCount(page.links, page.href, resolve);
    CommonCandidatesCount(CommonPaths, UrlsOf(html), page.origin, resolve);
  }
}
