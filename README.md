# Favicon finder and exporter — a Dafny model

This project models the decision logic of a browser extension that finds the
favicon of the page in the active tab and exports it under sanitised
filenames. It covers:

- the page-side collector (`content.js`): candidates declared by
  `<link rel*="icon">` elements, in document order, followed by the four
  well-known paths that the page does not already declare, and the message
  listener that returns them;
- the popup (`popup.js`): the two-candidate fallback, the sequential
  first-success validation of the candidates, the url label and metadata
  texts of the chosen favicon, the export (empty selection rejected, title
  sanitised, extension resolved from the path, one filename per selected
  format, one fetch shared by all saves), and the copy and open-in-tab
  actions with their null guards.

Layout, one module per concern:

- `favicon.dfy`: module `Favicon` (the candidate record, its source tag,
  the page side's reply) and module `Browser` (what the browser supplies:
  url resolution and parsing, the kilobyte text of a byte count, probe
  outcomes and fetched payloads).
- `text.dfy`: module `Text`, ASCII case mapping, `split` helpers and the
  decimal rendering of a count.
- `content.dfy`: module `Content`, `findFavicons` as a method with two
  loops, proved equal to the specification function `Favicons`, and the
  lemmas about ordering, dedup, coverage and length.
- `export.dfy`: module `Export`, title sanitisation, extension resolution,
  filenames and the list of saves.
- `display.dfy`: module `Display`, the short url, the format label and the
  metadata a fetch writes.
- `popup.dfy`: module `Popup`, the popup's state as class `PopupState`
  whose methods follow the handlers of `popup.js`.

The browser is abstract throughout. `new URL(ref, base)` is the
parameter `resolve`: `resolve.parses(ref, base)` is false where the
constructor throws, and `resolve.href(ref, base)` is the resolved url
where it does not. A throw inside the collector ends it without a reply,
so the popup falls back. `new URL(u)` is `env.parseUrl`, which
returns None where the constructor throws; the answer to the `i`-th
validation probe is `outcomes[i]`; and a fetched payload is
`Option<Blob>`, None when the fetch or the body read rejects. Every fact
about the collector therefore holds for any resolver. The popup's state
keeps logs of what it asks the browser to do: every url passed to `fetch`,
every download request, every clipboard write and every opened tab. So
"exactly k+1 probes" and "one fetch, then one save per format" are
statements about those logs.

Where the extension's design description and the code disagree, the model
follows the code:

- The design says no two collected candidates share a url. The code
  removes a well-known path only when its url is among the HTML candidates'
  urls. HTML candidates are never deduplicated among themselves, and two
  well-known paths that resolve to the same new url are both added, because
  the snapshot is taken before the loop. `Content.HtmlCandidatesInOrder` and
  `Content.CommonCandidatesAppend` state this.
- The design's sanitisation example gives `favicon_my_site__1_32x32.png`
  for the title "My Site! #1". The title has four characters outside
  `[A-Za-z0-9]`: the space, `!`, the second space and `#`. The code
  therefore gives `favicon_my_site___1_32x32.png`
  (`Export.FilenameExampleSized`).
- The design says the format label is the MIME subtype. The code takes
  element 1 of `type.split('/')`, which is the text between the first and
  the second `/`.
- The design says metadata extraction is all-or-nothing, including when
  image decoding fails. In the code, a failed fetch writes `Error` to all
  three fields. A failed decode writes nothing, because `onload` never fires.
- The code comment `// Enable buttons` (popup.js:117) precedes lines that
  only attach the click handlers. The code never clears the `disabled`
  flags that a failed validation sets.

Strings are `seq<char>`. A Dafny `char` is a Unicode scalar value, while
a JavaScript string is a sequence of UTF-16 code units. The two agree on
every character of the Basic Multilingual Plane; see "## Left out" for
the others.

## Model

| member | source | states |
|---|---|---|
| `Content.FindFavicons` | content.js:3-52 | The function returns a list exactly when every `new URL` it makes succeeds (otherwise it throws). The list is exactly the collector's specified list. It is never empty, and its length is the number of links with an href plus the number of well-known paths whose url is new. |
| `Content.OnMessage` | content.js:55-65 | A reply is sent exactly when the request is `getFavicons` and collecting does not throw. The reply holds the collected candidates, the page title and the page url. |
| `Content.HtmlCandidatesInOrder` | content.js:9-27 | Each link contributes in its own place in document order: one candidate if it has a non-empty href, none otherwise. Duplicate links give duplicate candidates. |
| `Content.HtmlCandidatesAppend` | content.js:9-27 | The HTML candidates of two consecutive runs of links are those of the first run followed by those of the second. |
| `Content.HtmlCandidatesFromLinks` | content.js:9-27 | Every HTML candidate is tagged `Html` and is built from some link that has an href. Every link with an href yields its candidate. |
| `Content.HtmlCandidateFields` | content.js:10-25 | An HTML candidate's url is the href resolved against the page url. It keeps the link's rel. Its sizes and type default to the empty string when the attribute is absent. |
| `Content.HtmlCandidatesCount` | content.js:15-26 | There are exactly as many HTML candidates as links with a non-empty href. |
| `Content.CommonCandidatesAppend` | content.js:37-49 | The dedup snapshot stays fixed for the whole loop, so the paths contribute independently and in order. |
| `Content.CommonCandidatesFromPaths` | content.js:37-49 | A path adds a candidate exactly when its origin-resolved url is not in the snapshot. Each added candidate is an `icon` record with empty sizes and type, tagged `Common`, whose url is not among the HTML urls. |
| `Content.CommonCandidatesCount` | content.js:38-49 | The number of common candidates is the number of paths whose url is new. That number is at most the number of paths. |
| `Content.FaviconsLayout` | content.js:9-51 | The output starts with all the HTML candidates, all tagged `Html`. Every later entry is tagged `Common`, and none repeats an HTML url. |
| `Content.CommonCandidatesFixedOrder` | content.js:30-49 | After the HTML part come the contributions of `/favicon.ico`, `/favicon.png`, `/apple-touch-icon.png` and `/apple-touch-icon-precomposed.png`, in that order. |
| `Content.FaviconsCoverCommonPaths` | content.js:37-51 | Each of the four resolved well-known urls appears in the output, either as an HTML candidate or as a common one. |
| `Content.FaviconsNotEmpty` | content.js:37-51 | The collector never returns an empty list. |
| `Content.FaviconsCount` | content.js:15-51 | The output length is the number of links with an href plus the number of new well-known urls. It is at most that link count plus four. |
| `Text.TakeUntil` | popup.js:143 | The result is the longest prefix of the text without the separator. It is either the whole text or stops right before a separator. |
| `Text.AfterLast` | popup.js:107 | The result is the longest suffix of the text without the separator. It is either the whole text or starts right after a separator. |
| `Text.NatToStringRoundTrip` | popup.js:217 | The decimal count written into the "Downloaded N file(s)" message reads back as N. |
| `Export.CleanTitleChars` | popup.js:195 | The sanitised title has the title's length and uses only `[a-z0-9_]`. It keeps each ASCII letter or digit in place, lower-cased, and puts `_` exactly where the title has any other character. |
| `Export.CleanTitleIdempotent` | popup.js:195 | Sanitising an already sanitised title changes nothing. |
| `Export.MatchExtension` | popup.js:186 | A match is a recognised extension that ends the path, ignoring ASCII case. No match means no recognised extension ends the path. |
| `Export.ExtensionsExclusive` | popup.js:186 | No path ends in two different recognised extensions, so the order of the alternatives does not matter. |
| `Export.ExtensionOfMatches` | popup.js:183-192 | The extension is the path's own matching suffix with its letter case kept. It is `.ico` when nothing matches or the url does not parse. |
| `Export.SizedFilenamesDistinct` | popup.js:200-207 | Two different size labels never give the same filename. |
| `Export.FilenameShape` | popup.js:200-207 | Every filename starts with `favicon_` followed by the sanitised title. The `original` and `svg` names coincide exactly when the extension is `.svg`. |
| `Export.FilenameExampleSized` | popup.js:183-206 | "My Site! #1" at size 32 from a `.png` path gives `favicon_my_site___1_32x32.png`. |
| `Export.FilenameExampleEmptyTitle` | popup.js:183-202 | An empty title with `original` and no recognised extension gives `favicon_.ico`. |
| `Export.SavesPerFormat` | popup.js:198-213 | There is one save per selected format, in selection order. Each names that format's filename, points at the one shared payload url and does not prompt. |
| `Display.ShortUrlIsLastSegment` | popup.js:105-112 | If the path is empty or ends in `/`, the short url is `favicon.ico`. Otherwise it is the path's final segment: non-empty, free of `/`, a suffix of the path, and either the whole path or preceded by `/`. |
| `Display.ShortUrlOfSegment` | popup.js:107 | A path ending in `/` plus a non-empty segment without `/` shortens to that segment. |
| `Display.FormatLabelOfMime` | popup.js:143 | The label of `type/subtype`, optionally followed by more `/` fields, is the upper-cased subtype. It is `Unknown` when the subtype is empty. |
| `Display.FormatLabelWithoutSlash` | popup.js:143 | A MIME type without `/` is labelled `Unknown`. |
| `Display.FormatLabelNotError` | popup.js:143-156 | No format label equals the `Error` marker. |
| `Display.MetadataErrorIffFetchFailed` | popup.js:134-159 | A failed metadata fetch writes `Error` to format, dimensions and size. A successful one writes `Error` to none of them, and leaves the dimensions to the image decoder. |
| `Popup.FallbackCandidatesShape` | popup.js:47-62 | The fallback set has exactly two candidates: origin + `/favicon.ico`, then origin + `/favicon.png`. Both are `icon` records with empty sizes and type, tagged `Fallback`. |
| `Popup.FirstOk` | popup.js:76-89 | Gives the index of the first probe that answers ok; every earlier probe failed. None exactly when every probe failed. |
| `Popup.PopupState.constructor` | popup.js:12-14 | The popup opens with no favicon url, an empty title, no candidates and empty logs. |
| `Popup.PopupState.ShowStatus` | popup.js:258-261 | Sets the status text and kind and changes nothing else. |
| `Popup.PopupState.OnFaviconsResponse` | popup.js:28-39 | If the page replies, its candidates and title are stored and that stored list is validated (`Validated`: the probes, the current url, the status and the buttons). If there is no reply, the popup falls back: it stores and validates the two fallback candidates at the tab's origin, or changes nothing when the tab url does not parse. |
| `Popup.PopupState.HandleFallback` | popup.js:47-65 | The title comes from the tab, and the two fallback candidates at the tab's origin are stored and validated (`Validated`), so `/favicon.ico` is probed first. An unparsable tab url changes nothing. |
| `Popup.PopupState.FindValidFavicon` | popup.js:67-96 | Its contract is `Validated`. An empty list makes no probe, sets the status to "No favicon found for this website" and disables all three buttons. If the first ok is at index k, exactly k+1 probes are made, in order, then one metadata fetch. The url becomes candidate k's and the status and buttons do not change. If no probe succeeds, every candidate is probed, the url is unchanged, the status is "No valid favicon found" and all three buttons are disabled. |
| `Popup.PopupState.DisplayFavicon` | popup.js:98-121 | Writes the short url and its tooltip, or the raw url when it does not parse. It loads the metadata and attaches the action handlers. |
| `Popup.PopupState.LoadFaviconMetadata` | popup.js:134-160 | Makes one fetch. Success writes the format label and size text. Failure writes `Error` to all three fields. |
| `Popup.PopupState.HandleDownload` | popup.js:162-174 | An empty selection sets "Please select at least one format" with no fetch and no save. Otherwise it makes one fetch of the current url, then issues the saves for the page title. |
| `Popup.PopupState.DownloadFavicon` | popup.js:176-232 | Makes exactly one fetch. A failed fetch reports "Error downloading favicon" and issues no save. Otherwise it appends one save per format, in selection order, all of the one payload. |
| `Popup.PopupState.OnDownloadComplete` | popup.js:213-224 | A save callback reports "Download failed" or "Downloaded N file(s)", where N is the number of selected formats. |
| `Popup.PopupState.HandleCopyUrl` | popup.js:234-249 | Does nothing without a (non-empty) favicon url. Otherwise it writes the url to the clipboard and reports success or failure. |
| `Popup.PopupState.HandleOpenTab` | popup.js:251-256 | Does nothing without a (non-empty) favicon url. Otherwise it opens the url and reports it. |

## Left out

- Browser plumbing is not modelled: querying the tab, injecting the content script, runtime messaging (popup.js:17-45, except the reply-or-fallback decision), the downloads API and the clipboard. Their outcomes are parameters.
- DOM access (`querySelectorAll`, the preview `innerHTML`, `handleImageError`) is left out as presentation. The collector takes the matched links as a sequence, and the export takes the checked formats as a sequence.
- WHATWG URL resolution and parsing are parameters (`resolve`, `env.parseUrl`), not modelled. Which inputs make `new URL` throw is left to them.
- The kilobyte text `(size / 1024).toFixed(2)` is the parameter `env.kbText`, because it is floating-point formatting.
- Image decoding for the dimensions is not modelled. It is asynchronous and may never report, so no guarantee is stated for a failed decode.
- Timers are left out: the 100 ms stagger between saves, `revokeObjectURL` after the last save, and the 2 s status clear after a copy. The saves are issued in selection order, which is the order the stagger produces.
- Overlapping runs of the pipeline are left out as concurrency. Each method is one step run to completion.
- Popup.PopupState.OnDownloadComplete: one callback is modelled on its own, given the formats of its export. The status after several callbacks depends on their completion order, which the code leaves open.
- Popup.PopupState.HandleDownload: the click handler exists only after a favicon is displayed, so the model requires that state instead of modelling a fetch of a null url.
- Popup.PopupState.FindValidFavicon: probe answers are supplied as one outcome per candidate, so `outcomes` must be at least as long as the list. Extra outcomes are never read.
- Display.FormatLabel: `toUpperCase` is modelled on ASCII letters only.
- Characters outside the Basic Multilingual Plane are one `char` here but two UTF-16 code units in the source, so sanitisation would write two underscores for one of them.
- The markup's initial texts and button states are unknown. The constructor starts them empty and enabled.
