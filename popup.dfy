/** The popup (popup.js): the fallback candidate set, first-success
    validation, the favicon display and metadata, the export, and the copy
    and open-in-tab actions, over the popup's mutable state. */
module Popup {
  import opened Favicon
  import opened Browser
  import opened Text
  import opened Export
  import opened Display

  /** `statusDiv.className`: none yet, or the type passed to `showStatus`. */
  datatype StatusKind = Plain | Error | Loading | Success

  datatype Status = Status(message: String, kind: StatusKind)

  /** The `disabled` flags of the download, copy and open-tab buttons. */
  datatype Buttons = Buttons(downloadDisabled: bool, copyDisabled: bool, openDisabled: bool)

  const AllDisabled: Buttons := Buttons(true, true, true)

  /** `faviconUrlDiv`'s text and tooltip. */
  datatype UrlLabel = UrlLabel(text: String, tooltip: String)

  /** The three metadata texts. */
  datatype MetaView = MetaView(format: String, dimensions: String, size: String)

  /** The active tab: its url and title. */
  datatype Tab = Tab(url: String, title: String)

  const NoFaviconMessage: String := "No favicon found for this website"
  const NoValidFaviconMessage: String := "No valid favicon found"
  const SelectFormatMessage: String := "Please select at least one format"
  const DownloadingMessage: String := "Downloading..."
  const DownloadErrorMessage: String := "Error downloading favicon"
  const DownloadFailedMessage: String := "Download failed"
  const CopiedMessage: String := "URL copied to clipboard"
  const CopyFailedMessage: String := "Failed to copy URL"
  const OpenedMessage: String := "Opened in new tab"

  function DownloadedMessage(count: nat): String
  {
    "Downloaded " + NatToString(count) + " file(s)"
  }

  /** The two candidates `handleFallback` tries, built by appending the
      paths to the tab's origin. */
  function FallbackCandidates(origin: String): seq<Candidate>
  {
    [Candidate(origin + "/favicon.ico", "icon", "", "", Fallback),
     Candidate(origin + "/favicon.png", "icon", "", "", Fallback)]
  }

  /** The fallback set: exactly two `icon` candidates tagged `Fallback`, the
      `.ico` one first, both at the tab's origin. */
  lemma FallbackCandidatesShape(origin: String)
    ensures var r := FallbackCandidates(origin);
      && |r| == 2
      && UrlsOf(r) == [origin + "/favicon.ico", origin + "/favicon.png"]
      && (forall c :: c in r ==> c.source == Fallback && c.rel == "icon" && c.sizes == "" && c.mimeType == "" && origin <= c.url)
  {
  }

  /** The index of the first probe that answers `ok`: every earlier probe
      failed, and None means every probe failed. */
  function FirstOk(outcomes: seq<ProbeResult>): (r: Option<nat>)
    ensures r.Some? ==> r.value < |outcomes| && outcomes[r.value] == Ok
    ensures r.Some? ==> forall j :: 0 <= j < r.value ==> outcomes[j] != Ok
    ensures r.None? <==> forall j :: 0 <= j < |outcomes| ==> outcomes[j] != Ok
  {
    if outcomes == [] then None
    else if outcomes[0] == Ok then Some(0)
    else
      match FirstOk(outcomes[1..])
      case Some(k) => Some(k + 1)
      case None => None
  }

  /** `if (!currentFaviconUrl)`: null and the empty string are both false. */
  predicate IsSet(url: Option<String>)
  {
    url.Some? && url.value != ""
  }

  /** The metadata texts after a load with result `m`. */
  function ApplyMetadata(view: MetaView, m: Metadata): MetaView
  {
    MetaView(m.format, match m.dimensions case Some(d) => d case None => view.dimensions, m.size)
  }

  /** The url label after `displayFavicon(url)`: the short url with the full
      url as tooltip, or the url itself when it does not parse. */
  function LabelFor(shown: UrlLabel, url: String, env: Env): UrlLabel
  {
    match PathnameOf(env, url)
    case Some(path) => UrlLabel(ShortUrl(Some(path), url), url)
    case None => UrlLabel(url, shown.tooltip)
  }

  /** The popup's state: the module-level variables of popup.js, the texts
      and flags of the elements it writes, and logs of what it asked the
      browser to do (fetches, saves, clipboard writes, opened tabs). */
  class PopupState {
    var currentFaviconUrl: Option<String>
    var pageTitle: String
    var allFavicons: seq<Candidate>
    var buttons: Buttons
    var status: Status
    var urlLabel: UrlLabel
    var meta: MetaView
    /** The click handlers are attached (`displayFavicon` has run). */
    var actionsBound: bool
    var fetched: seq<String>
    var saves: seq<Save>
    var copied: seq<String>
    var openedTabs: seq<String>

    /** The action handlers exist only once a favicon url has been chosen. */
    ghost predicate Valid()
      reads this
    {
      actionsBound ==> currentFaviconUrl.Some?
    }

    /** The state when the popup opens; the markup's initial texts are
        taken as empty and the buttons as enabled. */
    constructor ()
      ensures Valid()
      ensures currentFaviconUrl == None && pageTitle == "" && allFavicons == []
      ensures buttons == Buttons(false, false, false) && status == Status("", Plain)
      ensures urlLabel == UrlLabel("", "") && meta == MetaView("", "", "")
      ensures !actionsBound && fetched == [] && saves == [] && copied == [] && openedTabs == []
    {
      currentFaviconUrl := None;
      pageTitle := "";
      allFavicons := [];
      buttons := Buttons(false, false, false);
      status := Status("", Plain);
      urlLabel := UrlLabel("", "");
      meta := MetaView("", "", "");
      actionsBound := false;
      fetched := [];
      saves := [];
      copied := [];
      openedTabs := [];
    }

    /** The outcome of `findValidFavicon(favicons)` from the state `old` to
        the current one, probe `i` answered by `outcomes[i]` and the metadata
        fetch by `blob`: an empty list is reported and disables the buttons;
        otherwise the candidates are probed in order up to the first `ok`,
        which becomes the current url and is displayed; when none answers
        `ok`, all were probed, the failure is reported and the buttons are
        disabled. */
    twostate predicate Validated(favicons: seq<Candidate>, outcomes: seq<ProbeResult>, blob: Option<Blob>, env: Env)
      requires |outcomes| >= |favicons|
      reads this
    {
      var first := FirstOk(outcomes[..|favicons|]);
      && (favicons == [] ==>
            && status == Status(NoFaviconMessage, Error) && buttons == AllDisabled
            && currentFaviconUrl == old(currentFaviconUrl) && fetched == old(fetched)
            && urlLabel == old(urlLabel) && meta == old(meta) && actionsBound == old(actionsBound))
      && (favicons != [] && first.Some? ==>
            var winner := favicons[first.value].url;
            && currentFaviconUrl == Some(winner)
            && fetched == old(fetched) + UrlsOf(favicons[..first.value + 1]) + [winner]
            && status == old(status) && buttons == old(buttons)
            && urlLabel == LabelFor(old(urlLabel), winner, env)
            && meta == ApplyMetadata(old(meta), MetadataFor(blob, env))
            && actionsBound)
      && (favicons != [] && first.None? ==>
            && status == Status(NoValidFaviconMessage, Error) && buttons == AllDisabled
            && currentFaviconUrl == old(currentFaviconUrl) && fetched == old(fetched) + UrlsOf(favicons)
            && urlLabel == old(urlLabel) && meta == old(meta) && actionsBound == old(actionsBound))
    }

    method ShowStatus(message: String, kind: StatusKind)
      modifies this`status
      ensures status == Status(message, kind)
    {
      status := Status(message, kind);
    }

    /** The reply to `getFavicons` arrived (`response` None: no reply or a
        messaging error): use its candidates and title, or fall back. */
    method OnFaviconsResponse(response: Option<Response>, tab: Tab, outcomes: seq<ProbeResult>, blob: Option<Blob>, env: Env)
      requires Valid()
      requires response.Some? ==> |outcomes| >= |response.value.favicons|
      requires response.None? ==> |outcomes| >= 2
      modifies this`pageTitle, this`allFavicons, this`status, this`buttons, this`currentFaviconUrl,
               this`fetched, this`urlLabel, this`meta, this`actionsBound
      ensures Valid()
      ensures response.Some? ==>
                && pageTitle == response.value.pageTitle && allFavicons == response.value.favicons
                && Validated(allFavicons, outcomes, blob, env)
      ensures response.None? && env.parseUrl(tab.url).None? ==>
                pageTitle == old(pageTitle) && allFavicons == old(allFavicons) && status == old(status)
                && buttons == old(buttons) && currentFaviconUrl == old(currentFaviconUrl) && fetched == old(fetched)
                && urlLabel == old(urlLabel) && meta == old(meta) && actionsBound == old(actionsBound)
      ensures response.None? && env.parseUrl(tab.url).Some? ==>
                && pageTitle == tab.title && allFavicons == FallbackCandidates(env.parseUrl(tab.url).value.origin)
                && Validated(allFavicons, outcomes, blob, env)
    {
      if response.None? {
        HandleFallback(tab, outcomes, blob, env);
        return;
      }
      allFavicons := response.value.favicons;
      pageTitle := response.value.pageTitle;
      FindValidFavicon(allFavicons, outcomes, blob, env);
    }

    /** `handleFallback`: when the tab url parses, validate the two fallback
        candidates at its origin; when it does not, the constructor throws
        before anything is assigned. */
    method HandleFallback(tab: Tab, outcomes: seq<ProbeResult>, blob: Option<Blob>, env: Env)
      requires Valid()
      requires |outcomes| >= 2
      modifies this`pageTitle, this`allFavicons, this`status, this`buttons, this`currentFaviconUrl,
               this`fetched, this`urlLabel, this`meta, this`actionsBound
      ensures Valid()
      ensures env.parseUrl(tab.url).None? ==>
                pageTitle == old(pageTitle) && allFavicons == old(allFavicons) && status == old(status)
                && buttons == old(buttons) && currentFaviconUrl == old(currentFaviconUrl) && fetched == old(fetched)
                && urlLabel == old(urlLabel) && meta == old(meta) && actionsBound == old(actionsBound)
      ensures env.parseUrl(tab.url).Some? ==>
                var origin := env.parseUrl(tab.url).value.origin;
                && pageTitle == tab.title && allFavicons == FallbackCandidates(origin)
                && Validated(allFavicons, outcomes, blob, env)
    {
      match env.parseUrl(tab.url)
      case None =>
      case Some(parts) =>
        pageTitle := tab.title;
        allFavicons := FallbackCandidates(parts.origin);
        FindValidFavicon(allFavicons, outcomes, blob, env);
    }

    /** `findValidFavicon`: probe the candidates in order (probe `i` is
        answered by `outcomes[i]`); the first `ok` wins and is displayed,
        with `blob` the outcome of the metadata fetch that follows. */
    method FindValidFavicon(favicons: seq<Candidate>, outcomes: seq<ProbeResult>, blob: Option<Blob>, env: Env)
      requires Valid()
      requires |outcomes| >= |favicons|
      modifies this`status, this`buttons, this`currentFaviconUrl, this`fetched, this`urlLabel, this`meta, this`actionsBound
      ensures Valid()
      ensures Validated(favicons, outcomes, blob, env)
    {
      if |favicons| == 0 {
        ShowStatus(NoFaviconMessage, Error);
        buttons := AllDisabled;
        return;
      }
      ghost var probes := outcomes[..|favicons|];
      var i := 0;
      while i < |favicons|
        invariant 0 <= i <= |favicons|
        invariant forall j :: 0 <= j < i ==> probes[j] != Ok
        invariant fetched == old(fetched) + UrlsOf(favicons[..i])
        invariant status == old(status) && buttons == old(buttons) && currentFaviconUrl == old(currentFaviconUrl)
        invariant urlLabel == old(urlLabel) && meta == old(meta) && actionsBound == old(actionsBound)
      {
        var url := favicons[i].url;
        fetched := fetched + [url];
        assert UrlsOf(favicons[..i + 1]) == UrlsOf(favicons[..i]) + [url];
        if outcomes[i] == Ok {
          currentFaviconUrl := Some(url);
          DisplayFavicon(url, blob, env);
          return;
        }
        i := i + 1;
      }
      assert favicons[..i] == favicons;
      ShowStatus(NoValidFaviconMessage, Error);
      buttons := AllDisabled;
    }

    /** `displayFavicon`: write the url label, load the metadata, and attach
        the action handlers. */
    method DisplayFavicon(url: String, blob: Option<Blob>, env: Env)
      requires currentFaviconUrl.Some?
      modifies this`urlLabel, this`meta, this`fetched, this`actionsBound
      ensures Valid()
      ensures urlLabel == LabelFor(old(urlLabel), url, env)
      ensures meta == ApplyMetadata(old(meta), MetadataFor(blob, env))
      ensures fetched == old(fetched) + [url]
      ensures actionsBound
    {
      match PathnameOf(env, url) {
        case Some(path) =>
          urlLabel := UrlLabel(ShortUrl(Some(path), url), url);
        case None =>
          urlLabel := urlLabel.(text := url);
      }
      LoadFaviconMetadata(url, blob, env);
      actionsBound := true;
    }

    /** `loadFaviconMetadata`: one fetch of `url`; `blob` is its outcome. */
    method LoadFaviconMetadata(url: String, blob: Option<Blob>, env: Env)
      modifies this`meta, this`fetched
      ensures fetched == old(fetched) + [url]
      ensures meta == ApplyMetadata(old(meta), MetadataFor(blob, env))
      ensures blob.None? ==> meta == MetaView(ErrorText, ErrorText, ErrorText)
    {
      fetched := fetched + [url];
      match blob
      case Some(b) =>
        meta := meta.(size := env.kbText(b.size) + " KB");
        meta := meta.(format := FormatLabel(b.mimeType));
      case None =>
        meta := MetaView(ErrorText, ErrorText, ErrorText);
    }

    /** `handleDownload`: reject an empty selection before any fetch;
        otherwise export the current favicon under the page title. */
    method HandleDownload(formats: seq<String>, blob: Option<Blob>, blobUrl: String, env: Env)
      requires Valid() && actionsBound
      modifies this`status, this`fetched, this`saves
      ensures formats == [] ==>
                status == Status(SelectFormatMessage, Error) && fetched == old(fetched) && saves == old(saves)
      ensures formats != [] ==>
                var url := currentFaviconUrl.value;
                && fetched == old(fetched) + [url]
                && (blob.None? ==> status == Status(DownloadErrorMessage, Error) && saves == old(saves))
                && (blob.Some? ==>
                      status == Status(DownloadingMessage, Loading)
                      && saves == old(saves) + Saves(formats, CleanTitle(pageTitle), ExtensionOf(PathnameOf(env, url)), blobUrl))
    {
      if |formats| == 0 {
        ShowStatus(SelectFormatMessage, Error);
        return;
      }
      ShowStatus(DownloadingMessage, Loading);
      DownloadFavicon(currentFaviconUrl.value, pageTitle, formats, blob, blobUrl, env);
    }

    /** `downloadFavicon`: one fetch of `url` (`blob` is its outcome), then
        one save per format, in selection order, all of the one payload
        whose object url is `blobUrl`. */
    method DownloadFavicon(url: String, title: String, formats: seq<String>, blob: Option<Blob>, blobUrl: String, env: Env)
      modifies this`status, this`fetched, this`saves
      ensures fetched == old(fetched) + [url]
      ensures blob.None? ==> status == Status(DownloadErrorMessage, Error) && saves == old(saves)
      ensures blob.Some? ==>
                status == old(status)
                && saves == old(saves) + Saves(formats, CleanTitle(title), ExtensionOf(PathnameOf(env, url)), blobUrl)
    {
      fetched := fetched + [url];
      if blob.None? {
        ShowStatus(DownloadErrorMessage, Error);
        return;
      }
      var extension := ExtensionOf(PathnameOf(env, url));
      var cleanTitle := CleanTitle(title);
      var i := 0;
      while i < |formats|
        invariant 0 <= i <= |formats|
        invariant saves == old(saves) + Saves(formats[..i], cleanTitle, extension, blobUrl)
        invariant fetched == old(fetched) + [url] && status == old(status)
      {
        assert formats[..i + 1][..i] == formats[..i];
        saves := saves + [Save(blobUrl, Filename(formats[i], cleanTitle, extension), false)];
        i := i + 1;
      }
      assert formats[..i] == formats;
    }

    /** The callback of one of the saves an export of `formats` issues: a
        failure, or the number of formats selected for that export. */
    method OnDownloadComplete(succeeded: bool, formats: seq<String>)
      modifies this`status
      ensures succeeded ==> status == Status(DownloadedMessage(|formats|), Success)
      ensures !succeeded ==> status == Status(DownloadFailedMessage, Error)
    {
      if !succeeded {
        ShowStatus(DownloadFailedMessage, Error);
      } else {
        ShowStatus(DownloadedMessage(|formats|), Success);
      }
    }

    /** `handleCopyUrl`: nothing without a url; otherwise write it to the
        clipboard (`writeSucceeded` is the outcome) and report. */
    method HandleCopyUrl(writeSucceeded: bool)
      modifies this`status, this`copied
      ensures !IsSet(currentFaviconUrl) ==> status == old(status) && copied == old(copied)
      ensures IsSet(currentFaviconUrl) ==>
                copied == old(copied) + [currentFaviconUrl.value]
                && status == if writeSucceeded then Status(CopiedMessage, Success) else Status(CopyFailedMessage, Error)
    {
      if !IsSet(currentFaviconUrl) {
        return;
      }
      copied := copied + [currentFaviconUrl.value];
      if writeSucceeded {
        ShowStatus(CopiedMessage, Success);
      } else {
        ShowStatus(CopyFailedMessage, Error);
      }
    }

    /** `handleOpenTab`: nothing without a url; otherwise open it. */
    method HandleOpenTab()
      modifies this`status, this`openedTabs
      ensures !IsSet(currentFaviconUrl) ==> status == old(status) && openedTabs == old(openedTabs)
      ensures IsSet(currentFaviconUrl) ==>
                openedTabs == old(openedTabs) + [currentFaviconUrl.value] && status == Status(OpenedMessage, Success)
    {
      if !IsSet(currentFaviconUrl) {
        return;
      }
      openedTabs := openedTabs + [currentFaviconUrl.value];
      ShowStatus(OpenedMessage, Success);
    }
  }
}
