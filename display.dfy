/** The popup's display strings: the shortened favicon url, the format
    label, and the metadata fields a fetch of the favicon fills in. */
module Display {
  import opened Favicon
  import opened Browser
  import opened Text

  const DefaultShortName: String := "favicon.ico"

  /** `urlObj.pathname.split('/').pop() || 'favicon.ico'`, or the url itself
      when it does not parse (`pathname` is None). */
  function ShortUrl(pathname: Option<String>, url: String): String
  {
    match pathname
    case None => url
    case Some(path) =>
      var last := AfterLast(path, '/');
      if last == "" then DefaultShortName else last
  }

  /** The short url of a parsed url is `favicon.ico` when the path's last
      segment is empty (the path is empty or ends in `/`); otherwise it is
      that segment: non-empty, free of `/`, ending the path, and either the
      whole path or preceded by a `/`. */
  lemma ShortUrlIsLastSegment(path: String, url: String)
    ensures var r := ShortUrl(Some(path), url);
      && ((path == [] || path[|path| - 1] == '/') ==> r == DefaultShortName)
      && (!(path == [] || path[|path| - 1] == '/') ==>
            && r != []
            && '/' !in r
            && |r| <= |path|
            && r == path[|path| - |r|..]
            && (|r| == |path| || path[|path| - |r| - 1] == '/'))
  {
  }

  /** A path made of a directory part and a final segment with no `/`
      shortens to that segment. */
  lemma {:induction false} ShortUrlOfSegment(dir: String, segment: String, url: String)
    requires '/' !in segment && segment != ""
    ensures ShortUrl(Some(dir + "/" + segment), url) == segment
  {
    SegmentAfterLast(dir + "/", segment);
  }

  lemma {:induction false} SegmentAfterLast(dir: String, segment: String)
    requires '/' !in segment && dir != [] && dir[|dir| - 1] == '/'
    ensures AfterLast(dir + segment, '/') == segment
  {
    if segment != [] {
      var s := dir + segment;
      assert s[..|s| - 1] == dir + segment[..|segment| - 1];
      SegmentAfterLast(dir, segment[..|segment| - 1]);
    } else {
      assert dir + segment == dir;
    }
  }

  const UnknownFormat: String := "Unknown"

  /** `blob.type.split('/')[1]?.toUpperCase() || 'Unknown'`. */
  function FormatLabel(mimeType: String): String
  {
    match SecondField(mimeType, '/')
    case Some(subtype) => if subtype == "" then UnknownFormat else ToUpper(subtype)
    case None => UnknownFormat
  }

  /** The label of `type/subtype`, possibly followed by more `/`-fields, is
      the upper-cased subtype; with no `/` or an empty subtype it is
      `Unknown`. */
  lemma {:induction false} FormatLabelOfMime(top: String, subtype: String, rest: String)
    requires '/' !in top && '/' !in subtype
    requires rest == [] || rest[0] == '/'
    ensures FormatLabel(top + "/" + subtype + rest) == if subtype == "" then UnknownFormat else ToUpper(subtype)
  {
    var s := top + "/" + subtype + rest;
    TakeUntilStops(top, "/" + subtype + rest, '/');
    assert top + "/" + subtype + rest == top + ("/" + subtype + rest);
    assert s[|top| + 1..] == subtype + rest;
    TakeUntilStops(subtype, rest, '/');
    assert '/' in s by { assert s[|top|] == '/'; }
  }

  lemma {:induction false} TakeUntilStops(a: String, b: String, c: char)
    requires c !in a && (b == [] || b[0] == c)
    ensures TakeUntil(a + b, c) == a
  {
    if a != [] {
      assert (a + b)[1..] == a[1..] + b;
      TakeUntilStops(a[1..], b, c);
    } else {
      assert a + b == b;
    }
  }

  /** A MIME type without `/` has the label `Unknown`. */
  lemma FormatLabelWithoutSlash(mimeType: String)
    requires '/' !in mimeType
    ensures FormatLabel(mimeType) == UnknownFormat
  {
  }

  const ErrorText: String := "Error"

  /** No format label is the error marker: an upper-cased subtype has no
      lower-case letter and `Unknown` differs from `Error`. */
  lemma FormatLabelNotError(mimeType: String)
    ensures FormatLabel(mimeType) != ErrorText
  {
    var r := FormatLabel(mimeType);
    if r != UnknownFormat {
      var subtype := SecondField(mimeType, '/').value;
      assert r == ToUpper(subtype);
      if |r| == |ErrorText| {
        assert r[1] == UpperChar(subtype[1]);
        assert !IsLower(r[1]) && IsLower(ErrorText[1]);
      }
    } else {
      assert r[0] != ErrorText[0];
    }
  }

  /** What one metadata load writes: format, size text, and the dimensions
      text when the load writes it (None: left as it was). */
  datatype Metadata = Metadata(format: String, size: String, dimensions: Option<String>)

  /** `loadFaviconMetadata` given the fetch outcome (None when the fetch or
      the body read rejects). The size text is `kbText(bytes) + " KB"`; the
      dimensions are written later by image decoding, not by this step. */
  function MetadataFor(blob: Option<Blob>, env: Env): Metadata
  {
    match blob
    case None => Metadata(ErrorText, ErrorText, Some(ErrorText))
    case Some(b) => Metadata(FormatLabel(b.mimeType), env.kbText(b.size) + " KB", None)
  }

  /** The error marker is all-or-nothing and unambiguous: a failed fetch
      writes `Error` to all three fields, and a successful one writes
      `Error` to none. */
  lemma MetadataErrorIffFetchFailed(blob: Option<Blob>, env: Env)
    ensures var m := MetadataFor(blob, env);
      && (blob.None? <==> m.format == ErrorText)
      && (blob.None? <==> m.size == ErrorText)
      && (blob.None? <==> m.dimensions == Some(ErrorText))
      && (blob.Some? ==> m.format == FormatLabel(blob.value.mimeType) && m.dimensions.None?)
  {
    if blob.Some? {
      var m := MetadataFor(blob, env);
      FormatLabelNotError(blob.value.mimeType);
      assert m.size[|m.size| - 1] == 'B';
    }
  }
}
