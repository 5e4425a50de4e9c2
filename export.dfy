/** The pure string logic of the export step (`downloadFavicon` in
    popup.js): title sanitisation, extension resolution, and the filename
    each selected format gets. */
module Export {
  import opened Favicon
  import opened Browser
  import opened Text

  // ---------------------------------------------------------------------
  // Title sanitisation: `title.replace(/[^a-z0-9]/gi, '_').toLowerCase()`

  /** The replace step: every character outside `[A-Za-z0-9]` becomes `_`. */
  function ReplaceNonAlnum(title: String): String
  {
    seq(|title|, i requires 0 <= i < |title| => if IsAlnum(title[i]) then title[i] else '_')
  }

  function CleanTitle(title: String): String
  {
    ToLower(ReplaceNonAlnum(title))
  }

  predicate IsCleanChar(c: char)
  {
    IsLower(c) || IsDigit(c) || c == '_'
  }

  /** The sanitised title has the title's length, uses only `[a-z0-9_]`,
      keeps each ASCII letter or digit lower-cased in place, and puts `_`
      exactly where the title has anything else. */
  lemma CleanTitleChars(title: String)
    ensures var r := CleanTitle(title);
      && |r| == |title|
      && (forall i :: 0 <= i < |r| ==> IsCleanChar(r[i]))
      && (forall i :: 0 <= i < |title| && IsAlnum(title[i]) ==> r[i] == LowerChar(title[i]))
      && (forall i :: 0 <= i < |title| && !IsAlnum(title[i]) ==> r[i] == '_')
  {
  }

  /** Sanitising a sanitised title changes nothing. */
  lemma CleanTitleIdempotent(title: String)
    ensures CleanTitle(CleanTitle(title)) == CleanTitle(title)
  {
  }

  // ---------------------------------------------------------------------
  // Extension resolution: `pathname.match(/\.(png|jpg|jpeg|gif|svg|ico)$/i)`

  /** The alternatives of the pattern, in the order it lists them. */
  const ImageExtensions: seq<String> := ["png", "jpg", "jpeg", "gif", "svg", "ico"]

  const DefaultExtension: String := ".ico"

  /** The first alternative that ends `path`, ignoring letter case. */
  function MatchExtension(path: String, exts: seq<String>): (r: Option<String>)
    ensures r.Some? ==> r.value in exts && EndsWithIgnoringCase(path, "." + r.value)
    ensures r.None? ==> forall e :: e in exts ==> !EndsWithIgnoringCase(path, "." + e)
  {
    if exts == [] then None
    else if EndsWithIgnoringCase(path, "." + exts[0]) then Some(exts[0])
    else MatchExtension(path, exts[1..])
  }

  /** The extension used for the saved files, given the url's pathname (None
      when the url does not parse): the matched text `match[0]`, with the
      path's own letter case, or `.ico`. */
  function ExtensionOf(pathname: Option<String>): String
  {
    match pathname
    case None => DefaultExtension
    case Some(path) =>
      match MatchExtension(path, ImageExtensions)
      case Some(e) => path[|path| - |e| - 1..]
      case None => DefaultExtension
  }

  /** No path ends in two of the recognised extensions at once. */
  lemma ExtensionsExclusive(path: String, e1: String, e2: String)
    requires e1 in ImageExtensions && e2 in ImageExtensions
    requires EndsWithIgnoringCase(path, "." + e1) && EndsWithIgnoringCase(path, "." + e2)
    ensures e1 == e2
  {
    if e1 != e2 {
      if |e1| <= |e2| {
        SuffixesAgree(path, "." + e1, "." + e2);
        DistinctSuffixes(e1, e2);
      } else {
        SuffixesAgree(path, "." + e2, "." + e1);
        DistinctSuffixes(e2, e1);
      }
    }
  }

  /** For two different recognised extensions, the shorter dotted one is not
      a suffix of the longer dotted one. */
  lemma DistinctSuffixes(e1: String, e2: String)
    requires e1 in ImageExtensions && e2 in ImageExtensions && e1 != e2 && |e1| <= |e2|
    ensures ToLower("." + e1) != ToLower(("." + e2)[|e2| - |e1|..])
  {
    var x, y := "." + e1, ("." + e2)[|e2| - |e1|..];
    assert ToLower(x)[0] == '.';
    if |e1| < |e2| {
      assert e2 == "jpeg" && y[0] == 'j';
      assert ToLower(y)[0] == 'j';
    } else {
      var k :| 0 <= k < |e1| && e1[k] != e2[k];
      assert ToLower(x)[k + 1] == e1[k] && ToLower(y)[k + 1] == e2[k];
    }
  }

  /** The resolved extension is `.ico` when the url does not parse or no
      recognised extension ends the path; otherwise it is the path's own
      matching suffix, letter case kept. */
  lemma {:induction false} ExtensionOfMatches(pathname: Option<String>)
    ensures var r := ExtensionOf(pathname);
      && (pathname.None? ==> r == DefaultExtension)
      && (pathname.Some? ==>
            var path := pathname.value;
            && (forall e :: e in ImageExtensions && EndsWithIgnoringCase(path, "." + e) ==> r == path[|path| - |e| - 1..])
            && ((forall e :: e in ImageExtensions ==> !EndsWithIgnoringCase(path, "." + e)) ==> r == DefaultExtension))
  {
    if pathname.Some? {
      var path := pathname.value;
      var m := MatchExtension(path, ImageExtensions);
      forall e | e in ImageExtensions && EndsWithIgnoringCase(path, "." + e)
        ensures ExtensionOf(pathname) == path[|path| - |e| - 1..]
      {
        ExtensionsExclusive(path, e, m.value);
      }
    }
  }

  // ---------------------------------------------------------------------
  // Filenames

  /** The filename a format gets: `original` keeps the extension, `svg`
      forces `.svg`, anything else `f` is a size label `f` x `f`. */
  function Filename(format: String, clean: String, ext: String): String
  {
    if format == "original" then "favicon_" + clean + ext
    else if format == "svg" then "favicon_" + clean + ".svg"
    else "favicon_" + clean + "_" + format + "x" + format + ext
  }

  /** Different size labels never give the same filename. */
  lemma SizedFilenamesDistinct(f1: String, f2: String, clean: String, ext: String)
    requires f1 != "original" && f1 != "svg" && f2 != "original" && f2 != "svg"
    requires Filename(f1, clean, ext) == Filename(f2, clean, ext)
    ensures f1 == f2
  {
    var p := "favicon_" + clean + "_";
    var n1 := p + f1 + "x" + f1 + ext;
    var n2 := p + f2 + "x" + f2 + ext;
    assert |f1| == |f2|;
    assert f1 == n1[|p|..|p| + |f1|] == n2[|p|..|p| + |f2|] == f2;
  }

  /** Every filename starts with `favicon_` and the sanitised title, and
      `original` and `svg` coincide exactly when the extension is `.svg`. */
  lemma FilenameShape(format: String, clean: String, ext: String)
    ensures ("favicon_" + clean) <= Filename(format, clean, ext)
    ensures Filename("original", clean, ext) == Filename("svg", clean, ext) <==> ext == ".svg"
  {
    var p := "favicon_" + clean;
    assert Filename(format, clean, ext)[..|p|] == p;
    if Filename("original", clean, ext) == Filename("svg", clean, ext) {
      assert ext == (p + ext)[|p|..] == (p + ".svg")[|p|..];
    }
  }

  /** "My Site! #1" at size 32 from a `.png` path: each of its four
      non-alphanumerics becomes `_`. */
  lemma FilenameExampleSized()
    ensures Filename("32", CleanTitle("My Site! #1"), ExtensionOf(Some("/img/icon.png"))) == "favicon_my_site___1_32x32.png"
  {
    CleanTitleExample();
    PngExtensionExample();
    var n := Filename("32", "my_site___1", ".png");
    assert n == "favicon_" + "my_site___1" + "_" + "32" + "x" + "32" + ".png";
  }

  /** An empty title with `original` and no recognised extension. */
  lemma FilenameExampleEmptyTitle()
    ensures Filename("original", CleanTitle(""), ExtensionOf(Some("/icon"))) == "favicon_.ico"
  {
    NoExtensionExample();
    assert CleanTitle("") == "";
  }

  lemma CleanTitleExample()
    ensures CleanTitle("My Site! #1") == "my_site___1"
  {
  }

  lemma PngExtensionExample()
    ensures ExtensionOf(Some("/img/icon.png")) == ".png"
  {
    var path := "/img/icon.png";
    assert path[|path| - 4..] == ".png";
    assert ToLower(".png") == ".png";
    assert EndsWithIgnoringCase(path, "." + ImageExtensions[0]);
    assert MatchExtension(path, ImageExtensions) == Some("png");
  }

  lemma NoExtensionExample()
    ensures ExtensionOf(Some("/icon")) == DefaultExtension
  {
  }

  // ---------------------------------------------------------------------
  // The saves one export issues

  /** One file-save request: the object url of the shared payload, the
      filename, and `saveAs: false`. */
  datatype Save = Save(blobUrl: String, filename: String, saveAs: bool)

  /** The saves the per-format loop issues, in selection order. */
  function Saves(formats: seq<String>, clean: String, ext: String, blobUrl: String): seq<Save>
  {
    if formats == [] then []
    else Saves(formats[..|formats| - 1], clean, ext, blobUrl)
           + [Save(blobUrl, Filename(formats[|formats| - 1], clean, ext), false)]
  }

  /** One save per selected format, in selection order, every one pointing
      at the same payload url and none prompting. */
  lemma {:induction false} SavesPerFormat(formats: seq<String>, clean: String, ext: String, blobUrl: String)
    ensures var r := Saves(formats, clean, ext, blobUrl);
      && |r| == |formats|
      && forall i :: 0 <= i < |formats| ==>
           r[i].blobUrl == blobUrl && !r[i].saveAs && r[i].filename == Filename(formats[i], clean, ext)
  {
    if formats != [] {
      SavesPerFormat(formats[..|formats| - 1], clean, ext, blobUrl);
    }
  }
}
