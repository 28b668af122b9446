/**
 * The title of the link preview (src/components/PreviewModal.tsx): a fixed
 * label for the campus map PDF, otherwise the host part of the URL, that is
 * the URL without a leading `http://` or `https://`, up to its first "/".
 */
module PreviewModal {
  import opened Text

  const PdfTitle := "Campus Map (PDF)"

  const HttpScheme := "http://"
  const HttpsScheme := "https://"

  /** `url.replace(/^https?:\/\//, '')`: one leading `https://` or `http://`
      removed, matched case-sensitively and only at the very start. */
  function StripScheme(url: string): (r: string)
    ensures StartsWith(url, HttpsScheme) ==> url == HttpsScheme + r
    ensures !StartsWith(url, HttpsScheme) && StartsWith(url, HttpScheme) ==> url == HttpScheme + r
    ensures !StartsWith(url, HttpsScheme) && !StartsWith(url, HttpScheme) ==> r == url
  {
    if StartsWith(url, HttpsScheme) then
      assert url == url[..|HttpsScheme|] + url[|HttpsScheme|..];
      url[|HttpsScheme|..]
    else if StartsWith(url, HttpScheme) then
      assert url == url[..|HttpScheme|] + url[|HttpScheme|..];
      url[|HttpScheme|..]
    else url
  }

  /** The title: the fixed label for a PDF, whatever the URL; otherwise the
      scheme-less URL up to, not including, its first "/", which is therefore
      free of "/". */
  function Title(isPdf: bool, url: string): (t: string)
    ensures isPdf ==> t == PdfTitle
    ensures !isPdf ==> t == BeforeFirst(StripScheme(url), '/')
    ensures !isPdf ==> '/' !in t
  {
    if isPdf then PdfTitle else BeforeFirst(StripScheme(url), '/')
  }

  /** An https URL is titled by its host. */
  lemma HttpsTitleIsHost(h: string, rest: string)
    requires '/' !in h
    ensures Title(false, HttpsScheme + h + "/" + rest) == h
  {
    var u := HttpsScheme + h + "/" + rest;
    assert u == HttpsScheme + (h + "/" + rest);
    StartsWithConcat(HttpsScheme);
    BeforeFirstOfDelimited(h, '/', rest);
  }

  /** So is an http URL. */
  lemma HttpTitleIsHost(h: string, rest: string)
    requires '/' !in h
    ensures Title(false, HttpScheme + h + "/" + rest) == h
  {
    var u := HttpScheme + h + "/" + rest;
    assert u == HttpScheme + (h + "/" + rest);
    assert u[4] != HttpsScheme[4];
    StartsWithConcat(HttpScheme);
    BeforeFirstOfDelimited(h, '/', rest);
  }

  /** A URL with no scheme is titled by its text before the first "/". */
  lemma SchemelessTitle(url: string)
    requires !StartsWith(url, HttpScheme) && !StartsWith(url, HttpsScheme)
    ensures Title(false, url) == BeforeFirst(url, '/')
  {
  }

  /** The scheme is matched case-sensitively: an upper-case one stays and is
      cut at its own slash. */
  lemma UpperCaseSchemeStays()
    ensures Title(false, "HTTPS://x/y") == "HTTPS:"
  {
    var u := "HTTPS://x/y";
    assert u[0] != HttpScheme[0] && u[0] != HttpsScheme[0];
    assert u == "HTTPS:" + ['/'] + "/x/y";
    BeforeFirstOfDelimited("HTTPS:", '/', "/x/y");
  }

  /** No scheme is matched when the first "/" comes right after a piece free
      of "/" and is not doubled. */
  lemma NoSchemeBeforeSingleSlash(h: string, tail: string, scheme: string)
    requires scheme == HttpScheme || scheme == HttpsScheme
    requires '/' !in h
    requires tail == [] || tail[0] != '/'
    ensures !StartsWith(h + "/" + tail, scheme)
  {
    var u := h + "/" + tail;
    var k := |scheme| - 2;
    assert scheme[k] == '/' && scheme[k + 1] == '/';
    assert forall i :: 0 <= i < k ==> scheme[i] != '/';
    if |scheme| <= |u| {
      var i := if |h| < k then |h| else if |h| > k then k else k + 1;
      assert u[i] != scheme[i];
      assert u[..|scheme|][i] != scheme[i];
    }
  }

  /** Only a leading scheme is removed: one after the host stays, and the
      title is the host. */
  lemma InnerSchemeStays(h: string, rest: string)
    requires '/' !in h
    ensures Title(false, h + "/" + HttpsScheme + rest) == h
  {
    var tail := HttpsScheme + rest;
    var u := h + "/" + HttpsScheme + rest;
    assert u == h + "/" + tail;
    assert tail[0] == 'h';
    NoSchemeBeforeSingleSlash(h, tail, HttpScheme);
    NoSchemeBeforeSingleSlash(h, tail, HttpsScheme);
    assert u == h + ['/'] + tail;
    BeforeFirstOfDelimited(h, '/', tail);
  }

  lemma EmptyUrlHasEmptyTitle()
    ensures Title(false, "") == ""
  {
  }
}
