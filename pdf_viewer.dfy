/**
 * The PDF viewer component (PDFViewer.tsx): the WebView is pointed at the
 * Google Docs viewer on Android and at the PDF itself elsewhere.
 * `encodeURIComponent` is the parameter `enc`.
 */
module PdfViewer {
  import opened Text
  import opened CampusTypes
  import HomeScreen

  /** The viewer page prefix, as this component writes it. */
  const ViewerPrefix := "https://docs.google.com/gview?embedded=true&url="

  /** The WebView source URI, a function of the platform and the PDF URL
      alone: the viewer page of the encoded URL on Android, the URL itself on
      every other platform. */
  function Source(p: Platform, pdfUrl: string, enc: string -> string): (uri: string)
    ensures p.Android? ==> StartsWith(uri, ViewerPrefix) && uri[|ViewerPrefix|..] == enc(pdfUrl)
    ensures !p.Android? ==> uri == pdfUrl
  {
    if p.Android? then
      var u := ViewerPrefix + enc(pdfUrl);
      assert u[..|ViewerPrefix|] == ViewerPrefix;
      u
    else pdfUrl
  }

  /** The component wraps with exactly the prefix the home screen preview
      uses. */
  lemma SamePrefixAsPreview()
    ensures ViewerPrefix == HomeScreen.GviewPrefix
  {
  }

  /** For a PDF link the component's source is the preview URL the home
      screen computes, on every platform. */
  lemma SourceIsPreviewTarget(p: Platform, url: string, enc: string -> string)
    requires HomeScreen.IsPdf(url)
    ensures Source(p, url, enc) == HomeScreen.PreviewTarget(p, url, enc)
  {
    SamePrefixAsPreview();
    var s, t := Source(p, url, enc), HomeScreen.PreviewTarget(p, url, enc);
    if p.Android? {
      assert s == s[..|ViewerPrefix|] + s[|ViewerPrefix|..];
      assert t == t[..|ViewerPrefix|] + t[|ViewerPrefix|..];
    }
  }
}
