/**
 * The link preview of the home screen (src/screens/HomeScreen.tsx): a quick
 * link opens in an in-app preview, on Android a PDF through the Google Docs
 * viewer, and from the preview it can be opened externally or closed.
 *
 * `encodeURIComponent` and the `URL` parser with its `searchParams` are not
 * modelled; they are parameters `enc` and `lookup`. `Linking.openURL` is not
 * modelled either: the handler returns the URL it hands to it, if any.
 */
module HomeScreen {
  import opened Wrappers
  import opened Text
  import opened CampusTypes

  /** The part of a preview URL that marks it as a Google Docs viewer page. */
  const GviewMarker := "docs.google.com/gview"

  /** The viewer page for a document, up to the encoded document URL. */
  const GviewPrefix := "https://" + GviewMarker + "?embedded=true&url="

  /** `url.toLowerCase().endsWith('.pdf')`: the URL ends in ".pdf" in any mix
      of upper and lower case. */
  function IsPdf(url: string): (b: bool)
    ensures b <==> |url| >= 4 && url[|url| - 4] == '.' && url[|url| - 3] in "pP" &&
                   url[|url| - 2] in "dD" && url[|url| - 1] in "fF"
  {
    var l := Lower(url);
    assert |url| >= 4 ==> l[|l| - 4..] == [l[|l| - 4], l[|l| - 3], l[|l| - 2], l[|l| - 1]];
    EndsWith(l, ".pdf")
  }

  /** What the preview shows for a pressed link: the Google Docs viewer page
      for a PDF on Android, the link itself in every other case. */
  function PreviewTarget(p: Platform, url: string, enc: string -> string): (r: string)
    ensures IsPdf(url) && p.Android? ==> StartsWith(r, GviewPrefix) && r[|GviewPrefix|..] == enc(url)
    ensures !(IsPdf(url) && p.Android?) ==> r == url
  {
    if IsPdf(url) && p.Android? then
      var u := GviewPrefix + enc(url);
      assert u[..|GviewPrefix|] == GviewPrefix;
      u
    else url
  }

  /** The three preview state cells. */
  datatype Preview = Preview(url: string, visible: bool, pdf: bool)

  const Hidden := Preview("", false, false)

  /** `handleLinkPress`: the new preview depends only on the link and the
      platform, not on what was previewed before; it is visible and records
      whether the link is a PDF. */
  function Pressed(p: Platform, url: string, enc: string -> string): (r: Preview)
    ensures r.visible && r.pdf == IsPdf(url)
    ensures r.url == PreviewTarget(p, url, enc)
  {
    Preview(PreviewTarget(p, url, enc), true, IsPdf(url))
  }

  /** What `new URL(u).searchParams.get('url')` gives: the constructor throws
      (`Unparsable`), or the parameter is there or not. */
  datatype UrlLookup = Unparsable | Parsed(param: Option<string>)

  /** The URL `handleOpenExternalLink` opens, if any. Nothing for an empty
      preview URL, or when parsing a viewer URL throws; for a viewer URL its
      `url` parameter when that is non-empty, else the viewer URL; any other
      URL as it is. */
  function ExternalTarget(previewUrl: string, lookup: string -> UrlLookup): (r: Option<string>)
    ensures previewUrl == "" ==> r == None
    ensures previewUrl != "" && !Contains(previewUrl, GviewMarker) ==> r == Some(previewUrl)
    ensures previewUrl != "" && Contains(previewUrl, GviewMarker) ==>
      match lookup(previewUrl)
      case Unparsable => r == None
      case Parsed(Some(u)) => r == Some(if u != "" then u else previewUrl)
      case Parsed(None) => r == Some(previewUrl)
    ensures r.Some? ==> r.value != ""
  {
    if previewUrl == "" then None
    else if !Contains(previewUrl, GviewMarker) then Some(previewUrl)
    else match lookup(previewUrl)
      case Unparsable => None
      case Parsed(param) => if param.Some? && param.value != "" then Some(param.value) else Some(previewUrl)
  }

  /** The preview after `handleOpenExternalLink`: hidden when a URL was
      opened, with its URL and PDF flag kept; untouched otherwise. */
  function OpenedExternally(s: Preview, lookup: string -> UrlLookup): (r: Preview)
    ensures r.url == s.url && r.pdf == s.pdf
    ensures ExternalTarget(s.url, lookup).Some? ==> !r.visible
    ensures ExternalTarget(s.url, lookup).None? ==> r == s
  {
    if ExternalTarget(s.url, lookup).Some? then s.(visible := false) else s
  }

  /** `handleClosePreview`: everything reset, whatever the preview was. */
  function Closed(s: Preview): (r: Preview)
    ensures !r.visible && r.url == "" && !r.pdf
  {
    Hidden
  }

  lemma CloseIsIdempotent(s: Preview)
    ensures Closed(Closed(s)) == Closed(s)
    ensures forall t :: Closed(t) == Closed(s)
  {
  }

  /** With nothing previewed, opening externally opens nothing and changes
      nothing, whatever the URL parser would say. */
  lemma EmptyPreviewOpensNothing(s: Preview, lookup: string -> UrlLookup)
    requires s.url == ""
    ensures ExternalTarget(s.url, lookup) == None && OpenedExternally(s, lookup) == s
  {
  }

  /** A link that is not a PDF, or any link off Android, is opened externally
      as it is, as long as it is not itself a viewer URL. */
  lemma PlainLinkOpensItself(p: Platform, url: string, enc: string -> string, lookup: string -> UrlLookup)
    requires url != "" && !Contains(url, GviewMarker)
    requires !IsPdf(url) || !p.Android?
    ensures ExternalTarget(Pressed(p, url, enc).url, lookup) == Some(url)
    ensures OpenedExternally(Pressed(p, url, enc), lookup) == Preview(url, false, IsPdf(url))
  {
  }

  /** On Android, pressing a PDF link and then opening it externally opens the
      original link, given that the URL parser reads back the `url` parameter
      `enc` wrote. */
  lemma {:induction false} AndroidPdfRoundTrip(url: string, enc: string -> string, lookup: string -> UrlLookup)
    requires IsPdf(url)
    requires lookup(GviewPrefix + enc(url)) == Parsed(Some(url))
    ensures ExternalTarget(Pressed(Android, url, enc).url, lookup) == Some(url)
    ensures OpenedExternally(Pressed(Android, url, enc), lookup) == Preview(GviewPrefix + enc(url), false, true)
  {
    var u := GviewPrefix + enc(url);
    assert u == "https://" + GviewMarker + ("?embedded=true&url=" + enc(url));
    ContainsMiddle("https://", GviewMarker, "?embedded=true&url=" + enc(url));
    assert Pressed(Android, url, enc).url == u;
  }

  /// The quick links

  const QuickLinks := [
    QuickLink("Academic Calendar", "calendar-outline",
      "https://www.stonybrook.edu/commcms/registrar/calendars/academic_calendars"),
    QuickLink("Campus Map", "map-outline",
      "https://www.stonybrook.edu/far-beyond/downloads/pdf/maps/campus-map-1-22-ada.pdf"),
    QuickLink("Brightspace", "book-outline", "https://mycourses.stonybrook.edu/"),
    QuickLink("SOLAR", "person-outline", "https://prod.ps.stonybrook.edu/csprods/signon.html")
  ]

  /** A rendered quick link row. */
  datatype QuickLinkRow = QuickLinkRow(title: string, icon: string, isLast: bool, link: string)

  /** One row per quick link, in order; only the final row is marked last. */
  function QuickLinkRows(links: seq<QuickLink>): (rows: seq<QuickLinkRow>)
    ensures |rows| == |links|
    ensures forall i :: 0 <= i < |links| ==>
      rows[i].title == links[i].title && rows[i].icon == links[i].icon && rows[i].link == links[i].link
    ensures forall i :: 0 <= i < |links| ==> (rows[i].isLast <==> i == |links| - 1)
  {
    seq(|links|, i requires 0 <= i < |links| =>
      QuickLinkRow(links[i].title, links[i].icon, i == |links| - 1, links[i].link))
  }

  /** A non-empty list has exactly one last row. */
  lemma ExactlyOneLastRow(links: seq<QuickLink>)
    requires links != []
    ensures QuickLinkRows(links)[|links| - 1].isLast
    ensures forall i, j ::
      0 <= i < |links| && 0 <= j < |links| && QuickLinkRows(links)[i].isLast && QuickLinkRows(links)[j].isLast
      ==> i == j
  {
  }

  /** The campus map is the only quick link previewed as a PDF. */
  lemma CampusMapIsTheOnlyPdf()
    ensures forall i :: 0 <= i < |QuickLinks| ==> (IsPdf(QuickLinks[i].link) <==> i == 1)
  {
  }

  /// The preview as a stateful object

  class Previewer {
    var previewUrl: string
    var isPreviewVisible: bool
    var isPdfPreview: bool

    function State(): Preview
      reads this
    {
      Preview(previewUrl, isPreviewVisible, isPdfPreview)
    }

    constructor ()
      ensures State() == Hidden
    {
      previewUrl, isPreviewVisible, isPdfPreview := "", false, false;
    }

    method HandleLinkPress(url: string, platform: Platform, enc: string -> string)
      modifies this
      ensures State() == Pressed(platform, url, enc)
    {
      var isPdf := IsPdf(url);
      isPdfPreview := isPdf;
      if isPdf && platform.Android? {
        previewUrl := GviewPrefix + enc(url);
      } else {
        previewUrl := url;
      }
      isPreviewVisible := true;
    }

    /** Returns the URL handed to `Linking.openURL`, if any. */
    method HandleOpenExternalLink(lookup: string -> UrlLookup) returns (target: Option<string>)
      modifies this
      ensures target == ExternalTarget(old(previewUrl), lookup)
      ensures State() == OpenedExternally(old(State()), lookup)
    {
      target := None;
      if previewUrl != "" {
        if Contains(previewUrl, GviewMarker) {
          var parsed := lookup(previewUrl);
          if parsed.Unparsable? {
            // `new URL` throws: nothing is opened and the preview stays.
            return;
          }
          var originalUrl := parsed.param;
          if originalUrl.Some? && originalUrl.value != "" {
            target := Some(originalUrl.value);
          } else {
            target := Some(previewUrl);
          }
        } else {
          target := Some(previewUrl);
        }
        isPreviewVisible := false;
      }
    }

    method HandleClosePreview()
      modifies this
      ensures State() == Closed(old(State()))
    {
      isPreviewVisible := false;
      previewUrl := "";
      isPdfPreview := false;
    }
  }
}
