/**
 * The single-file version of the app (App.tsx). It carries its own copies
 * of the link table (without the dining entries), of `openAppLink` and of
 * the home screen's quick links; this module shows that each copy agrees
 * with the one modelled from src/.
 *
 * Its preview handlers (App.tsx:632-670) and preview title (App.tsx:391)
 * are the same code as src/screens/HomeScreen.tsx:124-162 and
 * src/components/PreviewModal.tsx:63, and are modelled once, by the
 * HomeScreen and PreviewModal modules.
 */
module AppShell {
  import opened Wrappers
  import opened CampusTypes
  import opened Linking
  import AppLinks
  import HomeScreen

  /** This file's `APP_LINKS`: fitness, printing and transport, no dining.
      Its links are written, like src/'s, as a scheme and the rest. */
  datatype Table = Table(fitness: AppLink, printing: AppLink, transport: AppLinks.TransportLinks)

  const Links := Table(
    AppLink(
      AppLinks.AppStore + "itunes.apple.com/us/app/sbu-recreation-and-wellness/id1534915719",
      AppLinks.PlayStore + "details?id=com.innosoftfusiongo.stonybrookuniversity",
      WebLinks(WebLink(
        AppLinks.Https + "apps.apple.com/us/app/sbu-recreation-and-wellness/id1534915719",
        AppLinks.Https + "play.google.com/store/apps/details?id=com.innosoftfusiongo.stonybrookuniversity",
        None))),
    AppLink(
      AppLinks.AppStore + "itunes.apple.com/us/app/pharos-print/id918145672",
      AppLinks.PlayStore + "details?id=com.pharossystems.pharosprint",
      WebLinks(WebLink(
        AppLinks.Https + "apps.apple.com/us/app/pharos-print/id918145672",
        AppLinks.Https + "play.google.com/store/apps/details?id=com.pharossystems.pharosprint",
        Some(AppLinks.Https + "print.stonybrook.edu")))),
    AppLinks.TransportLinks(
      AppLink(
        AppLinks.AppStore + "itunes.apple.com/app/eta-spot/id1021211544",
        AppLinks.PlayStore + "details?id=com.etatransit",
        WebUrl(AppLinks.Https + "stonybrook.edu/etaspot")),
      AppLink(
        AppLinks.AppStore + "itunes.apple.com/app/pbsc/id557237724",
        AppLinks.PlayStore + "details?id=pbsc.bikes",
        WebLinks(WebLink(
          AppLinks.Https + "apps.apple.com/ca/app/pbsc/id557237724",
          AppLinks.Https + "play.google.com/store/apps/details?id=pbsc.bikes",
          None)))))

  /** Every entry this table has is the same record as in src/'s table. */
  lemma SameEntriesAsAppLinks()
    ensures Links.fitness == AppLinks.Links.fitness
    ensures Links.printing == AppLinks.Links.printing
    ensures Links.transport == AppLinks.Links.transport
  {
  }

  /** This file's `openAppLink`: the store link and the web link picked
      first, the latter assigned on one of two branches, then the probe, the
      first open and, after a rejection, the fallback. Returns the URLs handed
      to `openURL`, in order; they are those of src/'s `openAppLink` for every
      platform, link record and pair of device outcomes. */
  method OpenAppLink(p: Platform, a: AppLink, probe: Probe, first: OpenResult) returns (urls: seq<string>)
    ensures urls == Linking.OpenAppLink(p, a, probe, first)
  {
    var appStoreLink := if p.IOS? then a.ios else a.android;
    var webLink: string;
    if a.web.WebUrl? {
      webLink := a.web.url;
    } else {
      webLink := if p.IOS? then a.web.links.ios else a.web.links.android;
    }
    urls := [];
    var rejected := false;
    match probe {
      case ProbeRejected =>
        rejected := true;
      case Supported =>
        urls := urls + [appStoreLink];
        rejected := first.OpenRejected?;
      case Unsupported =>
        urls := urls + [webLink];
        rejected := first.OpenRejected?;
    }
    if rejected {
      if a.web.WebLinks? && a.web.links.browser.Some? && a.web.links.browser.value != "" {
        urls := urls + [a.web.links.browser.value];
      } else {
        urls := urls + [webLink];
      }
    }
  }

  const QuickLinks := [
    QuickLink("Academic Calendar", "calendar-outline",
      "https://www.stonybrook.edu/commcms/registrar/calendars/academic_calendars"),
    QuickLink("Campus Map", "map-outline",
      "https://www.stonybrook.edu/far-beyond/downloads/pdf/maps/campus-map-1-22-ada.pdf"),
    QuickLink("Brightspace", "book-outline", "https://mycourses.stonybrook.edu/"),
    QuickLink("SOLAR", "person-outline", "https://prod.ps.stonybrook.edu/csprods/signon.html")
  ]

  /** The same four quick links as the home screen, so the same rows, with
      only SOLAR marked last. */
  lemma SameQuickLinks()
    ensures QuickLinks == HomeScreen.QuickLinks
    ensures HomeScreen.QuickLinkRows(QuickLinks)[3].isLast
    ensures forall i :: 0 <= i < 3 ==> !HomeScreen.QuickLinkRows(QuickLinks)[i].isLast
  {
  }
}
