/**
 * The link table of the service tiles (src/constants/appLinks.ts) and what
 * `openAppLink` does with each of its entries.
 */
module AppLinks {
  import opened Wrappers
  import opened Text
  import opened CampusTypes
  import opened Linking

  datatype TransportLinks = TransportLinks(bus: AppLink, bike: AppLink)

  datatype DiningLinks = DiningLinks(get: AppLink, nutrislice: AppLink)

  /** `APP_LINKS`. Its declared type (`AppLinks`) has no `dining` member; the
      object carries one all the same, and the dining tiles read it. */
  datatype Table = Table(
    fitness: AppLink,
    printing: AppLink,
    transport: TransportLinks,
    dining: DiningLinks)

  /** The schemes the table's links start with. */
  const AppStore := "itms-apps://"
  const PlayStore := "market://"
  const Https := "https://"

  const Fitness := AppLink(
    AppStore + "itunes.apple.com/us/app/sbu-recreation-and-wellness/id1534915719",
    PlayStore + "details?id=com.innosoftfusiongo.stonybrookuniversity",
    WebLinks(WebLink(
      Https + "apps.apple.com/us/app/sbu-recreation-and-wellness/id1534915719",
      Https + "play.google.com/store/apps/details?id=com.innosoftfusiongo.stonybrookuniversity",
      None)))

  const PrintSite := Https + "print.stonybrook.edu"

  const Printing := AppLink(
    AppStore + "itunes.apple.com/us/app/pharos-print/id918145672",
    PlayStore + "details?id=com.pharossystems.pharosprint",
    WebLinks(WebLink(
      Https + "apps.apple.com/us/app/pharos-print/id918145672",
      Https + "play.google.com/store/apps/details?id=com.pharossystems.pharosprint",
      Some(PrintSite))))

  const BusSite := Https + "stonybrook.edu/etaspot"

  const Bus := AppLink(
    AppStore + "itunes.apple.com/app/eta-spot/id1021211544",
    PlayStore + "details?id=com.etatransit",
    WebUrl(BusSite))

  const Bike := AppLink(
    AppStore + "itunes.apple.com/app/pbsc/id557237724",
    PlayStore + "details?id=pbsc.bikes",
    WebLinks(WebLink(
      Https + "apps.apple.com/ca/app/pbsc/id557237724",
      Https + "play.google.com/store/apps/details?id=pbsc.bikes",
      None)))

  const Get := AppLink(
    AppStore + "itunes.apple.com/us/app/get-mobile/id844091049",
    PlayStore + "details?id=com.cbord.get",
    WebLinks(WebLink(
      Https + "apps.apple.com/us/app/get-mobile/id844091049",
      Https + "play.google.com/store/apps/details?id=com.cbord.get",
      None)))

  const Nutrislice := AppLink(
    AppStore + "itunes.apple.com/us/app/nutrislice/id567183091",
    PlayStore + "details?id=com.nutrislice.schoollunch",
    WebLinks(WebLink(
      Https + "apps.apple.com/us/app/nutrislice/id567183091",
      Https + "play.google.com/store/apps/details?id=com.nutrislice.schoollunch",
      None)))

  const Links := Table(Fitness, Printing, TransportLinks(Bus, Bike), DiningLinks(Get, Nutrislice))

  /** Every entry of a table, in declaration order. */
  function Entries(t: Table): (r: seq<AppLink>)
    ensures |r| == 6
    ensures forall a :: a in r <==>
      a == t.fitness || a == t.printing || a == t.transport.bus || a == t.transport.bike ||
      a == t.dining.get || a == t.dining.nutrislice
  {
    [t.fitness, t.printing, t.transport.bus, t.transport.bike, t.dining.get, t.dining.nutrislice]
  }

  /** `dining` holds exactly the GET and Nutrislice entries. */
  lemma DiningEntries()
    ensures Links.dining == DiningLinks(Get, Nutrislice)
    ensures Entries(Links)[4..] == [Get, Nutrislice]
  {
  }

  /** The bus entry's web target is a plain string: on every platform, after
      any device outcome, each URL opened is the store link or the ETA Spot
      site. */
  lemma BusWebIsEtaSpot(p: Platform, probe: Probe, first: OpenResult)
    ensures WebLinkFor(p, Bus) == BusSite && RejectionFallback(p, Bus) == BusSite
    ensures forall u :: u in OpenAppLink(p, Bus, probe, first) ==> u == StoreLink(p, Bus) || u == BusSite
  {
    PlainWebIsPlatformIndependent(Bus, p, p);
    OpenedUrlsAreKnown(p, Bus, probe, first);
  }

  /** Printing is the only entry with a `browser` site. */
  lemma OnlyPrintingHasBrowser()
    ensures forall a :: a in Entries(Links) ==> (HasBrowser(a) <==> a == Printing)
  {
  }

  /** So only printing falls back somewhere other than its web link: to the
      print site, which is neither of its store web pages. */
  lemma PrintingFallback(p: Platform)
    ensures RejectionFallback(p, Printing) == PrintSite
    ensures RejectionFallback(p, Printing) != WebLinkFor(p, Printing)
    ensures OpenAppLink(p, Printing, ProbeRejected, Opened) == [PrintSite]
    ensures forall a :: a in Entries(Links) && a != Printing ==> RejectionFallback(p, a) == WebLinkFor(p, a)
  {
    assert |WebLinkFor(p, Printing)| != |PrintSite|;
    OnlyPrintingHasBrowser();
  }

  predicate StoreSchemesOk(a: AppLink) {
    StartsWith(a.ios, AppStore) && StartsWith(a.android, PlayStore)
  }

  /** Every iOS store link uses the `itms-apps://` scheme and every Android
      store link `market://`. */
  lemma StoreSchemes()
    ensures StoreSchemesOk(Fitness) && StoreSchemesOk(Printing) && StoreSchemesOk(Bus)
    ensures StoreSchemesOk(Bike) && StoreSchemesOk(Get) && StoreSchemesOk(Nutrislice)
    ensures forall i :: 0 <= i < |Entries(Links)| ==> StoreSchemesOk(Entries(Links)[i])
  {
    StartsWithConcat(AppStore);
    StartsWithConcat(PlayStore);
  }

  predicate HttpsPages(a: AppLink) {
    a.web.WebLinks? ==> StartsWith(a.web.links.ios, Https) && StartsWith(a.web.links.android, Https)
  }

  /** Every record-shaped web target has an https page for iOS and for
      Android, so the web link is an https URL on every platform. */
  lemma WebPagesAreHttps(p: Platform)
    ensures HttpsPages(Fitness) && HttpsPages(Printing) && HttpsPages(Bike)
    ensures HttpsPages(Get) && HttpsPages(Nutrislice)
    ensures forall i :: 0 <= i < |Entries(Links)| ==> StartsWith(WebLinkFor(p, Entries(Links)[i]), Https)
  {
    StartsWithConcat(Https);
  }
}
