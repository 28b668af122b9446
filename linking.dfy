/**
 * `openAppLink` (src/utils/linking.ts): opening a campus app through its
 * store deep link, with the web as fallback.
 *
 * The device calls `Linking.canOpenURL` and `Linking.openURL` are not
 * modelled; what they report is given as a `Probe` and an `OpenResult`, and
 * the model computes the URLs handed to `openURL`, in order.
 */
module Linking {
  import opened Wrappers
  import opened CampusTypes

  /** The store deep link: the `ios` one on iOS, the `android` one on every
      other platform. */
  function StoreLink(p: Platform, a: AppLink): (r: string)
    ensures p.IOS? ==> r == a.ios
    ensures !p.IOS? ==> r == a.android
  {
    if p.IOS? then a.ios else a.android
  }

  /** The web link: a plain `web` string on every platform, otherwise the
      record's `ios` page on iOS and its `android` page everywhere else. */
  function WebLinkFor(p: Platform, a: AppLink): (r: string)
    ensures a.web.WebUrl? ==> r == a.web.url
    ensures a.web.WebLinks? && p.IOS? ==> r == a.web.links.ios
    ensures a.web.WebLinks? && !p.IOS? ==> r == a.web.links.android
  {
    match a.web
    case WebUrl(u) => u
    case WebLinks(w) => if p.IOS? then w.ios else w.android
  }

  /** `web` is a record whose `browser` is a non-empty string. */
  predicate HasBrowser(a: AppLink) {
    a.web.WebLinks? && a.web.links.browser.Some? && a.web.links.browser.value != ""
  }

  /** Where the app goes after a rejection: the `browser` site when there is
      one, the web link otherwise. */
  function RejectionFallback(p: Platform, a: AppLink): (r: string)
    ensures HasBrowser(a) ==> r == a.web.links.browser.value
    ensures !HasBrowser(a) ==> r == WebLinkFor(p, a)
  {
    if HasBrowser(a) then a.web.links.browser.value else WebLinkFor(p, a)
  }

  /** What `canOpenURL` reports for the store link. */
  datatype Probe = Supported | Unsupported | ProbeRejected

  /** How the first `openURL` settles. */
  datatype OpenResult = Opened | OpenRejected

  /** The URLs `openAppLink` opens, in order. The first is the store link when
      the probe reports it supported and the web link when not; a rejection,
      of the probe or of that first open, opens the fallback; so at most two
      URLs are opened, and a second one only after a rejection. */
  function OpenAppLink(p: Platform, a: AppLink, probe: Probe, first: OpenResult): (urls: seq<string>)
    ensures 1 <= |urls| <= 2
    ensures probe.ProbeRejected? ==> urls == [RejectionFallback(p, a)]
    ensures probe.Supported? ==> urls[0] == StoreLink(p, a)
    ensures probe.Unsupported? ==> urls[0] == WebLinkFor(p, a)
    ensures |urls| == 2 <==> !probe.ProbeRejected? && first.OpenRejected?
    ensures |urls| == 2 ==> urls[1] == RejectionFallback(p, a)
  {
    if probe.ProbeRejected? then [RejectionFallback(p, a)]
    else
      var target := if probe.Supported? then StoreLink(p, a) else WebLinkFor(p, a);
      if first.Opened? then [target] else [target, RejectionFallback(p, a)]
  }

  /** With a plain `web` string the web link and the fallback are that
      string on every platform. */
  lemma PlainWebIsPlatformIndependent(a: AppLink, p: Platform, q: Platform)
    requires a.web.WebUrl?
    ensures WebLinkFor(p, a) == WebLinkFor(q, a) == a.web.url
    ensures RejectionFallback(p, a) == RejectionFallback(q, a) == a.web.url
  {
  }

  /** Every URL opened is the store link, the web link or the fallback. */
  lemma OpenedUrlsAreKnown(p: Platform, a: AppLink, probe: Probe, first: OpenResult)
    ensures forall u :: u in OpenAppLink(p, a, probe, first) ==>
      u == StoreLink(p, a) || u == WebLinkFor(p, a) || u == RejectionFallback(p, a)
  {
  }

  /// The promise chain itself, as a reference for `OpenAppLink`

  datatype Settled<T> = Resolved(value: T) | Rejected

  /** A promise that settled, with the URLs opened on the way. */
  datatype Run<T> = Run(urls: seq<string>, result: Settled<T>)

  function CanOpenUrl(probe: Probe): Run<bool> {
    match probe
    case Supported => Run([], Resolved(true))
    case Unsupported => Run([], Resolved(false))
    case ProbeRejected => Run([], Rejected)
  }

  function OpenUrl(url: string, outcome: OpenResult): Run<()> {
    Run([url], if outcome.Opened? then Resolved(()) else Rejected)
  }

  /** `promise.then(k)`: `k` runs only on resolution, a rejection passes through. */
  function Then<A, B>(r: Run<A>, k: A -> Run<B>): Run<B> {
    match r.result
    case Resolved(v) => var next := k(v); Run(r.urls + next.urls, next.result)
    case Rejected => Run(r.urls, Rejected)
  }

  /** `promise.catch(h)`: `h` runs only on rejection. */
  function Catch<A>(r: Run<A>, h: () -> Run<A>): Run<A> {
    match r.result
    case Resolved(_) => r
    case Rejected => var next := h(); Run(r.urls + next.urls, next.result)
  }

  /** `canOpenURL(store).then(...).catch(...)` as linking.ts:19-35 writes it.
      The fallback open's own rejection goes unhandled and is taken as
      settled, so the chain as a whole always ends resolved, after one or
      two opens. */
  function Chain(p: Platform, a: AppLink, probe: Probe, first: OpenResult): (r: Run<()>)
    ensures r.result.Resolved? && 1 <= |r.urls| <= 2
  {
    var store := StoreLink(p, a);
    var web := WebLinkFor(p, a);
    var opening := (supported: bool) => if supported then OpenUrl(store, first) else OpenUrl(web, first);
    var fallback := () => if HasBrowser(a) then OpenUrl(a.web.links.browser.value, Opened) else OpenUrl(web, Opened);
    assert opening(true) == OpenUrl(store, first) && opening(false) == OpenUrl(web, first);
    assert fallback().result.Resolved? && |fallback().urls| == 1;
    var probed := Then(CanOpenUrl(probe), opening);
    assert |probed.urls| <= 1 && (probed.result.Resolved? ==> |probed.urls| == 1);
    Catch(probed, fallback)
  }

  /** The chain opens exactly the URLs `OpenAppLink` lists, for every
      platform, link record and pair of device outcomes. */
  lemma ChainOpensListedUrls(p: Platform, a: AppLink, probe: Probe, first: OpenResult)
    ensures Chain(p, a, probe, first).urls == OpenAppLink(p, a, probe, first)
  {
    var store, web := StoreLink(p, a), WebLinkFor(p, a);
    var k := (supported: bool) => if supported then OpenUrl(store, first) else OpenUrl(web, first);
    match probe
    case Supported =>
      assert CanOpenUrl(probe) == Run([], Resolved(true));
      assert k(true) == OpenUrl(store, first);
      assert Then(CanOpenUrl(probe), k) == Run([] + [store], k(true).result);
    case Unsupported =>
      assert CanOpenUrl(probe) == Run([], Resolved(false));
      assert k(false) == OpenUrl(web, first);
      assert Then(CanOpenUrl(probe), k) == Run([] + [web], k(false).result);
    case ProbeRejected =>
  }
}
