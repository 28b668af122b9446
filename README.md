# CampusCore in Dafny

A model, with proofs, of the logic at the core of CampusCore, a React Native
campus companion app for Stony Brook University:

- the campus events screen (`src/screens/EventsScreen.tsx`) and its older
  copy at the repository root (`EventsScreen.tsx`). The model covers the
  request a fetch makes, the card each event is drawn as, the four state
  cells (`events`, `loading`, `refreshing`, `error`), the transitions
  `fetchEvents` and `onRefresh` make on them, and the choice between spinner,
  error panel and list;
- `openAppLink` (`src/utils/linking.ts`, copied in `App.tsx`), which opens
  a campus app through its store deep link and falls back to the web, and
  the `APP_LINKS` table it is fed from;
- the home screen's link preview (`src/screens/HomeScreen.tsx`, copied in
  `App.tsx`), the preview title (`src/components/PreviewModal.tsx`) and the
  PDF viewer's WebView source (`PDFViewer.tsx`).

One module per source file: `EventsScreen`, `LegacyEventsScreen`,
`Linking`, `AppLinks`, `HomeScreen`, `PreviewModal`, `PdfViewer` and
`AppShell` (for `App.tsx`). Next to them are `CampusTypes` for the records
of `src/types/index.ts`, `Text` for the JavaScript string operations the
code uses, and `Wrappers` for `Option`.

Each screen's state is a `class` with the source's state cells as fields;
its methods are proved against pure transition functions (`Begun`,
`Completed`, `Refreshed`, `Pressed`, ...), and the lemmas about what the
user sees are stated over those functions. A fetch awaits twice, for the
response and for its body, but no state cell is set between the two awaits,
so it is split at one point: `BeginFetch` is what runs before the request
and `CompleteOk`/`CompleteErr` what runs once it settles. In the newer screen,
`fetchEvents` reads the `refreshing` its render captured. `onRefresh` sets
`refreshing` and then calls that closure, which still sees the old value,
so `BeginFetch` takes the captured value as a parameter.

`openAppLink` is modelled twice. `Linking.OpenAppLink` is the flat decision
table of the URLs handed to `openURL`. `Linking.Chain` models the
`then`/`catch` promise chain as written, and a lemma proves the two agree.
What the device reports (`canOpenURL`'s answer or rejection, the first
`openURL`'s outcome) is an input.

Foreign functions are parameters: `encodeURIComponent` is `enc`, and
`new URL(u).searchParams.get('url')` is `lookup`. That `lookup` reads back
what `enc` wrote is a stated precondition of the one lemma that needs it.

## Model

| member | source | states |
|---|---|---|
| EventsScreen.SearchParams | src/screens/EventsScreen.tsx:147 | the request's parameters: `endsAfter` the current time, ordering by start ascending, approved events only, `take=50` last; no key repeats and there is no offset key |
| EventsScreen.QueryHoldsEach | src/screens/EventsScreen.tsx:147 | a query string holds each of its `key=value` parameters |
| EventsScreen.QueryEndsWithLast | src/screens/EventsScreen.tsx:147 | a query string of two or more parameters ends with "&" and its last parameter |
| EventsScreen.SearchQueryShape | src/screens/EventsScreen.tsx:145-148 | the URL starts with the endpoint and the time, holds the ordering and status parameters, and ends with `&take=50` |
| EventsScreen.SearchUrl | src/screens/EventsScreen.tsx:145-148 | the request is the search endpoint followed by exactly those parameters: it starts with `?endsAfter=<now>&`, holds `orderByField=startsOn`, `orderByDirection=ascending` and `status=Approved`, and ends with `&take=50` |
| EventsScreen.ImageUrl | src/screens/EventsScreen.tsx:33-35 | an image URL exists exactly when `imagePath` is a non-empty string, and is the image host prefix followed by `imagePath` |
| EventsScreen.EventLink | src/screens/EventsScreen.tsx:37-41 | the pressed card opens the event page, from which the event's id can be parsed back |
| EventsScreen.EventLinkInjective | src/screens/EventsScreen.tsx:38 | two cards open the same page only when their events have the same id |
| EventsScreen.Title | src/screens/EventsScreen.tsx:81 | the title is never blank: the name, or "Event Name Unavailable" when the name is empty |
| EventsScreen.LocationLabel | src/screens/EventsScreen.tsx:94 | the location line is never blank: "Virtual Event", else the location name, else "Location TBD" |
| EventsScreen.OrganizationRow | src/screens/EventsScreen.tsx:98-105 | the organization row appears exactly when the organization has a non-empty name, and shows that name |
| EventsScreen.ShownCategories | src/screens/EventsScreen.tsx:107-109 | at most three chips, the leading categories in order, all of them when there are fewer than three |
| EventsScreen.CardOf | src/screens/EventsScreen.tsx:32-124 | a card never has a blank title or location line, has at most three chips, an image exactly for a non-empty `imagePath`, an organization row exactly for a named organization, and a link the event's id parses back from |
| EventsScreen.Cards | src/screens/EventsScreen.tsx:264-268 | one card per event, in order |
| EventsScreen.Initial | src/screens/EventsScreen.tsx:132-135 | the screen starts with no events, loading, not refreshing and no error |
| EventsScreen.Begun | src/screens/EventsScreen.tsx:137-142 | starting a fetch clears the error and raises `loading` only when the captured `refreshing` is false; the list and `refreshing` stay |
| EventsScreen.Completed | src/screens/EventsScreen.tsx:150-163 | success lists the response `value` or []; failure empties the list and sets the one error message; both flags end cleared; only that message is ever recorded |
| EventsScreen.Refreshed | src/screens/EventsScreen.tsx:170-173 | refreshing sets `refreshing` and clears the error; the stale closure raises `loading` only if the screen was not already refreshing |
| EventsScreen.Fetched | src/screens/EventsScreen.tsx:137-164 | a whole fetch ends with both flags cleared; success lists the response and leaves no error, failure empties the list and records the message |
| EventsScreen.ReachableIsInvariant | src/screens/EventsScreen.tsx:132-173 | the initial state and every transition, whatever `refreshing` the callback captured, keep `refreshing` only ever set together with `loading` |
| EventsScreen.RefreshRaisesLoading | src/screens/EventsScreen.tsx:137-173 | in every reachable state a pull-to-refresh raises `loading`, since the callback it runs captured `refreshing` as false |
| EventsScreen.ViewOf | src/screens/EventsScreen.tsx:232-284 | the spinner exactly while loading and not refreshing, else the error panel exactly when there is an error, which is then the screen's one message, else the list of cards |
| EventsScreen.EmptyComponentExactly | src/screens/EventsScreen.tsx:264-268 | the empty-list component shows exactly when the list is shown and there are no events |
| EventsScreen.InitialShowsSpinner | src/screens/EventsScreen.tsx:132-133 | the first render shows the spinner |
| EventsScreen.BeginWhileIdleShowsSpinner | src/screens/EventsScreen.tsx:139-141 | a fetch begun while not refreshing shows the spinner |
| EventsScreen.RefreshKeepsListing | src/screens/EventsScreen.tsx:170-173 | right after `onRefresh` neither the spinner nor the error panel shows; the current events stay listed |
| EventsScreen.SettledFetchView | src/screens/EventsScreen.tsx:150-163 | the state a settled fetch leaves shows no spinner; failure shows exactly the message, success exactly the response's events |
| EventsScreen.SpinnerAfterRefreshSettles | src/screens/EventsScreen.tsx:137-168 | once a refresh settles, the fetch the mount effect runs again captured `refreshing` as false and brings up the spinner |
| EventsScreen.RefreshAfterFailureShowsEmptyList | src/screens/EventsScreen.tsx:159 | after a failure no stale events come back: refreshing shows the empty list |
| EventsScreen.Controller.constructor | src/screens/EventsScreen.tsx:132-135 | the state cells start as `Initial` |
| EventsScreen.Controller.BeginFetch | src/screens/EventsScreen.tsx:139-142 | the new state is `Begun` of the old one, for the captured `refreshing` |
| EventsScreen.Controller.CompleteOk | src/screens/EventsScreen.tsx:154-155 | the new state is `Completed` of the old one with the response value |
| EventsScreen.Controller.CompleteErr | src/screens/EventsScreen.tsx:156-163 | the new state is `Completed` of the old one with a failure |
| EventsScreen.Controller.Refresh | src/screens/EventsScreen.tsx:170-173 | the new state is `Refreshed` of the old one: the fetch sees the `refreshing` from before the refresh |
| LegacyEventsScreen.Image | EventsScreen.tsx:137-143 | the image shows exactly for a non-empty `imagePath`, at the image host |
| LegacyEventsScreen.LocationLabel | EventsScreen.tsx:159 | "Virtual Event" for a virtual event, otherwise the location name, possibly empty |
| LegacyEventsScreen.OrganizationRow | EventsScreen.tsx:163-168 | the row appears whenever an organization is present, even with an empty name |
| LegacyEventsScreen.CardOf | EventsScreen.tsx:129-187 | the card shows the name as it is, at most three chips, an organization row exactly when an organization is present, and a link the event's id parses back from |
| LegacyEventsScreen.SameCardForCompleteEvents | EventsScreen.tsx:130-180 | for events with a name, a location name and a named organization the two screens draw the same card |
| LegacyEventsScreen.BlankEventDiffers | EventsScreen.tsx:146-166 | without those fields the old card shows a blank title and location and an empty organization row, where the new one shows its placeholders and no row |
| LegacyEventsScreen.Initial | EventsScreen.tsx:50-53 | the screen starts with no events, loading, not refreshing and no error |
| LegacyEventsScreen.Begun | EventsScreen.tsx:66-68 | starting a fetch always raises `loading` and clears the error |
| LegacyEventsScreen.Completed | EventsScreen.tsx:82-90 | success lists the response `value` or []; failure keeps the listed events and sets this screen's message; both flags end cleared |
| LegacyEventsScreen.Refreshed | EventsScreen.tsx:99-102 | refreshing sets `refreshing` and `loading` and clears the error |
| LegacyEventsScreen.Fetched | EventsScreen.tsx:65-91 | a whole fetch ends with both flags cleared; success lists the response and leaves no error, failure keeps the listed events and records this screen's message |
| LegacyEventsScreen.FailureKeepsStaleEvents | EventsScreen.tsx:84-87 | on failure the old screen keeps its events while the new one empties its list |
| LegacyEventsScreen.ReachableIsInvariant | EventsScreen.tsx:50-102 | the old screen's start and transitions keep `refreshing` only ever set together with `loading` |
| LegacyEventsScreen.LoadingDifferenceUnobservable | EventsScreen.tsx:66-68 | the two screens' fetch starts disagree on `loading` exactly when `refreshing` is set and `loading` clear, a state neither reaches; in every reachable state both raise `loading` on a fetch and on a refresh |
| LegacyEventsScreen.ViewOf | EventsScreen.tsx:221-251 | spinner, then error (the screen's one message), then "No upcoming events" exactly when nothing is listed, then one card per event |
| LegacyEventsScreen.RefreshHidesSpinner | EventsScreen.tsx:99-102 | refreshing raises `loading`, but the spinner does not show |
| LegacyEventsScreen.FailedFetchShowsError | EventsScreen.tsx:84-85 | a failed fetch shows this screen's message |
| LegacyEventsScreen.RefreshAfterFailureShowsStaleEvents | EventsScreen.tsx:84-102 | refreshing after a failure lists the stale events again, each as its card, in order, or the empty panel when there were none |
| LegacyEventsScreen.Controller.constructor | EventsScreen.tsx:50-53 | the state cells start as `Initial` |
| LegacyEventsScreen.Controller.BeginFetch | EventsScreen.tsx:66-68 | the new state is `Begun` of the old one |
| LegacyEventsScreen.Controller.CompleteOk | EventsScreen.tsx:82-83 | the new state is `Completed` of the old one with the response value |
| LegacyEventsScreen.Controller.CompleteErr | EventsScreen.tsx:84-90 | the new state is `Completed` of the old one with a failure |
| LegacyEventsScreen.Controller.Refresh | EventsScreen.tsx:99-102 | the new state is `Refreshed` of the old one |
| Linking.StoreLink | src/utils/linking.ts:9 | the iOS store link on iOS, the Android one on every other platform |
| Linking.WebLinkFor | src/utils/linking.ts:12-17 | a plain `web` string on every platform, else the record's iOS page on iOS and its Android page elsewhere |
| Linking.RejectionFallback | src/utils/linking.ts:27-34 | after a rejection, the `browser` site when one is set and non-empty, else the web link |
| Linking.OpenAppLink | src/utils/linking.ts:19-35 | one or two URLs are opened: first the store link if supported, else the web link; a second one, the fallback, exactly when the first open was rejected; only the fallback when the probe itself is rejected |
| Linking.PlainWebIsPlatformIndependent | src/utils/linking.ts:12-13 | with a plain `web` string, the web link and the fallback are that string on every platform |
| Linking.OpenedUrlsAreKnown | src/utils/linking.ts:8-36 | every URL opened is the store link, the web link or the fallback |
| Linking.Chain | src/utils/linking.ts:19-35 | the promise chain as written always ends resolved, after one or two opens |
| Linking.ChainOpensListedUrls | src/utils/linking.ts:19-35 | the `then`/`catch` chain as written opens exactly the URLs of `OpenAppLink`, for every input |
| AppLinks.Links | src/constants/appLinks.ts:3-55 | the source's table, string for string: fitness, printing, bus, bike, GET and Nutrislice, each with its store links and web fallback |
| AppLinks.Entries | src/constants/appLinks.ts:3-55 | the table has six entries: fitness, printing, bus, bike and the two dining apps |
| AppLinks.DiningEntries | src/constants/appLinks.ts:37-54 | `dining` holds the GET and Nutrislice entries, although the declared type has no such member |
| AppLinks.BusWebIsEtaSpot | src/constants/appLinks.ts:23-27 | the bus entry's web target is a plain string, so on every platform every URL opened is the store link or the ETA Spot site |
| AppLinks.OnlyPrintingHasBrowser | src/constants/appLinks.ts:13-21 | printing is the only entry with a `browser` site |
| AppLinks.PrintingFallback | src/constants/appLinks.ts:19 | printing falls back to the print site, which is not its web link; every other entry falls back to its web link |
| AppLinks.StoreSchemes | src/constants/appLinks.ts:3-55 | every iOS store link uses `itms-apps://` and every Android one `market://` |
| AppLinks.WebPagesAreHttps | src/constants/appLinks.ts:3-55 | on every platform every entry's web link is an https URL |
| HomeScreen.IsPdf | src/screens/HomeScreen.tsx:126 | a link is a PDF exactly when it ends in ".pdf" in any mix of case |
| HomeScreen.PreviewTarget | src/screens/HomeScreen.tsx:129-136 | an Android PDF is previewed as the Google Docs viewer page followed by the encoded URL; everything else is previewed as given |
| HomeScreen.Pressed | src/screens/HomeScreen.tsx:124-139 | after a link press the preview is visible, records whether the link is a PDF and shows the preview target, whatever was there before |
| HomeScreen.ExternalTarget | src/screens/HomeScreen.tsx:141-153 | nothing is opened for an empty preview URL; a viewer URL opens its non-empty `url` parameter, else itself; any other URL opens as it is; the URL opened is never empty |
| HomeScreen.OpenedExternally | src/screens/HomeScreen.tsx:141-155 | opening hides the preview and keeps its URL and PDF flag; when nothing is opened the state is unchanged |
| HomeScreen.Closed | src/screens/HomeScreen.tsx:158-162 | closing leaves the preview hidden, with an empty URL and not a PDF |
| HomeScreen.CloseIsIdempotent | src/screens/HomeScreen.tsx:158-162 | closing twice is closing once, and the result does not depend on the prior state |
| HomeScreen.EmptyPreviewOpensNothing | src/screens/HomeScreen.tsx:142 | with an empty preview URL nothing is opened and nothing changes |
| HomeScreen.PlainLinkOpensItself | src/screens/HomeScreen.tsx:129-154 | a link that is not wrapped opens as itself and hides the preview |
| HomeScreen.AndroidPdfRoundTrip | src/screens/HomeScreen.tsx:129-147 | on Android, pressing a PDF link and opening it externally opens the original link, given that the URL parser reads back what the encoder wrote |
| HomeScreen.QuickLinks | src/screens/HomeScreen.tsx:99-121 | the source's four quick links, string for string, in order |
| HomeScreen.QuickLinkRows | src/screens/HomeScreen.tsx:226-233 | one row per quick link, in order, with `isLast` true exactly for the final one |
| HomeScreen.ExactlyOneLastRow | src/screens/HomeScreen.tsx:231 | a non-empty list has exactly one row marked last |
| HomeScreen.CampusMapIsTheOnlyPdf | src/screens/HomeScreen.tsx:100-121 | the campus map is the only quick link that is previewed as a PDF |
| HomeScreen.Previewer.constructor | src/screens/HomeScreen.tsx:36-38 | the preview starts hidden, with an empty URL and not a PDF |
| HomeScreen.Previewer.HandleLinkPress | src/screens/HomeScreen.tsx:124-139 | the new state is `Pressed` for the link and platform |
| HomeScreen.Previewer.HandleOpenExternalLink | src/screens/HomeScreen.tsx:141-156 | returns the URL opened, which is `ExternalTarget` of the old preview URL; the new state is `OpenedExternally` of the old one |
| HomeScreen.Previewer.HandleClosePreview | src/screens/HomeScreen.tsx:158-162 | the new state is `Closed` |
| PreviewModal.StripScheme | src/components/PreviewModal.tsx:63 | one leading `https://` or `http://` is removed, case-sensitively and only at the start; other URLs are unchanged |
| PreviewModal.Title | src/components/PreviewModal.tsx:63 | "Campus Map (PDF)" for a PDF whatever the URL; otherwise the scheme-less URL up to its first "/", so never containing "/" |
| PreviewModal.HttpsTitleIsHost | src/components/PreviewModal.tsx:63 | an https URL is titled by its host |
| PreviewModal.HttpTitleIsHost | src/components/PreviewModal.tsx:63 | an http URL is titled by its host |
| PreviewModal.SchemelessTitle | src/components/PreviewModal.tsx:63 | a URL with no scheme is titled by its text before the first "/" |
| PreviewModal.UpperCaseSchemeStays | src/components/PreviewModal.tsx:63 | "HTTPS://x/y" is titled "HTTPS:" |
| PreviewModal.NoSchemeBeforeSingleSlash | src/components/PreviewModal.tsx:63 | neither scheme matches a URL whose first "/" is single and follows a piece free of "/" |
| PreviewModal.InnerSchemeStays | src/components/PreviewModal.tsx:63 | a scheme after the start of the URL is not removed |
| PreviewModal.EmptyUrlHasEmptyTitle | src/components/PreviewModal.tsx:63 | an empty URL has an empty title |
| PdfViewer.Source | PDFViewer.tsx:7-10 | on Android the viewer page followed by the encoded PDF URL, elsewhere the PDF URL itself; a function of the platform and URL alone |
| PdfViewer.SamePrefixAsPreview | PDFViewer.tsx:9 | the viewer prefix is exactly the one the home-screen preview uses |
| PdfViewer.SourceIsPreviewTarget | PDFViewer.tsx:7-10 | for a PDF link the source is the home screen's preview URL, on every platform |
| AppShell.Links | App.tsx:144-178 | this file's own table, string for string, without the dining entries |
| AppShell.QuickLinks | App.tsx:608-629 | this file's own four quick links, string for string |
| AppShell.SameEntriesAsAppLinks | App.tsx:144-178 | the copy of `APP_LINKS` has the same fitness, printing and transport entries as src/'s, and no dining entries |
| AppShell.OpenAppLink | App.tsx:187-213 | the copy of `openAppLink` opens the same URLs as src/'s for every platform, link record and device outcome |
| AppShell.SameQuickLinks | App.tsx:608-629 | the copy of the quick links is the home screen's, with only the last marked `isLast` |
| Text.Lower | src/screens/HomeScreen.tsx:126 | `toLowerCase` keeps the length and lowers each ASCII capital |
| Text.EndsWith | src/screens/HomeScreen.tsx:126 | `endsWith`: the string's last characters are the suffix |
| Text.Contains | src/screens/HomeScreen.tsx:144 | `includes`, with `ContainsAt` proving any occurrence is found |
| Text.BeforeFirst | src/components/PreviewModal.tsx:63 | `split(sep)[0]` is the prefix before the first separator, free of it |
| Text.IntToString | src/screens/EventsScreen.tsx:38 | `${id}` for an integer: a `-` exactly for a negative id, then at least one digit, with no leading zero |
| Text.IntToStringRoundTrip | src/screens/EventsScreen.tsx:38 | the decimal rendering of an integer id parses back to it |

## Left out

- The events request itself (`fetch`, the status check and JSON decoding) is an input: a `Response` that is the body's `value` field or a failure. The clock is the `now` parameter of `SearchUrl`.
- Neither version's code has pagination, de-duplication, a search filter, debouncing or a stale-response guard. Each makes one request with `take=50` and no offset, and that is what is modelled.
- React's scheduling is not modelled: the batching of setter calls, when effects run, and interleavings of overlapping fetches. Each transition is applied to the state it starts from. In particular, the newer screen's mount effect runs `fetchEvents` again each time `refreshing` changes. After a refresh settles, that extra fetch brings the spinner up, as EventsScreen.SpinnerAfterRefreshSettles shows. The model does not start it by itself, so RefreshKeepsListing and SettledFetchView speak only of the state right after `onRefresh` and of the state the settle leaves.
- Date formatting (`formatEventDate`), rendering, styling, navigation and the `tel:` call on the emergency card are not modelled.
- EventsScreen.EventLink: renders the id as an integer. A JavaScript number at or above 10^21, or one that is not an integer, renders differently; ids are taken to be integers.
- `item.location?.` is read as if `location` were always present, as its declared type says.
- Optional fields tested only for truthiness, `imagePath` among them, are modelled by their falsy value ("", false or []).
- Text.Lower: lowers ASCII capitals only. `toLowerCase` also lowers other Unicode letters; the only test it feeds is a comparison with ".pdf".
- `encodeURIComponent` and the `URL` parser are not modelled; they are parameters. The round trip between them is a precondition of HomeScreen.AndroidPdfRoundTrip, not a proved fact.
- When the preview URL is a viewer URL that `new URL` cannot parse, the source throws a `TypeError` out of `handleOpenExternalLink`, uncaught. The model records only that nothing is opened and the preview stays, as `UrlLookup.Unparsable`. The app's own quick links are all well-formed, so their viewer URLs parse.
- `Linking.canOpenURL` and `Linking.openURL` are not modelled. Their outcomes are inputs, and the rejection of the final fallback open goes unhandled in the source, so it is not modelled either.
- The `App.tsx` copies of the preview handlers (`App.tsx:632-670`) and of the preview title (`App.tsx:391`) are the same code as `src/screens/HomeScreen.tsx:124-162` and `src/components/PreviewModal.tsx:63`. They are modelled once, by `HomeScreen` and `PreviewModal`.
