/**
 * The campus events screen (src/screens/EventsScreen.tsx): the card an event
 * is shown as, the four state cells of the screen and the transitions
 * `fetchEvents` and `onRefresh` make on them, and the choice between the
 * loading spinner, the error panel and the event list.
 *
 * A fetch awaits twice, for the response and for its body, but no state
 * cell is set between the two, so it is split at one point: `BeginFetch` is
 * what runs before the request, `CompleteOk`/`CompleteErr` what runs when it
 * settles (the `try`/`catch` bodies followed by the `finally` block). The
 * request and the JSON decoding are not modelled; their result arrives as
 * the response `value` or as a failure.
 */
module EventsScreen {
  import opened Wrappers
  import opened Text
  import opened CampusTypes

  const ImageBase := "https://se-images.campuslabs.com/clink/images/"
  const EventBase := "https://stonybrook.campuslabs.com/engage/event/"
  const SearchEndpoint := "https://stonybrook.campuslabs.com/engage/api/discovery/event/search"
  const FetchErrorMessage := "Unable to load events. Please check connection and try again."
  const NameFallback := "Event Name Unavailable"
  const VirtualLabel := "Virtual Event"
  const LocationFallback := "Location TBD"

  /// The request

  /** A query parameter. */
  datatype Param = Param(key: string, value: string)

  function Render(p: Param): string {
    p.key + "=" + p.value
  }

  /** Parameters rendered as `key=value` and joined by "&". */
  function Query(ps: seq<Param>): string {
    if ps == [] then ""
    else if |ps| == 1 then Render(ps[0])
    else Render(ps[0]) + "&" + Query(ps[1..])
  }

  /** A query string holds every one of its parameters. */
  lemma {:induction false} QueryHoldsEach(ps: seq<Param>, i: nat)
    requires i < |ps|
    ensures Contains(Query(ps), Render(ps[i]))
    decreases i
  {
    if i == 0 {
      if |ps| == 1 {
        ContainsMiddle([], Render(ps[0]), []);
        assert [] + Render(ps[0]) + [] == Query(ps);
      } else {
        ContainsMiddle([], Render(ps[0]), "&" + Query(ps[1..]));
        assert [] + Render(ps[0]) + ("&" + Query(ps[1..])) == Query(ps);
      }
    } else {
      QueryHoldsEach(ps[1..], i - 1);
      ContainsInSuffix(Render(ps[0]) + "&", Query(ps[1..]), Render(ps[i]));
      assert Render(ps[0]) + "&" + Query(ps[1..]) == Query(ps);
    }
  }

  /** A query string of two or more parameters ends with "&" and the last one. */
  lemma {:induction false} QueryEndsWithLast(ps: seq<Param>)
    requires |ps| >= 2
    ensures EndsWith(Query(ps), "&" + Render(ps[|ps| - 1]))
    decreases |ps|
  {
    var x := Render(ps[0]);
    if |ps| == 2 {
      assert Query(ps) == x + ("&" + Render(ps[1]));
      EndsWithConcat(x, "&" + Render(ps[1]), "&" + Render(ps[1]));
    } else {
      QueryEndsWithLast(ps[1..]);
      assert Query(ps) == x + "&" + Query(ps[1..]);
      EndsWithConcat(x + "&", Query(ps[1..]), "&" + Render(ps[|ps| - 1]));
    }
  }

  /** Re-bracketing a URL so that its first parameter's key joins the "?"
      before it, as SearchQueryStart needs. */
  lemma Regroup(e: string, q: string, k: string, v: string, rest: string)
    ensures e + q + (k + v + "&" + rest) == e + (q + k) + v + "&" + rest
  {
  }

  /** The parameters of the one request a fetch makes: events ending after
      `now`, ordered by start, approved only, a single page of 50. No key
      repeats and none of them is an offset, so no later page is asked for. */
  function SearchParams(now: string): (ps: seq<Param>)
    ensures |ps| == 5 && ps[0] == Param("endsAfter", now) && ps[4] == Param("take", "50")
    ensures Param("orderByField", "startsOn") in ps && Param("orderByDirection", "ascending") in ps
    ensures Param("status", "Approved") in ps
    ensures forall i, j :: 0 <= i < j < |ps| ==> ps[i].key != ps[j].key
    ensures forall i :: 0 <= i < |ps| ==> ps[i].key !in {"skip", "offset", "page"}
  {
    [Param("endsAfter", now), Param("orderByField", "startsOn"),
     Param("orderByDirection", "ascending"), Param("status", "Approved"), Param("take", "50")]
  }

  /** A URL made of a base, "?" and the search parameters starts with the
      base and the time, holds the ordering and status filter, and ends with
      the page size. */
  lemma SearchQueryShape(base: string, now: string)
    ensures StartsWith(base + "?" + Query(SearchParams(now)), base + "?endsAfter=" + now + "&")
    ensures Contains(base + "?" + Query(SearchParams(now)), "orderByField=startsOn")
    ensures Contains(base + "?" + Query(SearchParams(now)), "orderByDirection=ascending")
    ensures Contains(base + "?" + Query(SearchParams(now)), "status=Approved")
    ensures EndsWith(base + "?" + Query(SearchParams(now)), "&take=50")
  {
    var ps := SearchParams(now);
    SearchQueryStart(base, now);
    forall i | 1 <= i <= 3
      ensures Contains(base + "?" + Query(ps), Render(ps[i]))
    {
      QueryHoldsEach(ps, i);
      ContainsInSuffix(base + "?", Query(ps), Render(ps[i]));
    }
    assert Render(ps[1]) == "orderByField=startsOn";
    assert Render(ps[2]) == "orderByDirection=ascending";
    assert Render(ps[3]) == "status=Approved";
    QueryEndsWithLast(ps);
    EndsWithConcat(base + "?", Query(ps), "&" + Render(ps[4]));
    assert "&" + Render(ps[4]) == "&take=50";
  }

  lemma SearchQueryStart(base: string, now: string)
    ensures StartsWith(base + "?" + Query(SearchParams(now)), base + "?endsAfter=" + now + "&")
  {
    var ps := SearchParams(now);
    var first := base + "?endsAfter=" + now + "&";
    assert Query(ps) == "endsAfter" + "=" + now + "&" + Query(ps[1..]);
    Regroup(base, "?", "endsAfter" + "=", now, Query(ps[1..]));
    assert "?" + ("endsAfter" + "=") == "?endsAfter=";
    StartsWithConcat(first);
  }

  /** The URL of that request: the search endpoint and exactly those
      parameters, with the current time first, the fixed ordering and status
      filter after it, and `take=50` last. */
  function SearchUrl(now: string): (r: string)
    ensures r == SearchEndpoint + "?" + Query(SearchParams(now))
    ensures StartsWith(r, SearchEndpoint + "?endsAfter=" + now + "&")
    ensures Contains(r, "orderByField=startsOn") && Contains(r, "orderByDirection=ascending")
    ensures Contains(r, "status=Approved")
    ensures EndsWith(r, "&take=50")
  {
    SearchQueryShape(SearchEndpoint, now);
    SearchEndpoint + "?" + Query(SearchParams(now))
  }

  /// The event card

  /** The image URL, present exactly when `imagePath` is a non-empty string,
      and then the image host's path prefix followed by `imagePath`. */
  function ImageUrl(e: CampusEvent): (r: Option<string>)
    ensures r.Some? <==> e.imagePath != ""
    ensures r.Some? ==> StartsWith(r.value, ImageBase) && r.value[|ImageBase|..] == e.imagePath
  {
    if e.imagePath != "" then
      var u := ImageBase + e.imagePath;
      assert u[..|ImageBase|] == ImageBase;
      Some(u)
    else None
  }

  /** The page a pressed card opens: the event page of the event's `id`,
      from which the id can be read back. */
  function EventLink(e: CampusEvent): (r: string)
    ensures StartsWith(r, EventBase)
    ensures ParseInt(r[|EventBase|..]) == Some(e.id)
  {
    IntToStringRoundTrip(e.id);
    var u := EventBase + IntToString(e.id);
    assert u[..|EventBase|] == EventBase && u[|EventBase|..] == IntToString(e.id);
    u
  }

  /** Two cards open the same page only for events with the same id. */
  lemma EventLinkInjective(a: CampusEvent, b: CampusEvent)
    requires EventLink(a) == EventLink(b)
    ensures a.id == b.id
  {
    assert ParseInt(EventLink(a)[|EventBase|..]) == Some(a.id);
  }

  /** The card title is never blank: the event name, or a placeholder. */
  function Title(e: CampusEvent): (r: string)
    ensures r != ""
    ensures e.name != "" ==> r == e.name
    ensures e.name == "" ==> r == NameFallback
  {
    if e.name != "" then e.name else NameFallback
  }

  /** The location line is never blank: "Virtual Event" for a virtual event,
      otherwise the location's name, otherwise "Location TBD". */
  function LocationLabel(e: CampusEvent): (r: string)
    ensures r != ""
    ensures e.location.isVirtual ==> r == VirtualLabel
    ensures !e.location.isVirtual && e.location.name != "" ==> r == e.location.name
    ensures !e.location.isVirtual && e.location.name == "" ==> r == LocationFallback
  {
    if e.location.isVirtual then VirtualLabel
    else if e.location.name != "" then e.location.name
    else LocationFallback
  }

  /** The organization row appears only for an organization with a non-empty
      name, and then shows that name. */
  function OrganizationRow(e: CampusEvent): (r: Option<string>)
    ensures r.Some? <==> e.organization.Some? && e.organization.value.name != ""
    ensures r.Some? ==> r.value == e.organization.value.name && r.value != ""
  {
    match e.organization
    case Some(o) => if o.name != "" then Some(o.name) else None
    case None => None
  }

  /** The category chips: the leading categories, in order, at most three of
      them, and all of them when there are fewer than three. */
  function ShownCategories(cats: seq<Category>): (r: seq<Category>)
    ensures |r| <= 3 && |r| <= |cats|
    ensures r == cats[..|r|]
    ensures |r| < 3 ==> r == cats
  {
    if |cats| <= 3 then cats else cats[..3]
  }

  /** The card of an event: never a blank title or location line, at most
      three chips, an image only for a non-empty `imagePath`, an organization
      row only for a named organization, and a link back to the event. */
  function CardOf(e: CampusEvent): (c: Card)
    ensures c.title != "" && c.location != "" && |c.categories| <= 3
    ensures c.image.Some? <==> e.imagePath != ""
    ensures c.organization.Some? <==> e.organization.Some? && e.organization.value.name != ""
    ensures StartsWith(c.link, EventBase) && ParseInt(c.link[|EventBase|..]) == Some(e.id)
  {
    Card(ImageUrl(e), Title(e), LocationLabel(e), OrganizationRow(e),
         ShownCategories(e.categories), EventLink(e))
  }

  function Cards(events: seq<CampusEvent>): (r: seq<Card>)
    ensures |r| == |events|
    ensures forall i :: 0 <= i < |events| ==> r[i] == CardOf(events[i])
  {
    seq(|events|, i requires 0 <= i < |events| => CardOf(events[i]))
  }

  /// The screen state and its transitions

  datatype ScreenState = ScreenState(
    events: seq<CampusEvent>,
    loading: bool,
    refreshing: bool,
    error: Option<string>)

  /** The only error the screen ever records is its one message. */
  predicate Valid(s: ScreenState) {
    s.error == None || s.error == Some(FetchErrorMessage)
  }

  /** How a request settled: the response's `value` field (absent or null is
      `None`), or a failure, which is a non-ok status, a transport error or a
      body that does not parse. */
  datatype Response = Ok(value: Option<seq<CampusEvent>>) | Err

  /** The state cells as `useState` initialises them. */
  function Initial(): (s: ScreenState)
    ensures Valid(s) && s.events == [] && s.loading && !s.refreshing && s.error == None
  {
    ScreenState([], true, false, None)
  }

  /** The part of `fetchEvents` before the request: the error is cleared, and
      `loading` is raised only when the `refreshing` the callback captured is
      false; the list and `refreshing` are untouched. */
  function Begun(s: ScreenState, capturedRefreshing: bool): (r: ScreenState)
    ensures Valid(r) && r.error == None
    ensures r.events == s.events && r.refreshing == s.refreshing
    ensures !capturedRefreshing ==> r.loading
    ensures capturedRefreshing ==> r.loading == s.loading
  {
    s.(loading := s.loading || !capturedRefreshing, error := None)
  }

  /** The part of `fetchEvents` after the request settled. On success the
      list becomes the response value, or [] without one; on failure the list
      is emptied and the error message set; either way both flags end
      cleared. */
  function Completed(s: ScreenState, resp: Response): (r: ScreenState)
    ensures !r.loading && !r.refreshing
    ensures resp.Ok? ==> r.events == resp.value.GetOr([]) && r.error == s.error
    ensures resp.Err? ==> r.events == [] && r.error == Some(FetchErrorMessage)
    ensures Valid(s) ==> Valid(r)
  {
    match resp
    case Ok(value) => ScreenState(value.GetOr([]), false, false, s.error)
    case Err => ScreenState([], false, false, Some(FetchErrorMessage))
  }

  /** `onRefresh`: `refreshing` is set, then the callback of the current
      render runs, which captured `refreshing` as it was before. */
  function Refreshed(s: ScreenState): (r: ScreenState)
    ensures Valid(r) && r.refreshing && r.error == None && r.events == s.events
    ensures r.loading == (s.loading || !s.refreshing)
  {
    Begun(s.(refreshing := true), s.refreshing)
  }

  /** A whole fetch started from state `s` by a callback that captured the
      current `refreshing`, settling with `resp`: both flags end cleared; a
      success lists the response and clears any earlier error, a failure
      empties the list and records the message. */
  function Fetched(s: ScreenState, resp: Response): (r: ScreenState)
    ensures !r.loading && !r.refreshing && Valid(r)
    ensures resp.Ok? ==> r.events == resp.value.GetOr([]) && r.error == None
    ensures resp.Err? ==> r.events == [] && r.error == Some(FetchErrorMessage)
  {
    Completed(Begun(s, s.refreshing), resp)
  }

  /** The states the screen can reach: `refreshing` is never set without
      `loading`, since a refresh settles only by clearing both. */
  predicate Reachable(s: ScreenState) {
    s.refreshing ==> s.loading
  }

  /** The initial state is reachable, and every transition keeps it so,
      whatever `refreshing` the running callback captured. */
  lemma ReachableIsInvariant(s: ScreenState, captured: bool, resp: Response)
    ensures Reachable(Initial())
    ensures Reachable(s) ==> Reachable(Begun(s, captured))
    ensures Reachable(Completed(s, resp))
    ensures Reachable(s) ==> Reachable(Refreshed(s))
  {
  }

  /** In every reachable state a refresh raises `loading`: the callback
      `onRefresh` calls captured `refreshing` as false. */
  lemma RefreshRaisesLoading(s: ScreenState)
    requires Reachable(s)
    ensures Refreshed(s).loading
  {
  }

  /// What the screen shows

  datatype View = Spinner | ErrorPanel(message: string) | Feed(cards: seq<Card>)

  /** The spinner while loading and not refreshing; otherwise the error panel
      when there is an error; otherwise the list, one card per event, in
      order. */
  function ViewOf(s: ScreenState): (v: View)
    ensures v.Spinner? <==> s.loading && !s.refreshing
    ensures v.ErrorPanel? <==> !(s.loading && !s.refreshing) && s.error.Some? && s.error.value != ""
    ensures v.ErrorPanel? ==> v.message == s.error.value
    ensures v.Feed? ==> v.cards == Cards(s.events)
    ensures Valid(s) && v.ErrorPanel? ==> v.message == FetchErrorMessage
  {
    if s.loading && !s.refreshing then Spinner
    else if s.error.Some? && s.error.value != "" then ErrorPanel(s.error.value)
    else Feed(Cards(s.events))
  }

  /** The list's empty component appears exactly when the list is shown with
      no events in it. */
  predicate ShowsEmptyComponent(v: View) {
    v.Feed? && v.cards == []
  }

  lemma EmptyComponentExactly(s: ScreenState)
    ensures ShowsEmptyComponent(ViewOf(s)) <==>
      !(s.loading && !s.refreshing) && !(s.error.Some? && s.error.value != "") && s.events == []
  {
  }

  /** The first render shows the spinner. */
  lemma InitialShowsSpinner()
    ensures ViewOf(Initial()) == Spinner
  {
  }

  /** A fetch started while not refreshing shows the spinner until it settles. */
  lemma BeginWhileIdleShowsSpinner(s: ScreenState)
    requires !s.refreshing
    ensures ViewOf(Begun(s, s.refreshing)) == Spinner
  {
  }

  /** Right after `onRefresh`, neither the spinner nor the error panel shows:
      the current events stay listed while the request is out. */
  lemma RefreshKeepsListing(s: ScreenState)
    ensures ViewOf(Refreshed(s)) == Feed(Cards(s.events))
  {
  }

  /** The state a settled fetch leaves shows no spinner; a failed fetch shows
      exactly the error message, a successful one lists exactly the response
      value. */
  lemma SettledFetchView(s: ScreenState, resp: Response)
    ensures ViewOf(Fetched(s, resp)) != Spinner
    ensures resp.Err? ==> ViewOf(Fetched(s, resp)) == ErrorPanel(FetchErrorMessage)
    ensures resp.Ok? ==> ViewOf(Fetched(s, resp)) == Feed(Cards(resp.value.GetOr([])))
  {
  }

  /** Once a refresh settles, `refreshing` is false again, so `fetchEvents`
      gets a new identity and the mount effect runs it once more; that fetch
      captured `refreshing` as false, so the spinner comes up after all. */
  lemma SpinnerAfterRefreshSettles(s: ScreenState, resp: Response)
    ensures var settled := Completed(Refreshed(s), resp);
      !settled.refreshing && ViewOf(Begun(settled, settled.refreshing)) == Spinner
  {
  }

  /** After a failure no stale events remain: refreshing from the error panel
      shows the empty list until the next response. */
  lemma RefreshAfterFailureShowsEmptyList(s: ScreenState)
    ensures ShowsEmptyComponent(ViewOf(Refreshed(Fetched(s, Err))))
  {
  }

  /// The screen as a stateful object

  class Controller {
    var events: seq<CampusEvent>
    var loading: bool
    var refreshing: bool
    var error: Option<string>

    function State(): ScreenState
      reads this
    {
      ScreenState(events, loading, refreshing, error)
    }

    constructor ()
      ensures State() == Initial()
    {
      events, loading, refreshing, error := [], true, false, None;
    }

    /** The start of `fetchEvents`, run by the callback of a render in which
        `refreshing` was `capturedRefreshing`: the mount effect and the "Try
        Again" button pass the current value, `Refresh` the one it replaced. */
    method BeginFetch(capturedRefreshing: bool)
      modifies this
      ensures State() == Begun(old(State()), capturedRefreshing)
    {
      if !capturedRefreshing {
        loading := true;
      }
      error := None;
    }

    method CompleteOk(value: Option<seq<CampusEvent>>)
      modifies this
      ensures State() == Completed(old(State()), Ok(value))
    {
      events := value.GetOr([]);
      loading := false;
      refreshing := false;
    }

    method CompleteErr()
      modifies this
      ensures State() == Completed(old(State()), Err)
    {
      error := Some(FetchErrorMessage);
      events := [];
      loading := false;
      refreshing := false;
    }

    method Refresh()
      modifies this
      ensures State() == Refreshed(old(State()))
    {
      var captured := refreshing;
      refreshing := true;
      BeginFetch(captured);
    }
  }
}
