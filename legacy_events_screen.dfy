/**
 * The older events screen at the repository root (EventsScreen.tsx). It
 * issues the same single request as src/screens/EventsScreen.tsx but differs
 * in what it shows: a failure keeps the events already listed, the card has
 * no fallbacks for a missing name or location, and the view has a fourth,
 * explicit "No upcoming events" panel. Its `fetchEvents` also raises
 * `loading` whatever `refreshing` is, but that difference in the code shows
 * in no state either screen reaches (LoadingDifferenceUnobservable).
 */
module LegacyEventsScreen {
  import opened Wrappers
  import opened CampusTypes
  import opened Text
  import EventsScreen

  const FetchErrorMessage := "Unable to load events. Please try again later."

  /// The event card

  /** The image, rendered only when `imagePath` is a non-empty string. */
  function Image(e: CampusEvent): (r: Option<string>)
    ensures r.Some? <==> e.imagePath != ""
    ensures r.Some? ==> r.value == EventsScreen.ImageBase + e.imagePath
  {
    if e.imagePath != "" then
      Some(EventsScreen.ImageBase + e.imagePath)
    else None
  }

  /** "Virtual Event" for a virtual event, otherwise the location's name as
      it is, possibly empty. */
  function LocationLabel(e: CampusEvent): (r: string)
    ensures e.location.isVirtual ==> r == EventsScreen.VirtualLabel
    ensures !e.location.isVirtual ==> r == e.location.name
  {
    if e.location.isVirtual then EventsScreen.VirtualLabel else e.location.name
  }

  /** The organization row appears whenever an organization object is there,
      whether or not its name is empty. */
  function OrganizationRow(e: CampusEvent): (r: Option<string>)
    ensures r.Some? <==> e.organization.Some?
    ensures r.Some? ==> r.value == e.organization.value.name
  {
    match e.organization
    case Some(o) => Some(o.name)
    case None => None
  }

  /** The card shows the name and location as they are, possibly blank, at
      most three chips, and a link back to the event. */
  function CardOf(e: CampusEvent): (c: Card)
    ensures c.title == e.name && |c.categories| <= 3
    ensures c.organization.Some? <==> e.organization.Some?
    ensures StartsWith(c.link, EventsScreen.EventBase)
    ensures ParseInt(c.link[|EventsScreen.EventBase|..]) == Some(e.id)
  {
    Card(Image(e), e.name, LocationLabel(e), OrganizationRow(e),
         EventsScreen.ShownCategories(e.categories), EventsScreen.EventLink(e))
  }

  /** For an event with a name, a location name and a named organization the
      two screens draw the same card. */
  lemma SameCardForCompleteEvents(e: CampusEvent)
    requires e.name != "" && e.location.name != ""
    requires e.organization.Some? && e.organization.value.name != ""
    ensures CardOf(e) == EventsScreen.CardOf(e)
  {
  }

  /** An event without a name or organization name shows differently: the old
      card leaves the title and location blank and keeps an empty organization
      row. */
  lemma BlankEventDiffers(e: CampusEvent)
    requires e.name == "" && !e.location.isVirtual && e.location.name == ""
    requires e.organization.Some? && e.organization.value.name == ""
    ensures CardOf(e).title == "" && EventsScreen.CardOf(e).title == EventsScreen.NameFallback
    ensures CardOf(e).location == "" && EventsScreen.CardOf(e).location == EventsScreen.LocationFallback
    ensures CardOf(e).organization == Some("") && EventsScreen.CardOf(e).organization == None
  {
  }

  /// The screen state and its transitions

  type ScreenState = EventsScreen.ScreenState
  type Response = EventsScreen.Response

  predicate Valid(s: ScreenState) {
    s.error == None || s.error == Some(FetchErrorMessage)
  }

  function Initial(): (s: ScreenState)
    ensures Valid(s) && s.events == [] && s.loading && !s.refreshing && s.error == None
  {
    EventsScreen.ScreenState([], true, false, None)
  }

  /** The part of `fetchEvents` before the request: `loading` raised and the
      error cleared, whatever `refreshing` is. */
  function Begun(s: ScreenState): (r: ScreenState)
    ensures Valid(r) && r.loading && r.error == None
    ensures r.events == s.events && r.refreshing == s.refreshing
  {
    s.(loading := true, error := None)
  }

  /** The part after the request settled. Success lists the response value,
      or []; failure sets this screen's message and keeps the events already
      listed; both flags end cleared. */
  function Completed(s: ScreenState, resp: Response): (r: ScreenState)
    ensures !r.loading && !r.refreshing
    ensures resp.Ok? ==> r.events == resp.value.GetOr([]) && r.error == s.error
    ensures resp.Err? ==> r.events == s.events && r.error == Some(FetchErrorMessage)
    ensures Valid(s) ==> Valid(r)
  {
    match resp
    case Ok(value) => s.(events := value.GetOr([]), loading := false, refreshing := false)
    case Err => s.(error := Some(FetchErrorMessage), loading := false, refreshing := false)
  }

  /** `onRefresh`: `refreshing` set, then a fetch begun. */
  function Refreshed(s: ScreenState): (r: ScreenState)
    ensures Valid(r) && r.refreshing && r.loading && r.error == None && r.events == s.events
  {
    Begun(s.(refreshing := true))
  }

  /** A whole fetch from state `s`: both flags end cleared; a success lists
      the response and clears any earlier error, a failure keeps the listed
      events and records this screen's message. */
  function Fetched(s: ScreenState, resp: Response): (r: ScreenState)
    ensures !r.loading && !r.refreshing && Valid(r)
    ensures resp.Ok? ==> r.events == resp.value.GetOr([]) && r.error == None
    ensures resp.Err? ==> r.events == s.events && r.error == Some(FetchErrorMessage)
  {
    Completed(Begun(s), resp)
  }

  /** The two screens part ways on failure: the old one keeps the events it
      listed, the new one empties its list. */
  lemma FailureKeepsStaleEvents(s: ScreenState)
    ensures Fetched(s, EventsScreen.Err).events == s.events
    ensures EventsScreen.Fetched(s, EventsScreen.Err).events == []
  {
  }

  /** The old screen reaches only the states the new one does: its
      transitions keep `refreshing ==> loading` too. */
  lemma ReachableIsInvariant(s: ScreenState, resp: Response)
    ensures EventsScreen.Reachable(Initial())
    ensures EventsScreen.Reachable(Begun(s))
    ensures EventsScreen.Reachable(Completed(s, resp))
    ensures EventsScreen.Reachable(Refreshed(s))
  {
  }

  /** The old screen raises `loading` whatever `refreshing` is; the new one
      only for a captured `refreshing` of false. The two starts differ exactly
      in a state with `refreshing` set and `loading` clear, which neither
      screen reaches; in every reachable state both raise `loading`, on a
      fetch and on a refresh alike. */
  lemma LoadingDifferenceUnobservable(s: ScreenState)
    ensures Begun(s).loading != EventsScreen.Begun(s, s.refreshing).loading <==> s.refreshing && !s.loading
    ensures EventsScreen.Reachable(s) ==> Begun(s).loading && EventsScreen.Begun(s, s.refreshing).loading
    ensures EventsScreen.Reachable(s) ==> Refreshed(s).loading && EventsScreen.Refreshed(s).loading
  {
  }

  /// What the screen shows

  datatype View = Spinner | ErrorPanel(message: string) | NoUpcomingEvents | Cards(cards: seq<Card>)

  /** Spinner, then error, then the empty panel, then one card per event in
      order; the empty panel shows exactly when there is nothing to list. */
  function ViewOf(s: ScreenState): (v: View)
    ensures v.Spinner? <==> s.loading && !s.refreshing
    ensures v.ErrorPanel? <==> !(s.loading && !s.refreshing) && s.error.Some? && s.error.value != ""
    ensures v.ErrorPanel? ==> v.message == s.error.value
    ensures v.NoUpcomingEvents? <==> !v.Spinner? && !v.ErrorPanel? && s.events == []
    ensures v.Cards? ==> |v.cards| == |s.events| >= 1
    ensures v.Cards? ==> forall i :: 0 <= i < |s.events| ==> v.cards[i] == CardOf(s.events[i])
    ensures Valid(s) && v.ErrorPanel? ==> v.message == FetchErrorMessage
  {
    if s.loading && !s.refreshing then Spinner
    else if s.error.Some? && s.error.value != "" then ErrorPanel(s.error.value)
    else if |s.events| == 0 then NoUpcomingEvents
    else Cards(seq(|s.events|, i requires 0 <= i < |s.events| => CardOf(s.events[i])))
  }

  /** Pulling to refresh does not bring up the spinner, although `loading` is
      raised: the `refreshing` flag masks it. */
  lemma RefreshHidesSpinner(s: ScreenState)
    ensures !ViewOf(Refreshed(s)).Spinner?
  {
  }

  /** A failed fetch shows this screen's error message, whatever was listed. */
  lemma FailedFetchShowsError(s: ScreenState)
    ensures ViewOf(Fetched(s, EventsScreen.Err)) == ErrorPanel(FetchErrorMessage)
  {
  }

  /** After a failure, refreshing lists the stale events again, or shows the
      empty panel when there were none. */
  lemma RefreshAfterFailureShowsStaleEvents(s: ScreenState)
    ensures var v := ViewOf(Refreshed(Fetched(s, EventsScreen.Err)));
      (s.events == [] ==> v == NoUpcomingEvents) &&
      (s.events != [] ==>
         v.Cards? && |v.cards| == |s.events| &&
         (forall i :: 0 <= i < |s.events| ==> v.cards[i] == CardOf(s.events[i])))
  {
  }

  /// The screen as a stateful object

  class Controller {
    var events: seq<CampusEvent>
    var loading: bool
    var refreshing: bool
    var error: Option<string>

    function State(): ScreenState
      reads this
    {
      EventsScreen.ScreenState(events, loading, refreshing, error)
    }

    constructor ()
      ensures State() == Initial()
    {
      events, loading, refreshing, error := [], true, false, None;
    }

    method BeginFetch()
      modifies this
      ensures State() == Begun(old(State()))
    {
      loading := true;
      error := None;
    }

    method CompleteOk(value: Option<seq<CampusEvent>>)
      modifies this
      ensures State() == Completed(old(State()), EventsScreen.Ok(value))
    {
      events := value.GetOr([]);
      loading := false;
      refreshing := false;
    }

    method CompleteErr()
      modifies this
      ensures State() == Completed(old(State()), EventsScreen.Err)
    {
      error := Some(FetchErrorMessage);
      loading := false;
      refreshing := false;
    }

    method Refresh()
      modifies this
      ensures State() == Refreshed(old(State()))
    {
      refreshing := true;
      BeginFetch();
    }
  }
}
