/** The connectivity/alert state of the main screen, as a value, and one step
    function per event handler of the activity. The class in main_activity.dfy
    is proved to follow these functions; the properties are proved about them. */
module Connectivity {

  /** Animation names passed to `setAnimation`. */
  const CloudHelp: string := "cloud_help"
  const CloudError: string := "cloud_error"
  const CloudSearch: string := "cloud_search"
  const CloudSync: string := "cloud_sync"

  /** Drawables put on the floating button. */
  const IconSearch: string := "cloud_search"
  const IconSearchOutline: string := "cloud_search_outline"

  /** The most recent link event. The activity does not store it; it is kept
      here so that properties can speak about the current link. */
  datatype Link = Unobserved | Wifi | NotWifi

  /** The banner held in the captured `snackbar` variable (null until the
      first non-Wi-Fi event). */
  datatype Banner = NoBanner | Banner(shown: bool)

  /** Everything the handlers read or write.
      `probes` holds the disposed flag of every internet-reachability
      subscription created so far, oldest first; `internetDisposable` is only
      ever assigned the newest one, so it is null exactly when `probes` is
      empty and otherwise refers to the last entry.
      `starts` and `stops` count the calls made to the media player's
      `start()` and `stop()`; `playerError` records that `prepareAsync()`
      was called on a started player, which throws `IllegalStateException`. */
  datatype State = State(
    networkDisposed: bool,
    probes: seq<bool>,
    snackbar: Banner,
    fabVisible: bool,
    icon: string,
    animation: string,
    playing: bool,
    starts: nat,
    stops: nat,
    playerError: bool,
    destroyed: bool,
    link: Link)

  /** The state right after `onCreate`: the link subscription is live, no
      probe exists, nothing rings. The button's visibility, its icon and the
      animation come from the layout, which is a parameter here. */
  function Initial(animation: string, icon: string, fabVisible: bool): (r: State)
  {
    State(false, [], NoBanner, fabVisible, icon, animation, false, 0, 0, false, false, Unobserved)
  }

  /** `internetDisposable != null && !internetDisposable.isDisposed` */
  predicate ProbeLive(s: State)
  {
    |s.probes| > 0 && !s.probes[|s.probes| - 1]
  }

  /** Number of probe subscriptions that are still running. */
  function LiveCount(probes: seq<bool>): (n: nat)
    ensures n <= |probes|
    ensures n == 0 <==> forall i :: 0 <= i < |probes| ==> probes[i]
  {
    if probes == [] then 0
    else LiveCount(probes[..|probes| - 1]) + (if probes[|probes| - 1] then 0 else 1)
  }

  /** No overlap: every probe subscription other than the one the handle
      holds has been disposed. */
  predicate NoOverlap(probes: seq<bool>)
  {
    forall i :: 0 <= i < |probes| - 1 ==> probes[i]
  }

  // ---------------------------------------------------------------------
  // The helpers of the activity

  /** `setAnimation(name)` */
  function SetAnimation(s: State, name: string): (r: State)
  {
    s.(animation := name)
  }

  /** `internetDisposable?.dispose()` */
  function DisposeProbe(s: State): (r: State)
  {
    if s.probes == [] then s else s.(probes := s.probes[|s.probes| - 1 := true])
  }

  /** `stopRingtone()`: stops the player only if it is playing. */
  function StopRingtone(s: State): (r: State)
  {
    if s.playing then s.(playing := false, stops := s.stops + 1) else s
  }

  /** `playRingtone()`: `prepareAsync()` then `start()`, with no guard.
      `prepareAsync()` is legal only on a player that is not started, so on
      a playing player it throws before `start()` is reached. */
  function PlayRingtone(s: State): (r: State)
  {
    if s.playing then s.(playerError := true)
    else s.(playing := true, starts := s.starts + 1)
  }

  /** `observeInternetConnectivity()`: subscribes a new probe and stores its
      handle in `internetDisposable`, overwriting the previous one. */
  function ObserveInternet(s: State): (r: State)
  {
    s.(probes := s.probes + [false])
  }

  // ---------------------------------------------------------------------
  // The event handlers

  /** The floating button's click listener. */
  function FabClick(s: State): (r: State)
  {
    if !ProbeLive(s) then
      ObserveInternet(s).(icon := IconSearch)
    else
      StopRingtone(DisposeProbe(SetAnimation(s, CloudHelp))).(icon := IconSearchOutline)
  }

  /** The subscriber of the link-connectivity stream; `isWifi` stands for
      `connectivity.typeName() == "WIFI"`. */
  function LinkChange(s: State, isWifi: bool): (r: State)
  {
    if isWifi then
      var t := SetAnimation(s, CloudHelp);
      t.(snackbar := if t.snackbar.Banner? then Banner(false) else t.snackbar,
         fabVisible := true,
         link := Wifi)
    else
      var t := SetAnimation(s, CloudError).(fabVisible := false, snackbar := Banner(true), link := NotWifi);
      StopRingtone(DisposeProbe(t)).(icon := IconSearchOutline)
  }

  /** The subscriber of the internet-reachability stream. */
  function InternetChange(s: State, isConnected: bool): (r: State)
  {
    if isConnected then PlayRingtone(SetAnimation(s, CloudSync))
    else StopRingtone(SetAnimation(s, CloudSearch))
  }

  /** `onDestroy`: disposes both subscriptions and releases the player,
      which ends any playback without a `stop()` call. */
  function Destroy(s: State): (r: State)
  {
    DisposeProbe(s.(networkDisposed := true)).(playing := false, destroyed := true)
  }

  // ---------------------------------------------------------------------
  // Event sequences

  datatype Event = LinkChanged(isWifi: bool) | InternetChanged(isConnected: bool) | FabClicked | Destroyed

  function Apply(s: State, e: Event): (r: State)
  {
    match e
    case LinkChanged(w) => LinkChange(s, w)
    case InternetChanged(c) => InternetChange(s, c)
    case FabClicked => FabClick(s)
    case Destroyed => Destroy(s)
  }

  /** The events handled one after another, in arrival order. */
  function Run(s: State, es: seq<Event>): (r: State)
    decreases |es|
  {
    if es == [] then s else Run(Apply(s, es[0]), es[1..])
  }

  /** When the platform delivers an event: a stream delivers nothing after
      its handle is disposed, a click reaches the listener only while the
      button is visible and the activity exists, and teardown happens once. */
  predicate Delivered(s: State, e: Event)
  {
    match e
    case LinkChanged(_) => !s.networkDisposed
    case InternetChanged(_) => ProbeLive(s)
    case FabClicked => s.fabVisible && !s.destroyed
    case Destroyed => !s.destroyed
  }

  /** Every event of `es` is one the platform can deliver at that point. */
  predicate Admissible(s: State, es: seq<Event>)
    decreases |es|
  {
    es == [] || (Delivered(s, es[0]) && Admissible(Apply(s, es[0]), es[1..]))
  }

  /** The presentation/alert invariant: the ringtone plays only while a
      probe runs; while the link is not Wi-Fi the screen is blocked and
      nothing probes or rings; after teardown nothing runs. */
  predicate Safe(s: State)
  {
    (s.playing ==> ProbeLive(s)) &&
    (s.link == NotWifi ==>
      !s.fabVisible && s.snackbar == Banner(true) && s.animation == CloudError &&
      s.icon == IconSearchOutline && !ProbeLive(s)) &&
    (s.destroyed ==> s.networkDisposed && !ProbeLive(s) && !s.playing)
  }
}
