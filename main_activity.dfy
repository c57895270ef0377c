/** The activity of the app: its fields and its event handlers, each proved
    to change the state exactly as the matching step function of module
    Connectivity says. */
module NautaCloud {
  import opened Rx
  import Connectivity
  import ConnectivityLemmas

  /** The disposed flags of a sequence of subscriptions. */
  ghost function Flags(ps: seq<Disposable>): seq<bool>
    reads ps
  {
    seq(|ps|, i requires 0 <= i < |ps| reads ps => ps[i].disposed)
  }

  /** No subscription occurs twice. */
  ghost predicate Distinct(ps: seq<Disposable>)
  {
    forall i, j :: 0 <= i < j < |ps| ==> ps[i] != ps[j]
  }

  class MainActivity {
    var networkDisposable: Disposable?
    var internetDisposable: Disposable?
    var snackbar: Connectivity.Banner
    var fabVisible: bool
    var fabIcon: string
    var animation: string
    /** The media player's state, and how often its `start()` and `stop()` were called. */
    var playing: bool
    var starts: nat
    var stops: nat
    /** Set when `prepareAsync()` is called on a started player and throws. */
    var playerError: bool
    /** Set by `onDestroy`, which releases the player and the Wi-Fi lock. */
    var destroyed: bool

    /** The most recent link event (not stored by the activity itself). */
    ghost var link: Connectivity.Link
    /** Every internet subscription this activity created, oldest first. */
    ghost var probes: seq<Disposable>

    /** The link subscription is a separate object from every probe; each
        probe is a distinct object; the probe handle holds the newest probe. */
    ghost predicate Valid()
      reads this
    {
      networkDisposable != null && networkDisposable !in probes &&
      Distinct(probes) &&
      internetDisposable == (if probes == [] then null else probes[|probes| - 1])
    }

    /** The state as a value. */
    ghost function Model(): Connectivity.State
      reads this, networkDisposable, probes
      requires Valid()
    {
      Connectivity.State(networkDisposable.disposed, Flags(probes), snackbar, fabVisible,
        fabIcon, animation, playing, starts, stops, playerError, destroyed, link)
    }

    /** `onCreate`: the layout provides the initial animation, icon and
        button visibility; `observeNetworkConnectivity()` subscribes to the
        link stream. */
    constructor (initialAnimation: string, initialIcon: string, fabInitiallyVisible: bool)
      ensures Valid() && fresh(networkDisposable)
      ensures Model() == Connectivity.Initial(initialAnimation, initialIcon, fabInitiallyVisible)
    {
      networkDisposable := new Disposable();
      internetDisposable := null;
      snackbar := Connectivity.NoBanner;
      fabVisible := fabInitiallyVisible;
      fabIcon := initialIcon;
      animation := initialAnimation;
      playing := false;
      starts := 0;
      stops := 0;
      playerError := false;
      destroyed := false;
      link := Connectivity.Unobserved;
      probes := [];
    }

    /** `setAnimation(name)` */
    method SetAnimation(name: string)
      requires Valid()
      modifies this
      ensures Valid() && probes == old(probes) && networkDisposable == old(networkDisposable)
      ensures internetDisposable == old(internetDisposable)
      ensures Model() == Connectivity.SetAnimation(old(Model()), name)
    {
      animation := name;
    }

    /** `stopRingtone()` */
    method StopRingtone()
      requires Valid()
      modifies this
      ensures Valid() && probes == old(probes) && networkDisposable == old(networkDisposable)
      ensures internetDisposable == old(internetDisposable)
      ensures Model() == Connectivity.StopRingtone(old(Model()))
    {
      if playing {
        playing := false;
        stops := stops + 1;
      }
    }

    /** `playRingtone()`: `prepareAsync()` throws on a started player, so
        `start()` is reached only when the player was not playing. */
    method PlayRingtone()
      requires Valid()
      modifies this
      ensures Valid() && probes == old(probes) && networkDisposable == old(networkDisposable)
      ensures internetDisposable == old(internetDisposable)
      ensures Model() == Connectivity.PlayRingtone(old(Model()))
    {
      if playing {
        playerError := true;
      } else {
        playing := true;
        starts := starts + 1;
      }
    }

    /** `fab.setImageDrawable(...)` with the drawable of that name */
    method SetFabIcon(name: string)
      requires Valid()
      modifies this
      ensures Valid() && probes == old(probes) && networkDisposable == old(networkDisposable)
      ensures internetDisposable == old(internetDisposable)
      ensures Model() == old(Model()).(icon := name)
    {
      fabIcon := name;
    }

    /** `binding.fab.visibility = View.VISIBLE` or `View.GONE` */
    method SetFabVisible(visible: bool)
      requires Valid()
      modifies this
      ensures Valid() && probes == old(probes) && networkDisposable == old(networkDisposable)
      ensures internetDisposable == old(internetDisposable)
      ensures Model() == old(Model()).(fabVisible := visible)
    {
      fabVisible := visible;
    }

    /** `snackbar = Snackbar.make(...)` followed by `snackbar?.show()` */
    method ShowNewBanner()
      requires Valid()
      modifies this
      ensures Valid() && probes == old(probes) && networkDisposable == old(networkDisposable)
      ensures internetDisposable == old(internetDisposable)
      ensures Model() == old(Model()).(snackbar := Connectivity.Banner(true))
    {
      snackbar := Connectivity.Banner(true);
    }

    /** `snackbar?.dismiss()` */
    method DismissBanner()
      requires Valid()
      modifies this
      ensures Valid() && probes == old(probes) && networkDisposable == old(networkDisposable)
      ensures internetDisposable == old(internetDisposable)
      ensures Model() == old(Model()).(snackbar := if old(snackbar).Banner? then Connectivity.Banner(false) else old(snackbar))
    {
      if snackbar.Banner? {
        snackbar := Connectivity.Banner(false);
      }
    }

    /** `mp.release()` and `wifiLock.release()`: releasing the player ends
        any playback without a call to its `stop()`. */
    method ReleaseResources()
      requires Valid()
      modifies this
      ensures Valid() && probes == old(probes) && networkDisposable == old(networkDisposable)
      ensures internetDisposable == old(internetDisposable)
      ensures Model() == old(Model()).(playing := false, destroyed := true)
    {
      playing := false;
      destroyed := true;
    }

    /** `internetDisposable?.dispose()` */
    method DisposeProbe()
      requires Valid()
      modifies internetDisposable
      ensures Valid()
      ensures Model() == Connectivity.DisposeProbe(old(Model()))
    {
      if internetDisposable != null {
        internetDisposable.Dispose();
        assert Flags(probes) == old(Flags(probes))[|probes| - 1 := true];
      }
    }

    /** `observeInternetConnectivity()`: the new subscription overwrites the
        handle, whatever it held. */
    method ObserveInternetConnectivity()
      requires Valid()
      modifies this
      ensures Valid() && networkDisposable == old(networkDisposable)
      ensures fresh(internetDisposable) && probes == old(probes) + [internetDisposable]
      ensures Model() == Connectivity.ObserveInternet(old(Model()))
    {
      var d := new Disposable();
      internetDisposable := d;
      probes := probes + [d];
      assert Flags(probes) == old(Flags(probes)) + [false];
    }

    /** The floating button's click listener. */
    method OnFabClick()
      requires Valid()
      modifies this, internetDisposable
      ensures Valid() && networkDisposable == old(networkDisposable)
      ensures internetDisposable == old(internetDisposable) || fresh(internetDisposable)
      ensures probes == old(probes) || (fresh(internetDisposable) && probes == old(probes) + [internetDisposable])
      ensures Model() == Connectivity.FabClick(old(Model()))
    {
      if internetDisposable == null || internetDisposable.disposed {
        ObserveInternetConnectivity();
        SetFabIcon(Connectivity.IconSearch);
      } else {
        SetAnimation(Connectivity.CloudHelp);
        DisposeProbe();
        StopRingtone();
        SetFabIcon(Connectivity.IconSearchOutline);
      }
    }

    /** The subscriber of the link stream; `isWifi` stands for the link
        type being Wi-Fi. */
    method OnNetworkConnectivity(isWifi: bool)
      requires Valid()
      modifies this, internetDisposable
      ensures Valid() && networkDisposable == old(networkDisposable)
      ensures internetDisposable == old(internetDisposable) && probes == old(probes)
      ensures Model() == Connectivity.LinkChange(old(Model()), isWifi)
    {
      link := if isWifi then Connectivity.Wifi else Connectivity.NotWifi;
      if isWifi {
        SetAnimation(Connectivity.CloudHelp);
        DismissBanner();
        SetFabVisible(true);
      } else {
        SetAnimation(Connectivity.CloudError);
        SetFabVisible(false);
        ShowNewBanner();
        DisposeProbe();
        StopRingtone();
        SetFabIcon(Connectivity.IconSearchOutline);
      }
    }

    /** The subscriber of the internet-reachability stream. */
    method OnInternetConnectivity(isConnected: bool)
      requires Valid()
      modifies this
      ensures Valid() && networkDisposable == old(networkDisposable)
      ensures internetDisposable == old(internetDisposable) && probes == old(probes)
      ensures Model() == Connectivity.InternetChange(old(Model()), isConnected)
    {
      if isConnected {
        SetAnimation(Connectivity.CloudSync);
        PlayRingtone();
      } else {
        SetAnimation(Connectivity.CloudSearch);
        StopRingtone();
      }
    }

    /** `onDestroy` */
    method OnDestroy()
      requires Valid()
      modifies this, networkDisposable, internetDisposable
      ensures Valid() && networkDisposable == old(networkDisposable)
      ensures internetDisposable == old(internetDisposable) && probes == old(probes)
      ensures Model() == Connectivity.Destroy(old(Model()))
    {
      networkDisposable.Dispose();
      assert Flags(probes) == old(Flags(probes));
      DisposeProbe();
      ReleaseResources();
    }
  }

  /** A click while the handle's subscription is disposed starts a new,
      live probe; the replaced subscription stays disposed and stays in the
      history. */
  method ClickRestartsProbe(a: MainActivity)
    requires a.Valid() && a.internetDisposable != null && a.internetDisposable.disposed
    modifies a, a.internetDisposable
    ensures a.Valid() && fresh(a.internetDisposable) && !a.internetDisposable.disposed
    ensures old(a.internetDisposable).disposed && old(a.internetDisposable) in a.probes
  {
    ghost var m := a.Model();
    ghost var n := |a.probes|;
    assert !Connectivity.ProbeLive(m);
    a.OnFabClick();
    ghost var flags := a.Model().probes;
    assert flags == m.probes + [false];
    assert |a.probes| == n + 1;
    assert flags[n - 1] == a.probes[n - 1].disposed && flags[n] == a.probes[n].disposed;
  }

  /** A new activity fed the events `es` one after another, each by its
      handler: it ends in the state `Run` gives, so what is proved about
      event sequences holds of the object. */
  method Replay(initialAnimation: string, initialIcon: string, fabInitiallyVisible: bool,
                es: seq<Connectivity.Event>)
    returns (a: MainActivity)
    ensures a.Valid()
    ensures a.Model() == Connectivity.Run(Connectivity.Initial(initialAnimation, initialIcon, fabInitiallyVisible), es)
    ensures Connectivity.LiveCount(a.Model().probes) <= 1
    ensures forall i :: 0 <= i < |a.probes| - 1 ==> a.probes[i].disposed
    ensures Connectivity.Admissible(Connectivity.Initial(initialAnimation, initialIcon, fabInitiallyVisible), es) ==>
      Connectivity.Safe(a.Model())
  {
    ghost var s0 := Connectivity.Initial(initialAnimation, initialIcon, fabInitiallyVisible);
    a := new MainActivity(initialAnimation, initialIcon, fabInitiallyVisible);
    var i := 0;
    while i < |es|
      invariant 0 <= i <= |es|
      invariant a.Valid() && fresh(a) && fresh(a.networkDisposable)
      invariant a.internetDisposable == null || fresh(a.internetDisposable)
      invariant a.Model() == Connectivity.Run(s0, es[..i])
    {
      match es[i] {
        case LinkChanged(w) => a.OnNetworkConnectivity(w);
        case InternetChanged(c) => a.OnInternetConnectivity(c);
        case FabClicked => a.OnFabClick();
        case Destroyed => a.OnDestroy();
      }
      ConnectivityLemmas.RunAppend(s0, es[..i], es[i]);
      assert es[..i + 1] == es[..i] + [es[i]];
      i := i + 1;
    }
    assert es[..i] == es;
    ConnectivityLemmas.AtMostOneLiveProbe(initialAnimation, initialIcon, fabInitiallyVisible, es);
    ConnectivityLemmas.RunKeepsNoOverlap(s0, es);
    assert forall i :: 0 <= i < |a.probes| ==> a.Model().probes[i] == a.probes[i].disposed;
    if Connectivity.Admissible(s0, es) {
      ConnectivityLemmas.RunKeepsSafe(s0, es);
    }
  }
}
