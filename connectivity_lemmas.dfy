/** What the handlers of the activity guarantee, proved about the step
    functions of module Connectivity. */
module ConnectivityLemmas {
  import opened Connectivity

  // ---------------------------------------------------------------------
  // Disposing and stopping

  /** Disposing the probe handle leaves no live probe, touches no other
      subscription, and a second dispose (or one on a null handle) changes
      nothing. */
  lemma DisposeProbeIdempotent(s: State)
    ensures !ProbeLive(DisposeProbe(s))
    ensures |DisposeProbe(s).probes| == |s.probes|
    ensures forall i :: 0 <= i < |s.probes| - 1 ==> DisposeProbe(s).probes[i] == s.probes[i]
    ensures DisposeProbe(DisposeProbe(s)) == DisposeProbe(s)
    ensures (s.probes == [] || s.probes[|s.probes| - 1]) ==> DisposeProbe(s) == s
  {
  }

  /** `stopRingtone` calls the player's `stop()` exactly when it is playing;
      on a stopped player it is a no-op, so calling it twice is calling it once. */
  lemma StopRingtoneIdempotent(s: State)
    ensures !StopRingtone(s).playing
    ensures StopRingtone(s).stops == s.stops + (if s.playing then 1 else 0)
    ensures !s.playing ==> StopRingtone(s) == s
    ensures StopRingtone(StopRingtone(s)) == StopRingtone(s)
  {
  }

  // ---------------------------------------------------------------------
  // The click handler

  /** A click while no probe runs subscribes exactly one new live probe and
      shows the `cloud_search` icon; earlier subscriptions are untouched. */
  lemma FabClickStartsProbe(s: State)
    requires !ProbeLive(s)
    ensures FabClick(s).probes == s.probes + [false]
    ensures ProbeLive(FabClick(s))
    ensures FabClick(s).icon == IconSearch
    ensures FabClick(s).animation == s.animation && FabClick(s).playing == s.playing
    ensures FabClick(s).starts == s.starts && FabClick(s).stops == s.stops
  {
  }

  /** A click while a probe runs disposes it, stops the ringtone, shows the
      `cloud_help` animation and the `cloud_search_outline` icon, and
      creates no subscription. */
  lemma FabClickStopsProbe(s: State)
    requires ProbeLive(s)
    ensures FabClick(s).probes == s.probes[|s.probes| - 1 := true]
    ensures !ProbeLive(FabClick(s))
    ensures !FabClick(s).playing
    ensures FabClick(s).stops == s.stops + (if s.playing then 1 else 0)
    ensures FabClick(s).animation == CloudHelp
    ensures FabClick(s).icon == IconSearchOutline
  {
  }

  /** Two clicks from a state with no live probe create exactly one
      subscription and leave it disposed. */
  lemma FabClickTwice(s: State)
    requires !ProbeLive(s) && !s.playing
    ensures FabClick(FabClick(s)).probes == s.probes + [true]
    ensures !FabClick(FabClick(s)).playing
    ensures FabClick(FabClick(s)).stops == s.stops
  {
  }

  /** The click handler itself has no guard for the blocked screen: a click
      there would start a probe with no Wi-Fi. Only the hidden button keeps
      the platform from delivering it. */
  lemma BlockedClickOnlyPreventedByHiddenButton(s: State)
    requires Safe(s) && s.link == NotWifi
    ensures !Delivered(s, FabClicked)
    ensures ProbeLive(FabClick(s)) && FabClick(s).link == NotWifi
  {
  }

  // ---------------------------------------------------------------------
  // The link handler

  /** A non-Wi-Fi link event blocks the screen: `cloud_error`, hidden button,
      a new banner shown and stored, the probe handle disposed, no ringing
      (with one `stop()` call exactly when it was ringing), the
      `cloud_search_outline` icon, and no new subscription. */
  lemma LinkLossBlocks(s: State)
    ensures LinkChange(s, false).animation == CloudError
    ensures !LinkChange(s, false).fabVisible
    ensures LinkChange(s, false).snackbar == Banner(true)
    ensures !ProbeLive(LinkChange(s, false))
    ensures |LinkChange(s, false).probes| == |s.probes|
    ensures !LinkChange(s, false).playing
    ensures LinkChange(s, false).stops == s.stops + (if s.playing then 1 else 0)
    ensures LinkChange(s, false).icon == IconSearchOutline
    ensures LinkChange(s, false).link == NotWifi
  {
  }

  /** A Wi-Fi link event shows `cloud_help`, dismisses the stored banner and
      shows the button, whether or not a probe is running: the probe
      handles, the ringtone and the icon stay as they were. */
  lemma WifiUnblocks(s: State)
    ensures LinkChange(s, true).animation == CloudHelp
    ensures LinkChange(s, true).fabVisible
    ensures LinkChange(s, true).snackbar.Banner? ==> !LinkChange(s, true).snackbar.shown
    ensures LinkChange(s, true).snackbar.Banner? <==> s.snackbar.Banner?
    ensures LinkChange(s, true).probes == s.probes
    ensures LinkChange(s, true).playing == s.playing
    ensures LinkChange(s, true).starts == s.starts && LinkChange(s, true).stops == s.stops
    ensures LinkChange(s, true).icon == s.icon
  {
  }

  /** Because of that, a Wi-Fi event while the alert rings leaves it ringing
      under the `cloud_help` animation, not `cloud_sync`. */
  lemma WifiWhileRingingShowsHelp(s: State)
    requires ProbeLive(s) && s.playing
    ensures ProbeLive(LinkChange(s, true)) && LinkChange(s, true).playing
    ensures LinkChange(s, true).animation == CloudHelp != CloudSync
  {
  }

  // ---------------------------------------------------------------------
  // The reachability handler

  /** An outcome `true` shows `cloud_sync` and leaves the ringtone playing,
      starting it if it was stopped (on a playing player `prepareAsync()`
      fails instead); `false` shows `cloud_search` and leaves it stopped.
      Neither touches the subscriptions. */
  lemma InternetOutcome(s: State, isConnected: bool)
    ensures InternetChange(s, isConnected).animation == (if isConnected then CloudSync else CloudSearch)
    ensures InternetChange(s, isConnected).playing == isConnected
    ensures InternetChange(s, isConnected).probes == s.probes
    ensures isConnected ==> InternetChange(s, true).starts == s.starts + (if s.playing then 0 else 1)
    ensures isConnected ==> (InternetChange(s, true).playerError <==> s.playerError || s.playing)
    ensures !isConnected ==> InternetChange(s, false).stops == s.stops + (if s.playing then 1 else 0)
  {
  }

  /** Repeated `false` outcomes stop the player at most once, thanks to the
      guard in `stopRingtone`. `playRingtone` has no such guard: a repeated
      `true` outcome reaches `prepareAsync()` on the started player, which
      fails, so `start()` is called at most once. */
  lemma RepeatedOutcomes(s: State)
    ensures InternetChange(InternetChange(s, false), false).stops == s.stops + (if s.playing then 1 else 0)
    ensures InternetChange(InternetChange(s, true), true).starts == s.starts + (if s.playing then 0 else 1)
    ensures InternetChange(InternetChange(s, true), true).playerError
  {
  }

  // ---------------------------------------------------------------------
  // Teardown

  /** Once torn down, the activity receives no further event: both streams
      are disposed, the button is gone with the activity, and teardown is
      not delivered twice. */
  lemma NothingAfterTeardown(s: State, e: Event)
    requires Safe(s) && s.destroyed
    ensures !Delivered(s, e)
  {
  }

  /** `onDestroy` leaves both subscriptions disposed and the player silent;
      a second `Destroy` step changes nothing in the modelled state (the
      platform delivers teardown once, see `Delivered`). */
  lemma DestroyDisposesAll(s: State)
    ensures Destroy(s).networkDisposed
    ensures !ProbeLive(Destroy(s)) && |Destroy(s).probes| == |s.probes|
    ensures !Destroy(s).playing
    ensures Destroy(Destroy(s)) == Destroy(s)
  {
  }

  // ---------------------------------------------------------------------
  // No overlap: at most one live probe subscription

  /** Disposing the handle's subscription keeps all others as they were. */
  lemma DisposeKeepsNoOverlap(s: State)
    requires NoOverlap(s.probes)
    ensures NoOverlap(DisposeProbe(s).probes)
  {
  }

  /** The probe guard: a click creates a subscription only when the newest
      one is disposed, so every subscription but the newest stays disposed. */
  lemma FabClickKeepsNoOverlap(s: State)
    requires NoOverlap(s.probes)
    ensures NoOverlap(FabClick(s).probes)
  {
    if ProbeLive(s) {
      assert FabClick(s).probes == DisposeProbe(s).probes;
      DisposeKeepsNoOverlap(s);
    } else {
      var p := FabClick(s).probes;
      assert p == s.probes + [false];
      forall i | 0 <= i < |p| - 1 ensures p[i] {
        assert p[i] == s.probes[i];
        if i == |s.probes| - 1 {
          assert !ProbeLive(s);
        }
      }
    }
  }

  lemma LinkChangeKeepsNoOverlap(s: State, isWifi: bool)
    requires NoOverlap(s.probes)
    ensures NoOverlap(LinkChange(s, isWifi).probes)
  {
    if !isWifi {
      assert LinkChange(s, false).probes == DisposeProbe(s).probes;
      DisposeKeepsNoOverlap(s);
    }
  }

  /** Every event keeps every subscription but the newest disposed. */
  lemma ApplyKeepsNoOverlap(s: State, e: Event)
    requires NoOverlap(s.probes)
    ensures NoOverlap(Apply(s, e).probes)
  {
    match e {
      case FabClicked => FabClickKeepsNoOverlap(s);
      case LinkChanged(w) => LinkChangeKeepsNoOverlap(s, w);
      case InternetChanged(c) => assert InternetChange(s, c).probes == s.probes;
      case Destroyed =>
        assert Destroy(s).probes == DisposeProbe(s).probes;
        DisposeKeepsNoOverlap(s);
    }
  }

  lemma {:induction false} RunKeepsNoOverlap(s: State, es: seq<Event>)
    requires NoOverlap(s.probes)
    ensures NoOverlap(Run(s, es).probes)
    decreases |es|
  {
    if es != [] {
      ApplyKeepsNoOverlap(s, es[0]);
      RunKeepsNoOverlap(Apply(s, es[0]), es[1..]);
    }
  }

  /** Under no overlap, at most one probe is live, and it is the one the
      handle holds. */
  lemma NoOverlapAtMostOne(probes: seq<bool>)
    requires NoOverlap(probes)
    ensures LiveCount(probes) <= 1
    ensures LiveCount(probes) == 1 <==> (|probes| > 0 && !probes[|probes| - 1])
  {
  }

  /** For every sequence of events, from the start of the activity, at most
      one probe subscription is live after each of them. */
  lemma AtMostOneLiveProbe(animation: string, icon: string, fabVisible: bool, es: seq<Event>)
    ensures LiveCount(Run(Initial(animation, icon, fabVisible), es).probes) <= 1
  {
    RunKeepsNoOverlap(Initial(animation, icon, fabVisible), es);
    NoOverlapAtMostOne(Run(Initial(animation, icon, fabVisible), es).probes);
  }

  /** Handling one more event is one more step of the run. */
  lemma {:induction false} RunAppend(s: State, es: seq<Event>, e: Event)
    ensures Run(s, es + [e]) == Apply(Run(s, es), e)
    decreases |es|
  {
    if es == [] {
      assert [e][1..] == [];
    } else {
      assert (es + [e])[1..] == es[1..] + [e];
      RunAppend(Apply(s, es[0]), es[1..], e);
    }
  }

  // ---------------------------------------------------------------------
  // No ringing without Wi-Fi

  lemma ApplyKeepsSafe(s: State, e: Event)
    requires Safe(s) && Delivered(s, e)
    ensures Safe(Apply(s, e))
  {
  }

  lemma {:induction false} RunKeepsSafe(s: State, es: seq<Event>)
    requires Safe(s) && Admissible(s, es)
    ensures Safe(Run(s, es))
    decreases |es|
  {
    if es != [] {
      ApplyKeepsSafe(s, es[0]);
      RunKeepsSafe(Apply(s, es[0]), es[1..]);
    }
  }

  /** For every sequence of events the platform can deliver: the ringtone
      plays only while a probe runs, and never while the link is not Wi-Fi,
      when the screen is blocked. */
  lemma NoRingingWithoutWifi(animation: string, icon: string, fabVisible: bool, es: seq<Event>)
    requires Admissible(Initial(animation, icon, fabVisible), es)
    ensures var t := Run(Initial(animation, icon, fabVisible), es);
      (t.playing ==> ProbeLive(t)) &&
      (t.link == NotWifi ==> !t.playing && !ProbeLive(t) && !t.fabVisible && t.animation == CloudError)
  {
    RunKeepsSafe(Initial(animation, icon, fabVisible), es);
  }

  // ---------------------------------------------------------------------
  // A whole scenario

  /** Wi-Fi appears, the user starts probing, the internet becomes
      reachable, the link drops, Wi-Fi returns: the probe is cancelled once,
      the ringtone started and stopped once, and no probe restarts. */
  lemma ScenarioLinkLossCancelsProbe(animation: string, icon: string, fabVisible: bool)
    ensures var es := [LinkChanged(true), FabClicked, InternetChanged(true), LinkChanged(false), LinkChanged(true)];
      var s0 := Initial(animation, icon, fabVisible);
      var t := Run(s0, es);
      Admissible(s0, es) &&
      t.probes == [true] && !t.playing && t.starts == 1 && t.stops == 1 && !t.playerError &&
      t.animation == CloudHelp && t.fabVisible && t.snackbar == Banner(false) &&
      t.icon == IconSearchOutline
  {
  }
}
