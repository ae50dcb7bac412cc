/** The timer lifecycle: StartAdvertTimer and Unload keep at most one timer live. */
module AdvertTimers {
  import opened Wrappers
  import opened AdvertConfig
  import opened AdvertState

  /** When no timer other than `h` is live, the live timers number one or none. */
  lemma {:induction false} LiveCountOnly(c: seq<bool>, h: nat)
    requires forall t: nat :: IsLive(c, t) ==> t == h
    ensures LiveCount(c) == if IsLive(c, h) then 1 else 0
    decreases |c|
  {
    if c != [] {
      var init := c[..|c| - 1];
      forall t: nat | IsLive(init, t)
        ensures t == h
      {
        assert IsLive(c, t);
      }
      LiveCountOnly(init, h);
      var last := |c| - 1;
      if h != last {
        assert !IsLive(c, last);
        assert IsLive(init, h) <==> IsLive(c, h) by {
          if h < last {
            assert init[h] == c[h];
          }
        }
      }
    }
  }

  /** In every valid state exactly one timer is live when Running and none when Idle. */
  lemma ValidLiveCount(p: Plugin)
    requires Valid(p)
    ensures LiveCount(p.cancelled) == if Running(p) then 1 else 0
  {
    var h := if p.token.Some? then p.token.value else |p.cancelled|;
    LiveCountOnly(p.cancelled, h);
  }

  /** StartAdvertTimer leaves exactly one live timer for a non-empty ad list and none
      for an empty one. */
  lemma StartLeavesOneLive(p: Plugin)
    requires Valid(p)
    ensures LiveCount(StartAdvertTimer(p).cancelled) == if |p.config.ads| > 0 then 1 else 0
  {
    ValidLiveCount(StartAdvertTimer(p));
  }

  /** Starting twice in a row: the first timer is cancelled by the second start, and one
      timer is live afterwards. */
  lemma StartTwice(p: Plugin)
    requires Valid(p) && |p.config.ads| > 0
    ensures var once := StartAdvertTimer(p); var twice := StartAdvertTimer(once);
      LiveCount(twice.cancelled) == 1 && twice.token != once.token && !IsLive(twice.cancelled, once.token.value)
  {
    StartLeavesOneLive(StartAdvertTimer(p));
  }

  /** Starting with an empty ad list registers no timer, so the scheduler never calls
      ShowNextAd afterwards. */
  lemma StartOnEmptyListRegistersNothing(p: Plugin, t: nat)
    requires Valid(p) && |p.config.ads| == 0
    ensures |StartAdvertTimer(p).cancelled| == |p.cancelled|
    ensures LiveCount(StartAdvertTimer(p).cancelled) == 0
    ensures Fire(StartAdvertTimer(p), t) == Done(StartAdvertTimer(p))
  {
    StartLeavesOneLive(p);
  }

  /** After Unload no timer is live, so no tick fires any more. */
  lemma UnloadStopsEverything(p: Plugin, t: nat)
    requires Valid(p)
    ensures LiveCount(Unload(p).cancelled) == 0
    ensures Fire(Unload(p), t) == Done(Unload(p))
  {
    ValidLiveCount(Unload(p));
  }

  /** A second Unload changes nothing. */
  lemma UnloadIdempotent(p: Plugin)
    requires HandleOk(p)
    ensures Unload(Unload(p)) == Unload(p)
  {
  }

  /** Unload before any Load finds no timer and changes nothing. */
  lemma UnloadBeforeLoad()
    ensures Unload(Initial()) == Initial()
  {
  }

  /** A live timer in a valid state is the plugin's own, so its tick shows the current ad. */
  lemma FireShowsCurrentAd(p: Plugin, t: nat)
    requires Valid(p) && InBounds(p) && IsLive(p.cancelled, t)
    ensures p.token == Some(t) && |p.config.ads| > 0
    ensures Fire(p, t).Done?
    ensures Fire(p, t).after.sent == p.sent + [MessageFormat.FormatMessage(p.config.chatPrefix, p.config.ads[p.index])]
  {
  }
}
