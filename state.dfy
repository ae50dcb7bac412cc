/** The plugin's state machine as values: each operation of the `Advert` plugin is a
    function from the state before to the state after. */
module AdvertState {
  import opened Wrappers
  import opened AdvertConfig
  import opened MessageFormat

  /** Everything the plugin's behaviour depends on.
      `config` is m_config, `index` is m_current_ad_index, `token` is m_advert_timer_token.
      The host scheduler's timers are numbered in the order they were registered;
      `cancelled[t]` says whether timer t has been cancelled, and a token is the number
      of the timer it controls. `sent` is the list of chat lines handed to SendChat. */
  datatype Plugin = Plugin(
    config: MainConfigModel,
    index: nat,
    token: Option<nat>,
    cancelled: seq<bool>,
    sent: seq<string>)

  /** The end of one tick: the new state, or the ArgumentOutOfRangeException that
      `Ads[index]` throws before anything has changed. */
  datatype Outcome = Done(after: Plugin) | OutOfRange

  /** The token, if any, names a timer the scheduler registered. */
  predicate HandleOk(p: Plugin)
  {
    p.token.Some? ==> p.token.value < |p.cancelled|
  }

  /** Timer t is registered and not cancelled, so the scheduler still fires it. */
  predicate IsLive(c: seq<bool>, t: nat)
  {
    t < |c| && !c[t]
  }

  /** State Running: the token controls a live timer. Otherwise the plugin is Idle. */
  predicate Running(p: Plugin)
  {
    p.token.Some? && IsLive(p.cancelled, p.token.value)
  }

  /** No timer is live except the one the token controls. */
  ghost predicate OnlyHandleLive(p: Plugin)
  {
    forall t: nat :: IsLive(p.cancelled, t) ==> p.token == Some(t)
  }

  /** The timer invariant: at most one live timer, held by the token, and never one
      for an empty ad list. */
  ghost predicate Valid(p: Plugin)
  {
    HandleOk(p) && OnlyHandleLive(p) && (Running(p) ==> |p.config.ads| > 0)
  }

  /** The rotation index can be used on the ad list. */
  predicate InBounds(p: Plugin)
  {
    |p.config.ads| == 0 || p.index < |p.config.ads|
  }

  /** The number of live timers. */
  function LiveCount(c: seq<bool>): (count: nat)
  {
    if c == [] then 0 else LiveCount(c[..|c| - 1]) + (if c[|c| - 1] then 0 else 1)
  }

  /** The state of a newly constructed plugin: default configuration, index 0, no timer. */
  function Initial(): (p: Plugin)
    ensures Valid(p) && InBounds(p) && !Running(p)
    ensures p.config == DefaultConfig() && p.index == 0 && p.sent == []
    ensures p.token == None && p.cancelled == []
  {
    Plugin(DefaultConfig(), 0, None, [], [])
  }

  /** `m_advert_timer_token?.Cancel()`: the timer the token controls stops being live;
      the token itself is kept. */
  function CancelToken(p: Plugin): (r: Plugin)
    requires HandleOk(p)
    ensures HandleOk(r) && !Running(r)
    ensures r.token == p.token && |r.cancelled| == |p.cancelled|
    ensures forall t: nat :: IsLive(r.cancelled, t) <==> IsLive(p.cancelled, t) && p.token != Some(t)
    ensures r.config == p.config && r.index == p.index && r.sent == p.sent
  {
    match p.token
    case None => p
    case Some(t) => p.(cancelled := p.cancelled[t := true])
  }

  /** StartAdvertTimer: cancel the current timer, then register a new one unless the
      ad list is empty. On an empty list the cancelled token stays in place. */
  function StartAdvertTimer(p: Plugin): (r: Plugin)
    requires HandleOk(p)
    ensures HandleOk(r)
    ensures Running(r) <==> |p.config.ads| > 0
    ensures p.token.Some? ==> !IsLive(r.cancelled, p.token.value)
    ensures |p.config.ads| == 0 ==> r.token == p.token && |r.cancelled| == |p.cancelled|
    ensures |p.config.ads| > 0 ==> r.token == Some(|p.cancelled|) && |r.cancelled| == |p.cancelled| + 1
    ensures OnlyHandleLive(p) ==> Valid(r)
    ensures r.config == p.config && r.index == p.index && r.sent == p.sent
  {
    var q := CancelToken(p);
    if |q.config.ads| == 0 then q
    else q.(token := Some(|q.cancelled|), cancelled := q.cancelled + [false])
  }

  /** Unload: cancel the current timer and drop the token. */
  function Unload(p: Plugin): (r: Plugin)
    requires HandleOk(p)
    ensures r.token == None && HandleOk(r) && !Running(r)
    ensures OnlyHandleLive(p) ==> Valid(r) && forall t: nat :: !IsLive(r.cancelled, t)
    ensures |r.cancelled| == |p.cancelled|
    ensures r.config == p.config && r.index == p.index && r.sent == p.sent
  {
    CancelToken(p).(token := None)
  }

  /** Load, as the source has it: replace the configuration and restart the timer.
      The rotation index is carried over, so it fits the new list only if it is short
      of the new list's length. */
  function Load(p: Plugin, cfg: MainConfigModel): (r: Plugin)
    requires HandleOk(p)
    ensures r.config == cfg && r.index == p.index && r.sent == p.sent
    ensures HandleOk(r) && (Running(r) <==> |cfg.ads| > 0)
    ensures p.token.Some? ==> !IsLive(r.cancelled, p.token.value)
    ensures |cfg.ads| == 0 ==> r.token == p.token && |r.cancelled| == |p.cancelled|
    ensures |cfg.ads| > 0 ==> r.token == Some(|p.cancelled|) && |r.cancelled| == |p.cancelled| + 1
    ensures OnlyHandleLive(p) ==> Valid(r)
    ensures InBounds(r) <==> |cfg.ads| == 0 || p.index < |cfg.ads|
  {
    StartAdvertTimer(p.(config := cfg))
  }

  /** Load with the rotation restarted at the first ad before the timer is restarted. */
  function LoadRewound(p: Plugin, cfg: MainConfigModel): (r: Plugin)
    requires HandleOk(p)
    ensures r.config == cfg && r.index == 0 && r.sent == p.sent
    ensures HandleOk(r) && (Running(r) <==> |cfg.ads| > 0)
    ensures p.token.Some? ==> !IsLive(r.cancelled, p.token.value)
    ensures |cfg.ads| == 0 ==> r.token == p.token && |r.cancelled| == |p.cancelled|
    ensures |cfg.ads| > 0 ==> r.token == Some(|p.cancelled|) && |r.cancelled| == |p.cancelled| + 1
    ensures OnlyHandleLive(p) ==> Valid(r)
    ensures InBounds(r)
  {
    StartAdvertTimer(p.(config := cfg, index := 0))
  }

  /** ShowNextAd, the timer's callback: send the current ad and move to the next one,
      wrapping around at the end of the list. */
  function ShowNextAd(p: Plugin): (r: Outcome)
    ensures r.Done? <==> InBounds(p)
    ensures |p.config.ads| == 0 ==> r == Done(p)
    ensures r.Done? ==> InBounds(r.after) && (Valid(r.after) <==> Valid(p))
    ensures r.Done? ==> r.after.config == p.config && r.after.token == p.token && r.after.cancelled == p.cancelled
    ensures r.Done? && |p.config.ads| > 0 ==>
      r.after.sent == p.sent + [FormatMessage(p.config.chatPrefix, p.config.ads[p.index])] &&
      r.after.index == (p.index + 1) % |p.config.ads|
  {
    var ads := p.config.ads;
    if |ads| == 0 then Done(p)
    else if p.index >= |ads| then OutOfRange
    else
      var line := FormatMessage(p.config.chatPrefix, ads[p.index]);
      Done(p.(sent := p.sent + [line], index := (p.index + 1) % |ads|))
  }

  /** The scheduler firing timer t: only a live timer reaches ShowNextAd. */
  function Fire(p: Plugin, t: nat): (r: Outcome)
    ensures !IsLive(p.cancelled, t) ==> r == Done(p)
    ensures IsLive(p.cancelled, t) ==> r == ShowNextAd(p)
    ensures Valid(p) && InBounds(p) && IsLive(p.cancelled, t) ==>
      r.Done? && |r.after.sent| == |p.sent| + 1
  {
    if IsLive(p.cancelled, t) then ShowNextAd(p) else Done(p)
  }
}
