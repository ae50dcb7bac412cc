/** The plugin's whole life as a sequence of host events, and the stale-index defect of
    Load. */
module AdvertLifecycle {
  import opened Wrappers
  import opened AdvertConfig
  import opened MessageFormat
  import opened AdvertState
  import opened AdvertRotation

  /** What the host can do to the plugin: load it with a parsed configuration, unload
      it, or fire one of the scheduler's timers. */
  datatype Event = LoadEvent(cfg: MainConfigModel) | UnloadEvent | TimerFires(timer: nat)

  /** One event, with Load rewinding the rotation to the first ad. */
  function Step(p: Plugin, e: Event): (r: Outcome)
    requires HandleOk(p)
    ensures Valid(p) && InBounds(p) ==> r.Done? && Valid(r.after) && InBounds(r.after)
    ensures e.UnloadEvent? && r.Done? ==> !Running(r.after)
    ensures e.LoadEvent? ==> r.Done? && (Running(r.after) <==> |e.cfg.ads| > 0)
  {
    match e
    case LoadEvent(cfg) => Done(LoadRewound(p, cfg))
    case UnloadEvent => Done(Unload(p))
    case TimerFires(t) => Fire(p, t)
  }

  /** A run of events, stopping at the first tick that throws. */
  function Run(p: Plugin, events: seq<Event>): (r: Outcome)
    requires Valid(p) && InBounds(p)
    ensures r.Done? && Valid(r.after) && InBounds(r.after)
    ensures r.after.config == p.config || exists e :: e in events && e.LoadEvent?
    decreases |events|
  {
    if events == [] then Done(p)
    else
      var next := Step(p, events[0]);
      if next.OutOfRange? then OutOfRange
      else
        var r := Run(next.after, events[1..]);
        assert forall e :: e in events[1..] ==> e in events;
        r
  }

  /** A two-ad configuration: prefix "[S]", 30 seconds, ads "A" and "B". */
  function SampleConfig(): (cfg: MainConfigModel)
  {
    MainConfigModel("[S]", 30.0, ["A", "B"])
  }

  /** Loading that configuration into a new plugin and letting three ticks pass sends "[S] A",
      "[S] B" and "[S] A". */
  lemma SampleRotation()
    ensures var p := Load(Initial(), SampleConfig());
      InBounds(p) && Ticks(p, 3).sent == ["[S] A", "[S] B", "[S] A"]
  {
    var p := Load(Initial(), SampleConfig());
    TicksRotate(p, 3);
    var r := Rotation(p.config, 0, 3);
    assert r[0] == "[S] A" && r[1] == "[S] B" && r[2] == "[S] A";
  }

  /** Load as written: after three ads of the default list have been shown twice, the
      index is 2; loading a one-ad list keeps it, the timer is live, and every tick from
      then on throws. */
  lemma StaleIndexAfterReload()
    ensures var p := Ticks(Load(Initial(), DefaultConfig()), 2);
      var q := Load(p, MainConfigModel("", 60.0, ["only"]));
      Running(q) && !InBounds(q) && ShowNextAd(q) == OutOfRange && Fire(q, q.token.value) == OutOfRange
  {
    var p0 := Load(Initial(), DefaultConfig());
    TicksRotate(p0, 2);
  }

  /** Once the index is out of range, a tick throws and leaves the state as it was,
      so the next tick throws again: the adverts stop for good. */
  lemma StaleIndexIsPermanent(p: Plugin)
    requires !InBounds(p)
    ensures ShowNextAd(p) == OutOfRange
    ensures forall t: nat :: IsLive(p.cancelled, t) ==> Fire(p, t) == OutOfRange
  {
  }

  /** Load with the rewind: whatever the previous index and list, the next tick shows
      the first ad of the new list. */
  lemma RewoundLoadShowsFirstAd(p: Plugin, cfg: MainConfigModel)
    requires HandleOk(p) && |cfg.ads| > 0
    ensures var q := LoadRewound(p, cfg);
      ShowNextAd(q).Done? && ShowNextAd(q).after.sent == p.sent + [FormatMessage(cfg.chatPrefix, cfg.ads[0])]
  {
  }
}
