/** The `Advert` plugin object: its fields are updated in place by the host's calls. */
module AdvertPlugin {
  import opened Wrappers
  import opened AdvertConfig
  import opened MessageFormat
  import AdvertState

  class Advert {
    /** m_config */
    var config: MainConfigModel
    /** m_current_ad_index */
    var currentAdIndex: nat
    /** m_advert_timer_token: the number of the timer it controls, or null */
    var timerToken: Option<nat>
    /** The host scheduler's registry: cancelled[t] once timer t has been cancelled. */
    var cancelled: seq<bool>
    /** The chat lines handed to SendChat so far. */
    ghost var sent: seq<string>

    ghost function Model(): AdvertState.Plugin
      reads this
    {
      AdvertState.Plugin(config, currentAdIndex, timerToken, cancelled, sent)
    }

    ghost predicate Valid()
      reads this
    {
      AdvertState.Valid(Model())
    }

    constructor ()
      ensures Valid() && Model() == AdvertState.Initial()
    {
      config := DefaultConfig();
      currentAdIndex := 0;
      timerToken := None;
      cancelled := [];
      sent := [];
    }

    /** m_advert_timer_token?.Cancel() */
    method CancelToken()
      requires AdvertState.HandleOk(Model())
      modifies this
      ensures Model() == AdvertState.CancelToken(old(Model()))
    {
      if timerToken.Some? {
        cancelled := cancelled[timerToken.value := true];
      }
    }

    method StartAdvertTimer()
      requires AdvertState.HandleOk(Model()) && AdvertState.OnlyHandleLive(Model())
      modifies this
      ensures Valid() && Model() == AdvertState.StartAdvertTimer(old(Model()))
    {
      CancelToken();
      if |config.ads| == 0 {
        return;
      }
      timerToken := Some(|cancelled|);
      cancelled := cancelled + [false];
    }

    /** Load as the source has it: the rotation index is not touched. */
    method Load(cfg: MainConfigModel)
      requires Valid()
      modifies this
      ensures Valid() && Model() == AdvertState.Load(old(Model()), cfg)
    {
      config := cfg;
      StartAdvertTimer();
    }

    /** Load with the rotation restarted at the first ad. */
    method LoadRewound(cfg: MainConfigModel)
      requires Valid()
      modifies this
      ensures Valid() && Model() == AdvertState.LoadRewound(old(Model()), cfg)
    {
      config := cfg;
      currentAdIndex := 0;
      StartAdvertTimer();
    }

    method Unload()
      requires Valid()
      modifies this
      ensures Valid() && Model() == AdvertState.Unload(old(Model()))
    {
      CancelToken();
      timerToken := None;
    }

    /** The timer callback. `thrown` reports the ArgumentOutOfRangeException of an index
        past the end of the list, which leaves every field as it was. */
    method ShowNextAd() returns (thrown: bool)
      requires Valid()
      modifies this
      ensures Valid()
      ensures thrown <==> AdvertState.ShowNextAd(old(Model())).OutOfRange?
      ensures thrown ==> Model() == old(Model())
      ensures !thrown ==> Model() == AdvertState.ShowNextAd(old(Model())).after
    {
      thrown := false;
      if |config.ads| == 0 {
        return;
      }
      if currentAdIndex >= |config.ads| {
        thrown := true;
        return;
      }
      var message := config.ads[currentAdIndex];
      var formattedMessage := FormatMessage(config.chatPrefix, message);
      sent := sent + [formattedMessage];
      currentAdIndex := (currentAdIndex + 1) % |config.ads|;
    }
  }
}
