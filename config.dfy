/** The plugin's configuration record, `MainConfigModel`, as the host binds it from
    section "Main" of config.toml. */
module AdvertConfig {

  /** `chatPrefix` is prepended to every ad, `adInterval` is the number of seconds between
      two ads, `ads` the messages shown in turn. The interval is a C# `float` in the source;
      the model carries it as a real and never computes with it. */
  datatype MainConfigModel = MainConfigModel(chatPrefix: string, adInterval: real, ads: seq<string>)

  const DefaultPrefix: string := "[blue][Server][default]"

  const DefaultAds: seq<string> := [
    "Use [red]!nominate[default] <mapname> / <workshopid> to nominate maps!",
    "Use [red]!rtv[default] to rock the vote for map change!",
    "Use [red]!ws[default] to change knife or skins!"
  ]

  /** The values a freshly constructed MainConfigModel holds, which are also what a key
      missing from config.toml leaves in place. */
  function DefaultConfig(): (c: MainConfigModel)
    ensures c.chatPrefix == "[blue][Server][default]"
    ensures c.adInterval == 60.0
    ensures |c.ads| == 3
  {
    MainConfigModel(DefaultPrefix, 60.0, DefaultAds)
  }
}
