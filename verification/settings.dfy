/** Build settings of the manifest language: setting values, configurations and `Settings`. */
module ProjectSettings {
  import opened Wrappers
  import opened Json

  /** A build-setting value: a single string or a list of strings. */
  datatype SettingValue = StringValue(s: string) | ArrayValue(items: seq<string>)

  /** A string literal in a manifest. */
  function FromStringLiteral(value: string): (v: SettingValue)
    ensures v.StringValue? && v.s == value
  {
    StringValue(value)
  }

  /** An array literal in a manifest. */
  function FromArrayLiteral(elements: seq<string>): (v: SettingValue)
    ensures v.ArrayValue? && v.items == elements
  {
    ArrayValue(elements)
  }

  /** Encodes into a single-value container: the string, or the array of strings. */
  function EncodeSettingValue(v: SettingValue): (j: Json)
    ensures v.StringValue? <==> j.JString?
    ensures v.StringValue? ==> j.s == v.s
    ensures v.ArrayValue? ==> j.JArray? && |j.items| == |v.items|
                              && forall i :: 0 <= i < |v.items| ==> j.items[i] == JString(v.items[i])
  {
    match v
    case StringValue(s) => JString(s)
    case ArrayValue(items) => EncodeStrings(items)
  }

  /** Decodes a single-value container: a string first, then an array of strings; any
      other payload is unsupported (the source stops with a precondition failure). */
  function DecodeSettingValue(j: Json): (r: Option<SettingValue>)
    ensures j.JString? ==> r == Some(StringValue(j.s))
    ensures r.Some? && r.value.ArrayValue? ==> j.JArray? && |r.value.items| == |j.items|
                                               && forall i :: 0 <= i < |j.items| ==> j.items[i].JString? && r.value.items[i] == j.items[i].s
    ensures j.JArray? && (forall i :: 0 <= i < |j.items| ==> j.items[i].JString?) ==>
              r == Some(ArrayValue(seq(|j.items|, i requires 0 <= i < |j.items| && j.items[i].JString? => j.items[i].s)))
    ensures r.None? <==> !j.JString? && !(j.JArray? && forall i :: 0 <= i < |j.items| ==> j.items[i].JString?)
  {
    if j.JString? then Some(StringValue(j.s))
    else if j.JArray? && DecodeStrings(j.items).Some? then
      var items := DecodeStrings(j.items).value;
      assert items == seq(|j.items|, i requires 0 <= i < |j.items| && j.items[i].JString? => j.items[i].s);
      Some(ArrayValue(items))
    else None
  }

  /** Encoding then decoding a setting value gives it back, for both cases. */
  lemma SettingValueRoundTrip(v: SettingValue)
    ensures DecodeSettingValue(EncodeSettingValue(v)) == Some(v)
  {
    if v.ArrayValue? {
      DecodeEncodeStrings(v.items);
    }
  }

  /** The settings and optional xcconfig file of one build configuration. */
  datatype Configuration = Configuration(settings: map<string, SettingValue>, xcconfig: Option<string>)

  /** `Configuration(settings:xcconfig:)` with its defaults. */
  function MakeConfiguration(settings: map<string, SettingValue> := map[], xcconfig: Option<string> := None)
    : (c: Configuration)
    ensures c.settings == settings && c.xcconfig == xcconfig
  {
    Configuration(settings, xcconfig)
  }

  /** `Configuration.settings(_:xcconfig:)`: the same configuration as the initialiser. */
  function ConfigurationSettings(settings: map<string, SettingValue>, xcconfig: Option<string> := None)
    : (c: Configuration)
    ensures c == MakeConfiguration(settings, xcconfig)
  {
    Configuration(settings, xcconfig)
  }

  datatype Variant = Debug | Release

  /** A named build configuration with its variant. */
  datatype CustomConfiguration = CustomConfiguration(name: string, variant: Variant, configuration: Option<Configuration>)

  /** Plain string settings as setting values. */
  function WrapStrings(settings: map<string, string>): (r: map<string, SettingValue>)
    ensures r.Keys == settings.Keys
    ensures forall k :: k in r ==> r[k] == StringValue(settings[k])
  {
    map k | k in settings :: StringValue(settings[k])
  }

  /** `CustomConfiguration.debug(name:settings:xcconfig:)`. */
  function DebugConfiguration(name: string, settings: map<string, string> := map[], xcconfig: Option<string> := None)
    : (c: CustomConfiguration)
    ensures c.name == name && c.variant == Debug
    ensures c.configuration == Some(MakeConfiguration(WrapStrings(settings), xcconfig))
  {
    CustomConfiguration(name, Debug, Some(Configuration(WrapStrings(settings), xcconfig)))
  }

  /** `CustomConfiguration.release(name:settings:xcconfig:)`. */
  function ReleaseConfiguration(name: string, settings: map<string, string> := map[], xcconfig: Option<string> := None)
    : (c: CustomConfiguration)
    ensures c.name == name && c.variant == Release
    ensures c.configuration == Some(MakeConfiguration(WrapStrings(settings), xcconfig))
  {
    CustomConfiguration(name, Release, Some(Configuration(WrapStrings(settings), xcconfig)))
  }

  datatype DefaultSettings = Recommended | Essential

  /** Base settings, the build configurations and the default-settings level. */
  datatype Settings = Settings(
    base: map<string, SettingValue>,
    configurations: seq<CustomConfiguration>,
    defaultSettings: DefaultSettings)

  /** `Settings(base:debug:release:defaultSettings:)`: exactly a Debug and a Release
      configuration, in that order, wrapping the given configurations. */
  function SettingsWithDefaults(base: map<string, SettingValue> := map[],
                                debug: Option<Configuration> := None,
                                release: Option<Configuration> := None,
                                defaultSettings: DefaultSettings := Recommended): (s: Settings)
    ensures s.base == base && s.defaultSettings == defaultSettings
    ensures |s.configurations| == 2
    ensures s.configurations[0].name == "Debug" && s.configurations[0].variant == Debug
    ensures s.configurations[1].name == "Release" && s.configurations[1].variant == Release
    ensures s.configurations[0].configuration == debug && s.configurations[1].configuration == release
  {
    Settings(base, [CustomConfiguration("Debug", Debug, debug), CustomConfiguration("Release", Release, release)],
             defaultSettings)
  }

  /** `Settings(base:configurations:defaultSettings:)`, with the string base settings
      wrapped as setting values. */
  function SettingsWithConfigurations(configurations: seq<CustomConfiguration>,
                                      base: map<string, string> := map[],
                                      defaultSettings: DefaultSettings := Recommended): (s: Settings)
    ensures s.base == WrapStrings(base) && s.configurations == configurations
    ensures s.defaultSettings == defaultSettings
  {
    Settings(WrapStrings(base), configurations, defaultSettings)
  }

  /** Both initialisers default to the recommended settings and empty base settings. */
  lemma DefaultsAreRecommended(configurations: seq<CustomConfiguration>)
    ensures SettingsWithDefaults().defaultSettings == Recommended
    ensures SettingsWithConfigurations(configurations).defaultSettings == Recommended
    ensures SettingsWithDefaults().base == map[] && SettingsWithConfigurations(configurations).base == map[]
  {
  }
}
