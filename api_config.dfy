/** ApiConfig.java: the settings read from `config.properties`. The table
    is filled once when the class is loaded and the three getters only read
    it, so they are functions of the loaded key-to-value map. */
module ApiConfig {
  import opened Wrappers
  import opened Primitives
  import Text

  type Properties = map<string, string>

  const BaseUrlKey: string := "api.base.url"
  const TimeoutKey: string := "api.timeout"
  const LogEnabledKey: string := "api.log.enabled"

  const DefaultBaseUrl: string := "https://petstore.swagger.io/v2"
  const DefaultTimeout: string := "30000"
  const DefaultLogEnabled: string := "true"

  /** What the class loader yields for `config.properties`: no resource, a
      stream that fails with an IOException while being read, a file with a
      malformed `\uXXXX` escape, or the parsed table. */
  datatype Resource = Missing | Unreadable | MalformedEscape | Readable(entries: Properties)

  datatype ConfigError =
    | LoadFailed(message: string)
    | IllegalArgument
    | NumberFormat(text: string)

  /** The static initialiser: a missing resource leaves the table empty. An
      IOException is wrapped with the harness' message; the
      IllegalArgumentException `Properties.load` throws on a malformed escape
      is not caught and escapes as it is. Either aborts class initialisation. */
  function Load(resource: Resource): (r: Result<Properties, ConfigError>)
    ensures resource.Missing? ==> r == Ok(map[])
    ensures resource.Unreadable? ==> r == Err(LoadFailed("Failed to load configuration"))
    ensures resource.MalformedEscape? ==> r == Err(IllegalArgument)
    ensures resource.Readable? ==> r == Ok(resource.entries)
    ensures r.Ok? <==> resource.Missing? || resource.Readable?
  {
    match resource
    case Missing => Ok(map[])
    case Unreadable => Err(LoadFailed("Failed to load configuration"))
    case MalformedEscape => Err(IllegalArgument)
    case Readable(entries) => Ok(entries)
  }

  /** `Properties.getProperty(key, default)`. */
  function GetProperty(properties: Properties, key: string, default: string): (v: string)
    ensures key in properties ==> v == properties[key]
    ensures key !in properties ==> v == default
  {
    if key in properties then properties[key] else default
  }

  /** `getBaseUrl`: the stored URL, or the public petstore. */
  function GetBaseUrl(properties: Properties): (url: string)
    ensures "api.base.url" in properties ==> url == properties["api.base.url"]
    ensures "api.base.url" !in properties ==> url == "https://petstore.swagger.io/v2"
  {
    GetProperty(properties, BaseUrlKey, DefaultBaseUrl)
  }

  /** `getTimeout`: `Integer.parseInt` of the stored value or of "30000";
      a value that is not a 32-bit decimal is an error, not the default. */
  function GetTimeout(properties: Properties): (r: Result<Int, ConfigError>)
    ensures "api.timeout" !in properties ==> r == Ok(30000)
    ensures "api.timeout" in properties ==>
              (r.Ok? <==> Text.ParseInt(properties["api.timeout"]).Some?)
    ensures "api.timeout" in properties && r.Ok? ==> r.value == Text.ParseInt(properties["api.timeout"]).value
    ensures r.Err? ==> r.error == NumberFormat(properties["api.timeout"])
  {
    var text := GetProperty(properties, TimeoutKey, DefaultTimeout);
    TimeoutDefaultParses();
    match Text.ParseInt(text)
    case Some(n) => Ok(n)
    case None => Err(NumberFormat(text))
  }

  lemma TimeoutDefaultParses()
    ensures Text.ParseInt("30000") == Some(30000)
  {
    assert "30000"[..4] == "3000" && "3000"[..3] == "300";
    assert "300"[..2] == "30" && "30"[..1] == "3" && "3"[..0] == "";
    assert Text.DigitsValue("3") == 3;
    assert Text.DigitsValue("30000") == 30000;
  }

  /** `Boolean.parseBoolean`, which `isLogEnabled` applies: true exactly for
      the four letters of "true", each in either case. */
  function ParseBoolean(s: string): (b: bool)
    ensures b <==> |s| == 4 && forall i | 0 <= i < 4 :: s[i] == "true"[i] || s[i] == "TRUE"[i]
  {
    Text.EqualsIgnoreCaseLower(s, "true");
    assert forall i | 0 <= i < 4 :: "true"[i] as int - 32 == "TRUE"[i] as int;
    Text.EqualsIgnoreCase(s, "true")
  }

  /** `isLogEnabled`: on unless the stored value is something other than
      "true" in some case. */
  function IsLogEnabled(properties: Properties): (enabled: bool)
    ensures "api.log.enabled" !in properties ==> enabled
    ensures "api.log.enabled" in properties ==>
              (enabled <==> Text.EqualsIgnoreCase(properties["api.log.enabled"], "true"))
  {
    Text.EqualsIgnoreCaseLower("true", "true");
    ParseBoolean(GetProperty(properties, LogEnabledKey, DefaultLogEnabled))
  }

  /** Without a resource every getter falls back to its default. */
  lemma MissingResourceGivesDefaults()
    ensures Load(Missing).Ok?
    ensures GetBaseUrl(Load(Missing).value) == "https://petstore.swagger.io/v2"
    ensures GetTimeout(Load(Missing).value) == Ok(30000)
    ensures IsLogEnabled(Load(Missing).value)
  {
  }

  /** A stored 32-bit timeout is read back as itself. */
  lemma TimeoutRoundTrip(properties: Properties, timeout: Int)
    ensures GetTimeout(properties["api.timeout" := Text.IntToString(timeout)]) == Ok(timeout)
  {
    Text.ParseIntRoundTrip(timeout);
  }

  /** A non-numeric timeout is an error, not the default. */
  lemma NonNumericTimeoutFails(properties: Properties)
    ensures GetTimeout(properties["api.timeout" := "abc"]) == Err(NumberFormat("abc"))
  {
    assert !Text.IsDigit("abc"[0]);
  }

  /** "TRUE" enables logging; "yes", "false" and "" disable it. */
  lemma LogEnabledSpellings(properties: Properties)
    ensures IsLogEnabled(properties["api.log.enabled" := "TRUE"])
    ensures !IsLogEnabled(properties["api.log.enabled" := "yes"])
    ensures !IsLogEnabled(properties["api.log.enabled" := "false"])
    ensures !IsLogEnabled(properties["api.log.enabled" := ""])
  {
    Text.EqualsIgnoreCaseLower("TRUE", "true");
    Text.EqualsIgnoreCaseLower("yes", "true");
    Text.EqualsIgnoreCaseLower("false", "true");
    assert "yes"[0] != 't' && "yes"[0] as int != 't' as int - 32;
  }

  /** Each getter reads its own key only. */
  lemma GettersReadOwnKey(properties: Properties, key: string, value: string)
    ensures key != "api.base.url" ==> GetBaseUrl(properties[key := value]) == GetBaseUrl(properties)
    ensures key != "api.timeout" ==> GetTimeout(properties[key := value]) == GetTimeout(properties)
    ensures key != "api.log.enabled" ==> IsLogEnabled(properties[key := value]) == IsLogEnabled(properties)
  {
  }
}
