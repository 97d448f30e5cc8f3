/** tools.js: the two plain tools (`get_current_time`, `get_weather`), their
    declarations `AVAILABLE_TOOLS`, and the dispatcher `executeToolFunction`.
    The clock and `Math.random` are parameters. */
module PlainTools {
  import opened Wrappers
  import opened Text
  import opened Json
  import opened Declarations
  import Validator

  const GetCurrentTimeTool := Tool("get_current_time", Obj([Property("timezone", Str())], []), None, None)

  const GetWeatherTool := Tool("get_weather",
    Obj([Property("location", Str()), Property("units", StrEnum(["metric", "imperial"]))], ["location"]),
    None, None)

  /** `AVAILABLE_TOOLS`. */
  const AvailableTools: seq<Tool> := [GetCurrentTimeTool, GetWeatherTool]

  /** The clock. `localTime(tz)` is `new Date().toLocaleString('en-US', {timeZone: tz, ...})`,
      or the message of the RangeError an unknown time zone raises; `isoNow`
      is `new Date().toISOString()`. */
  datatype Clock = Clock(localTime: Json -> Result<string, string>, isoNow: string)

  /** The five `Math.random()` draws of one `getWeather` call, each standing
      for an arbitrary value in [0, 1): `Math.floor(Math.random() * n)` is
      `draw % n`. The regional draw is used only by the location overrides. */
  datatype Draws = Draws(temperature: nat, condition: nat, humidity: nat, windSpeed: nat, regional: nat)

  function Scaled(draw: nat, n: nat): (r: nat)
    requires n > 0
    ensures r < n
  {
    draw % n
  }

  const Conditions: seq<string> := ["sunny", "cloudy", "rainy", "partly cloudy"]

  /** The `weatherData` object. */
  datatype Weather = Weather(
    location: string,
    temperature: int,
    condition: string,
    humidity: int,
    windSpeed: int,
    units: Json,
    timestamp: string)

  function WeatherJson(w: Weather): (r: Json)
    ensures Get(r, "location") == Some(JStr(w.location))
    ensures Get(r, "temperature") == Some(JNum(w.temperature))
    ensures Get(r, "units") == Some(w.units)
  {
    var fields := [Field("location", JStr(w.location)), Field("temperature", JNum(w.temperature)),
                   Field("condition", JStr(w.condition)), Field("humidity", JNum(w.humidity)),
                   Field("wind_speed", JNum(w.windSpeed)), Field("units", w.units),
                   Field("timestamp", JStr(w.timestamp))];
    LastValueUnique(fields, 0);
    LastValueUnique(fields, 1);
    LastValueUnique(fields, 5);
    JObj(fields)
  }

  /** The location variations, tested in this order on the lower-cased name. */
  datatype Region = London | Dubai | NewYork | Elsewhere

  function RegionOf(location: string): Region
  {
    var lower := ToLowerAscii(location);
    if Contains(lower, "london") then London
    else if Contains(lower, "dubai") then Dubai
    else if Contains(lower, "new york") then NewYork
    else Elsewhere
  }

  /** The temperature range each region's data falls in, both ends inclusive. */
  function TemperatureRange(region: Region): (int, int)
  {
    match region
    case London => (10, 24)
    case Dubai => (25, 44)
    case NewYork => (5, 29)
    case Elsewhere => (5, 39)
  }

  /** The TypeError `location.toLowerCase()` throws on a non-string. */
  function LowerCaseError(location: Option<Json>): string
  {
    if location.None? then "Cannot read properties of undefined (reading 'toLowerCase')"
    else if location.value.JNull? then "Cannot read properties of null (reading 'toLowerCase')"
    else "location.toLowerCase is not a function"
  }

  /** `getWeather(location, units)`; `location` is `None` when undefined. */
  function GetWeather(location: Option<Json>, units: Json, d: Draws, now: string): (r: Result<Weather, string>)
    ensures r.Ok? <==> location.Some? && location.value.JStr?
    ensures r.Err? ==> r.error == LowerCaseError(location)
    ensures r.Ok? ==> r.value.location == location.value.s && r.value.units == units && r.value.timestamp == now
    ensures r.Ok? ==>
      var (lo, hi) := TemperatureRange(RegionOf(location.value.s));
      lo <= r.value.temperature <= hi
    ensures r.Ok? ==> 0 <= r.value.humidity <= 99 && 5 <= r.value.windSpeed <= 24
    ensures r.Ok? ==> r.value.condition in Conditions
    ensures r.Ok? && RegionOf(location.value.s) == London ==> r.value.condition == "rainy"
    ensures r.Ok? && RegionOf(location.value.s) == Dubai ==> r.value.condition == "sunny"
  {
    if location.None? || !location.value.JStr? then Err(LowerCaseError(location))
    else
      var name := location.value.s;
      var base := Weather(name, Scaled(d.temperature, 35) + 5, Conditions[Scaled(d.condition, 4)],
                          Scaled(d.humidity, 100), Scaled(d.windSpeed, 20) + 5, units, now);
      match RegionOf(name)
      case London => Ok(base.(condition := "rainy", temperature := Scaled(d.regional, 15) + 10))
      case Dubai => Ok(base.(condition := "sunny", temperature := Scaled(d.regional, 20) + 25))
      case NewYork => Ok(base.(temperature := Scaled(d.regional, 25) + 5))
      case Elsewhere => Ok(base)
  }

  /** `getCurrentTime(timezone)`. */
  function GetCurrentTime(timezone: Json, clock: Clock): (r: Result<Json, string>)
    ensures r.Ok? <==> clock.localTime(timezone).Ok?
    ensures r.Ok? ==> Get(r.value, "timezone") == Some(timezone)
    ensures r.Ok? ==> Get(r.value, "current_time") == Some(JStr(clock.localTime(timezone).value))
  {
    var t :- clock.localTime(timezone);
    var fields := [Field("current_time", JStr(t)), Field("timestamp", JStr(clock.isoNow)), Field("timezone", timezone)];
    LastValueUnique(fields, 0);
    LastValueUnique(fields, 2);
    Ok(JObj(fields))
  }

  /** `args.timezone || 'UTC'` for an `args` that is not null. */
  function EffectiveTimezone(args: Json): Json
  {
    var tz := Member(args, "timezone");
    if tz.Ok? && Present(tz.value) then tz.value.value else JStr("UTC")
  }

  /** `executeToolFunction(toolCall)` given `toolCall.function.arguments` as
      `args`. Property reads on a null `args` throw. */
  function ExecuteToolFunction(name: string, args: Json, clock: Clock, d: Draws): (r: Result<Json, string>)
    ensures name != "get_current_time" && name != "get_weather" ==> r == Err("Unknown tool: " + name)
    ensures (name == "get_current_time" || name == "get_weather") && args.JNull? ==> r.Err?
    ensures name == "get_current_time" && !args.JNull? ==> r == GetCurrentTime(EffectiveTimezone(args), clock)
  {
    if name == "get_current_time" then
      var tz :- Member(args, "timezone");
      GetCurrentTime(if Present(tz) then tz.value else JStr("UTC"), clock)
    else if name == "get_weather" then
      match Member(args, "location")
      case Err(e) => Err(e)
      case Ok(location) =>
        var units := Member(args, "units").value;
        var w :- GetWeather(location, if Present(units) then units.value else JStr("metric"), d, clock.isoNow);
        Ok(WeatherJson(w))
    else Err("Unknown tool: " + name)
  }

  // ================================================================ lemmas

  /** The first matching name wins: "London" beats "Dubai", which beats
      "New York"; case does not matter for ASCII letters. */
  lemma RegionPrecedence(location: string)
    ensures Contains(ToLowerAscii(location), "london") ==> RegionOf(location) == London
    ensures !Contains(ToLowerAscii(location), "london") && Contains(ToLowerAscii(location), "dubai") ==>
      RegionOf(location) == Dubai
    ensures RegionOf(location) == Elsewhere <==>
      !Contains(ToLowerAscii(location), "london") && !Contains(ToLowerAscii(location), "dubai")
      && !Contains(ToLowerAscii(location), "new york")
  {
  }

  /** Every temperature of the region's range is produced by some draws, so
      the range in `GetWeather`'s contract is exact. */
  lemma TemperatureReachable(location: string, units: Json, now: string, t: int)
    requires TemperatureRange(RegionOf(location)).0 <= t <= TemperatureRange(RegionOf(location)).1
    ensures exists d :: GetWeather(Some(JStr(location)), units, d, now).value.temperature == t
  {
    var region := RegionOf(location);
    var lo := TemperatureRange(region).0;
    var d := Draws(t - 5, 0, 0, 0, t - lo);
    WeatherTemperature(location, units, d, now);
    match region
    case London => assert Scaled(d.regional, 15) + 10 == t;
    case Dubai => assert Scaled(d.regional, 20) + 25 == t;
    case NewYork => assert Scaled(d.regional, 25) + 5 == t;
    case Elsewhere => assert Scaled(d.temperature, 35) + 5 == t;
  }

  /** Which draw decides the temperature, region by region. */
  lemma WeatherTemperature(location: string, units: Json, d: Draws, now: string)
    ensures GetWeather(Some(JStr(location)), units, d, now).value.temperature ==
      match RegionOf(location)
      case London => Scaled(d.regional, 15) + 10
      case Dubai => Scaled(d.regional, 20) + 25
      case NewYork => Scaled(d.regional, 25) + 5
      case Elsewhere => Scaled(d.temperature, 35) + 5
  {
  }

  /** Falsy `units` (absent, empty, null, false, 0) become `metric`; truthy
      ones are echoed unchanged, even outside the declared enum. */
  lemma UnitsDefault(args: Json, clock: Clock, d: Draws)
    requires IsObject(args) && Get(args, "location").Some? && Get(args, "location").value.JStr?
    ensures var r := ExecuteToolFunction("get_weather", args, clock, d);
      && r.Ok?
      && Get(r.value, "location") == Get(args, "location")
      && Get(r.value, "units") == Some(if Present(Get(args, "units")) then Get(args, "units").value else JStr("metric"))
  {
  }

  /** A `location` that is absent or not a string makes `getWeather` throw
      the TypeError of `location.toLowerCase()`. */
  lemma WeatherNeedsStringLocation(args: Json, clock: Clock, d: Draws)
    requires IsObject(args) && !(Get(args, "location").Some? && Get(args, "location").value.JStr?)
    ensures ExecuteToolFunction("get_weather", args, clock, d) == Err(LowerCaseError(Get(args, "location")))
  {
  }

  /** `AVAILABLE_TOOLS`: two distinct names; `get_weather` requires its
      location and restricts `units` to `metric`/`imperial`;
      `get_current_time` requires nothing. */
  lemma AvailableToolsDeclared()
    ensures Names(AvailableTools) == ["get_current_time", "get_weather"] && DistinctNames(AvailableTools)
    ensures FindTool(AvailableTools, "get_weather") == Some(GetWeatherTool)
    ensures GetWeatherTool.parameters.required == ["location"]
    ensures GetWeatherTool.parameters.properties[1].def.enumValues == Some([JStr("metric"), JStr("imperial")])
    ensures GetCurrentTimeTool.parameters.required == []
  {
    FindToolDistinct(AvailableTools, 1);
    var units := Strings(["metric", "imperial"]);
    assert units[0] == JStr("metric") && units[1] == JStr("imperial");
    assert units == [JStr("metric"), JStr("imperial")];
  }

  /** Validation against the `get_weather` declaration is enough for the
      call to succeed: a valid argument object has a string location. */
  lemma ValidWeatherCallSucceeds(args: Json, matches: Validator.Matcher, clock: Clock, d: Draws)
    requires Validator.Validate(GetWeatherTool, args, matches) == Ok(Validator.Validation(true, [], []))
    ensures ExecuteToolFunction("get_weather", args, clock, d).Ok?
  {
    Validator.ValidIff(GetWeatherTool, args, matches);
    assert Validator.AllRequiredPresent(["location"], args);
    assert GetWeatherTool.parameters.required[0] == "location";
    assert HasKey(args, "location");
    var props := GetWeatherTool.parameters.properties;
    assert props[0].name == "location";
    Validator.ValueErrorsEmpty("location", props[0].def, Get(args, "location").value, matches);
  }
}
