/**
 * The weather service of the countries app. Instead of calling the
 * weather API it takes a fixed sample response, renames it to the asked
 * city and adds the URL of the weather icon. Objects are maps from keys to
 * untyped values; the object spread `{ ...w, k: v }` is a map update.
 */
module Weather {
  import opened Wrappers
  import opened Json
  import opened Text

  const IconUrlPrefix: string := "https://openweathermap.org/img/wn/"
  const IconUrlSuffix: string := "@2x.png"

  /**
   * `sampleResponse`. Its fractional numbers are written truncated to
   * integers; none of the modelled operations reads them.
   */
  function SampleResponse(): map<string, Json> {
    map[
      "coord" := JObj(map["lon" := JNum(0), "lat" := JNum(51)]),
      "weather" := JArr([JObj(map["id" := JNum(300), "main" := JStr("Drizzle"),
                                  "description" := JStr("light intensity drizzle"), "icon" := JStr("09d")])]),
      "base" := JStr("stations"),
      "main" := JObj(map["temp" := JNum(28), "pressure" := JNum(1012), "humidity" := JNum(81),
                         "temp_min" := JNum(27), "temp_max" := JNum(28)]),
      "visibility" := JNum(10000),
      "wind" := JObj(map["speed" := JNum(4), "deg" := JNum(80)]),
      "clouds" := JObj(map["all" := JNum(90)]),
      "dt" := JNum(1485789600),
      "sys" := JObj(map["type" := JNum(1), "id" := JNum(5091), "message" := JNum(0), "country" := JStr("GB"),
                        "sunrise" := JNum(1485762037), "sunset" := JNum(1485794875)]),
      "id" := JNum(2643743),
      "name" := JStr("London"),
      "cod" := JNum(200)
    ]
  }

  /** `fixFakeData`: a copy whose `name` is the city, every other field as it was. */
  function FixFakeData(weather: map<string, Json>, city: string): (r: map<string, Json>)
    ensures r.Keys == weather.Keys + {"name"}
    ensures r["name"] == JStr(city)
    ensures forall k :: k in weather && k != "name" ==> r[k] == weather[k]
  {
    weather["name" := JStr(city)]
  }

  /** The first item of the `weather` list carries a string `icon`. */
  predicate HasIcon(weather: map<string, Json>) {
    && "weather" in weather
    && weather["weather"].JArr?
    && |weather["weather"].items| > 0
    && Lookup(weather["weather"].items[0], "icon").Some?
    && Lookup(weather["weather"].items[0], "icon").value.JStr?
  }

  /** `weather.weather[0].icon` when it is a string. */
  function IconOf(weather: map<string, Json>): string
    requires HasIcon(weather)
  {
    Lookup(weather["weather"].items[0], "icon").value.s
  }

  /**
   * `v[0]` on a value that is neither `null` nor `undefined`: an array's
   * first item, a string's first character, an object's property "0";
   * `undefined` for numbers, booleans and empty arrays or strings.
   */
  function IndexZero(v: Json): (r: Option<Json>)
    ensures v.JArr? ==> (r.Some? <==> |v.items| > 0)
    ensures v.JArr? && |v.items| > 0 ==> r == Some(v.items[0])
    ensures v.JNum? || v.JBool? || v.JNull? ==> r.None?
  {
    match v
    case JArr(items) => if |items| > 0 then Some(items[0]) else None
    case JStr(s) => if |s| > 0 then Some(JStr([s[0]])) else None
    case JObj(_) => Lookup(v, "0")
    case _ => None
  }

  /** `String(n)` of an integer. */
  function IntString(n: int): (s: string)
    ensures |s| > 0
  {
    if n < 0 then "-" + NatToString(-n) else NatToString(n)
  }

  /** The items of an array joined by ",", `null` items as empty text: `Array.prototype.toString`. */
  function JoinItems(items: seq<Json>): string
    decreases items, 0
  {
    if items == [] then ""
    else
      var last := items[|items| - 1];
      var text := if last.JNull? then "" else TemplateString(last);
      if |items| == 1 then text else JoinItems(items[..|items| - 1]) + "," + text
  }

  /** How a template literal `${v}` writes a value. */
  function TemplateString(v: Json): (s: string)
    decreases v, 1
    ensures v.JStr? ==> s == v.s
  {
    match v
    case JNull => "null"
    case JBool(b) => if b then "true" else "false"
    case JNum(n) => IntString(n)
    case JStr(str) => str
    case JArr(items) => JoinItems(items)
    case JObj(_) => "[object Object]"
  }

  /** Arrays print their items joined by commas, with `null` items empty; `null` prints as "null". */
  lemma TemplateStringExamples()
    ensures TemplateString(JArr([JNum(-1), JNull, JStr("d")])) == "-1,,d"
    ensures TemplateString(JNull) == "null"
    ensures TemplateString(JObj(map[])) == "[object Object]"
  {
    assert NatToString(1) == "1";
    var items := [JNum(-1), JNull, JStr("d")];
    assert IntString(-1) == "-1";
    assert JoinItems([JNum(-1)]) == "-1";
    assert items[..2][..1] == [JNum(-1)];
    assert JoinItems(items[..2]) == "-1,";
  }

  const UndefinedZero := "Cannot read properties of undefined (reading '0')"
  const NullZero := "Cannot read properties of null (reading '0')"
  const UndefinedIcon := "Cannot read properties of undefined (reading 'icon')"
  const NullIcon := "Cannot read properties of null (reading 'icon')"

  /** `weather.weather[0]` as far as it can be read, or the `TypeError` that reading it throws. */
  function FirstWeather(weather: map<string, Json>): (r: Result<Json, string>)
    ensures r.Success? ==> "weather" in weather && IndexZero(weather["weather"]) == Some(r.value)
    ensures r.Success? ==> !r.value.JNull?
    ensures r.Failure? <==>
              || "weather" !in weather
              || weather["weather"].JNull?
              || IndexZero(weather["weather"]).None?
              || IndexZero(weather["weather"]) == Some(JNull)
  {
    if "weather" !in weather then Failure(UndefinedZero)
    else if weather["weather"].JNull? then Failure(NullZero)
    else
      match IndexZero(weather["weather"])
      case None => Failure(UndefinedIcon)
      case Some(JNull) => Failure(NullIcon)
      case Some(item) => Success(item)
  }

  /** The text `${icon}` puts into the URL: "undefined" when the item has no `icon`. */
  function IconText(item: Json): (t: string)
    ensures Lookup(item, "icon").None? ==> t == "undefined"
    ensures Lookup(item, "icon").Some? ==> t == TemplateString(Lookup(item, "icon").value)
  {
    match Lookup(item, "icon")
    case None => "undefined"
    case Some(icon) => TemplateString(icon)
  }

  /**
   * `addIconUrl`: a copy with `icon` set to the image URL of
   * `weather.weather[0].icon`, every other field as it was; the `TypeError`
   * when `weather.weather` or its first item is `null` or `undefined`.
   */
  function AddIconUrl(weather: map<string, Json>): (r: Result<map<string, Json>, string>)
    ensures r.Failure? <==> FirstWeather(weather).Failure?
    ensures r.Failure? ==> r.error == FirstWeather(weather).error
    ensures r.Success? ==> r.value.Keys == weather.Keys + {"icon"}
    ensures r.Success? ==>
              r.value["icon"] == JStr(IconUrlPrefix + IconText(FirstWeather(weather).value) + IconUrlSuffix)
    ensures r.Success? ==> forall k :: k in weather && k != "icon" ==> r.value[k] == weather[k]
  {
    match FirstWeather(weather)
    case Failure(e) => Failure(e)
    case Success(item) =>
      var icon := IconText(item);
      var iconUrl := IconUrlPrefix + icon + IconUrlSuffix;
      Success(weather["icon" := JStr(iconUrl)])
  }

  /** With a string icon on the first item, the URL carries that icon. */
  lemma AddIconUrlWithIcon(weather: map<string, Json>)
    requires HasIcon(weather)
    ensures AddIconUrl(weather).Success?
    ensures AddIconUrl(weather).value["icon"] == JStr(IconUrlPrefix + IconOf(weather) + IconUrlSuffix)
  {
  }

  /** An item without `icon` gives the URL of an icon named "undefined"; an empty list throws. */
  lemma AddIconUrlEdgeCases(weather: map<string, Json>, item: map<string, Json>)
    requires "icon" !in item
    ensures AddIconUrl(weather["weather" := JArr([JObj(item)])]).value["icon"] ==
              JStr("https://openweathermap.org/img/wn/undefined@2x.png")
    ensures AddIconUrl(weather["weather" := JArr([])]) == Failure(UndefinedIcon)
    ensures AddIconUrl(weather - {"weather"}) == Failure(UndefinedZero)
  {
  }

  /** `getWeather({city})`: no request is made; the sample, renamed, with its icon URL. */
  function GetWeather(city: string): map<string, Json> {
    var fixed := FixFakeData(SampleResponse(), city);
    assert HasIcon(fixed) by {
      assert fixed["weather"] == SampleResponse()["weather"];
    }
    AddIconUrlWithIcon(fixed);
    AddIconUrl(fixed).value
  }

  /** Renaming leaves the `weather` list alone, so the icon survives it. */
  lemma FixKeepsIcon(weather: map<string, Json>, city: string)
    requires HasIcon(weather)
    ensures HasIcon(FixFakeData(weather, city)) && IconOf(FixFakeData(weather, city)) == IconOf(weather)
  {
    assert FixFakeData(weather, city)["weather"] == weather["weather"];
  }

  /** Renaming twice keeps only the last city. */
  lemma FixFakeDataLastWins(weather: map<string, Json>, a: string, b: string)
    ensures FixFakeData(FixFakeData(weather, a), b) == FixFakeData(weather, b)
  {
  }

  /** Adding the URL twice is adding it once, and when the first call throws so does the second. */
  lemma AddIconUrlIdempotent(weather: map<string, Json>)
    ensures AddIconUrl(weather).Success? ==>
              AddIconUrl(AddIconUrl(weather).value) == AddIconUrl(weather)
  {
    if AddIconUrl(weather).Success? {
      var once := AddIconUrl(weather).value;
      assert once["weather"] == weather["weather"];
      assert FirstWeather(once) == FirstWeather(weather);
      assert once["icon" := once["icon"]] == once;
    }
  }

  /**
   * The result depends on the city alone: it is the sample with the city's
   * name and the sample's icon URL, and two cities' results differ in `name` only.
   */
  lemma GetWeatherDeterministic(city: string, other: string)
    ensures GetWeather(city)["name"] == JStr(city)
    ensures GetWeather(city)["icon"] == JStr("https://openweathermap.org/img/wn/09d@2x.png")
    ensures GetWeather(city).Keys == SampleResponse().Keys + {"icon"}
    ensures forall k :: k in SampleResponse() && k != "name" ==> GetWeather(city)[k] == SampleResponse()[k]
    ensures GetWeather(other) == GetWeather(city)["name" := JStr(other)]
  {
    var fixed := FixFakeData(SampleResponse(), city);
    FixKeepsIcon(SampleResponse(), city);
    assert IconOf(SampleResponse()) == "09d";
  }
}
