/** The three outside services the bot calls, and the code around each call
    that turns any failure into a fixed fallback string: the language model
    (gemini_generate_response), the Central Weather Administration forecast
    (get_cwb_weather) and the Nominatim reverse geocoder (get_city_from_coords). */
module Lookups {
  import opened Wrappers

  /** The persona sent as the system message with every prompt. */
  const Persona := "你是一位講繁體中文的 LINE 皮卡丘，請用皮卡丘的語氣自然回應使用者。"
  /** Returned when the language model raises. */
  const AiFallback := "AI 回應失敗，請稍後再試～"
  /** Returned when the forecast request or the pick through its response fails. */
  const WeatherFallback := "中央氣象局天氣查詢失敗，請稍後再試。"
  /** The city used when no other can be found. */
  const DefaultCity := "臺北市"
  /** The address fields tried, in order, for a city name. */
  const CityKeys := ["city", "town", "county"]

  /** Latitude and longitude, each already rendered as Python renders a float. */
  datatype Coords = Coords(lat: string, lon: string)

  /** What the forecast response yields once indexed: the current condition
      and the minimum and maximum temperatures, as text. */
  datatype Forecast = Forecast(description: string, minTemp: string, maxTemp: string)

  /** The outside world. Each field is an opaque call; None means it raised.
      - llm(system, human): the model's content for a system and a human message;
      - cwa(city): the forecast fields for a location name, or None when the
        request fails or the response lacks one of the fields;
      - nominatim(coords): the "address" object of the reverse-geocoding
        response (an empty map when the response has none), or None when the
        request or the JSON decoding fails. */
  datatype Backends = Backends(
    llm: (string, string) -> Option<string>,
    cwa: string -> Option<Forecast>,
    nominatim: Coords -> Option<map<string, string>>)

  /** gemini_generate_response: one model call with the persona; never fails.
      The text is the model's content, or the model fallback when it raised. */
  function Generate(b: Backends, prompt: string): (r: string)
    ensures b.llm(Persona, prompt) == Some(r) || (b.llm(Persona, prompt).None? && r == AiFallback)
  {
    match b.llm(Persona, prompt)
    case Some(content) => content
    case None => AiFallback
  }

  const StatusLabel := "目前天氣狀況："
  const WeatherIntro := "請用親切自然的方式告訴使用者以下天氣資訊："

  /** The sentence handed to the model to be phrased nicely: it opens with
      the city, followed by the label and the forecast's description. */
  function WeatherSummary(city: string, f: Forecast): (s: string)
    ensures |s| > |city| + |StatusLabel| + |f.description|
    ensures s[..|city|] == city
    ensures s[|city| + |StatusLabel|..|city| + |StatusLabel| + |f.description|] == f.description
  {
    city + StatusLabel + f.description + "，氣溫範圍：" + f.minTemp + "°C - " + f.maxTemp + "°C"
  }

  /** The prompt for the weather report quotes the city right after its
      fixed introduction. */
  function WeatherPrompt(city: string, f: Forecast): (p: string)
    ensures |p| > |WeatherIntro| + |city|
    ensures p[..|WeatherIntro|] == WeatherIntro
    ensures p[|WeatherIntro|..|WeatherIntro| + |city|] == city
  {
    WeatherIntro + WeatherSummary(city, f)
  }

  /** get_cwb_weather: the model's phrasing of the forecast for city, or the
      weather fallback when the forecast cannot be had. A model failure inside
      is already turned into the model fallback by Generate. */
  function CwbWeather(b: Backends, city: string): (r: string)
    ensures b.cwa(city).None? ==> r == WeatherFallback
  {
    match b.cwa(city)
    case None => WeatherFallback
    case Some(f) => Generate(b, WeatherPrompt(city, f))
  }

  /** Python truthiness of address.get(key): present and not empty. */
  predicate Truthy(address: map<string, string>, key: string) {
    key in address && address[key] != ""
  }

  /** The chain address.get(k0) or address.get(k1) or ... or default: the
      value of the first truthy key, or default when there is none. */
  function FirstTruthy(address: map<string, string>, keys: seq<string>, default: string): (r: string)
    ensures (forall i :: 0 <= i < |keys| ==> !Truthy(address, keys[i])) ==> r == default
    ensures (exists i :: 0 <= i < |keys| && Truthy(address, keys[i])) ==>
              exists i :: 0 <= i < |keys| && ChosenAt(address, keys, i, r)
  {
    if keys == [] then default
    else if Truthy(address, keys[0]) then
      assert ChosenAt(address, keys, 0, address[keys[0]]);
      address[keys[0]]
    else
      var rest := keys[1..];
      var r := FirstTruthy(address, rest, default);
      assert (exists i :: 0 <= i < |keys| && Truthy(address, keys[i])) ==>
               exists i :: 0 <= i < |keys| && ChosenAt(address, keys, i, r) by {
        if exists i :: 0 <= i < |keys| && Truthy(address, keys[i]) {
          var i :| 0 <= i < |keys| && Truthy(address, keys[i]);
          assert rest[i - 1] == keys[i];
          var j :| 0 <= j < |rest| && ChosenAt(address, rest, j, r);
          assert ChosenAt(address, keys, j + 1, r);
        }
      }
      r
  }

  /** r is the value of keys[i], which is truthy, and no earlier key is. */
  predicate ChosenAt(address: map<string, string>, keys: seq<string>, i: int, r: string) {
    && 0 <= i < |keys|
    && Truthy(address, keys[i]) && r == address[keys[i]]
    && forall j :: 0 <= j < i ==> !Truthy(address, keys[j])
  }

  /** The city picked from a reverse-geocoding address: never empty, and
      either the default city or one of the address's values. */
  function CityFromAddress(address: map<string, string>): (city: string)
    ensures city != ""
    ensures city == DefaultCity || city in address.Values
  {
    var r := FirstTruthy(address, CityKeys, DefaultCity);
    assert r != "" && (r == DefaultCity || r in address.Values) by {
      if exists i :: 0 <= i < |CityKeys| && Truthy(address, CityKeys[i]) {
        var i :| 0 <= i < |CityKeys| && ChosenAt(address, CityKeys, i, r);
        assert address[CityKeys[i]] == r;
      }
    }
    r
  }

  /** get_city_from_coords: never empty; the default city when the lookup fails. */
  function CityFromCoords(b: Backends, c: Coords): (city: string)
    ensures city != ""
    ensures b.nominatim(c).None? ==> city == DefaultCity
  {
    match b.nominatim(c)
    case None => DefaultCity
    case Some(address) => CityFromAddress(address)
  }

  /** The geocoder's choice, field by field: city if truthy, else town if
      truthy, else county if truthy, else the default city. */
  lemma {:induction false} CityPriority(address: map<string, string>)
    ensures Truthy(address, "city") ==> CityFromAddress(address) == address["city"]
    ensures !Truthy(address, "city") && Truthy(address, "town") ==>
              CityFromAddress(address) == address["town"]
    ensures !Truthy(address, "city") && !Truthy(address, "town") && Truthy(address, "county") ==>
              CityFromAddress(address) == address["county"]
    ensures !Truthy(address, "city") && !Truthy(address, "town") && !Truthy(address, "county") ==>
              CityFromAddress(address) == DefaultCity
  {
    var keys := CityKeys;
    assert keys[0] == "city" && keys[1..] == ["town", "county"];
    assert keys[1..][0] == "town" && keys[1..][1..] == ["county"];
    assert keys[1..][1..][0] == "county" && keys[1..][1..][1..] == [];
    assert !Truthy(address, "city") ==>
      FirstTruthy(address, keys, DefaultCity) == FirstTruthy(address, ["town", "county"], DefaultCity);
    assert !Truthy(address, "town") ==>
      FirstTruthy(address, ["town", "county"], DefaultCity) == FirstTruthy(address, ["county"], DefaultCity);
  }
}
