/**
  * display_weather (weather_app.py:777-915) and the search handler that calls it
  * (weather_app.py:1011-1020): which values of a response reach the screen, with
  * which defaults, and when a card reads "N/A". Streamlit output is modelled as
  * the values it would show; the HTML of the cards is not modelled.
  */
module Display {
  import opened Wrappers
  import opened PyJson
  import Cities
  import WeatherIcons
  import Validation
  import Fetcher
  import CityRows

  /** Sunrise and sunset: both timestamps, or the "정보 없음" placeholder for both. */
  datatype SunTimes = UnknownTimes | Times(sunrise: Json, sunset: Json)

  /** The readings display_weather takes from the `main` section (weather_app.py:796-802). */
  datatype MainReading = MainReading(
    temp: Json,
    feelsLike: Json,
    tempMin: Json,
    tempMax: Json,
    humidity: Json,
    pressure: Json)

  /** The values the `try` block of display_weather extracts (weather_app.py:789-836). */
  datatype Reading = Reading(
    cityName: Json,
    country: Json,
    main: MainReading,
    windSpeed: Json,
    windDeg: Json,
    description: Json,
    icon: Json,
    condition: Json,
    sun: SunTimes,
    visibility: real,
    clouds: Json)

  /** get_korean_city_name applied to a decoded value; None when it raises (an unhashable value). */
  function KoreanName(name: Json): (r: Option<Json>)
    ensures name.JStr? ==> r == Some(JStr(Cities.KoreanCityName(name.s)))
    ensures r.None? <==> !Hashable(name)
  {
    match name
    case JStr(s) => Some(JStr(Cities.KoreanCityName(s)))
    case JArr(_) => None
    case JObj(_) => None
    case _ => Some(name)
  }

  /** `value[0]` where the code then calls `.get` on the result: only a non-empty list gets that far. */
  function FirstItem(list: Json): (r: Option<Json>)
    ensures r.Some? <==> list.JArr? && list.items != []
    ensures r.Some? ==> r.value == list.items[0]
  {
    if list.JArr? && list.items != [] then Some(list.items[0]) else None
  }

  /** The sunrise/sunset step: `fromtimestamp` needs numbers, and runs only when both are truthy. */
  function SunTimesOf(sunrise: Json, sunset: Json): (r: Option<SunTimes>)
    ensures r == Some(UnknownTimes) <==> !Truthy(sunrise) || !Truthy(sunset)
    ensures r.None? <==> Truthy(sunrise) && Truthy(sunset) && !(IsNumber(sunrise) && IsNumber(sunset))
    ensures r.Some? && r.value.Times? ==> r.value == Times(sunrise, sunset)
  {
    if Truthy(sunrise) && Truthy(sunset) then
      if IsNumber(sunrise) && IsNumber(sunset) then Some(Times(sunrise, sunset)) else None
    else Some(UnknownTimes)
  }

  /** The visibility step: metres to kilometres for a positive number, 0 for anything falsy or not positive. */
  function Kilometres(raw: Json): (r: Option<real>)
    ensures r.None? <==> Truthy(raw) && !IsNumber(raw)
    ensures r.Some? && r.value > 0.0 <==> IsNumber(raw) && NumberValue(raw) > 0.0
    ensures r.Some? && r.value > 0.0 ==> r.value * 1000.0 == NumberValue(raw)
  {
    if !Truthy(raw) then Some(0.0)
    else if !IsNumber(raw) then None
    else if NumberValue(raw) > 0.0 then Some(NumberValue(raw) / 1000.0)
    else Some(0.0)
  }

  /** `d.get(key, default)` on a dict. */
  function Lookup(d: map<string, Json>, key: string, default: Json): (r: Json)
    ensures key in d ==> r == d[key]
    ensures key !in d ==> r == default
  {
    if key in d then d[key] else default
  }

  /** `main_data.get(...)` for the six readings, with their defaults; None when `main` is not a dict. */
  function MainReadings(main: Json): (r: Option<MainReading>)
    ensures r.Some? <==> main.JObj?
    ensures main.JObj? && "temp" !in main.fields ==> r.value.temp == JNum(0.0)
    ensures main.JObj? && "temp" in main.fields ==> r.value.temp == main.fields["temp"]
    ensures main.JObj? && "humidity" !in main.fields ==> r.value.humidity == JNum(0.0)
    ensures main.JObj? && "humidity" in main.fields ==> r.value.humidity == main.fields["humidity"]
    ensures main.JObj? && "pressure" !in main.fields ==> r.value.pressure == JNum(0.0)
    ensures main.JObj? && "pressure" in main.fields ==> r.value.pressure == main.fields["pressure"]
    ensures main.JObj? && "feels_like" !in main.fields ==> r.value.feelsLike == r.value.temp
    ensures main.JObj? && "feels_like" in main.fields ==> r.value.feelsLike == main.fields["feels_like"]
    ensures main.JObj? && "temp_min" !in main.fields ==> r.value.tempMin == r.value.temp
    ensures main.JObj? && "temp_min" in main.fields ==> r.value.tempMin == main.fields["temp_min"]
    ensures main.JObj? && "temp_max" !in main.fields ==> r.value.tempMax == r.value.temp
    ensures main.JObj? && "temp_max" in main.fields ==> r.value.tempMax == main.fields["temp_max"]
  {
    match main
    case JObj(m) =>
      var temp := Lookup(m, "temp", JNum(0.0));
      Some(MainReading(temp, Lookup(m, "feels_like", temp), Lookup(m, "temp_min", temp), Lookup(m, "temp_max", temp),
                       Lookup(m, "humidity", JNum(0.0)), Lookup(m, "pressure", JNum(0.0))))
    case _ => None
  }

  /** The `sys` section: country (default "N/A") and the sunrise/sunset step. */
  function SysReadings(sys: Json): (r: Option<(Json, SunTimes)>)
    ensures r.Some? ==> sys.JObj?
    ensures sys.JObj? && ("sunrise" !in sys.fields || "sunset" !in sys.fields) ==> r.Some? && r.value.1 == UnknownTimes
    ensures sys.JObj? && "country" !in sys.fields && r.Some? ==> r.value.0 == JStr("N/A")
    ensures sys.JObj? && "country" in sys.fields && r.Some? ==> r.value.0 == sys.fields["country"]
    ensures sys.JObj? ==>
      var sunrise, sunset := Lookup(sys.fields, "sunrise", JNull), Lookup(sys.fields, "sunset", JNull);
      (r.None? <==> Truthy(sunrise) && Truthy(sunset) && !(IsNumber(sunrise) && IsNumber(sunset))) &&
      (r.Some? ==> (r.value.1.UnknownTimes? <==> !Truthy(sunrise) || !Truthy(sunset)))
    ensures r.Some? && r.value.1.Times? ==>
      "sunrise" in sys.fields && "sunset" in sys.fields && r.value.1 == Times(sys.fields["sunrise"], sys.fields["sunset"])
  {
    match sys
    case JObj(m) =>
      var sun :- SunTimesOf(Lookup(m, "sunrise", JNull), Lookup(m, "sunset", JNull));
      Some((Lookup(m, "country", JStr("N/A")), sun))
    case _ => None
  }

  /** The `wind` section: speed and direction, 0 when absent. */
  function WindReadings(wind: Json): (r: Option<(Json, Json)>)
    ensures r.Some? <==> wind.JObj?
    ensures wind.JObj? && "speed" !in wind.fields ==> r.value.0 == JNum(0.0)
    ensures wind.JObj? && "deg" !in wind.fields ==> r.value.1 == JNum(0.0)
    ensures wind.JObj? && "speed" in wind.fields ==> r.value.0 == wind.fields["speed"]
    ensures wind.JObj? && "deg" in wind.fields ==> r.value.1 == wind.fields["deg"]
  {
    match wind
    case JObj(m) => Some((Lookup(m, "speed", JNum(0.0)), Lookup(m, "deg", JNum(0.0))))
    case _ => None
  }

  /**
    * `weather_data.get('weather', [{}])[0]` and its description (default "정보 없음"),
    * icon code (default "01d") and main condition (default "Clear", line 843).
    */
  function WeatherInfo(weather: Json): (r: Option<(Json, Json, Json)>)
    ensures r.Some? <==> weather.JArr? && weather.items != [] && weather.items[0].JObj?
    ensures r.Some? && "description" !in weather.items[0].fields ==> r.value.0 == JStr("정보 없음")
    ensures r.Some? && "icon" !in weather.items[0].fields ==> r.value.1 == JStr("01d")
    ensures r.Some? && "main" !in weather.items[0].fields ==> r.value.2 == JStr("Clear")
    ensures r.Some? && "description" in weather.items[0].fields ==> r.value.0 == weather.items[0].fields["description"]
    ensures r.Some? && "icon" in weather.items[0].fields ==> r.value.1 == weather.items[0].fields["icon"]
    ensures r.Some? && "main" in weather.items[0].fields ==> r.value.2 == weather.items[0].fields["main"]
  {
    var info :- FirstItem(weather);
    match info
    case JObj(m) => Some((Lookup(m, "description", JStr("정보 없음")), Lookup(m, "icon", JStr("01d")), Lookup(m, "main", JStr("Clear"))))
    case _ => None
  }

  /** `weather_data.get('clouds', {}).get('all', 0)`. */
  function Cloudiness(clouds: Json): (r: Option<Json>)
    ensures r.Some? <==> clouds.JObj?
    ensures clouds.JObj? && "all" !in clouds.fields ==> r == Some(JNum(0.0))
    ensures clouds.JObj? && "all" in clouds.fields ==> r == Some(clouds.fields["all"])
  {
    match clouds
    case JObj(m) => Some(Lookup(m, "all", JNum(0.0)))
    case _ => None
  }

  /**
    * The `try` block of display_weather: None when any step raises (the `except` at
    * line 837). Every failure takes the same error branch (only the exception text
    * differs), so the steps are grouped by section here rather than kept in line order.
    */
  function Extract(data: Json): (r: Option<Reading>)
    ensures r.Some? ==> data.JObj?
    ensures r.Some? ==> r.value.visibility >= 0.0
    ensures data.JObj? && "main" !in data.fields && r.Some? ==>
      r.value.main == MainReading(JNum(0.0), JNum(0.0), JNum(0.0), JNum(0.0), JNum(0.0), JNum(0.0))
  {
    match data
    case JObj(fields) =>
      Assemble(
        KoreanName(Lookup(fields, "name", JStr("알 수 없는 도시"))),
        SysReadings(Lookup(fields, "sys", EmptyObject)),
        MainReadings(Lookup(fields, "main", EmptyObject)),
        WindReadings(Lookup(fields, "wind", EmptyObject)),
        WeatherInfo(Lookup(fields, "weather", JArr([EmptyObject]))),
        Kilometres(Lookup(fields, "visibility", JNum(0.0))),
        Cloudiness(Lookup(fields, "clouds", EmptyObject)))
    case _ => None
  }

  /** The extracted values, once every section succeeded. */
  function Assemble(
    cityName: Option<Json>, sys: Option<(Json, SunTimes)>, main: Option<MainReading>, wind: Option<(Json, Json)>,
    info: Option<(Json, Json, Json)>, visibility: Option<real>, clouds: Option<Json>): (r: Option<Reading>)
    ensures r.Some? <==> cityName.Some? && sys.Some? && main.Some? && wind.Some? && info.Some? && visibility.Some? && clouds.Some?
  {
    var cityName :- cityName;
    var sys :- sys;
    var main :- main;
    var wind :- wind;
    var info :- info;
    var visibility :- visibility;
    var clouds :- clouds;
    Some(Reading(cityName, sys.0, main, wind.0, wind.1, info.0, info.1, info.2, sys.1, visibility, clouds))
  }

  /**
    * The background step (weather_app.py:842-848): get_weather_image for string
    * arguments; a non-string icon code matches no code list, and a non-string
    * condition either misses the table or makes the lookup raise, which the
    * `except` answers with the sun picture.
    */
  function Background(condition: Json, icon: Json): (r: string)
    ensures r in {WeatherIcons.SunImage, WeatherIcons.CloudImage, WeatherIcons.RainImage, WeatherIcons.SnowImage}
    ensures condition.JStr? && icon.JStr? ==> r == WeatherIcons.WeatherImage(condition.s, icon.s)
  {
    if icon.JStr? && WeatherIcons.CodeImage(icon.s).Some? then WeatherIcons.CodeImage(icon.s).value
    else if condition.JStr? then WeatherIcons.ConditionImage(condition.s).GetOr(WeatherIcons.SunImage)
    else WeatherIcons.SunImage
  }

  /** What one card shows: "N/A", or the value (its number formatting is not modelled). */
  datatype Card = NotAvailable | Shows(value: Json)

  /** The `x if x != 0 else "N/A"` rule of the reading cards. */
  function ReadingCard(value: Json): (c: Card)
    ensures c.NotAvailable? <==> EqualsZero(value)
    ensures c.Shows? ==> c.value == value
  {
    if EqualsZero(value) then NotAvailable else Shows(value)
  }

  /**
    * The twelve cards of the three rows, in screen order. A reading card reads "N/A"
    * exactly when its value equals 0; the sun cards exactly when the times are unknown;
    * the visibility card exactly when the distance is not positive.
    */
  datatype Cards = Cards(
    temp: Card, feelsLike: Card, tempMin: Card, tempMax: Card,
    humidity: Card, pressure: Card, windSpeed: Card, windDeg: Card,
    sunrise: Card, sunset: Card, visibility: Card, clouds: Card)

  function CardsOf(r: Reading): (c: Cards)
    ensures c.temp.NotAvailable? <==> EqualsZero(r.main.temp)
    ensures c.feelsLike.NotAvailable? <==> EqualsZero(r.main.feelsLike)
    ensures c.tempMin.NotAvailable? <==> EqualsZero(r.main.tempMin)
    ensures c.tempMax.NotAvailable? <==> EqualsZero(r.main.tempMax)
    ensures c.humidity.NotAvailable? <==> EqualsZero(r.main.humidity)
    ensures c.pressure.NotAvailable? <==> EqualsZero(r.main.pressure)
    ensures c.windSpeed.NotAvailable? <==> EqualsZero(r.windSpeed)
    ensures c.windDeg.NotAvailable? <==> EqualsZero(r.windDeg)
    ensures c.clouds.NotAvailable? <==> EqualsZero(r.clouds)
    ensures c.sunrise.NotAvailable? <==> r.sun.UnknownTimes?
    ensures c.sunset.NotAvailable? <==> r.sun.UnknownTimes?
    ensures c.sunrise.Shows? ==> c.sunrise.value == r.sun.sunrise && c.sunset.value == r.sun.sunset
    ensures c.visibility.NotAvailable? <==> r.visibility <= 0.0
    ensures c.visibility.Shows? ==> c.visibility.value == JNum(r.visibility)
  {
    Cards(
      ReadingCard(r.main.temp), ReadingCard(r.main.feelsLike), ReadingCard(r.main.tempMin), ReadingCard(r.main.tempMax),
      ReadingCard(r.main.humidity), ReadingCard(r.main.pressure), ReadingCard(r.windSpeed), ReadingCard(r.windDeg),
      if r.sun.Times? then Shows(r.sun.sunrise) else NotAvailable,
      if r.sun.Times? then Shows(r.sun.sunset) else NotAvailable,
      if r.visibility > 0.0 then Shows(JNum(r.visibility)) else NotAvailable,
      ReadingCard(r.clouds))
  }

  /** What display_weather puts on the page after the checks. */
  datatype Screen = Screen(background: string, titleIcon: string, cityName: Json, description: string, cards: Cards)

  /**
    * `f"{t:.1f}"` runs only for a value that is not 0, and needs a number. Since only
    * numbers equal 0, skipping the zero case never lets a non-number through.
    */
  predicate Formattable(t: Json): (b: bool)
    ensures b <==> IsNumber(t)
  {
    EqualsZero(t) || IsNumber(t)
  }

  /**
    * The part of display_weather after the `try` block (weather_app.py:842-915);
    * None when it raises: an unhashable icon code, a description that is not a
    * string, or a temperature that `:.1f` cannot format.
    */
  function Render(r: Reading): (s: Option<Screen>)
    ensures s.Some? <==> (Hashable(r.icon) && r.description.JStr? && IsNumber(r.main.temp) && IsNumber(r.main.feelsLike) &&
                          IsNumber(r.main.tempMin) && IsNumber(r.main.tempMax))
    ensures s.Some? ==> s.value.background in {WeatherIcons.SunImage, WeatherIcons.CloudImage, WeatherIcons.RainImage, WeatherIcons.SnowImage}
    ensures s.Some? ==> s.value.background == Background(r.condition, r.icon)
    ensures s.Some? && r.condition.JStr? && r.icon.JStr? ==> s.value.background == WeatherIcons.WeatherImage(r.condition.s, r.icon.s)
    ensures s.Some? ==> s.value.description == r.description.s
    ensures s.Some? ==> s.value.cityName == r.cityName && s.value.cards == CardsOf(r)
    ensures s.Some? && r.icon.JStr? ==> s.value.titleIcon == WeatherIcons.WeatherIcon(r.icon.s)
    ensures (r.icon.JStr? && r.description.JStr? && IsNumber(r.main.temp) && IsNumber(r.main.feelsLike) &&
             IsNumber(r.main.tempMin) && IsNumber(r.main.tempMax)) ==> s.Some?
  {
    if !Hashable(r.icon) || !r.description.JStr? then None
    else if !(Formattable(r.main.temp) && Formattable(r.main.feelsLike) &&
              Formattable(r.main.tempMin) && Formattable(r.main.tempMax)) then None
    else
      var titleIcon := if r.icon.JStr? then WeatherIcons.WeatherIcon(r.icon.s) else WeatherIcons.DefaultIcon;
      Some(Screen(Background(r.condition, r.icon), titleIcon, r.cityName, r.description.s, CardsOf(r)))
  }

  /** The outcome of display_weather. */
  datatype Displayed =
    | NoDataError
      /** An exception escapes display_weather. */
    | Crashed
      /** The `except` of the extraction block: an error message, after the validation warning if any. */
    | ProcessingError(warning: Option<string>)
    | Shown(warning: Option<string>, screen: Screen)

  /** display_weather: validation only warns; extraction failures stop with an error. */
  function DisplayWeather(data: Json): (d: Displayed)
    ensures d.NoDataError? <==> !Truthy(data)
    ensures Truthy(data) && Validation.Validate(data).Raises? ==> d.Crashed?
    ensures d.Shown? || d.ProcessingError? ==> (d.warning.None? <==> Validation.Validate(data).Valid?)
    ensures d.Shown? ==> d.screen.background in {WeatherIcons.SunImage, WeatherIcons.CloudImage, WeatherIcons.RainImage, WeatherIcons.SnowImage}
    ensures d.Shown? ==> Extract(data).Some? && Render(Extract(data).value) == Some(d.screen)
    ensures (Truthy(data) && !Validation.Validate(data).Raises? && Extract(data).Some? &&
             Render(Extract(data).value).Some?) ==> d.Shown?
  {
    if !Truthy(data) then NoDataError
    else
      var verdict := Validation.Validate(data);
      if verdict.Raises? then Crashed
      else
        var warning := if verdict.Valid? then None else Some(Validation.Message(verdict));
        match Extract(data)
        case None => ProcessingError(warning)
        case Some(reading) =>
          match Render(reading)
          case None => Crashed
          case Some(screen) => Shown(warning, screen)
  }

  /** The page after pressing the search button (weather_app.py:1011-1020). */
  datatype Page =
    | AskForCity
    | NothingFound(report: Fetcher.Report)
    | PageCrashed
    | WeatherPage(report: Fetcher.Report, displayed: Displayed)

  function Search(city: string, service: Fetcher.Service): (p: Page)
    ensures p.AskForCity? <==> city == ""
    ensures city != "" ==> p == PageFor(Fetcher.Fetch(city, service).reply)
  {
    if city == "" then AskForCity else PageFor(Fetcher.Fetch(city, service).reply)
  }

  /** `if weather_data: display_weather(weather_data) else: st.error(...)`. */
  function PageFor(reply: Fetcher.Reply): (p: Page)
    ensures p.PageCrashed? <==> reply.Raised?
    ensures p.WeatherPage? <==> reply.Returned? && reply.data.Some? && Truthy(reply.data.value)
    ensures p.WeatherPage? ==> p.displayed == DisplayWeather(reply.data.value) && !p.displayed.NoDataError?
    ensures p.NothingFound? ==> p.report == reply.report
    ensures !p.AskForCity?
  {
    match reply
    case Raised => PageCrashed
    case Returned(data, report) =>
      if data.Some? && Truthy(data.value) then WeatherPage(report, DisplayWeather(data.value))
      else NothingFound(report)
  }

  /**
    * A failed validation never stops the display: the page is shown (or fails) as it
    * would without it, with the validation message as a warning.
    */
  lemma ValidationOnlyWarns(data: Json)
    requires Truthy(data) && !Validation.Validate(data).Raises?
    ensures var d := DisplayWeather(data);
      (d.Shown? <==> Extract(data).Some? && Render(Extract(data).value).Some?) &&
      (d.ProcessingError? <==> Extract(data).None?) &&
      (d.Shown? || d.ProcessingError? ==> (d.warning.Some? <==> Validation.Validate(data).Invalid?))
  {
    var v := Validation.Validate(data);
    if v.Invalid? {
      assert Validation.Message(v) != "데이터 검증 완료";
    }
  }

  /**
    * Missing temperatures: feels_like, temp_min and temp_max fall back to temp, and
    * temp falls back to 0, so a `main` without any of them shows "N/A" on all four cards.
    */
  lemma TemperatureDefaults(main: map<string, Json>)
    ensures var r := MainReadings(JObj(main)).value;
      ("feels_like" !in main ==> r.feelsLike == r.temp) &&
      ("temp_min" !in main ==> r.tempMin == r.temp) &&
      ("temp_max" !in main ==> r.tempMax == r.temp)
    ensures var r := MainReadings(JObj(main)).value;
      "temp" !in main && "feels_like" !in main && "temp_min" !in main && "temp_max" !in main ==>
        ReadingCard(r.temp) == ReadingCard(r.feelsLike) == ReadingCard(r.tempMin) == ReadingCard(r.tempMax) == NotAvailable
  {
  }

  /** Sunrise and sunset are shown together or not at all. */
  lemma SunTimesTogether(r: Reading)
    ensures CardsOf(r).sunrise.NotAvailable? <==> CardsOf(r).sunset.NotAvailable?
  {
  }

  /**
    * The visibility card shows the distance in kilometres exactly when `visibility`
    * is a positive number of metres.
    */
  lemma VisibilityShownExactly(data: Json)
    requires Extract(data).Some?
    ensures var raw := if "visibility" in data.fields then data.fields["visibility"] else JNum(0.0);
      var c := CardsOf(Extract(data).value).visibility;
      (c.Shows? <==> "visibility" in data.fields && IsNumber(raw) && NumberValue(raw) > 0.0) &&
      (c.Shows? ==> c.value.JNum? && c.value.n * 1000.0 == NumberValue(raw))
  {
  }

  /**
    * Wind speed, wind direction and cloud cover default to 0, and then read "N/A":
    * when the section is absent or lacks the reading.
    */
  lemma WindAndCloudDefaults(data: Json)
    requires Extract(data).Some?
    ensures var f := data.fields; var r := Extract(data).value;
      (("wind" !in f || (f["wind"].JObj? && "speed" !in f["wind"].fields)) ==>
        r.windSpeed == JNum(0.0) && CardsOf(r).windSpeed == NotAvailable) &&
      (("wind" !in f || (f["wind"].JObj? && "deg" !in f["wind"].fields)) ==>
        r.windDeg == JNum(0.0) && CardsOf(r).windDeg == NotAvailable) &&
      (("clouds" !in f || (f["clouds"].JObj? && "all" !in f["clouds"].fields)) ==>
        r.clouds == JNum(0.0) && CardsOf(r).clouds == NotAvailable)
  {
    var f := data.fields;
    var wind, clouds := Lookup(f, "wind", EmptyObject), Lookup(f, "clouds", EmptyObject);
    assert WindReadings(wind).Some? && Cloudiness(clouds).Some?;
  }

  /**
    * Humidity and pressure default to 0 inside `main` too, and then read "N/A"; so does
    * temp, which drags the other three temperatures with it. A present reading is shown as it is.
    */
  lemma MainFieldDefaults(data: Json)
    requires Extract(data).Some?
    ensures var f := data.fields; var r := Extract(data).value;
      var main := Lookup(f, "main", EmptyObject);
      main.JObj? &&
      ("temp" !in main.fields ==> r.main.temp == JNum(0.0) && CardsOf(r).temp == NotAvailable) &&
      ("humidity" !in main.fields ==> r.main.humidity == JNum(0.0) && CardsOf(r).humidity == NotAvailable) &&
      ("pressure" !in main.fields ==> r.main.pressure == JNum(0.0) && CardsOf(r).pressure == NotAvailable) &&
      ("temp" in main.fields ==> r.main.temp == main.fields["temp"]) &&
      ("humidity" in main.fields ==> r.main.humidity == main.fields["humidity"]) &&
      ("pressure" in main.fields ==> r.main.pressure == main.fields["pressure"])
  {
    assert MainReadings(Lookup(data.fields, "main", EmptyObject)).Some?;
  }

  /** A response with no sections at all is still extracted, entirely from the defaults. */
  lemma EmptyResponseExtracts()
    ensures Extract(EmptyObject).Some?
  {
    assert SysReadings(EmptyObject).Some?;
    assert WeatherInfo(JArr([EmptyObject])).Some?;
  }

  /** Removing a section never makes the extraction fail: every default is extractable. */
  lemma MissingSectionNeverFails(fields: map<string, Json>, k: string)
    requires Extract(JObj(fields)).Some?
    ensures Extract(JObj(fields - {k})).Some?
  {
    var g := fields - {k};
    assert KoreanName(Lookup(g, "name", JStr("알 수 없는 도시"))).Some?;
    assert SysReadings(Lookup(g, "sys", EmptyObject)).Some? by {
      assert SysReadings(EmptyObject).Some?;
    }
    assert MainReadings(Lookup(g, "main", EmptyObject)).Some?;
    assert WindReadings(Lookup(g, "wind", EmptyObject)).Some?;
    assert WeatherInfo(Lookup(g, "weather", JArr([EmptyObject]))).Some? by {
      assert WeatherInfo(JArr([EmptyObject])).Some?;
    }
    assert Kilometres(Lookup(g, "visibility", JNum(0.0))).Some?;
    assert Cloudiness(Lookup(g, "clouds", EmptyObject)).Some?;
  }

  /**
    * A reading of 0 in `main` looks exactly like a missing one: the two responses give
    * the same cards (the validation warning may differ).
    */
  lemma ZeroLooksMissing(fields: map<string, Json>, main: map<string, Json>, key: string)
    requires key in Validation.MainKeys
    ensures Extract(JObj(fields["main" := JObj(main[key := JNum(0.0)])])) ==
            Extract(JObj(fields["main" := JObj(main - {key})]))
  {
    var zero := fields["main" := JObj(main[key := JNum(0.0)])];
    var absent := fields["main" := JObj(main - {key})];
    assert forall k | k != "main" :: Lookup(zero, k, EmptyObject) == Lookup(absent, k, EmptyObject);
    assert Lookup(zero, "name", JStr("알 수 없는 도시")) == Lookup(absent, "name", JStr("알 수 없는 도시"));
    assert Lookup(zero, "weather", JArr([EmptyObject])) == Lookup(absent, "weather", JArr([EmptyObject]));
    assert Lookup(zero, "visibility", JNum(0.0)) == Lookup(absent, "visibility", JNum(0.0));
    ZeroReadingLooksMissing(main, key);
  }

  lemma ZeroReadingLooksMissing(main: map<string, Json>, key: string)
    requires key in Validation.MainKeys
    ensures MainReadings(JObj(main[key := JNum(0.0)])) == MainReadings(JObj(main - {key}))
  {
  }

  /**
    * A 200 answer with an empty dict is returned by get_weather, with a warning
    * naming all four sections, but the page then says nothing was found.
    */
  lemma EmptyBodyNotShown(city: string, service: Fetcher.Service)
    requires city != "" && Cities.Alternatives(city).None?
    requires service(0, Cities.ResolveQuery(city)) == Fetcher.Response(200, Some(EmptyObject))
    ensures Search(city, service) == NothingFound(Fetcher.MissingFieldsWarning(Fetcher.RequiredKeys))
  {
    Fetcher.EmptyBodyReturned(city, service);
    NoDataNothingFound(city, service);
  }

  /**
    * A lookup that ends without data (or with a falsy value) shows only the "not
    * found" error, next to the report of get_weather.
    */
  lemma NoDataNothingFound(city: string, service: Fetcher.Service)
    requires city != ""
    requires var reply := Fetcher.Fetch(city, service).reply;
      reply.Returned? && (reply.data.None? || !Truthy(reply.data.value))
    ensures Search(city, service) == NothingFound(Fetcher.Fetch(city, service).reply.report)
  {
  }

  /**
    * A response for "Gimpo" with temperature, humidity and pressure but no wind,
    * sun times, visibility or clouds.
    */
  predicate GimpoResponse(fields: map<string, Json>, main: map<string, Json>, info: map<string, Json>, temp: real)
  {
    "name" in fields && fields["name"] == JStr("Gimpo") &&
    "sys" in fields && fields["sys"] == EmptyObject &&
    "main" in fields && fields["main"] == JObj(main) &&
    "weather" in fields && fields["weather"] == JArr([JObj(info)]) &&
    "wind" !in fields && "visibility" !in fields && "clouds" !in fields &&
    "temp" in main && main["temp"] == JNum(temp) && temp != 0.0 &&
    "humidity" in main && main["humidity"] == JNum(60.0) &&
    "pressure" in main && main["pressure"] == JNum(1013.0) &&
    "feels_like" !in main && "temp_min" !in main && "temp_max" !in main &&
    "description" in info && info["description"] == JStr("맑음") &&
    "icon" in info && info["icon"] == JStr("01d")
  }

  /** The reading extracted from that response. */
  function GimpoExtracted(info: map<string, Json>, temp: real): Reading
  {
    Reading(JStr("김포"), JStr("N/A"),
      MainReading(JNum(temp), JNum(temp), JNum(temp), JNum(temp), JNum(60.0), JNum(1013.0)),
      JNum(0.0), JNum(0.0), JStr("맑음"), JStr("01d"), Lookup(info, "main", JStr("Clear")), UnknownTimes, 0.0, JNum(0.0))
  }

  /** The screen that display_weather draws for that response. */
  function GimpoScreenShown(temp: real): Screen
  {
    Screen(WeatherIcons.SunImage, WeatherIcons.WeatherIcon("01d"), JStr("김포"), "맑음",
      Cards(Shows(JNum(temp)), Shows(JNum(temp)), Shows(JNum(temp)), Shows(JNum(temp)),
            Shows(JNum(60.0)), Shows(JNum(1013.0)), NotAvailable, NotAvailable,
            NotAvailable, NotAvailable, NotAvailable, NotAvailable))
  }

  /** The response passes validation. */
  lemma GimpoValid(fields: map<string, Json>, main: map<string, Json>, info: map<string, Json>, temp: real)
    requires GimpoResponse(fields, main, info, temp)
    ensures Validation.Validate(JObj(fields)) == Validation.Valid
  {
    Validation.ValidExactly(JObj(fields));
  }

  /**
    * Extraction translates the name back to Korean and falls back to the defaults:
    * "N/A" for the country, the temperature for feels_like and the extremes, 0 for
    * wind, visibility and clouds, and no sun times.
    */
  lemma GimpoReading(fields: map<string, Json>, main: map<string, Json>, info: map<string, Json>, temp: real)
    requires GimpoResponse(fields, main, info, temp)
    ensures Extract(JObj(fields)) == Some(GimpoExtracted(info, temp))
  {
    CityRows.GimpoTranslatesBack();
  }

  /** Code "01d" picks the sun picture whatever the condition; the zero readings show "N/A". */
  lemma GimpoRender(info: map<string, Json>, temp: real)
    requires temp != 0.0
    ensures Render(GimpoExtracted(info, temp)) == Some(GimpoScreenShown(temp))
  {
  }

  /**
    * The page for that response: no warning, the Korean name, the sun picture and
    * emoji of code "01d", the description, and "N/A" for every reading it lacks.
    */
  lemma GimpoPage(fields: map<string, Json>, main: map<string, Json>, info: map<string, Json>, temp: real)
    requires GimpoResponse(fields, main, info, temp)
    ensures DisplayWeather(JObj(fields)) == Shown(None, GimpoScreenShown(temp))
  {
    GimpoValid(fields, main, info, temp);
    GimpoReading(fields, main, info, temp);
    GimpoRender(info, temp);
  }
}
