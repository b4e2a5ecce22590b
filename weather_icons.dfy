/**
  * The two classifiers of a weather reading in weather_app.py: the emoji shown
  * beside the city name and the background picture.
  */
module WeatherIcons {
  import opened Wrappers

  /** The icon codes OpenWeatherMap documents: 01-04, 09-11, 13 and 50, by day and by night. */
  predicate IsKnownCode(code: string)
  {
    code in ["01d", "01n", "02d", "02n", "03d", "03n", "04d", "04n", "09d", "09n",
             "10d", "10n", "11d", "11n", "13d", "13n", "50d", "50n"]
  }

  /** The `weather_icons` dictionary of get_weather_icon. */
  function IconTable(code: string): Option<string>
  {
    match code
    case "01d" => Some("☀️")
    case "01n" => Some("🌙")
    case "02d" => Some("⛅")
    case "02n" => Some("☁️")
    case "03d" => Some("☁️")
    case "03n" => Some("☁️")
    case "04d" => Some("☁️")
    case "04n" => Some("☁️")
    case "09d" => Some("🌧️")
    case "09n" => Some("🌧️")
    case "10d" => Some("🌦️")
    case "10n" => Some("🌧️")
    case "11d" => Some("⛈️")
    case "11n" => Some("⛈️")
    case "13d" => Some("❄️")
    case "13n" => Some("❄️")
    case "50d" => Some("🌫️")
    case "50n" => Some("🌫️")
    case _ => None
  }

  /** The emoji get_weather_icon falls back to. */
  const DefaultIcon: string := "🌤️"

  /** get_weather_icon: the table's emoji, or the fallback for a code it does not list. */
  function WeatherIcon(code: string): (r: string)
    ensures IconTable(code).Some? ==> r == IconTable(code).value
    ensures IconTable(code).None? ==> r == DefaultIcon
  {
    IconTable(code).GetOr(DefaultIcon)
  }

  /** The emoji table covers exactly the documented codes, and never uses the fallback emoji. */
  lemma IconTableDomain(code: string)
    ensures IconTable(code).Some? <==> IsKnownCode(code)
    ensures WeatherIcon(code) == DefaultIcon <==> !IsKnownCode(code)
  {
  }

  const SunImage: string := "images/sun.jpeg"
  const CloudImage: string := "images/cloud.jpeg"
  const RainImage: string := "images/rain.jpeg"
  const SnowImage: string := "images/snow.jpeg"

  /** The `weather_images` dictionary of get_weather_image: picture by main condition group. */
  function ConditionImage(main: string): Option<string>
  {
    match main
    case "Clear" => Some(SunImage)
    case "Clouds" => Some(CloudImage)
    case "Rain" => Some(RainImage)
    case "Drizzle" => Some(RainImage)
    case "Thunderstorm" => Some(RainImage)
    case "Snow" => Some(SnowImage)
    case "Mist" => Some(CloudImage)
    case "Fog" => Some(CloudImage)
    case "Haze" => Some(CloudImage)
    case "Dust" => Some(CloudImage)
    case "Sand" => Some(CloudImage)
    case "Ash" => Some(CloudImage)
    case "Squall" => Some(RainImage)
    case "Tornado" => Some(RainImage)
    case _ => None
  }

  /** The `if`/`elif` chain of get_weather_image on the icon code. */
  function CodeImage(code: string): (r: Option<string>)
    ensures r.Some? <==> IsKnownCode(code)
  {
    if code in ["01d", "01n"] then Some(SunImage)
    else if code in ["02d", "02n", "03d", "03n", "04d", "04n"] then Some(CloudImage)
    else if code in ["09d", "09n", "10d", "10n", "11d", "11n"] then Some(RainImage)
    else if code in ["13d", "13n"] then Some(SnowImage)
    else if code in ["50d", "50n"] then Some(CloudImage)
    else None
  }

  /**
    * get_weather_image: a documented icon code decides the picture; otherwise the
    * main condition group does, and an unknown group gets the sun.
    */
  function WeatherImage(main: string, code: string): (r: string)
    ensures r in {SunImage, CloudImage, RainImage, SnowImage}
    ensures IsKnownCode(code) ==> r == CodeImage(code).value
    ensures !IsKnownCode(code) && ConditionImage(main).Some? ==> r == ConditionImage(main).value
    ensures !IsKnownCode(code) && ConditionImage(main).None? ==> r == SunImage
  {
    match CodeImage(code)
    case Some(path) => path
    case None => ConditionImage(main).GetOr(SunImage)
  }

  /** With a documented icon code the condition group is never consulted. */
  lemma CodeTakesPrecedence(main1: string, main2: string, code: string)
    requires IsKnownCode(code)
    ensures WeatherImage(main1, code) == WeatherImage(main2, code)
  {
  }

  /** The picture family an emoji belongs to. */
  function ImageOfIcon(icon: string): Option<string>
  {
    if icon == "☀️" || icon == "🌙" then Some(SunImage)
    else if icon == "☁️" || icon == "⛅" || icon == "🌫️" then Some(CloudImage)
    else if icon == "⛈️" || icon == "🌦️" || icon == "🌧️" then Some(RainImage)
    else if icon == "❄️" then Some(SnowImage)
    else None
  }

  /** For a documented code, the emoji and the background picture tell the same weather. */
  lemma IconAgreesWithImage(main: string, code: string)
    requires IsKnownCode(code)
    ensures ImageOfIcon(WeatherIcon(code)) == Some(WeatherImage(main, code))
  {
  }
}
