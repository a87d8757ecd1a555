/** The weather card (components/features/WeatherWidget.tsx): which panel
    it shows for the Open-Meteo reply, and the icon and text it picks for
    the reported weather code, a WMO weather interpretation code (WMO code
    table 4677, as Open-Meteo uses it). */
module WeatherWidget {
  import opened Text

  /** The lucide icons the card draws. */
  datatype Glyph = Sun | Cloud | CloudRain | CloudSnow

  /** An icon and its Tailwind colour class. */
  datatype Icon = Icon(glyph: Glyph, colour: string)

  /** `getWeatherIcon` (WeatherWidget.tsx:40-47): the first matching range wins. */
  function IconFor(code: int): (i: Icon)
    ensures i.glyph == Sun ==> i.colour == "text-yellow-400"
    ensures i.glyph == Cloud ==> i.colour == "text-gray-400"
    ensures i.glyph == CloudSnow ==> i.colour == "text-cyan-300"
    ensures i.glyph == CloudRain ==> (i.colour == "text-blue-500" <==> 80 <= code <= 99)
    ensures i.glyph == CloudRain ==> (i.colour == "text-blue-400" <==> 51 <= code <= 67)
  {
    if code == 0 || code == 1 then Icon(Sun, "text-yellow-400")
    else if 2 <= code <= 3 then Icon(Cloud, "text-gray-400")
    else if 51 <= code <= 67 then Icon(CloudRain, "text-blue-400")
    else if 71 <= code <= 77 then Icon(CloudSnow, "text-cyan-300")
    else if 80 <= code <= 99 then Icon(CloudRain, "text-blue-500")
    else Icon(Cloud, "text-gray-400")
  }

  /** `getWeatherDescription` (WeatherWidget.tsx:49-59). */
  function Description(code: int): (d: string)
    ensures d in {"Clear sky", "Mainly clear", "Partly cloudy", "Overcast", "Drizzle",
                  "Rain", "Rain showers", "Thunderstorm", "Cloudy"}
  {
    if code == 0 then "Clear sky"
    else if code == 1 then "Mainly clear"
    else if code == 2 then "Partly cloudy"
    else if code == 3 then "Overcast"
    else if 51 <= code <= 55 then "Drizzle"
    else if 61 <= code <= 65 then "Rain"
    else if 80 <= code <= 82 then "Rain showers"
    else if 95 <= code <= 99 then "Thunderstorm"
    else "Cloudy"
  }

  // ---------------------------------------------------------------------
  // The WMO code groups, as an independent reference

  /** The groups of WMO code table 4677 that Open-Meteo reports. */
  datatype WmoGroup =
    | ClearSky | MainlyClear | PartlyCloudy | Overcast
    | Fog | Drizzle | FreezingDrizzle | Rain | FreezingRain
    | Snowfall | SnowGrains | RainShowers | SnowShowers
    | Thunderstorm | ThunderstormWithHail
    | NotAWmoCode

  function GroupOf(code: int): WmoGroup
  {
    match code
    case 0 => ClearSky
    case 1 => MainlyClear
    case 2 => PartlyCloudy
    case 3 => Overcast
    case 45 => Fog
    case 48 => Fog
    case 51 => Drizzle
    case 53 => Drizzle
    case 55 => Drizzle
    case 56 => FreezingDrizzle
    case 57 => FreezingDrizzle
    case 61 => Rain
    case 63 => Rain
    case 65 => Rain
    case 66 => FreezingRain
    case 67 => FreezingRain
    case 71 => Snowfall
    case 73 => Snowfall
    case 75 => Snowfall
    case 77 => SnowGrains
    case 80 => RainShowers
    case 81 => RainShowers
    case 82 => RainShowers
    case 85 => SnowShowers
    case 86 => SnowShowers
    case 95 => Thunderstorm
    case 96 => ThunderstormWithHail
    case 99 => ThunderstormWithHail
    case _ => NotAWmoCode
  }

  /** The description of every WMO group: the eight named ones get their
      own text, and fog, freezing drizzle and rain, snow of every kind and
      codes outside the table all read "Cloudy". */
  lemma DescriptionByGroup(code: int)
    ensures GroupOf(code) == ClearSky ==> Description(code) == "Clear sky"
    ensures GroupOf(code) == MainlyClear ==> Description(code) == "Mainly clear"
    ensures GroupOf(code) == PartlyCloudy ==> Description(code) == "Partly cloudy"
    ensures GroupOf(code) == Overcast ==> Description(code) == "Overcast"
    ensures GroupOf(code) == Drizzle ==> Description(code) == "Drizzle"
    ensures GroupOf(code) == Rain ==> Description(code) == "Rain"
    ensures GroupOf(code) == RainShowers ==> Description(code) == "Rain showers"
    ensures GroupOf(code) in {Thunderstorm, ThunderstormWithHail} ==> Description(code) == "Thunderstorm"
    ensures GroupOf(code) in {Fog, FreezingDrizzle, FreezingRain, Snowfall, SnowGrains, SnowShowers}
            ==> Description(code) == "Cloudy"
  {
  }

  /** "Cloudy" is the text of exactly the integers outside the eight
      described ranges. */
  lemma CloudyIff(code: int)
    ensures Description(code) == "Cloudy" <==>
      !(0 <= code <= 3 || 51 <= code <= 55 || 61 <= code <= 65 || 80 <= code <= 82 || 95 <= code <= 99)
  {
  }

  /** The icon by range: the sun for 0-1, snow for 71-77, rain for 51-67 and
      80-99, a cloud for everything else. */
  lemma IconIff(code: int)
    ensures IconFor(code).glyph == Sun <==> code == 0 || code == 1
    ensures IconFor(code).glyph == CloudSnow <==> 71 <= code <= 77
    ensures IconFor(code).glyph == CloudRain <==> 51 <= code <= 67 || 80 <= code <= 99
    ensures IconFor(code).glyph == Cloud <==>
      !(0 <= code <= 1 || 51 <= code <= 67 || 71 <= code <= 77 || 80 <= code <= 99)
  {
  }

  /** Wherever the text names precipitation, the icon shows rain. */
  lemma PrecipitationTextHasRainIcon(code: int)
    requires Description(code) in {"Drizzle", "Rain", "Rain showers", "Thunderstorm"}
    ensures IconFor(code).glyph == CloudRain
  {
  }

  /** The two mappings disagree: snow codes show the snow icon but read
      "Cloudy", and freezing drizzle and rain and snow showers show rain but
      read "Cloudy". */
  lemma IconAndTextDisagree(code: int)
    ensures GroupOf(code) in {Snowfall, SnowGrains} ==>
      IconFor(code).glyph == CloudSnow && Description(code) == "Cloudy"
    ensures GroupOf(code) in {FreezingDrizzle, FreezingRain, SnowShowers} ==>
      IconFor(code).glyph == CloudRain && Description(code) == "Cloudy"
  {
  }

  // ---------------------------------------------------------------------
  // The panel

  /** The `current` block of the reply. */
  datatype Current = Current(temperature: real, humidity: int, weatherCode: int, windSpeed: real)

  /** The state of the request: loading, failed, or answered with a body
      that may lack `current`. */
  datatype Reply = Loading | Failed | Answered(current: Option<Current>)

  datatype Panel = LoadingPanel | ErrorPanel | WeatherPanel(icon: Icon, description: string, current: Current)

  /** WeatherWidget.tsx:16-37. */
  function Render(reply: Reply): (p: Panel)
    ensures p.LoadingPanel? <==> reply.Loading?
    ensures p.ErrorPanel? <==> reply.Failed? || (reply.Answered? && reply.current.None?)
    ensures p.WeatherPanel? ==>
      && reply.Answered? && reply.current == Some(p.current)
      && p.icon == IconFor(p.current.weatherCode)
      && p.description == Description(p.current.weatherCode)
  {
    match reply
    case Loading => LoadingPanel
    case Failed => ErrorPanel
    case Answered(current) =>
      match current
      case None => ErrorPanel
      case Some(c) => WeatherPanel(IconFor(c.weatherCode), Description(c.weatherCode), c)
  }
}
