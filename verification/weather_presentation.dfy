/**
 * The presentation half of lib/weather-api.ts: the table from WMO weather
 * interpretation codes to an Italian description and an icon name, its
 * lookup with a fixed fallback, and the temperature and wind-speed
 * formatters. Each formatter is paired with a parser of the text it
 * produces, so that its contract can say which reading the text shows.
 */
module WeatherPresentation {
  import opened Wrappers
  import opened NumberText

  datatype WeatherInfo = WeatherInfo(description: string, icon: string)

  /** The WMO codes the table covers. */
  const WmoCodes: set<int> :=
    {0, 1, 2, 3, 45, 48, 51, 53, 55, 61, 63, 65, 71, 73, 75, 77, 80, 81, 82, 85, 86, 95, 96, 99}

  /** The fixed table of WMO weather interpretation codes. */
  const WeatherCodeDescriptions: map<int, WeatherInfo> := map[
    0 := WeatherInfo("Sereno", "sun.max.fill"),
    1 := WeatherInfo("Principalmente sereno", "sun.max.fill"),
    2 := WeatherInfo("Parzialmente nuvoloso", "cloud.sun.fill"),
    3 := WeatherInfo("Nuvoloso", "cloud.fill"),
    45 := WeatherInfo("Nebbioso", "cloud.fog.fill"),
    48 := WeatherInfo("Deposito di brina", "cloud.fog.fill"),
    51 := WeatherInfo("Pioggia leggera", "cloud.drizzle.fill"),
    53 := WeatherInfo("Pioggia moderata", "cloud.drizzle.fill"),
    55 := WeatherInfo("Pioggia intensa", "cloud.drizzle.fill"),
    61 := WeatherInfo("Pioggia leggera", "cloud.rain.fill"),
    63 := WeatherInfo("Pioggia moderata", "cloud.rain.fill"),
    65 := WeatherInfo("Pioggia intensa", "cloud.rain.fill"),
    71 := WeatherInfo("Neve leggera", "cloud.snow.fill"),
    73 := WeatherInfo("Neve moderata", "cloud.snow.fill"),
    75 := WeatherInfo("Neve intensa", "cloud.snow.fill"),
    77 := WeatherInfo("Chicchi di neve", "cloud.snow.fill"),
    80 := WeatherInfo("Pioggia leggera", "cloud.rain.fill"),
    81 := WeatherInfo("Pioggia moderata", "cloud.rain.fill"),
    82 := WeatherInfo("Pioggia intensa", "cloud.rain.fill"),
    85 := WeatherInfo("Neve leggera", "cloud.snow.fill"),
    86 := WeatherInfo("Neve intensa", "cloud.snow.fill"),
    95 := WeatherInfo("Temporale", "cloud.bolt.fill"),
    96 := WeatherInfo("Temporale con grandine", "cloud.bolt.fill"),
    99 := WeatherInfo("Temporale con grandine", "cloud.bolt.fill")
  ]

  /** What the lookup answers for a code the table does not hold. */
  const UnknownWeather := WeatherInfo("Sconosciuto", "questionmark.circle.fill")

  /** The table holds exactly the 24 listed codes. */
  lemma TableKeys()
    ensures WeatherCodeDescriptions.Keys == WmoCodes
  {
  }

  /** Every table entry has a non-empty description and a non-empty icon,
      and none of them is the fallback. */
  lemma TableEntriesFilled()
    ensures forall code :: code in WeatherCodeDescriptions ==>
              WeatherCodeDescriptions[code].description != "" && WeatherCodeDescriptions[code].icon != ""
    ensures UnknownWeather !in WeatherCodeDescriptions.Values
  {
  }

  /** Looks a code up in the table; a code that is not a key gets the
      fallback. A table entry is an object and so never falsy, so the
      fallback is taken for missing keys only. */
  function GetWeatherInfo(code: int): (info: WeatherInfo)
    ensures info.description != "" && info.icon != ""
    ensures code in WmoCodes ==> info in WeatherCodeDescriptions.Values
  {
    TableKeys();
    TableEntriesFilled();
    if code in WeatherCodeDescriptions then WeatherCodeDescriptions[code] else UnknownWeather
  }

  /** Matching is on exact keys: the fallback comes back exactly for the codes
      outside the table, and a code in the table gets its own entry. */
  lemma GetWeatherInfoExactKeys(code: int)
    ensures GetWeatherInfo(code) == UnknownWeather <==> code !in WmoCodes
    ensures code in WmoCodes ==> GetWeatherInfo(code) == WeatherCodeDescriptions[code]
  {
    TableKeys();
    TableEntriesFilled();
  }

  /** The cases of lib/weather-api.test.ts. */
  lemma GetWeatherInfoExamples()
    ensures GetWeatherInfo(0) == WeatherInfo("Sereno", "sun.max.fill")
    ensures GetWeatherInfo(3) == WeatherInfo("Nuvoloso", "cloud.fill")
    ensures GetWeatherInfo(61) == WeatherInfo("Pioggia leggera", "cloud.rain.fill")
    ensures GetWeatherInfo(95) != UnknownWeather
    ensures GetWeatherInfo(999) == WeatherInfo("Sconosciuto", "questionmark.circle.fill")
  {
  }

  // Temperature

  datatype TemperatureUnit = Celsius | Fahrenheit

  /** A reading as shown on screen: a whole number and its unit. */
  datatype Reading<U> = Reading(amount: int, unit: U)

  function ToFahrenheit(celsius: real): real {
    celsius * 9.0 / 5.0 + 32.0
  }

  /** A Celsius temperature expressed in the given unit, before rounding. */
  function TemperatureIn(celsius: real, unit: TemperatureUnit): real {
    match unit
    case Celsius => celsius
    case Fahrenheit => ToFahrenheit(celsius)
  }

  function TemperatureSuffix(unit: TemperatureUnit): string {
    match unit
    case Celsius => "°C"
    case Fahrenheit => "°F"
  }

  /** The integer in front of a given suffix, if the text ends with it. */
  function ParseSuffixed(s: string, suffix: string): Option<int> {
    if |s| >= |suffix| && s[|s| - |suffix|..] == suffix then ParseInt(s[..|s| - |suffix|]) else None
  }

  lemma ParseSuffixedOfPrinted(n: int, suffix: string)
    ensures ParseSuffixed(IntToText(n) + suffix, suffix) == Some(n)
  {
    var s := IntToText(n) + suffix;
    assert s[|s| - |suffix|..] == suffix;
    assert s[..|s| - |suffix|] == IntToText(n);
  }

  /** Reads back a text produced by FormatTemperature. */
  function ParseTemperature(s: string): Option<Reading<TemperatureUnit>> {
    match ParseSuffixed(s, TemperatureSuffix(Celsius))
    case Some(n) => Some(Reading(n, Celsius))
    case None =>
      match ParseSuffixed(s, TemperatureSuffix(Fahrenheit))
      case Some(n) => Some(Reading(n, Fahrenheit))
      case None => None
  }

  /** Formats a Celsius temperature; the unit defaults to Celsius. The text
      shows the requested unit and the whole number nearest to the
      temperature in that unit, halves rounded up. */
  function FormatTemperature(temp: real, unit: TemperatureUnit := Celsius): (s: string)
    ensures ParseTemperature(s).Some?
    ensures ParseTemperature(s).value.unit == unit
    ensures var shown := ParseTemperature(s).value.amount as real;
            shown - 0.5 <= TemperatureIn(temp, unit) < shown + 0.5
  {
    if unit == Fahrenheit then
      var fahrenheit := temp * 9.0 / 5.0 + 32.0;
      var n := Round(fahrenheit);
      ParseSuffixedOfPrinted(n, "°F");
      assert ParseSuffixed(IntToText(n) + "°F", "°C") == None;
      IntToText(n) + "°F"
    else
      var n := Round(temp);
      ParseSuffixedOfPrinted(n, "°C");
      IntToText(n) + "°C"
  }

  /** The whole number a formatted temperature shows. */
  function ShownTemperature(temp: real, unit: TemperatureUnit): int {
    ParseTemperature(FormatTemperature(temp, unit)).value.amount
  }

  /** A warmer temperature never shows a smaller number, in either unit. */
  lemma ShownTemperatureMonotone(t1: real, t2: real, unit: TemperatureUnit)
    requires t1 <= t2
    ensures ShownTemperature(t1, unit) <= ShownTemperature(t2, unit)
  {
  }

  /** The Celsius cases of lib/weather-api.test.ts, plus a negative half and
      a negative value that rounds to zero. */
  lemma FormatCelsiusExamples()
    ensures FormatTemperature(22.5, Celsius) == "23°C"
    ensures FormatTemperature(0.0, Celsius) == "0°C"
    ensures FormatTemperature(-5.2, Celsius) == "-5°C"
    ensures FormatTemperature(-2.5, Celsius) == "-2°C"
    ensures FormatTemperature(-0.2, Celsius) == "0°C"
  {
  }

  /** The Fahrenheit cases of lib/weather-api.test.ts. */
  lemma FormatFahrenheitExamples()
    ensures FormatTemperature(0.0, Fahrenheit) == "32°F"
    ensures FormatTemperature(20.0, Fahrenheit) == "68°F"
  {
  }

  /** Leaving the unit out formats in Celsius. */
  lemma FormatTemperatureDefault(temp: real)
    ensures FormatTemperature(temp) == FormatTemperature(temp, Celsius)
    ensures FormatTemperature(22.5) == "23°C"
  {
    FormatCelsiusExamples();
  }

  // Wind speed

  datatype WindUnit = KilometresPerHour | MetresPerSecond

  /** A speed in km/h expressed in the given unit, before rounding. */
  function WindSpeedIn(kmh: real, unit: WindUnit): real {
    match unit
    case KilometresPerHour => kmh
    case MetresPerSecond => kmh / 3.6
  }

  function WindSuffix(unit: WindUnit): string {
    match unit
    case KilometresPerHour => " km/h"
    case MetresPerSecond => " m/s"
  }

  /** Reads back a text produced by FormatWindSpeed. */
  function ParseWindSpeed(s: string): Option<Reading<WindUnit>> {
    match ParseSuffixed(s, WindSuffix(KilometresPerHour))
    case Some(n) => Some(Reading(n, KilometresPerHour))
    case None =>
      match ParseSuffixed(s, WindSuffix(MetresPerSecond))
      case Some(n) => Some(Reading(n, MetresPerSecond))
      case None => None
  }

  /** Formats a speed given in km/h; the unit defaults to km/h. The text
      shows the requested unit and the whole number nearest to the speed in
      that unit, halves rounded up. */
  function FormatWindSpeed(speed: real, unit: WindUnit := KilometresPerHour): (s: string)
    ensures ParseWindSpeed(s).Some?
    ensures ParseWindSpeed(s).value.unit == unit
    ensures var shown := ParseWindSpeed(s).value.amount as real;
            shown - 0.5 <= WindSpeedIn(speed, unit) < shown + 0.5
  {
    if unit == MetresPerSecond then
      var n := Round(speed / 3.6);
      ParseSuffixedOfPrinted(n, " m/s");
      assert ParseSuffixed(IntToText(n) + " m/s", " km/h") == None;
      IntToText(n) + " m/s"
    else
      var n := Round(speed);
      ParseSuffixedOfPrinted(n, " km/h");
      IntToText(n) + " km/h"
  }

  /** The cases of lib/weather-api.test.ts. */
  lemma FormatWindSpeedExamples()
    ensures FormatWindSpeed(10.0, KilometresPerHour) == "10 km/h"
    ensures FormatWindSpeed(25.5, KilometresPerHour) == "26 km/h"
    ensures FormatWindSpeed(36.0, MetresPerSecond) == "10 m/s"
    ensures FormatWindSpeed(15.0) == "15 km/h"
  {
    // Without these steps the solver runs out of resource on some seeds.
    assert Round(36.0 / 3.6) == 10;
    assert IntToText(10) == "10" && IntToText(26) == "26" && IntToText(15) == "15";
  }
}
