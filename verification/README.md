# Weather data layer — a verified model

This project models the data layer of a small weather-forecast app, `lib/weather-api.ts`.
The app shows current conditions and a 7-day forecast from the Open-Meteo provider.
The data layer has four parts:

- a fixed table from WMO weather-interpretation codes to an Italian description and an
  icon name, looked up with a fixed fallback (`getWeatherInfo`);
- two formatters, `formatTemperature` (Celsius, or Fahrenheit via `c*9/5+32`) and
  `formatWindSpeed` (km/h, or m/s via `/3.6`). Each rounds with `Math.round` and appends
  a unit suffix;
- the decision `fetchWeatherData` takes on a forecast response: fail on a non-ok status,
  otherwise reshape the provider's flat field names into the nested `WeatherData`;
- the decision `geocodeLocation` takes on a geocoding response: fail on a non-ok status,
  otherwise give one location per match, defaulting `country` to `""` and `timezone`
  to `"UTC"`.

The model has four modules, one file each:

- `Wrappers` (`wrappers.dfy`): an `Option` type for JSON values that may be absent.
- `NumberText` (`number_text.dfy`): JavaScript's `Math.round` over `real`, and the
  decimal text that a template literal gives an integer. A parser is its inverse.
- `WeatherPresentation` (`weather_presentation.dfy`): the code table, the lookup and both
  formatters. Each formatter has a parser of its own output, so that its contract can say
  which whole number and unit the text shows.
- `WeatherClient` (`weather_client.dfy`): responses are values `(ok, statusText, body)`.
  A failure is an `Err` value that carries no data. The forecast reshape has an inverse,
  `Flatten`, which shows that nothing is lost or changed.

Three details of the code that the model keeps:

- An unknown code gives `("Sconosciuto", "questionmark.circle.fill")`.
- Rounding is JavaScript `Math.round`, where halves go toward +infinity: -2.5 shows as "-2".
- A negative reading is printed with the ASCII hyphen-minus: "-5°C".

## Model

| member | source | states |
|---|---|---|
| NumberText.Round | lib/weather-api.ts:158-160 | `Math.round(x)` is the integer n with n - 1/2 <= x < n + 1/2, so halves go up |
| NumberText.RoundUnique | lib/weather-api.ts:158-160 | that condition fixes the rounded integer uniquely |
| NumberText.RoundMonotone | lib/weather-api.ts:158-160 | rounding never reverses the order of two numbers |
| NumberText.RoundOfInteger | lib/weather-api.ts:158-160 | an integer rounds to itself |
| NumberText.NatToNumeral | lib/weather-api.ts:158-160 | the printed magnitude is a canonical numeral: digits only, no leading zero, denoting exactly n |
| NumberText.IntToText | lib/weather-api.ts:158-160 | the text `${n}` of an integer parses back to n |
| NumberText.NumeralOfValue | lib/weather-api.ts:158-160 | every canonical numeral is the printed form of its value |
| NumberText.ParsedTextIsPrinted | lib/weather-api.ts:158-160 | every text that parses to n is the text of n, so printing and parsing are inverse both ways |
| NumberText.IntToTextInjective | lib/weather-api.ts:158-160 | distinct integers print differently |
| WeatherPresentation.TableKeys | lib/weather-api.ts:40-65 | the table's keys are exactly the 24 codes 0, 1, 2, 3, 45, 48, 51, 53, 55, 61, 63, 65, 71, 73, 75, 77, 80, 81, 82, 85, 86, 95, 96, 99 |
| WeatherPresentation.TableEntriesFilled | lib/weather-api.ts:40-65 | every entry has a non-empty description and icon, and no entry equals the fallback |
| WeatherPresentation.GetWeatherInfo | lib/weather-api.ts:148-150 | the lookup never returns an empty description or icon, and a table code gets a table entry |
| WeatherPresentation.GetWeatherInfoExactKeys | lib/weather-api.ts:148-150 | the fallback comes back exactly for codes outside the table; a table code gets exactly its own entry |
| WeatherPresentation.GetWeatherInfoExamples | lib/weather-api.test.ts:13-91 | codes 0, 3 and 61 give their entries, 95 is defined, 999 gives the fallback |
| WeatherPresentation.FormatTemperature | lib/weather-api.ts:155-161 | the text reads back as the requested unit (Celsius by default) and the whole number nearest the temperature in that unit, halves up |
| WeatherPresentation.ShownTemperatureMonotone | lib/weather-api.ts:155-161 | a higher temperature never shows a smaller number, in Celsius or Fahrenheit |
| WeatherPresentation.FormatCelsiusExamples | lib/weather-api.test.ts:39-43 | 22.5 gives "23°C", 0 "0°C", -5.2 "-5°C"; also -2.5 gives "-2°C" and -0.2 gives "0°C" |
| WeatherPresentation.FormatFahrenheitExamples | lib/weather-api.test.ts:45-48 | 0 gives "32°F" and 20 gives "68°F" |
| WeatherPresentation.FormatTemperatureDefault | lib/weather-api.test.ts:50-52 | leaving the unit out formats in Celsius: 22.5 gives "23°C" |
| WeatherPresentation.FormatWindSpeed | lib/weather-api.ts:166-171 | the text reads back as the requested unit (km/h by default) and the whole number nearest the speed in that unit, halves up |
| WeatherPresentation.FormatWindSpeedExamples | lib/weather-api.test.ts:56-67 | 10 gives "10 km/h", 25.5 "26 km/h", 36 in m/s "10 m/s", 15 by default "15 km/h" |
| WeatherClient.ReshapeCurrent | lib/weather-api.ts:93-103 | the current conditions rebuild, under the provider's names, exactly the payload they came from (humidity, pressure and feels-like included) |
| WeatherClient.ReshapeDaily | lib/weather-api.ts:104-111 | the daily series rebuild exactly the payload they came from; each keeps its length, so the output series line up exactly when the input series did |
| WeatherClient.FetchWeatherData | lib/weather-api.ts:83-112 | a non-ok status fails with "Weather API error: " + status text, and only a non-ok status gives that error; a missing current or daily block gives a malformed-response error naming it; a result exists exactly when the status is ok and both blocks are present, and then flattening it gives back the body |
| WeatherClient.FetchOfFlattened | lib/weather-api.ts:89-112 | every snapshot is produced from its flattened body, so the reshape is a bijection |
| WeatherClient.FetchInjective | lib/weather-api.ts:89-112 | two successful fetches give the same snapshot exactly when their bodies are equal |
| WeatherClient.NormaliseLocation | lib/weather-api.ts:136-142 | coordinates and name are copied; country is "" exactly when absent or empty; time zone is never empty and falls back to "UTC" |
| WeatherClient.NormaliseLocations | lib/weather-api.ts:136-142 | one location per match, same length and order |
| WeatherClient.GeocodeLocation | lib/weather-api.ts:126-142 | a non-ok status fails with "Geocoding API error: " + status text; an ok status always succeeds, with one normalised location per match in order, and `[]` when the list is absent or empty |
| WeatherClient.NormaliseLocationIdempotent | lib/weather-api.ts:140-141 | normalising a normalised location again changes nothing |
| WeatherClient.GeocodedLocationsHaveTimezone | lib/weather-api.ts:141 | every geocoded location has a non-empty time zone |

## Left out

- URL construction, `fetch`, `response.json()` and `async`/`await` (lib/weather-api.ts:74-82, 119-125, 87, 130) are network I/O. The response comes in as a value with the body already decoded, and a JSON parse failure is not modelled.
- The `count=10` request parameter is a request to the provider. The code does not enforce it, so the model puts no bound on the number of matches.
- `getDayName` and `getShortDayName` (lib/weather-api.ts:176-187) depend on JavaScript `Date` parsing, `Intl` locale data and the host time zone. These are foreign library calls.
- `hooks/use-weather.ts` and the screens under `app/` are UI state and rendering around the data layer. They are not part of this model.
- Numbers are `real`, so IEEE-754 binary rounding of `*9/5` and `/3.6` is not reproduced. Neither are NaN and the infinities.
- NumberText.IntToText: JavaScript prints magnitudes of 10^21 and above in exponent form; the model always prints plain decimal digits.
- WeatherPresentation.GetWeatherInfo: codes are integers. A non-integer JavaScript number, which would also miss the table, is not modelled.
- WeatherClient.FetchWeatherData: leaf fields of the body are typed values. A leaf field missing upstream, which JavaScript would pass through as `undefined`, is not modelled. A missing `current` or `daily` block is modelled as `MalformedResponse` naming the block, not as the engine's TypeError text.
- WeatherClient.GeocodeLocation: `results` is either absent or a list. A non-list value is not modelled, nor is a non-object match.
- Failures are `Err` values, not thrown exceptions or rejected promises.
