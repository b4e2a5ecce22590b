# Weather lookup core of weather_app.py, in Dafny

weather_app.py is a Streamlit page that shows the current weather of a South
Korean city from OpenWeatherMap. This project models the part of it that makes
decisions, and proves what it does:

- **Name tables** (`Cities`, `CityRows`):
  - `KOREAN_CITIES` maps a Korean city name to the query sent to the service, for example `"Gimpo-si,KR"`.
  - The alternatives table inside `get_weather` lists, for 55 names, the spellings to try in order.
  - The dictionary of `get_korean_city_name` maps a romanised name back to Korean.
  - The tables are transcribed entry by entry, in source order. The reverse dictionary repeats 11 keys in the source, each time with the same value; the model keeps one entry per key, where the first occurrence is.
- **`get_weather`** (`Fetcher`):
  - It tries the alternative spellings, keeps the first 200 answer whose body is usable, and otherwise sends one final request.
  - It classifies that final answer: warning, invalid key, not found, other status, timeout, network error or undecodable body.
  - The weather service is a parameter of type `Service`. It gives the outcome of the n-th request of one lookup, so a lookup can be checked against every possible behaviour of the service.
  - `GetWeather` and `SendRequests` are the loop, with a ghost record of the queries sent.
  - `Fetch` is the function that specifies them.
- **`validate_weather_data`** (`Validation`): the structural check of a response, as a function and as the loop the code runs.
- **`get_weather_icon` and `get_weather_image`** (`WeatherIcons`): the emoji and the background picture for an icon code and a condition group.
- **`display_weather` and the search button** (`Display`):
  - which values of a response reach the screen, and with which defaults;
  - when a card reads "N/A";
  - which malformed responses end in the error message or in an exception.
- **Python semantics** (`PyJson`): a decoded JSON value (`Json`) and the parts of Python's semantics the code applies to it: truthiness, `key in value`, and `value == 0`. Where Python would raise, the model says so explicitly.

Behaviour of the code a reader may not expect; the model follows the code:

- **401 inside the alternatives loop:** a 401 answer to an alternative spelling does not stop the lookup. It is skipped like any other non-200 answer (`InvalidKeyTriesEverySpelling`).
- **Number of requests:** a name with alternatives can cost one request more than it has spellings. The final request repeats one of the alternatives (`FinalRequestRepeatsAnAlternative`).
- **Missing sections:** a 200 answer that lacks top-level sections is still returned, with a warning. What happens next depends on the body:
  - a body with some sections is returned with a warning (`MissingMainScenario`); display_weather then only adds a validation warning (`ValidationOnlyWarns`), an absent section never makes extraction fail (`MissingSectionNeverFails`, `EmptyResponseExtracts`), and the missing readings take their defaults (`Extract`, `MainFieldDefaults`, `WindAndCloudDefaults`);
  - an empty body ends in "not found" (`EmptyBodyNotShown`).

## Model

| member | source | states |
|---|---|---|
| Cities.MetropolitanCities | weather_app.py:36-43 | each value of the 특별시/광역시 entries is a query ending in ",KR" |
| Cities.GyeonggiCitiesFirst | weather_app.py:46-60 | each value of these 경기도 entries ends in ",KR" |
| Cities.GyeonggiCitiesSecond | weather_app.py:61-74 | each value of these 경기도 entries ends in ",KR" |
| Cities.GangwonCitiesFirst | weather_app.py:77-85 | each value of these 강원도 entries ends in ",KR" |
| Cities.GangwonCitiesSecond | weather_app.py:86-94 | each value of these 강원도 entries ends in ",KR" |
| Cities.ChungbukCities | weather_app.py:97-107 | each value of the 충청북도 entries ends in ",KR" |
| Cities.ChungnamCities | weather_app.py:110-124 | each value of the 충청남도 entries ends in ",KR" |
| Cities.JeonbukCities | weather_app.py:127-140 | each value of the 전라북도 entries ends in ",KR" |
| Cities.JeonnamCitiesFirst | weather_app.py:143-153 | each value of these 전라남도 entries ends in ",KR" |
| Cities.JeonnamCitiesSecond | weather_app.py:154-164 | each value of these 전라남도 entries ends in ",KR" |
| Cities.GyeongbukCitiesFirst | weather_app.py:167-178 | each value of these 경상북도 entries ends in ",KR" |
| Cities.GyeongbukCitiesSecond | weather_app.py:179-189 | each value of these 경상북도 entries ends in ",KR" |
| Cities.GyeongnamCitiesFirst | weather_app.py:192-200 | each value of these 경상남도 entries ends in ",KR" |
| Cities.GyeongnamCitiesSecond | weather_app.py:201-209 | each value of these 경상남도 entries ends in ",KR" |
| Cities.JejuCities | weather_app.py:212-213 | each value of the 제주도 entries ends in ",KR" |
| Cities.KoreanCities | weather_app.py:34-214 | every value of `KOREAN_CITIES` is a query pinned to South Korea (ends in ",KR") |
| Cities.ResolveQuery | weather_app.py:703-707 | resolution is total: a name in `KOREAN_CITIES` gives its value, which ends in ",KR"; any other input is sent unchanged |
| Cities.Alternatives | weather_app.py:644-700 | every row of the alternatives table holds exactly four spellings |
| Cities.KoreanCityName | weather_app.py:402-638 | reverse resolution is total: a listed romanised name gives its Korean name, any other string comes back unchanged |
| CityRows.AlternativesRoundTrip | weather_app.py:644-700 | for every alternatives row, both spellings without ",KR" (the suffixed form, such as "Gimpo-si" or "Yangpyeong-gun", and the plain form) translate back to the row's Korean name via get_korean_city_name, and the query resolved from `KOREAN_CITIES` is one of the row's spellings |
| CityRows.GimpoRow | weather_app.py:645 | the 김포 row satisfies that round trip (with its `KOREAN_CITIES` entry at line 63 and the reverse entries at lines 431-432) |
| CityRows.ReverseNotInjective | weather_app.py:431-432 | "Gimpo-si" and "Gimpo" both translate to 김포, so reverse resolution is not injective |
| WeatherIcons.WeatherIcon | weather_app.py:216-229 | get_weather_icon gives the table's emoji for a listed code and 🌤️ for any other |
| WeatherIcons.IconTableDomain | weather_app.py:218-229 | the emoji table lists exactly the eighteen documented codes; the fallback 🌤️ is returned exactly for an unlisted code |
| WeatherIcons.CodeImage | weather_app.py:252-261 | the if/elif chain on the icon code decides a picture exactly for the eighteen documented codes |
| WeatherIcons.WeatherImage | weather_app.py:231-264 | get_weather_image always returns one of the four pictures; a documented code decides it; otherwise the condition table decides, and an unlisted condition gives the sun |
| WeatherIcons.CodeTakesPrecedence | weather_app.py:251-261 | with a documented code, the condition group makes no difference |
| WeatherIcons.IconAgreesWithImage | weather_app.py:216-261 | for a documented code, the emoji belongs to the same weather family (sun, cloud, rain, snow) as the background picture |
| Validation.Validate | weather_app.py:366-400 | a falsy value is rejected as "no data" and only a falsy one; a truthy value supporting `in` that lacks any section is rejected for missing sections, before anything nested is looked at; that rejection lists one to four descriptions; a main-field rejection names only temp, humidity or pressure; a valid response is a dict holding all four sections |
| Validation.Descriptions | weather_app.py:372-382 | one description per section key, each that key's entry of `required_fields`, in the order of the keys |
| PyJson.MissingKeys | weather_app.py:750 | the list of required keys absent from a value (the same comprehension is at lines 725 and 390): a key is listed exactly when it is one of the required keys and absent, and the list keeps the order of the keys |
| Validation.ValidateWeatherData | weather_app.py:366-400 | the step-by-step check returns exactly the verdict of `Validate`, including the cases where Python raises |
| Validation.ScanSections | weather_app.py:379-382 | the loop over `required_fields` yields the descriptions of exactly the absent sections, in dictionary order, or raises exactly when the value does not support `in` |
| Validation.DescribeAbsent | weather_app.py:379-382 | each scanned key's description is appended exactly when the key is absent |
| Validation.Message | weather_app.py:368-400 | the message is "데이터 검증 완료" exactly for a valid response |
| Validation.ValidExactly | weather_app.py:366-400 | a response is valid exactly when it is a dict holding the four sections, whose `main` holds temp, humidity and pressure, and whose `weather` is non-empty and has a length |
| Validation.MissingSectionsReported | weather_app.py:378-385 | absent top-level sections are checked before anything nested; the verdict names the description of every absent section and of no present one, in the order name, main, weather, sys |
| Validation.DescriptionIn | weather_app.py:372-377 | a description is reported exactly when its own section is absent (the four descriptions are distinct) |
| Validation.DescriptionsKeepOrder | weather_app.py:379-382 | reporting descriptions keeps the order of the keys |
| Validation.MainFieldsReported | weather_app.py:387-393 | with every section present, the verdict is a main-field rejection exactly when temp, humidity or pressure is absent; it lists exactly the absent ones, in that order |
| Fetcher.ResponseReport | weather_app.py:747-753 | a 200 body gets either no report or a missing-fields warning; no warning exactly when it holds all four top-level keys; otherwise the warning lists exactly the absent keys, in the order name, main, weather, sys |
| Fetcher.EmptyBodyReport | weather_app.py:747-753 | an empty dict is warned about all four keys |
| Fetcher.FirstAccepted | weather_app.py:712-732 | the alternative that ends the loop is the first accepted attempt: that one is accepted and none before it is |
| Fetcher.FinalReply | weather_app.py:743-775 | the final request returns data exactly when it is a 200 answer with a body that supports `in`, and then the data is that body with the report of ResponseReport; a 200 body that does not support `in` raises; a 200 answer whose body does not decode reports the decode error; 401 reports the invalid key, 404 reports that city as not found, any other status reports that status; a timeout and a network failure each report their own error; every error path returns no data |
| Fetcher.Accepted | weather_app.py:720-732 | an alternative is accepted exactly when it is a 200 answer whose body decodes and supports `in`; a timeout, a network failure and any other status are skipped |
| Fetcher.Attempts | weather_app.py:709-755 | the queries sent are a non-empty prefix of the alternatives followed by the resolved query; a lookup that ends among the alternatives ends at an accepted attempt and returns that attempt's body; otherwise the reply is that of the final request |
| Fetcher.Fetch | weather_app.py:703-775 | get_weather sends between one and five requests; a name without alternatives sends only its resolved query; a lookup that raises or returns no data ended on the resolved query |
| Fetcher.EmptyBodyReturned | weather_app.py:745-755 | for a name without alternatives, a 200 answer with an empty dict is returned as it is, with a warning naming all four sections |
| Fetcher.GetWeather | weather_app.py:640-775 | get_weather's result and the queries it sends are those of `Fetch` |
| Fetcher.SendRequests | weather_app.py:709-755 | the alternatives loop and the final request produce the result and the query record of `Attempts` |
| Fetcher.QueriesFollowCandidates | weather_app.py:709-755 | the queries sent are a prefix of the alternatives followed by the resolved query: at least one request and at most one more than there are alternatives |
| Fetcher.StopsAtFirstAccepted | weather_app.py:712-729 | the first accepted alternative ends the lookup; its body is returned, and nothing after it is sent |
| Fetcher.AlternativesNeverFail | weather_app.py:712-732 | a lookup that ends among the alternatives always returns data with at most a warning; every earlier attempt was not accepted, whatever its status |
| Fetcher.SingleRequestWithoutAlternatives | weather_app.py:709-755 | a name without an alternatives row costs exactly one request, with the resolved query |
| Fetcher.InvalidKeyTriesEverySpelling | weather_app.py:712-758 | when every answer is 401, a name with alternatives sends all four spellings and the resolved query (five requests); only the last one reports the invalid key |
| Fetcher.FinalRequestRepeatsAnAlternative | weather_app.py:735-755 | for a name with alternatives, a service that answers the same query the same way and refused every alternative also refuses the final request |
| Fetcher.GimpoScenario | weather_app.py:709-732 | 김포 answered 404 then 200 costs two requests, "Gimpo-si,KR" and "Gimpo,KR", and returns the second body |
| Fetcher.SeoulScenario | weather_app.py:703-755 | 서울 costs one request, "Seoul,KR" |
| Fetcher.UnknownCityScenario | weather_app.py:703-762 | an unlisted name is sent as typed, and a 404 reports that city as not found |
| Fetcher.OnlyMainMissing | weather_app.py:749-753 | a body lacking only `main` is warned about `main` alone |
| Fetcher.MissingMainScenario | weather_app.py:745-754 | a 200 body without `main` is still returned, with that warning |
| Display.KoreanName | weather_app.py:791-792 | a string name is translated by get_korean_city_name; the lookup raises exactly for an unhashable value |
| Display.Lookup | weather_app.py:791-835 | `d.get(key, default)`: the value at the key when present, and the default otherwise |
| Display.FirstItem | weather_app.py:810 | `weather[0]`, followed by `.get`, gets past only a non-empty list, and then yields its first item |
| Display.SunTimesOf | weather_app.py:815-824 | both times are unknown unless both timestamps are truthy; with both truthy, the step raises exactly when one is not a number, and otherwise keeps both timestamps, sunrise first |
| Display.SysReadings | weather_app.py:793-824 | the `sys` readings exist only for a dict; the country is passed on, or "N/A" when absent; the step raises exactly when both timestamps are truthy and one is not a number; the times are unknown exactly when a timestamp is absent or falsy, and known times are the dict's own two timestamps |
| Display.WindReadings | weather_app.py:805-807 | the wind readings exist exactly for a dict; an absent `speed` or `deg` reads 0, a present one is its own value |
| Display.WeatherInfo | weather_app.py:810-843 | the condition readings exist exactly for a non-empty list whose first item is a dict; description, icon and condition group are passed on when present, and default to "정보 없음", "01d" and "Clear" |
| Display.Cloudiness | weather_app.py:834-835 | cloudiness exists exactly for a dict; an absent `all` reads 0, a present one is its own value |
| Display.Kilometres | weather_app.py:827-831 | visibility is positive exactly when the raw value is a positive number, and it is then that value divided by 1000; a truthy non-number raises |
| Display.MainReadings | weather_app.py:796-802 | the readings of `main` are extracted exactly when `main` is a dict; temp, humidity and pressure read 0 when absent, feels_like, temp_min and temp_max read temp when absent; a present reading is passed on as it is |
| Display.Extract | weather_app.py:789-839 | extraction succeeds only on a dict; visibility is never negative; without `main` every temperature, humidity and pressure reading is 0 |
| Display.Assemble | weather_app.py:789-839 | the extraction succeeds exactly when every one of its steps does |
| Display.Background | weather_app.py:841-849 | the background is always one of the four pictures, and for string arguments it is get_weather_image's |
| Display.Render | weather_app.py:841-915 | rendering succeeds exactly when the icon code is hashable, the description is a string and the four temperatures are numbers; a rendered page has the background of the condition and icon (get_weather_image's for strings), the description, the extracted city name, the cards of the extracted readings and, for a string icon, its emoji |
| Display.ReadingCard | weather_app.py:864-915 | a card reads "N/A" exactly when its value equals 0, and shows the value otherwise |
| Display.CardsOf | weather_app.py:864-911 | each of the nine reading cards reads "N/A" exactly when its value equals 0; both sun cards read "N/A" exactly when the times are unknown, and otherwise show the two timestamps; the visibility card reads "N/A" exactly when the distance is not positive, and otherwise shows it |
| Display.Formattable | weather_app.py:864-877 | a temperature gets past `:.1f`, which runs only for a value other than 0, exactly when it is a number: the zero shortcut never lets a non-number through |
| Display.ValidationOnlyWarns | weather_app.py:783-787 | a failed validation only adds a warning: the page is shown or fails exactly as extraction and rendering decide |
| Display.TemperatureDefaults | weather_app.py:797-800 | feels_like, temp_min and temp_max default to temp; without any of the four temperatures, all four cards read "N/A" |
| Display.SunTimesTogether | weather_app.py:901-907 | the sunrise and sunset cards read "N/A" together |
| Display.VisibilityShownExactly | weather_app.py:827-911 | the visibility card shows a value exactly when `visibility` is a positive number, and the value is that number in kilometres |
| Display.ZeroLooksMissing | weather_app.py:796-889 | a reading of 0 for temp, humidity or pressure gives the same extracted values, and so the same cards, as an absent one |
| Display.WindAndCloudDefaults | weather_app.py:805-835 | with `wind` or `clouds` absent, or lacking `speed`, `deg` or `all`, that reading is 0 and its card reads "N/A" |
| Display.MainFieldDefaults | weather_app.py:796-802 | for any response that is extracted: temp, humidity or pressure absent from `main` reads 0 and its card reads "N/A"; a present one is shown as it is |
| Display.EmptyResponseExtracts | weather_app.py:789-836 | a response with no sections at all is extracted, from the defaults alone |
| Display.MissingSectionNeverFails | weather_app.py:789-836 | removing any key from an extracted response leaves it extractable: every `.get` default is one the later steps accept |
| Display.DisplayWeather | weather_app.py:777-915 | the "no data" error is shown exactly for a falsy value; a value on which validation raises crashes the page; a shown or failed page warns exactly when validation fails; a page is shown exactly when validation does not raise and extraction and rendering succeed, and the screen is then the rendering of the extracted readings |
| Display.Search | weather_app.py:1011-1020 | the search asks for a city exactly when the field is empty; otherwise the page is that of the reply of get_weather |
| Display.PageFor | weather_app.py:1014-1018 | the page crashes exactly when get_weather raises; it shows the weather exactly when get_weather returned truthy data, and then it is display_weather's page, never the "no data" error; a "not found" page keeps get_weather's report |
| Display.NoDataNothingFound | weather_app.py:1011-1018 | a lookup that returns no data, or falsy data, shows "not found" next to get_weather's report |
| Display.EmptyBodyNotShown | weather_app.py:1011-1018 | a 200 answer with an empty dict is returned with a warning naming all four sections, and the page then says nothing was found |
| Display.GimpoReading | weather_app.py:789-836 | for a "Gimpo" response, the extracted values are the Korean name and the defaults of every missing field |
| Display.GimpoPage | weather_app.py:777-915 | for that response, the page shows no warning, 김포, the sun picture, the emoji of "01d", the temperature cards and "N/A" for every missing reading |

Helpers without a row are covered by the row of the member that uses them and cites the same lines: `Cities.EnglishToKorean` (by `Cities.KoreanCityName`), `WeatherIcons.IconTable` (by `WeatherIcons.WeatherIcon`), `WeatherIcons.ConditionImage` (by `WeatherIcons.WeatherImage`), `Validation.SectionDescription` (by `Validation.Descriptions`), `Validation.Join` (by `Validation.Message`) and `Fetcher.Candidates` (by `Fetcher.Fetch`).

`CityRows` also holds, for each alternatives row, four lemmas named after the row's city (`…Resolves`, `…SuffixedTranslatesBack`, `…TranslatesBack`, `…Row`). Each is one concrete lookup; `AlternativesRoundTrip` collects them.

## Left out

- Streamlit output is left out: page layout, sidebar, titles, the HTML card template `create_weather_card` and the selectbox navigation. The model keeps the values a page would show (`Screen`, `Page`), not how they are drawn.
- `set_background_image` is left out (file reading, base64, CSS). The model keeps only which picture is chosen.
- The API key, `BASE_URL`, the HTTP call and its timeout, and JSON decoding are left out. They are replaced by the `Service` parameter: one `Outcome` per request.
- `datetime.fromtimestamp(...).strftime('%H:%M')` is left out; it depends on the local timezone. Only the choice "both times known or neither" is modelled, and a timestamp out of the platform's range is treated as valid.
- Number formatting (`:.1f`, `f"{x}"`) and `.title()` casing are left out. A card shows the value itself, and integers and floats share one number type.
- The drill-down hierarchies `get_city_categories` and `city_hierarchy`, and `main()` apart from the search-button handler (`Display.Search`), are left out; they are widget state over static data.
- The detail expander after the cards (from line 917) is left out. It reads `weather_data['coord']`, `weather[0]['id']` and `weather[0]['main']` without a guard (lines 925-931), so a response without them raises KeyError after the cards are drawn. `Shown` therefore means that the cards are drawn, not that display_weather returns; the response of `GimpoPage` has no `coord` and would raise there.
- Display.Background: when get_weather_image raises, the code also shows the warning "배경 이미지를 설정할 수 없습니다" (lines 846-849) before falling back to the sun picture. `Screen` keeps the picture and drops that warning.
- Output shown before an exception is left out: a page that ends in `Crashed` may already have shown its warning.
- Display.Extract: every failing step of the extraction leads to the same error branch (line 837), so the steps are grouped by section rather than kept in line order. The exception text `str(e)` shown there (line 838) differs from step to step; the model drops it.
- Display.FirstItem: `value[0]` on a non-empty string yields a character, and `.get` on that character then fails anyway. The model lets only a non-empty list through.
- Fetcher.FinalReply: the model follows requests versions before 2.27, where the error raised by `response.json()` is a plain `json.JSONDecodeError`: a 200 answer with an undecodable body is reported as `DecodeFailure` (lines 773-775). From requests 2.27 on, that error is also a `RequestException`, and the network-error clause (lines 770-772) catches it first; the model does not cover that version.
- Fetcher.ResponseReport: the warning text is left out. The report keeps the list of missing keys the text is built from.
