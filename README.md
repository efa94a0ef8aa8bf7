# Beach-house site: marine widget, travel times and guestbook

A Dafny model of the logic inside a React site for a beach rental in Brick
Township, NJ. The site's other components are static content or rendering.
The model covers three parts:

- **The marine weather widget** (`WeatherWidget.js`). The model covers:
  - the parser of the NDBC buoy text: line splitting, blank and `#` comment lines, whitespace tokens, the column reads and the `MM` missing-value marker;
  - the `for` loop that builds the wave trend, followed by its reversal;
  - the next-tide `find` with its fallback to the first prediction;
  - the surf-band and wind-chop classifiers in `SurfSummary`;
  - the bar choice of `SurfTrendChart`;
  - the loading/error render gate;
  - the component state that the weather, tide and wave fetches update, as the class `MarineWidget`. The fetches' responses are parameters.
- **The travel-time panels** (`BeachTravelTimes.js`, `RestaurantTravelTimes.js`). The model covers:
  - the colour band of a travel time, `getTimeColor`;
  - the season of a month, `getCurrentSeason`;
  - the water-type chip colour, and the colour of the `getWaterTypeIcon` helper, both case-insensitive (the helper is defined but never called: each beach card shows the primary `BeachAccess` icon whatever the water type);
  - both five-entry tables;
  - the `find` of the entry whose stringified id is the drop-down's value.

  The two files carry identical copies of `getTimeColor` and `getCurrentSeason`. The copies are modelled once, in `TravelTimes`. The copies in the restaurant file sit at `RestaurantTravelTimes.js:165-170` and `:184-190`.
- **The guestbook** (`Guestbook.js`). The class `Guestbook` holds the `entries`, `name` and `message` state and the guarded prepend of `handleSubmit`.

`Js` models the JavaScript built-ins the code relies on, literally:
- `String#split` with a one-character separator, and `split(/\s+/)`;
- `trim`, `slice`, and `replace(/:/g, '')`;
- ASCII `toLowerCase`;
- `parseInt` and `parseFloat`;
- `Number#toString` on naturals;
- `Array#find`, `filter` and `reverse`.

NaN and missing values (`undefined`, `null`) are `None`.

The widget's state follows the code as written, in the two places where the code is evidently wrong (see "## Findings"). Beside the as-written members sits a corrected one, with the intended property proved about it.

A few points of the code's behaviour, stated directly:
- A failed buoy fetch clears `wave`, `waterTemp` and `waveTrend`. The code computes no fallback estimate and no synthetic trend.
- The widget reads no forecast periods and no marine-warning feed.
- The surf texts carry spaces round the slash ("Flat / Poor").
- Any non-empty error message replaces the whole widget with the error view. No section is hidden on its own.
- With tides at 06:00, 12:30 and 18:45 looked up at 14:00, the code selects 06:00, not the next tide at 18:45. This is the first finding.

## Model

| member | source | states |
|---|---|---|
| Js.Find | src/components/WeatherWidget.js:63-66 | `Array#find`: None exactly when no element satisfies the predicate; otherwise an element of the list that satisfies it. |
| Js.FindIndex | src/components/WeatherWidget.js:63-65 | The index found satisfies the predicate and no earlier index does; None exactly when none does. |
| Js.Filter | src/components/WeatherWidget.js:104 | `filter` keeps exactly the elements that satisfy the predicate: every kept element is one of the input that satisfies it, and every input element that satisfies it is kept. It never lengthens the input and keeps all of it when every element passes. |
| Js.FilterAppend | src/components/WeatherWidget.js:104 | `filter` keeps order: filtering a concatenation filters each part and concatenates the results. |
| Js.Reverse | src/components/WeatherWidget.js:125 | `reverse` keeps the length and puts element `n-1-i` at position `i`. |
| Js.Split | src/components/WeatherWidget.js:104 | `split('\n')` yields at least one piece, none containing the separator. |
| Js.SplitJoin | src/components/WeatherWidget.js:104 | Splitting pieces without the separator, once they are joined with it, gives the pieces back. |
| Js.Fields | src/components/WeatherWidget.js:107 | `split(/\s+/)` yields at least one piece, and no piece holds white space. |
| Js.FieldsRun | src/components/WeatherWidget.js:107 | A run of white space before a word ends a field: splitting run + text yields an empty first piece, then the pieces of the text. |
| Js.FieldsSeparated | src/components/WeatherWidget.js:107 | Words joined by runs of white space of any length split on `/\s+/` back into exactly those words. |
| Js.Trim | src/components/WeatherWidget.js:107 | `trim` returns the part of the string that starts after its leading white space, with only white space after that part and no white space at either end of it. |
| Js.TrimPadded | src/components/WeatherWidget.js:107 | Trimming white space of any length around a middle that starts and ends with non-space characters gives exactly that middle. |
| Js.Slice | src/components/WeatherWidget.js:64 | `slice(b, e)` is `s[b..e]` when both bounds lie within the string, `s[b..]` when only the end lies past it, and empty when `e <= b` or `b` lies past the string. |
| Js.RemoveChar | src/components/WeatherWidget.js:64 | `replace(/:/g, '')` removes every ':' and keeps every other character as often as it occurs, so the result is shorter by the number of ':'s; a string without ':' is returned unchanged. |
| Js.RemoveCharAppend | src/components/WeatherWidget.js:64 | Removing ':' from a concatenation removes it from each part. |
| Js.ToLower | src/components/BeachTravelTimes.js:185 | `toLowerCase` keeps the length and lower-cases each ASCII letter in place. |
| Js.ToLowerIdempotent | src/components/BeachTravelTimes.js:185 | Lower-casing twice is lower-casing once. |
| Js.ParseInt | src/components/WeatherWidget.js:64 | `parseInt` is NaN exactly when, after leading white space and a sign, there is no digit, or only a "0x"/"0X" prefix with no hexadecimal digit after it. A number read after "-" is at most 0, any other at least 0. |
| Js.ParseIntShort | src/components/WeatherWidget.js:64 | `parseInt` of at most four characters lies between -999 and 9999. |
| Js.ParseIntDecimal | src/components/WeatherWidget.js:64 | `parseInt` of a run of decimal digits followed by a non-digit is the value of those digits, unless the run is a lone 0 followed by x or X (a hexadecimal prefix). |
| Js.ParseIntPadded | src/components/WeatherWidget.js:64 | Leading white space does not change what `parseInt` reads. |
| Js.ParseIntSigned | src/components/WeatherWidget.js:64 | A '-' in front of a numeral negates what `parseInt` reads, and a '+' keeps it; the numeral is NaN with the sign exactly when it is without. |
| Js.ParseFloat | src/components/WeatherWidget.js:111 | `parseFloat` is NaN exactly when, after leading white space and a sign, the text starts neither with a digit nor with a point followed by a digit. A number read after "-" is at most 0, any other at least 0. |
| Js.ParseFloatDecimal | src/components/WeatherWidget.js:111 | `parseFloat` of "digits.digits", followed by neither a digit nor an exponent mark, is the whole part plus the fraction digits over 10 to the power of their count. |
| Js.ParseFloatWhole | src/components/WeatherWidget.js:111 | `parseFloat` of a run of digits followed by neither a digit, a point nor an exponent mark (such as "2" or "19") is the value of those digits. |
| Js.ParseFloatPadded | src/components/WeatherWidget.js:111 | Leading white space does not change what `parseFloat` reads. |
| Js.ParseFloatSigned | src/components/WeatherWidget.js:116 | A '-' in front of a literal negates what `parseFloat` reads, and a '+' keeps it; the literal is NaN with the sign exactly when it is without. |
| Js.ParseFloatNotANumber | src/components/WeatherWidget.js:246 | `parseFloat` of text whose first character is not white space, a digit, a point or a sign (such as "MM") is NaN. |
| Js.IntToString | src/components/BeachTravelTimes.js:220 | `Number#toString` of a natural is a non-empty numeral without leading zeros, denoting that number. |
| Js.IntToStringInjective | src/components/BeachTravelTimes.js:220 | Different ids print differently. |
| WeatherWidget.DataLines | src/components/WeatherWidget.js:104 | Every kept line is non-empty, does not start with '#' and holds no newline. |
| WeatherWidget.DataLinesOfRows | src/components/WeatherWidget.js:104 | For a feed of newline-joined rows, the kept lines are exactly the non-blank, non-comment rows, in order. |
| WeatherWidget.Tokens | src/components/WeatherWidget.js:107 | A trimmed line splits into at least one token, and no token holds white space. |
| WeatherWidget.TokensOfRow | src/components/WeatherWidget.js:107 | A row of fields separated by runs of white space, with any white space before and after, tokenizes into exactly those fields. |
| WeatherWidget.TrendEnd | src/components/WeatherWidget.js:119 | The loop starting at 1 stops at the first index where its guard `i <= 6 && i < lines.length` fails: the guard holds for every index from 1 below it and fails at it. |
| WeatherWidget.CollectedUpTo | src/components/WeatherWidget.js:118-124 | Once the loop reaches row n, it has pushed one point per row 1..n-1, in row order, each built from its own row. |
| WeatherWidget.Collected | src/components/WeatherWidget.js:118-124 | The pushed points are one per row 1..k-1, in row order, each built from its own row. |
| WeatherWidget.BuildTrend | src/components/WeatherWidget.js:117-125 | The loop-and-reverse method yields exactly the trend `Trend(lines, 6)`. |
| WeatherWidget.TrendShape | src/components/WeatherWidget.js:117-125 | The trend has at most 6 points and at most one per line after the first; point `j` is the point of row `k-1-j`, with its hour from token 3 and its height from token 6 of that row. |
| WeatherWidget.ReversedPoints | src/components/WeatherWidget.js:125 | Reversing the points of rows 1..k-1 lists the points of rows k-1 down to 1. |
| WeatherWidget.RoundTenth | src/components/WeatherWidget.js:111 | `toFixed(1)` read back is within 0.05 of the value and is a whole number of tenths. |
| WeatherWidget.FeetOf | src/components/WeatherWidget.js:111 | The height in feet is NaN exactly when the metre token is; otherwise it is within 0.05 of metres × 3.281. |
| WeatherWidget.WaterTempOf | src/components/WeatherWidget.js:115-116 | The water temperature is null exactly when token 9 is missing or "MM". Otherwise it carries the Celsius token, and a Fahrenheit value within 0.05 of C × 9/5 + 32 when the token is a number. |
| WeatherWidget.ParseBuoy | src/components/WeatherWidget.js:104-125 | Nothing is set unless at least two data lines remain. Then the wave height is token 6 of data line 1 and its feet value is `FeetOf` that token (within 0.05 of metres × 3.281, NaN exactly when the token is). The station is 44065. The water temperature is `WaterTempOf` token 9: null exactly when the token is missing or "MM", otherwise the token with its Fahrenheit value. The trend is the reversed rows, at most 6 of them. |
| WeatherWidget.ParseBuoyColumnsOfRow | src/components/WeatherWidget.js:107-116 | On a data row of fields separated by runs of white space, the parser reads the height and the temperature from the given field positions. |
| WeatherWidget.AsWrittenColumnsMissWvhtAndWtp | src/components/WeatherWidget.js:107-115 | On any nine-field row laid out as the code's comment describes, however the fields are spaced, the code reports field 6 (SwH) as the height and no water temperature. Whenever WVHT and SwH differ, its height differs from the intended parser's. |
| WeatherWidget.ParseBuoyIntended | src/components/WeatherWidget.js:104-125 | The corrected parser: as the code, but the wave height and the trend heights are token 5 and the water temperature is `WaterTempOf` token 8. |
| WeatherWidget.IntendedColumnsReadWvhtAndWtp | src/components/WeatherWidget.js:107-125 | The corrected parser reads WVHT (field 5) as the height, also in the trend, and WTP (field 8) as the water temperature, however the fields are spaced. |
| WeatherWidget.NextTideBy | src/components/WeatherWidget.js:63-66 | None exactly when there are no predictions. With a qualifying prediction, the first one whose key is past now is chosen; otherwise `predictions[0]`. |
| WeatherWidget.TideKey | src/components/WeatherWidget.js:64 | The key `parseInt(t.replace(/:/g,'').slice(8,12))`, read from at most four characters, lies between -999 and 9999 when it is a number. |
| WeatherWidget.NextTide | src/components/WeatherWidget.js:62-66 | For the key of the code and the clock reading hours·100 + minutes: None exactly when there are no predictions. With a prediction whose key is past now, the chosen one is such a prediction and every prediction before it has a key at or before now. Otherwise `predictions[0]`. |
| WeatherWidget.StripColons | src/components/WeatherWidget.js:64 | Removing ':' from "YYYY-MM-DD HH:MM" leaves "YYYY-MM-DD HHMM". |
| WeatherWidget.TideKeyIsDayOfMonth | src/components/WeatherWidget.js:64 | As written, the key of a "YYYY-MM-DD HH:MM" timestamp is the day of the month, at most 99. |
| WeatherWidget.AsWrittenPicksFirst | src/components/WeatherWidget.js:62-66 | As written, from 01:00 on (a clock reading of at least 99), no well-formed prediction qualifies, so the first prediction is always chosen. |
| WeatherWidget.DigitsValueAppend | src/components/WeatherWidget.js:64 | Appending digits to a numeral shifts its value left by their count. |
| WeatherWidget.ClockKey | src/components/WeatherWidget.js:64 | The corrected key, the same read of `slice(11,15)`, lies between -999 and 9999 when it is a number. |
| WeatherWidget.ClockKeyIsClockTime | src/components/WeatherWidget.js:64 | The corrected key (`slice(11, 15)`) of "YYYY-MM-DD HH:MM" is HH·100 + MM. |
| WeatherWidget.ParseClock | src/components/WeatherWidget.js:64 | `parseInt` of the four digits "HHMM" is HH·100 + MM. |
| WeatherWidget.FourDigitClock | src/components/WeatherWidget.js:64 | The numeral HHMM denotes HH·100 + MM. |
| WeatherWidget.NextTideIntended | src/components/WeatherWidget.js:62-66 | The corrected selector: the same choice as the code, made with the corrected key. |
| WeatherWidget.NextTideByFirst | src/components/WeatherWidget.js:63-66 | For any key: a prediction whose key is past now, with none before it past now, is the one chosen. |
| WeatherWidget.NextTideIntendedByClock | src/components/WeatherWidget.js:62-66 | When each prediction's corrected key is its clock time, the corrected selector chooses the first prediction whose clock time is after now. |
| WeatherWidget.NoneAfterOfThree | src/components/WeatherWidget.js:63-66 | For any key: with none of three predictions past now, the first is chosen. |
| WeatherWidget.ThirdAfterOfThree | src/components/WeatherWidget.js:63-66 | For any key: with only the third of three predictions past now, the third is chosen. |
| WeatherWidget.ThreeTidesAsWritten | src/components/WeatherWidget.js:62-66 | As written, from 01:00 on, the first of three well-formed tides of one day is chosen. |
| WeatherWidget.ThreeTidesIntended | src/components/WeatherWidget.js:62-66 | With the corrected key, of three tides of one day, two at or before the clock and the third after it, the third is chosen. |
| WeatherWidget.ThreeTides | src/components/WeatherWidget.js:62-66 | For such a day, from 01:00 on, the code chooses the first tide while the corrected key chooses the third. |
| WeatherWidget.TideAtTwoPm | src/components/WeatherWidget.js:62-66 | Tides at 06:00 H, 12:30 L and 18:45 H looked up at 14:00: the code picks 06:00 and the corrected key 18:45. |
| WeatherWidget.SurfBandOf | src/components/WeatherWidget.js:204-222 | NaN gives no surf data, below 1 Flat / Poor, [1, 2.5) Fun / Good, [2.5, 4) Solid / Very Good, 4 and above Caution / Expert Only; each band if and only if. |
| WeatherWidget.SurfBandMonotone | src/components/WeatherWidget.js:206-222 | A higher wave never gets a milder band. |
| WeatherWidget.WindText | src/components/WeatherWidget.js:223-232 | Null gives no wind text, below 15 "Clean conditions", [15, 25) "Some chop", 25 and above "Very choppy"; each if and only if. |
| WeatherWidget.SurfSummary | src/components/WeatherWidget.js:199-232 | NaN gives "No surf data", below 1 "Flat / Poor", [1, 2.5) "Fun / Good", [2.5, 4) "Solid / Very Good", 4 and above "Caution / Expert Only", each if and only if, and each band with its colour and advice. The wind text follows the wind bands of `WindText`, each if and only if. |
| WeatherWidget.WindInput | src/components/WeatherWidget.js:169 | A falsy wind speed, 0 included, reaches the summary as null; any other speed passes unchanged. |
| WeatherWidget.CalmWindHasNoChopText | src/components/WeatherWidget.js:169 | A calm 0 km/h reading shows no wind text. |
| WeatherWidget.SurfPanel | src/components/WeatherWidget.js:168-170 | The surf summary appears exactly when both a wave and a wind reading are set. |
| WeatherWidget.BarOf | src/components/WeatherWidget.js:246-253 | NaN or "MM" gives the blank bar; then below 1, 2, 3, 4 and from 4 on give the five levels; each if and only if. |
| WeatherWidget.MissingMarkerIsNotANumber | src/components/WeatherWidget.js:248 | "MM" is already NaN, so the explicit "MM" test never changes the bar. |
| WeatherWidget.BarGlyph | src/components/WeatherWidget.js:246-253 | NaN or "MM" draws "▫️"; then below 1, 2, 3, 4 and from 4 on draw "▁", "▂", "▃", "▄" and "█"; each glyph if and only if its band. |
| WeatherWidget.TrendBars | src/components/WeatherWidget.js:245-255 | One glyph per trend point, in order, each the glyph of that point's height. |
| WeatherWidget.RenderGate | src/components/WeatherWidget.js:137-138 | Loading shows the loading view. Otherwise a non-empty error shows the error view with that message. Otherwise the sections show. Each case if and only if. |
| WeatherWidget.MarineWidget.View | src/components/WeatherWidget.js:137-191 | Loading shows the loading view; otherwise a non-empty error shows the error view with that message; otherwise the panel shows, each if and only if. The panel carries the state's weather, wind, tide, wave, visibility and water temperature, the surf summary of the wave and wind, and the bars of the current trend. |
| WeatherWidget.MarineWidget.constructor | src/components/WeatherWidget.js:10-18 | Everything is unset, the trend is empty and loading is on, so the loading view shows. |
| WeatherWidget.MarineWidget.FetchWeather | src/components/WeatherWidget.js:23-50 | It sets the weather, the wind and the visibility in turn. At the first missing part, or on a failed request, it stops with "Weather data unavailable". It changes nothing else. |
| WeatherWidget.MarineWidget.FetchTide | src/components/WeatherWidget.js:53-72 | It sets the next tide at the clock reading hours·100 + minutes, or on failure "Tide data unavailable", then clears loading. It changes nothing else. |
| WeatherWidget.MarineWidget.FetchWave | src/components/WeatherWidget.js:96-133 | A failed request clears the wave, the water temperature and the trend. Fewer than two data lines change none of them. Otherwise they become the parser's values. Loading is cleared; nothing else changes. |
| WeatherWidget.AllFeedsFail | src/components/WeatherWidget.js:137-138 | With every feed failing, in the order weather, tide, wave, the widget shows only the error "Tide data unavailable". |
| TravelTimes.TimeColorOf | src/components/BeachTravelTimes.js:176-181 | Up to 10 minutes is success, 11–20 info, 21–30 warning, above 30 error; each if and only if. The restaurant copy is identical. |
| TravelTimes.GetTimeColor | src/components/BeachTravelTimes.js:176-179 | `getTimeColor` returns "success.main" up to 10 minutes, "info.main" for 11–20, "warning.main" for 21–30 and "error.main" above 30; each string if and only if its band. The restaurant copy is identical. |
| TravelTimes.TimeColorMonotone | src/components/BeachTravelTimes.js:176-181 | A longer trip never gets a milder colour. |
| TravelTimes.SeasonOf | src/components/BeachTravelTimes.js:209-215 | Month 2–4 is spring, 5–7 summer, 8–10 fall, anything else winter; each if and only if. The restaurant copy is identical. |
| TravelTimes.CurrentSeason | src/components/BeachTravelTimes.js:210-214 | `getCurrentSeason` returns "Spring" for months 2–4, "Summer" for 5–7, "Fall" for 8–10 and "Winter" otherwise; each name if and only if its months. The restaurant copy is identical. |
| TravelTimes.SeasonsHaveThreeMonths | src/components/BeachTravelTimes.js:209-215 | Each season covers exactly three of the months 0–11. |
| TravelTimes.OrderedColors | src/components/BeachTravelTimes.js:294-332 | When driving < biking < walking, the three avatar colours are ordered by severity the same way. |
| BeachTravelTimes.BeachTable | src/components/BeachTravelTimes.js:32-172 | Five beaches with ids 1..5 in order, all distinct; for each, driving < biking < walking. |
| BeachTravelTimes.SelectBeach | src/components/BeachTravelTimes.js:220 | No beach exactly when no id's string equals the selection; otherwise a beach of the table whose id's string is the selection. |
| BeachTravelTimes.AtMostOneBeachMatches | src/components/BeachTravelTimes.js:220 | No two beaches answer the same selection. |
| BeachTravelTimes.PlaceholderSelectsNoBeach | src/components/BeachTravelTimes.js:249 | The placeholder value "" selects no beach. |
| BeachTravelTimes.SelectBeachByMenuValue | src/components/BeachTravelTimes.js:251 | The menu value of beach k selects beach k. |
| TravelTimes.FindNumbered | src/components/BeachTravelTimes.js:220 | In any table numbered 1, 2, … in order, looking up the string of k finds entry k. The restaurant lookup at `RestaurantTravelTimes.js:195` uses the same lemma. |
| BeachTravelTimes.WaterTypeIcon | src/components/BeachTravelTimes.js:184-195 | The never-called helper `getWaterTypeIcon`: lower-cased "ocean" gives primary, "bay" info, "river/bay" secondary, anything else the default; each if and only if. |
| BeachTravelTimes.WaterTypeIconIgnoresCase | src/components/BeachTravelTimes.js:185 | Lower-casing the water type first never changes what `getWaterTypeIcon` gives. |
| BeachTravelTimes.WaterTypeChip | src/components/BeachTravelTimes.js:270 | The chip is primary exactly when the lower-cased type is "ocean"; otherwise it is info. |
| BeachTravelTimes.ChipPrimaryIffIconPrimary | src/components/BeachTravelTimes.js:184-195 | The chip is primary exactly when `getWaterTypeIcon` would give primary. |
| BeachTravelTimes.OceanColors | src/components/BeachTravelTimes.js:184-195 | "Ocean" gets the primary chip; `getWaterTypeIcon` would give primary. |
| BeachTravelTimes.RiverBayColors | src/components/BeachTravelTimes.js:184-195 | "River/Bay" gets the info chip; `getWaterTypeIcon` would give secondary. |
| BeachTravelTimes.BayColors | src/components/BeachTravelTimes.js:184-195 | "Bay" gets the info chip; `getWaterTypeIcon` would give info. |
| BeachTravelTimes.OceanBeachColors | src/components/BeachTravelTimes.js:58-114 | The three Brick beaches get primary chips; `getWaterTypeIcon` would give primary. |
| BeachTravelTimes.WindwardBeachColors | src/components/BeachTravelTimes.js:142 | Windward Beach Park gets an info chip; `getWaterTypeIcon` would give secondary. |
| BeachTravelTimes.BayBeachColors | src/components/BeachTravelTimes.js:170 | Bay Beach gets an info chip; `getWaterTypeIcon` would give info. |
| BeachTravelTimes.BeachAvatarColors | src/components/BeachTravelTimes.js:294-332 | Each beach's avatar colours get no milder from driving to biking to walking. |
| RestaurantTravelTimes.RestaurantTable | src/components/RestaurantTravelTimes.js:31-162 | Five restaurants with ids 1..5 in order, all distinct; for each, driving < biking < walking. |
| RestaurantTravelTimes.SelectRestaurant | src/components/RestaurantTravelTimes.js:195 | No restaurant exactly when no id's string equals the selection; otherwise a restaurant of the table whose id's string is the selection. |
| RestaurantTravelTimes.AtMostOneRestaurantMatches | src/components/RestaurantTravelTimes.js:195 | No two restaurants answer the same selection. |
| RestaurantTravelTimes.PlaceholderSelectsNoRestaurant | src/components/RestaurantTravelTimes.js:224 | The placeholder value "" selects no restaurant. |
| RestaurantTravelTimes.SelectRestaurantByMenuValue | src/components/RestaurantTravelTimes.js:226 | The menu value of restaurant k selects restaurant k. |
| RestaurantTravelTimes.RestaurantAvatarColors | src/components/RestaurantTravelTimes.js:250-288 | Each restaurant's avatar colours get no milder from driving to biking to walking. |
| Guestbook.Submit | src/components/Guestbook.js:14-15 | A filled form adds exactly one entry, in front, with the old entries after it in order. Any other form leaves the list as it was. Entries that all have a name and a message keep that property. |
| Guestbook.SubmitAllIsNewestFirst | src/components/Guestbook.js:14-15 | After any run of submissions, the list is the filled forms, newest first, above the starting entries. |
| Guestbook.Guestbook.constructor | src/components/Guestbook.js:5-10 | Jane's entry and then Mike's, with empty name and message fields. |
| Guestbook.Guestbook.SetName | src/components/Guestbook.js:26 | Typing sets the name field and nothing else. |
| Guestbook.Guestbook.SetMessage | src/components/Guestbook.js:27 | Typing sets the message field and nothing else. |
| Guestbook.Guestbook.HandleSubmit | src/components/Guestbook.js:12-19 | With both fields non-empty, one entry is prepended, the list grows by exactly one and both fields are cleared. Otherwise entries, name and message are all unchanged. All entries stay signed. |

## Left out

- Network I/O: the requests to the weather, tide, sunrise-sunset and buoy services are not modelled. The model takes their results as parameters, with `None` for a request that throws.
- fetchSun and the sunrise/sunset row are not modelled. They only display the service's result and a locale-formatted time.
- Concurrency: the fetches run concurrently in the code. The model takes their completion order as the caller's sequence of method calls. The race on `setLoading(false)` is therefore not modelled.
- Clock and locale: `Date`, `toISOString`, `getHours`, `getMinutes` and `getMonth` become the parameters `hours`, `minutes` and `month`. The request URLs built from dates are not modelled.
- Floating point: numbers are exact reals, so IEEE rounding is not modelled.
- WeatherWidget.RoundTenth: rounds ties upward and works on exact reals. It does not model the binary-float effects of `toFixed(1)`, and it differs from `toFixed(1)` on negative ties: `(-1.75).toFixed(1)` is "-1.8" while `RoundTenth(-1.75)` is -1.7. The heights and temperatures the widget rounds are not negative ties in practice, but the model does not promise that.
- Js.ParseInt: its contract states when the result is NaN and its sign. The value is stated by Js.ParseIntDecimal for an unsigned decimal numeral at the start of the string, and Js.ParseIntPadded and Js.ParseIntSigned carry it over leading white space and a sign. The value of a hexadecimal numeral is not stated.
- Js.ParseFloat: its contract states when the result is NaN and its sign. The value is stated for unsigned literals at the start of the string, of the form digits.digits, either run possibly empty (Js.ParseFloatDecimal), or digits alone (Js.ParseFloatWhole). Js.ParseFloatPadded and Js.ParseFloatSigned carry it over leading white space and a sign. The value of a literal with an exponent is not stated.
- WeatherWidget.NextTideIntended: compares clock times only, as the minimal fix of the day-of-month key. The requested range spans today and tomorrow (`WeatherWidget.js:56-59`), so after the day's last tide it can choose wrongly: at 23:00, with tomorrow's tides at 05:00 and 23:40 next, it picks 23:40 rather than 05:00. Comparing full timestamps would avoid this; that comparison is not modelled.
- WeatherWidget.TideKey, WeatherWidget.ClockKey: their own contracts state only the range of a four-character read. What they yield on a well-formed timestamp is stated by WeatherWidget.TideKeyIsDayOfMonth and WeatherWidget.ClockKeyIsClockTime.
- The display-only arithmetic is not modelled: `Math.round` of temperature and wind, and visibility / 1000.
- Js.ParseFloat: does not recognise the "Infinity" prefix, which reads as NaN.
- Js.ToLower: lower-cases ASCII letters only. The water types are ASCII.
- The model does not produce JSX, MUI and icon output. The colours and glyphs are enums and strings.
- The beach card's icon is not modelled: it is always the `BeachAccess` icon in the primary colour (`BeachTravelTimes.js:263`). `getWaterTypeIcon` is never called, so its water-drop icon never appears on the page; `WaterTypeIcon` models what the helper would return.
- The tables' display-only fields are not modelled: description, features, parking notes, links, seasonal notes and best-for text.
- The site's other components are static content: App, sections, map, gallery, manual, favourites and the dark-mode toggle.

## Findings

| source | as written | input that shows it | evidently intended | confidence | as-written member | corrected member |
|---|---|---|---|---|---|---|
| src/components/WeatherWidget.js:64 | the tide key is `parseInt(t.replace(/:/g,'').slice(8,12))`, which is the day of the month of "YYYY-MM-DD HH:MM" | tides 06:00 H, 12:30 L, 18:45 H looked up at 14:00 select 06:00 | the clock time `slice(11,15)` = HH·100+MM, selecting 18:45; this is the minimal fix, and after the day's last tide a full-timestamp comparison would be needed, since the feed also holds tomorrow's tides | not executed | WeatherWidget.TideAtTwoPm | WeatherWidget.NextTideIntendedByClock |
| src/components/WeatherWidget.js:107-122 | the height is read from token 6 and the water temperature from token 9 | any nine-field row laid out as the code's comment says, such as `24 06 15 12 00 1.2 0.8 8.0 19.5`, gives height 0.8 (SwH) and no water temperature | WVHT at token 5 and WTP at token 8, as the comment's layout places them | not executed | WeatherWidget.AsWrittenColumnsMissWvhtAndWtp | WeatherWidget.IntendedColumnsReadWvhtAndWtp |
