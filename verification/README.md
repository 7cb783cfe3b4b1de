# Current weather lookup — decision rules in Dafny

This project models the decision logic of the `CurrentWeather` class of a
small PHP service that takes a city name from a form, asks OpenWeatherMap for
the current conditions and renders them. The model covers:

- the city-name check of `validateInputForm`, including `preCleaningInput`
  (PHP `trim`, `strip_tags`, `stripslashes`) and the character-class pattern
  (`validation.dfy`);
- the condition-code to icon switch of `getWeatherIconImage`, returning the
  icon key (`"11d"`, `"09d"`, …, or `""`) rather than the `<img>` tag
  (`icons.dfy`);
- the degree to compass-label chain of `getWindDirection`, as written,
  including its North branch that can never fire, next to an independent
  arithmetic definition of the intended sixteen-point rose (`compass.dfy`);
- the object's state as a record and `storeWeatherData` as the same sequence
  of field updates, with PHP truthiness, `intval` truncation and the
  precipitation default (`current_weather.dfy`);
- the top-level script that chains validation, the fetch and the store, with
  the HTTP outcome as a parameter (`script.dfy`).

`php.dfy` holds the PHP runtime rules the class relies on (truthiness of
numbers and strings, `intval` on a number, C `isspace`); `wrappers.dfy` holds
the `Option` type used for `null`.

Modelling choices:

- JSON numbers are exact `real`s; `intval` is truncation toward zero.
- `$_SERVER`/`$_POST` become a `Request` value; the static configuration
  (`$lang`, `$countryCode`, `$units`) only feeds the URL and is not modelled.
- The `windDirection` property is `Unset` (the initial `""`), `Degrees(n)` or
  `Label(s)`. Comparing `""` or a label with the degree bounds is false for
  every branch under both PHP 7 and PHP 8 comparison rules, so those values
  pass through `getWindDirection` unchanged.
- The regex character class is modelled on characters: ASCII letters, the
  eighteen accented letters `áéíóöőúüűÁÉÍÓÖŐÚÜŰ` and the six ASCII characters
  `\s` matches (space, tab, newline, vertical tab, form feed, carriage return).

The model reproduces the code as written, including where it departs from what it
evidently intends or from what a reader might expect:

- An invalid or missing city produces no output at all, not an error message
  (`Script.InvalidInputIsSilent`).
- Degrees in [0, 11) and [349, 360) get no label; the property keeps the
  number. The wraparound to North that the dead first branch aims at is
  `Compass.IntendedLabel`, and `Compass.CompassAgreesWithIntentOffNorth` shows
  exactly where the two agree.
- Hourly precipitation is truncated to an integer by `intval`, not passed through.
- A zero temperature, humidity, wind speed, wind degree or condition id counts
  as missing, and the description "0" counts as missing too.
- An unreachable host and a rejected request (non-success HTTP status) are not
  told apart. Both give the same error envelope.
- Any value surrounded by characters `trim` removes is rejected, even though
  `\s` is in the class. A leading or trailing form feed is still accepted,
  because `\s` matches it and `trim` keeps it (`Validation.LeadingFormFeedAccepted`).

## Model

| member | source | states |
|---|---|---|
| Php.IntVal | weather.php:237 | `intval` of a number truncates toward zero: the result is within one of the input, on the input's side of zero |
| Php.IntValProperties | weather.php:250 | `intval` maps an integral number to itself, commutes with negation, and sends (-1, 1) to 0 |
| Validation.Trim | weather.php:113 | `trim` returns the slice of its input left after removing trim characters only, from both ends, until neither end is one; the input is unchanged exactly when it has no such character at either end |
| Validation.StripTags | weather.php:114 | `strip_tags` never lengthens its input, removes every NUL, leaves no `<` that could open a tag, and is the identity on input without `<` or NUL |
| Validation.StripSlashes | weather.php:115 | `stripslashes` is the identity on input without backslashes and strictly shortens any input that has one |
| Validation.StripSlashesUndoesAddSlashes | weather.php:115 | `stripslashes` drops each escaping backslash, keeps the escaped character and turns backslash-zero into NUL, so it inverts `addslashes` on every string |
| Validation.StripSlashesExamples | weather.php:115 | an escaped quote, an escaped backslash, a backslash-zero and a final lone backslash come out as PHP gives them |
| Validation.PreClean | weather.php:111-117 | `preCleaningInput` never lengthens its input and, on input without `<`, backslash or NUL, only trims |
| Validation.Validate | weather.php:125-129 | the city check holds exactly for non-empty strings of class characters whose first and last characters are not ones `trim` removes |
| Validation.RejectedInputs | weather.php:125-129 | a leading or trailing trim character, a `<`, a backslash or a digit anywhere makes the check fail |
| Validation.LeadingFormFeedAccepted | weather.php:128-129 | a name starting with a form feed passes the check while one starting with a space does not |
| Validation.AcceptedAscii | weather.php:125-129 | "Budapest" passes the check |
| Validation.AcceptedAccentsAndSpace | weather.php:125-129 | a name with an inner space and accented letters passes the check |
| Validation.RejectedExamples | weather.php:125-129 | "", "0", a trailing space, a tag and a digit each fail the check |
| Icons.IconKey | weather.php:271-382 | the icon key is empty exactly when the code is missing or not one the switch names |
| Icons.PrecipitationIcons | weather.php:274-339 | 11d, 09d, 10d and 13d are produced by exactly the thunderstorm, drizzle-or-shower-rain, rain, and freezing-rain-or-snow codes |
| Icons.SkyIcons | weather.php:342-376 | 50d, 01d, 02d, 03d and 04d are produced by exactly the atmosphere codes, 800, 801, 802, and 803-or-804 |
| Compass.CompassLabel | weather.php:388-420 | the chain yields a label exactly on [11, 349), namely that of the one arc containing the degree, and never yields North |
| Compass.ApplyCompass | weather.php:384-422 | `getWindDirection` turns a degree in [11, 349) into its arc's label and leaves every other value unchanged, so no reachable-arc degree survives |
| Compass.ApplyCompassIdempotent | weather.php:384-422 | applying `getWindDirection` twice is the same as once |
| Compass.LookupArc | weather.php:390-420 | scanning the sorted boundary table gives the same answer as the branch chain on every integer |
| Compass.ArcStartsAreSectorBoundaries | weather.php:390-419 | the chain's lower bounds are the 22.5-degree sector boundaries rounded to integers, `(45 k + 23) / 2` |
| Compass.IntendedLabel | weather.php:388-419 | the intended rose assigns every degree one of the sixteen labels |
| Compass.SectorOf | weather.php:388-419 | on [0, 360) the sector number is 1..15 exactly on [11, 349), with the degree inside arc `k - 1`, and 0 or 16 (North) elsewhere |
| Compass.CompassAgreesWithIntentOffNorth | weather.php:388-421 | on [11, 349) the chain gives the intended label; on the rest of [0, 360) the intent is North while the chain gives nothing |
| Compass.CompassExamples | weather.php:388-421 | 11 and 33 map to ÉÉK, 34 to ÉK, 90 to K, 348 to ÉÉNY; 0, 10, 349, 360 and -5 get no label |
| CurrentWeather.ValidateInputForm | weather.php:121-137 | non-POST gives no decision and no change; a POST is accepted exactly when the city field is present and passes the check, and then it is stored verbatim; a rejection changes nothing |
| CurrentWeather.StoreWeatherData | weather.php:203-269 | a falsy payload value leaves its property as it was and a truthy one is stored; precipitation is the truncated hourly rain or 0; the map link is rebuilt from the stored coordinates exactly when both are truthy; the icon is the key of the truncated condition id, or "" when the id is falsy; the wind degree goes through the compass chain |
| CurrentWeather.LinkConsistentPreserved | weather.php:213-223 | the fresh object has no link, and validating or storing keeps every link pointing at the stored, truthy coordinates |
| CurrentWeather.FreshStore | weather.php:203-269 | on a fresh object the link exists exactly when both coordinates are present and non-zero, missing or zero readings stay null, precipitation defaults to 0, and the direction stays "" without a truthy degree |
| CurrentWeather.StoreIdempotent | weather.php:203-269 | storing the same payload twice gives the same object as storing it once |
| CurrentWeather.BudapestScenario | weather.php:203-269 | 15.2 degrees, 60 %, 5 m/s from 90 degrees and code 800 without rain give 18 km/h, label K, icon 01d, precipitation 0 and a map link |
| CurrentWeather.ZeroReadsAsMissing | weather.php:226-262 | a zero temperature, wind degree or condition id is treated as missing |
| Script.HandleRequest | weather.php:450-460 | only a POST with a valid city gets a reply; a failed fetch gives the fixed error message; a decoded payload gives exactly the fresh object, with the submitted city, after storing that payload, and its map link is consistent; a falsy decoding gives nothing |
| Script.InvalidInputIsSilent | weather.php:454-460 | a non-POST request or a missing or rejected city produces no output |

## Left out

- `getWeatherDataFromApi` (weather.php:158-199): URL building, the API key, the HTTP call, `json_decode` and the `error_reporting` toggles. Only its outcome enters the model, as `Script.Fetch`.
- `injectDataToHtml` and `echoAllProperties` (weather.php:141-155, 425-443): HTML and JSON string assembly with `echo`. The model's reply carries the object they would render.
- The time of measurement, `date('H:m', …)` (weather.php:206-209): it depends on the time zone and the C library, and it prints hour:month.
- `setCityName`/`getCityName` and the constructor's optional arguments: plain accessors, and the script only uses default construction.
- The text of the map link. The decimal rendering of the coordinates is PHP's float-to-string conversion, so `MapLink` keeps the two numbers instead.
- CurrentWeather.StoreWeatherData: temperature, wind speed and coordinates are exact reals, so IEEE rounding of `floatval` and `* 3.6` is not modelled. `round` only affects the display.
- Php.IntVal: PHP's 64-bit range, NaN and infinity are not modelled.
- Validation.Validate: the pattern runs byte-wise over UTF-8 (no `u` flag). This admits some other two-byte letters built from the same bytes; the model uses the character set instead.
- Validation.StripTags: only the main rule of PHP's tag stripper is modelled. Quotes inside tags, comments, `<?` blocks and allow-lists are left out. On input without `<` the two agree, and that is all the check relies on.
- Payload values of other JSON types, such as a coordinate sent as the string "0.0" (truthy in PHP): the payload's fields are typed as numbers or strings.
- The `city` field is assumed to be a string. A form can send it as an array (`city[]=x`); `isset` and `!empty` then pass, and `trim` at weather.php:113 throws an uncaught TypeError under PHP 8 (under PHP 7 it returns null and the field is rejected). That error path is not modelled.
