/** The condition-code to icon mapping of `getWeatherIconImage`
    (weather.php:271-382). The source builds an `<img>` tag around
    `images/weather/<key>.png`; the model returns the key alone, with "" for
    the `default` branch. */
module Icons {
  import opened Wrappers

  /** The provider's condition codes, grouped as the switch groups them. */
  const ThunderstormCodes: set<int> := {200, 201, 202, 210, 211, 212, 221, 230, 231}
  const DrizzleCodes: set<int> := {300, 301, 302, 310, 311, 312, 313, 314, 321}
  const RainCodes: set<int> := {500, 501, 502, 503, 504}
  const FreezingRainCode: int := 511
  const ShowerRainCodes: set<int> := {520, 521, 522, 531}
  const SnowCodes: set<int> := {600, 601, 602, 611, 612, 613, 615, 616, 620, 621, 622}
  const AtmosphereCodes: set<int> := {701, 711, 721, 731, 741, 751, 761, 762, 771, 781}
  const ClearCode: int := 800
  const FewCloudsCode: int := 801
  const ScatteredCloudsCode: int := 802
  const CloudyCodes: set<int> := {803, 804}

  /** Every code the switch names. */
  predicate IsKnownCode(c: int) {
    || c in ThunderstormCodes || c in DrizzleCodes || c in RainCodes || c == FreezingRainCode
    || c in ShowerRainCodes || c in SnowCodes || c in AtmosphereCodes
    || c == ClearCode || c == FewCloudsCode || c == ScatteredCloudsCode || c in CloudyCodes
  }

  /** `getWeatherIconImage($weatherIconId)`: the switch, case by case. A
      missing code (`null`, when the payload's id was falsy) equals none of
      the non-zero case labels and falls to `default`. The key is empty
      exactly when the code is missing or not one the switch names. */
  function IconKey(code: Option<int>): (key: string)
    ensures key == "" <==> code.None? || !IsKnownCode(code.value)
  {
    match code
    case None => ""
    case Some(c) =>
      match c
      // Thunderstorm
      case 200 | 201 | 202 | 210 | 211 | 212 | 221 | 230 | 231 => "11d"
      // Drizzle
      case 300 | 301 | 302 | 310 | 311 | 312 | 313 | 314 | 321 => "09d"
      // Rain
      case 500 | 501 | 502 | 503 | 504 => "10d"
      // Freezing rain
      case 511 => "13d"
      // Shower rain
      case 520 | 521 | 522 | 531 => "09d"
      // Snow
      case 600 | 601 | 602 | 611 | 612 | 613 | 615 | 616 | 620 | 621 | 622 => "13d"
      // Atmosphere
      case 701 | 711 | 721 | 731 | 741 | 751 | 761 | 762 | 771 | 781 => "50d"
      // Clear
      case 800 => "01d"
      // Clouds
      case 801 => "02d"
      case 802 => "03d"
      case 803 => "04d"
      case 804 => "04d"
      case _ => ""
  }

  /** Each precipitation icon is produced by exactly the codes of its
      group(s): shower rain shares the drizzle icon and freezing rain shares
      the snow icon. */
  lemma PrecipitationIcons(c: int)
    ensures IconKey(Some(c)) == "11d" <==> c in ThunderstormCodes
    ensures IconKey(Some(c)) == "09d" <==> c in DrizzleCodes || c in ShowerRainCodes
    ensures IconKey(Some(c)) == "10d" <==> c in RainCodes
    ensures IconKey(Some(c)) == "13d" <==> c == FreezingRainCode || c in SnowCodes
  {
    var k := IconKey(Some(c));
    if c in ThunderstormCodes { assert k == "11d"; }
    else if c in DrizzleCodes || c in ShowerRainCodes { assert k == "09d"; }
    else if c in RainCodes { assert k == "10d"; }
    else if c == FreezingRainCode || c in SnowCodes { assert k == "13d"; }
    else { assert k !in {"11d", "09d", "10d", "13d"}; }
  }

  /** Each sky icon is produced by exactly the codes of its group: the
      atmosphere codes share one icon, as do the two heavy-cloud codes. */
  lemma SkyIcons(c: int)
    ensures IconKey(Some(c)) == "50d" <==> c in AtmosphereCodes
    ensures IconKey(Some(c)) == "01d" <==> c == ClearCode
    ensures IconKey(Some(c)) == "02d" <==> c == FewCloudsCode
    ensures IconKey(Some(c)) == "03d" <==> c == ScatteredCloudsCode
    ensures IconKey(Some(c)) == "04d" <==> c in CloudyCodes
  {
    var k := IconKey(Some(c));
    if c in AtmosphereCodes { assert k == "50d"; }
    else if c == ClearCode { assert k == "01d"; }
    else if c == FewCloudsCode { assert k == "02d"; }
    else if c == ScatteredCloudsCode { assert k == "03d"; }
    else if c in CloudyCodes { assert k == "04d"; }
    else { assert k !in {"50d", "01d", "02d", "03d", "04d"}; }
  }
}
