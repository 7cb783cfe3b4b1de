/** The `CurrentWeather` object (weather.php:10-91) as an immutable record,
    and its two state-changing operations that carry decisions:
    `validateInputForm` (weather.php:121-137) and `storeWeatherData`
    (weather.php:203-269). The superglobals become a `Request` parameter;
    the decoded API response becomes a `Payload` of optional fields. */
module CurrentWeather {
  import opened Wrappers
  import Php
  import Validation
  import Icons
  import Compass

  /** The map link `https://openweathermap.org/weathermap?zoom=12&lat=..&lon=..`,
      kept as the two coordinates it is built from. */
  datatype MapLink = MapLink(lat: real, lon: real)

  /** The properties of a `CurrentWeather` object that the decision rules
      read or write. `null` is `None`; the time of measurement is left out. */
  datatype State = State(
    cityName: Option<string>,
    latitude: Option<real>,
    longitude: Option<real>,
    mapLink: Option<MapLink>,
    description: string,
    icon: string,
    temperature: Option<real>,
    humidity: Option<real>,
    windSpeed: Option<real>,
    windDirection: Compass.Wind,
    precipitation1h: Option<int>)

  /** The object as `new CurrentWeather()` leaves it (weather.php:65-91). */
  const Initial: State := State(
    cityName := None, latitude := None, longitude := None, mapLink := None,
    description := "", icon := "", temperature := None, humidity := None,
    windSpeed := None, windDirection := Compass.Unset, precipitation1h := None)

  /** The fields of the decoded API response that `storeWeatherData` reads;
      `None` is a key that is missing or `null`. JSON numbers are exact reals. */
  datatype Payload = Payload(
    lat: Option<real>,
    lon: Option<real>,
    temp: Option<real>,
    humidity: Option<real>,
    rain1h: Option<real>,
    windSpeed: Option<real>,
    windDeg: Option<real>,
    description: Option<string>,
    conditionId: Option<real>)

  /** The request as the script sees it: `$_SERVER['REQUEST_METHOD']` and the
      `city` field of `$_POST`, if any. */
  datatype Request = Request(requestMethod: string, city: Option<string>)

  // ---------------------------------------------------- validateInputForm

  /** `validateInputForm`: no decision (`None`) unless the method is exactly
      "POST"; otherwise accepted exactly when a `city` field is present and
      passes the check, in which case it becomes the city name verbatim. A
      rejection or a non-POST request leaves the object untouched. */
  function ValidateInputForm(w: State, req: Request): (r: (Option<bool>, State))
    ensures req.requestMethod != "POST" ==> r.0 == None && r.1 == w
    ensures req.requestMethod == "POST" ==> r.0.Some?
    ensures r.0 == Some(true) <==>
              req.requestMethod == "POST" && req.city.Some? && Validation.Validate(req.city.value)
    ensures r.0 == Some(true) ==> r.1 == w.(cityName := req.city)
    ensures r.0 != Some(true) ==> r.1 == w
  {
    if req.requestMethod == "POST" then
      match req.city
      case Some(city) =>
        if Php.StringTruthy(city) && city == Validation.PreClean(city)
           && Validation.MatchesCityPattern(city)
        then (Some(true), w.(cityName := Some(city)))
        else (Some(false), w)
      case None => (Some(false), w)
    else
      (None, w)
  }

  // ----------------------------------------------------- storeWeatherData

  /** weather.php:213-218: each coordinate is copied when truthy. */
  function StoreCoordinates(w: State, res: Payload): (r: State)
    ensures r.latitude == (if Php.Truthy(res.lat) then res.lat else w.latitude)
    ensures r.longitude == (if Php.Truthy(res.lon) then res.lon else w.longitude)
    ensures r == w.(latitude := r.latitude, longitude := r.longitude)
  {
    var w1 := if Php.Truthy(res.lat) then w.(latitude := res.lat) else w;
    if Php.Truthy(res.lon) then w1.(longitude := res.lon) else w1
  }

  /** weather.php:221-223: the link is (re)built when both stored coordinates
      are truthy. */
  function StoreMapLink(w: State): (r: State)
    ensures r == w.(mapLink := r.mapLink)
  {
    if Php.Truthy(w.longitude) && Php.Truthy(w.latitude)
    then w.(mapLink := Some(MapLink(w.latitude.value, w.longitude.value)))
    else w
  }

  /** weather.php:226-240: temperature and humidity when truthy; the
      precipitation of the last hour is `intval` of the field when it is set
      and 0 otherwise. */
  function StoreMeasurements(w: State, res: Payload): (r: State)
    ensures r.temperature == (if Php.Truthy(res.temp) then res.temp else w.temperature)
    ensures r.humidity == (if Php.Truthy(res.humidity) then res.humidity else w.humidity)
    ensures r == w.(temperature := r.temperature, humidity := r.humidity,
                    precipitation1h := r.precipitation1h)
  {
    var w1 := if Php.Truthy(res.temp) then w.(temperature := res.temp) else w;
    var w2 := if Php.Truthy(res.humidity) then w1.(humidity := res.humidity) else w1;
    match res.rain1h
    case Some(mm) => w2.(precipitation1h := Some(Php.IntVal(mm)))
    case None => w2.(precipitation1h := Some(0))
  }

  /** weather.php:243-256: wind speed converted from m/s to km/h, wind degree
      truncated to an integer, description copied; each only when truthy. */
  function StoreWindAndDescription(w: State, res: Payload): (r: State)
    ensures r == w.(windSpeed := r.windSpeed, windDirection := r.windDirection,
                    description := r.description)
  {
    var w1 := if Php.Truthy(res.windSpeed) then w.(windSpeed := Some(res.windSpeed.value * 3.6)) else w;
    var w2 := if Php.Truthy(res.windDeg)
              then w1.(windDirection := Compass.Degrees(Php.IntVal(res.windDeg.value)))
              else w1;
    if Php.TruthyString(res.description) then w2.(description := res.description.value) else w2
  }

  /** weather.php:259-262: the condition id, truncated, when truthy;
      otherwise the local variable stays unset (`null`). */
  function ConditionCode(res: Payload): (code: Option<int>)
    ensures code.Some? <==> Php.Truthy(res.conditionId)
    ensures code.Some? ==> code.value == Php.IntVal(res.conditionId.value)
  {
    if Php.Truthy(res.conditionId) then Some(Php.IntVal(res.conditionId.value)) else None
  }

  /** `storeWeatherData`: the steps above in source order, then the icon
      (weather.php:265) and the compass label (weather.php:268). A falsy
      payload value (missing, zero, "" or "0") leaves the property as it
      was; precipitation is always set; the map link is rebuilt from the
      stored coordinates whenever both are truthy; the icon is always
      recomputed; a degree value in a reachable arc never survives. */
  function StoreWeatherData(w: State, res: Payload): (r: State)
    ensures r.cityName == w.cityName
    ensures Php.Truthy(res.lat) ==> r.latitude == res.lat
    ensures !Php.Truthy(res.lat) ==> r.latitude == w.latitude
    ensures Php.Truthy(res.lon) ==> r.longitude == res.lon
    ensures !Php.Truthy(res.lon) ==> r.longitude == w.longitude
    ensures Php.Truthy(r.latitude) && Php.Truthy(r.longitude) ==>
              r.mapLink == Some(MapLink(r.latitude.value, r.longitude.value))
    ensures !(Php.Truthy(r.latitude) && Php.Truthy(r.longitude)) ==> r.mapLink == w.mapLink
    ensures Php.Truthy(res.temp) ==> r.temperature == res.temp
    ensures !Php.Truthy(res.temp) ==> r.temperature == w.temperature
    ensures Php.Truthy(res.humidity) ==> r.humidity == res.humidity
    ensures !Php.Truthy(res.humidity) ==> r.humidity == w.humidity
    ensures res.rain1h.Some? ==> r.precipitation1h == Some(Php.IntVal(res.rain1h.value))
    ensures res.rain1h.None? ==> r.precipitation1h == Some(0)
    ensures Php.Truthy(res.windSpeed) ==> r.windSpeed == Some(res.windSpeed.value * 3.6)
    ensures !Php.Truthy(res.windSpeed) ==> r.windSpeed == w.windSpeed
    ensures Php.TruthyString(res.description) ==> r.description == res.description.value
    ensures !Php.TruthyString(res.description) ==> r.description == w.description
    ensures !Php.Truthy(res.conditionId) ==> r.icon == ""
    ensures Php.Truthy(res.conditionId) ==>
              r.icon == Icons.IconKey(Some(Php.IntVal(res.conditionId.value)))
    ensures Php.Truthy(res.windDeg) ==>
              r.windDirection == Compass.ApplyCompass(Compass.Degrees(Php.IntVal(res.windDeg.value)))
    ensures !Php.Truthy(res.windDeg) ==> r.windDirection == Compass.ApplyCompass(w.windDirection)
  {
    var w1 := StoreCoordinates(w, res);
    var w2 := StoreMapLink(w1);
    var w3 := StoreMeasurements(w2, res);
    var w4 := StoreWindAndDescription(w3, res);
    var w5 := w4.(icon := Icons.IconKey(ConditionCode(res)));
    w5.(windDirection := Compass.ApplyCompass(w5.windDirection))
  }

  // ------------------------------------------------------------ properties

  /** The map link, when set, points at the stored coordinates, and both of
      them are truthy. */
  predicate LinkConsistent(w: State) {
    w.mapLink.Some? ==>
      && Php.Truthy(w.latitude) && Php.Truthy(w.longitude)
      && w.mapLink.value == MapLink(w.latitude.value, w.longitude.value)
  }

  /** The fresh object has no link; validation and storing keep the link
      consistent, because stored coordinates are only ever replaced by
      truthy ones and the link is rebuilt whenever both are truthy. */
  lemma LinkConsistentPreserved(w: State, req: Request, res: Payload)
    requires LinkConsistent(w)
    ensures LinkConsistent(Initial)
    ensures LinkConsistent(ValidateInputForm(w, req).1)
    ensures LinkConsistent(StoreWeatherData(w, res))
  {
  }

  /** On a fresh object (as the script uses it): the link exists exactly when
      both coordinates are present and non-zero; a missing or zero
      temperature, humidity or wind speed leaves the property `null`;
      precipitation is the truncated hourly rain, or exactly 0 without one;
      a missing or zero wind degree leaves the direction "". */
  lemma FreshStore(res: Payload)
    ensures var r := StoreWeatherData(Initial, res);
      && (r.mapLink.Some? <==> Php.Truthy(res.lat) && Php.Truthy(res.lon))
      && (r.temperature.None? <==> !Php.Truthy(res.temp))
      && (r.humidity.None? <==> !Php.Truthy(res.humidity))
      && (r.windSpeed.None? <==> !Php.Truthy(res.windSpeed))
      && r.precipitation1h == Some(if res.rain1h.Some? then Php.IntVal(res.rain1h.value) else 0)
      && (r.windDirection == Compass.Unset <==> !Php.Truthy(res.windDeg))
      && (r.icon == "" <==>
            !Php.Truthy(res.conditionId) || !Icons.IsKnownCode(Php.IntVal(res.conditionId.value)))
  {
  }

  /** Storing the same payload twice gives the same object as storing it once. */
  lemma StoreIdempotent(w: State, res: Payload)
    ensures StoreWeatherData(StoreWeatherData(w, res), res) == StoreWeatherData(w, res)
  {
    Compass.ApplyCompassIdempotent(w.windDirection);
  }

  /** Budapest at 15.2 degrees, 60 % humidity, 5 m/s wind from 90 degrees,
      clear sky (800), no rain field: 18 km/h, label "K", icon "01d",
      precipitation 0, and a map link. */
  lemma BudapestScenario()
    ensures var res := Payload(
              lat := Some(47.4984), lon := Some(19.0404), temp := Some(15.2),
              humidity := Some(60.0), rain1h := None, windSpeed := Some(5.0),
              windDeg := Some(90.0), description := Some("derült égbolt"),
              conditionId := Some(800.0));
      var r := StoreWeatherData(Initial, res);
      && r.temperature == Some(15.2)
      && r.humidity == Some(60.0)
      && r.windSpeed == Some(18.0)
      && r.windDirection == Compass.Label("K")
      && r.icon == "01d"
      && r.precipitation1h == Some(0)
      && r.mapLink == Some(MapLink(47.4984, 19.0404))
  {
    Php.IntValProperties(0.0, 90);
    Php.IntValProperties(0.0, 800);
    Icons.SkyIcons(800);
    assert Compass.CompassLabel(90) == Some("K");
  }

  /** A zero reading is indistinguishable from a missing one: 0 degrees
      Celsius leaves the temperature `null`, a zero wind degree leaves the
      direction "", and a zero condition id yields no icon. */
  lemma ZeroReadsAsMissing(res: Payload)
    requires res.temp == Some(0.0) && res.windDeg == Some(0.0) && res.conditionId == Some(0.0)
    ensures StoreWeatherData(Initial, res).temperature == None
    ensures StoreWeatherData(Initial, res).windDirection == Compass.Unset
    ensures StoreWeatherData(Initial, res).icon == ""
  {
  }
}
