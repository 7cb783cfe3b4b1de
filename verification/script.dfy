/** The script around the class (weather.php:450-460): validate, fetch,
    store, render. The HTTP call of `getWeatherDataFromApi` is a parameter
    (its outcome), and rendering is reduced to the object it would render. */
module Script {
  import opened Wrappers
  import Validation
  import opened CurrentWeather

  /** What `file_get_contents` followed by `json_decode` hands back: either
      the request failed (no connection, or a non-success HTTP status, which
      `file_get_contents` also reports as `false`), or a body that decoded to
      a payload, `None` standing for a falsy decoding (`null`, empty array). */
  datatype Fetch = RequestFailed | Decoded(body: Option<Payload>)

  /** What the script echoes: nothing, the error envelope of
      weather.php:184-188, or the envelope `injectDataToHtml` builds from
      the stored object. */
  datatype Reply = Silent | ErrorReply(message: string) | WeatherReply(report: State)

  /** The message thrown at weather.php:179. */
  const RequestFailedMessage: string :=
    "Http request failed. Wrong city name! Also check your API key if you did not set."

  /** One run of the script on a fresh object. It answers only a POST with a
      valid city; a failed request yields the error envelope and nothing
      else; a falsy decoding yields nothing; otherwise the reply carries the
      stored report for the submitted city, whose map link is consistent. */
  function HandleRequest(req: Request, fetch: Fetch): (reply: Reply)
    ensures reply != Silent ==>
              req.requestMethod == "POST" && req.city.Some? && Validation.Validate(req.city.value)
    ensures reply.ErrorReply? <==>
              && req.requestMethod == "POST" && req.city.Some? && Validation.Validate(req.city.value)
              && fetch == RequestFailed
    ensures reply.ErrorReply? ==> reply.message == RequestFailedMessage
    ensures reply.WeatherReply? <==>
              && req.requestMethod == "POST" && req.city.Some? && Validation.Validate(req.city.value)
              && fetch.Decoded? && fetch.body.Some?
    ensures reply.WeatherReply? ==>
              && reply.report == StoreWeatherData(Initial.(cityName := req.city), fetch.body.value)
              && reply.report.cityName == req.city
              && LinkConsistent(reply.report)
  {
    var (valid, w) := ValidateInputForm(Initial, req);
    if valid == Some(true) then
      match fetch
      case RequestFailed => ErrorReply(RequestFailedMessage)
      case Decoded(Some(res)) =>
        LinkConsistentPreserved(w, req, res);
        WeatherReply(StoreWeatherData(w, res))
      case Decoded(None) => Silent
    else
      Silent
  }

  /** A rejected or missing city, or a request that is not a POST, produces
      no output at all: no error envelope is sent for invalid input. */
  lemma InvalidInputIsSilent(req: Request, fetch: Fetch)
    requires req.requestMethod != "POST" || req.city.None? || !Validation.Validate(req.city.value)
    ensures HandleRequest(req, fetch) == Silent
  {
  }
}
