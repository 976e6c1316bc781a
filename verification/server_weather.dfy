/**
 * The weather service (`ServerWeather`): `GET /?cep=...`.  It validates the
 * CEP, resolves it to a city with the address provider, asks the weather
 * provider about that city with the server's API key, and answers with the
 * temperatures in Celsius, Fahrenheit and Kelvin.
 */
module ServerWeather {
  import opened Wrappers
  import opened Text
  import opened CepPattern
  import opened Records
  import opened Http
  import opened Upstream
  import ServerCep

  /** The server's configuration that the handler reads: the weather provider's API key. */
  datatype ServerWeather = ServerWeather(weatherApiKey: string)

  /** The offset the handler adds to Celsius to obtain Kelvin (not 273.15). */
  const KelvinOffset: real := 273.0

  /** `url.Values.Get`: the first value given for `key`, or "" when there is none. */
  function QueryGet(query: map<string, seq<string>>, key: string): string
  {
    if key in query && |query[key]| > 0 then query[key][0] else ""
  }

  /**
   * `(*ServerWeather).GetCEPInfo`: the same classification as the combined
   * service's `GetCEPInfo`, written out again as the source does.
   */
  function GetCepInfo(cep: string, env: Env): (r: Result<ViaCep, string>)
    ensures r == ServerCep.GetCepInfo(cep, env)
  {
    match env.net(AddressUrl(cep))
    case Unbuildable(e) => Failure(e)
    case RoundTripFailed(e) => Failure(e)
    case ReadFailed(e) => Failure(e)
    case Received(body) =>
      if Contains(body, ErrorMarker) then Failure(NotFoundMessage)
      else env.codec.viaCep(body)
  }

  /**
   * `GetWeatherInfo`: fetch current conditions for `location`.  A body
   * containing the marker is read as an error envelope and never as a
   * reading; any other body is decoded as a reading.
   */
  function GetWeatherInfo(location: string, apiKey: string, env: Env): (r: Result<Weather, string>)
    ensures var x := env.net(WeatherUrl(apiKey, env.queryEscape(location)));
      && (!x.Received? ==> r == Failure(x.err))
      && (x.Received? && (exists i :: OccursAt(x.body, ErrorMarker, i)) ==>
            && r.Failure?
            && (env.codec.errorEnvelope(x.body).Success? ==>
                  r.error == env.codec.errorEnvelope(x.body).value.error.message)
            && (env.codec.errorEnvelope(x.body).Failure? ==>
                  r.error == env.codec.errorEnvelope(x.body).error))
      && (x.Received? && (forall i :: !OccursAt(x.body, ErrorMarker, i)) ==> r == env.codec.weather(x.body))
  {
    match env.net(WeatherUrl(apiKey, env.queryEscape(location)))
    case Unbuildable(e) => Failure(e)
    case RoundTripFailed(e) => Failure(e)
    case ReadFailed(e) => Failure(e)
    case Received(body) =>
      if Contains(body, ErrorMarker) then
        match env.codec.errorEnvelope(body)
        case Failure(e) => Failure(e)
        case Success(envelope) => Failure(envelope.error.message)
      else
        env.codec.weather(body)
  }

  /** The report built from a reading: the provider's names and readings, Kelvin derived. */
  function Report(w: Weather): (t: Temperatures)
    ensures t.city == w.location.name
    ensures t.tempC == w.current.tempC && t.tempF == w.current.tempF
    ensures t.tempK - t.tempC == KelvinOffset
  {
    Temperatures(w.location.name, w.current.tempC, w.current.tempF, w.current.tempC + KelvinOffset)
  }

  /**
   * `FindTemperature`: the handler.  Each stage that fails writes its
   * response and returns, so no later stage runs and nothing later is attempted.
   */
  function FindTemperature(server: ServerWeather, query: map<string, seq<string>>, env: Env): (r: Reply)
    // 1. no `cep` parameter, or an empty one: 400, no fetch attempted
    ensures QueryGet(query, "cep") == "" ==>
      SentError(r, StatusBadRequest, "Cep is required") && r.attempted == []
    // 2. a present CEP outside the pattern: 422, no fetch attempted
    ensures QueryGet(query, "cep") != "" && !InPattern(QueryGet(query, "cep")) ==>
      SentError(r, StatusUnprocessableEntity, "invalid zipcode") && r.attempted == []
    // 3. only a valid CEP is looked up, and it is looked up as given
    ensures |r.attempted| > 0 ==>
      InPattern(QueryGet(query, "cep")) && r.attempted[0] == AddressUrl(QueryGet(query, "cep"))
    // 4. the address lookup's outcome decides the rest
    ensures InPattern(QueryGet(query, "cep")) ==>
      var cep := QueryGet(query, "cep");
      var addr := GetCepInfo(cep, env);
      && (addr.Failure? && addr.error == NotFoundMessage ==>
            SentError(r, StatusNotFound, NotFoundMessage) && r.attempted == [AddressUrl(cep)])
      && (addr.Failure? && addr.error != NotFoundMessage ==>
            SentError(r, StatusBadRequest, "Error getting CEP info: " + addr.error) && r.attempted == [AddressUrl(cep)])
      && (addr.Success? ==>
            var weather := GetWeatherInfo(addr.value.localidade, server.weatherApiKey, env);
            && r.attempted == [AddressUrl(cep), WeatherUrl(server.weatherApiKey, env.queryEscape(addr.value.localidade))]
            && (weather.Failure? ==>
                  SentError(r, StatusBadRequest, "Error getting weather info: " + weather.error))
            && (weather.Success? ==> Commit(r.log).status == StatusOK)
            && (weather.Success? && env.codec.encode(Report(weather.value)).Success? ==>
                  Commit(r.log).body == [Json(Report(weather.value))])
            && (weather.Success? && env.codec.encode(Report(weather.value)).Failure? ==>
                  Commit(r.log).body == [Plain(env.codec.encode(Report(weather.value)).error + "\n")]))
  {
    var cepParam := QueryGet(query, "cep");
    if cepParam == "" then
      ErrorThenHeader("Cep is required", StatusBadRequest, StatusBadRequest);
      Reply(HttpError("Cep is required", StatusBadRequest) + [WriteHeader(StatusBadRequest)], [])
    else
      var (valid, err) := ServerCep.VerifyValidCep(cepParam);
      if err.Some? then
        Reply([WriteHeader(StatusInternalServerError)], [])
      else if !valid then
        ErrorThenHeader("invalid zipcode", StatusUnprocessableEntity, StatusUnprocessableEntity);
        Reply(HttpError("invalid zipcode", StatusUnprocessableEntity) + [WriteHeader(StatusUnprocessableEntity)], [])
      else
        var addressUrl := AddressUrl(cepParam);
        match GetCepInfo(cepParam, env)
        case Failure(e) =>
          if e == NotFoundMessage then
            ErrorThenHeader(e, StatusNotFound, StatusNotFound);
            Reply(HttpError(e, StatusNotFound) + [WriteHeader(StatusNotFound)], [addressUrl])
          else
            ErrorThenHeader("Error getting CEP info: " + e, StatusBadRequest, StatusInternalServerError);
            Reply(HttpError("Error getting CEP info: " + e, StatusBadRequest) + [WriteHeader(StatusInternalServerError)], [addressUrl])
        case Success(address) =>
          var attempted := [addressUrl, WeatherUrl(server.weatherApiKey, env.queryEscape(address.localidade))];
          match GetWeatherInfo(address.localidade, server.weatherApiKey, env)
          case Failure(e) =>
            ErrorThenHeader("Error getting weather info: " + e, StatusBadRequest, StatusInternalServerError);
            Reply(HttpError("Error getting weather info: " + e, StatusBadRequest) + [WriteHeader(StatusInternalServerError)], attempted)
          case Success(weather) =>
            var temperatures := Report(weather);
            Reply([WriteHeader(StatusOK)] + EncodeReport(temperatures, env.codec), attempted)
  }

  /** The weather provider's error body never yields a reading, whatever the reading decoder would do. */
  lemma MarkerNeverYieldsReading(location: string, apiKey: string, env: Env, other: string -> Result<Weather, string>)
    requires env.net(WeatherUrl(apiKey, env.queryEscape(location))).Received?
    requires Contains(env.net(WeatherUrl(apiKey, env.queryEscape(location))).body, ErrorMarker)
    ensures GetWeatherInfo(location, apiKey, env).Failure?
    ensures GetWeatherInfo(location, apiKey, env) == GetWeatherInfo(location, apiKey, env.(codec := env.codec.(weather := other)))
  {
  }

  /**
   * A provider error such as "No matching location found." reaches the
   * client as a 400 carrying the provider's message.
   */
  lemma ProviderErrorIsBadRequest(server: ServerWeather, query: map<string, seq<string>>, env: Env, address: ViaCep)
    requires InPattern(QueryGet(query, "cep"))
    requires GetCepInfo(QueryGet(query, "cep"), env) == Success(address)
    requires var x := env.net(WeatherUrl(server.weatherApiKey, env.queryEscape(address.localidade)));
      && x.Received?
      && Contains(x.body, ErrorMarker)
      && env.codec.errorEnvelope(x.body) == Success(ErrorEnvelope(ProviderError(1006, "No matching location found.")))
    ensures SentError(FindTemperature(server, query, env), StatusBadRequest,
                      "Error getting weather info: No matching location found.")
  {
    var x := env.net(WeatherUrl(server.weatherApiKey, env.queryEscape(address.localidade)));
    assert exists i :: OccursAt(x.body, ErrorMarker, i);
    assert GetWeatherInfo(address.localidade, server.weatherApiKey, env) == Failure("No matching location found.");
    assert "Error getting weather info: " + "No matching location found."
        == "Error getting weather info: No matching location found.";
  }

  /**
   * On success the report names the weather provider's location, not the
   * address provider's city, passes both readings through and adds 273 to
   * Celsius for Kelvin: 25 C and 77 F are reported as 298 K.
   */
  lemma ReportComesFromProvider(server: ServerWeather, query: map<string, seq<string>>, env: Env,
                                address: ViaCep, w: Weather)
    requires InPattern(QueryGet(query, "cep"))
    requires GetCepInfo(QueryGet(query, "cep"), env) == Success(address)
    requires GetWeatherInfo(address.localidade, server.weatherApiKey, env) == Success(w)
    requires env.codec.encode(Report(w)).Success?
    ensures Commit(FindTemperature(server, query, env).log) ==
      Response(StatusOK, [Json(Temperatures(w.location.name, w.current.tempC, w.current.tempF, w.current.tempC + 273.0))])
    ensures w.current.tempC == 25.0 ==> Report(w).tempK == 298.0
  {
  }

  /** A missing or empty parameter is a bad request; a present but malformed one is unprocessable. */
  lemma MissingVersusMalformed(server: ServerWeather, env: Env)
    ensures SentError(FindTemperature(server, map[], env), StatusBadRequest, "Cep is required")
    ensures SentError(FindTemperature(server, map["cep" := [""]], env), StatusBadRequest, "Cep is required")
    ensures SentError(FindTemperature(server, map["cep" := ["123"]], env), StatusUnprocessableEntity, "invalid zipcode")
  {
    assert QueryGet(map["cep" := ["123"]], "cep") == "123";
  }

  /**
   * Up to and including the address lookup the two handlers answer alike:
   * given the same valid CEP and the same world, an address failure gets the
   * same response from both.
   */
  lemma AddressFailuresAgree(server: ServerWeather, query: map<string, seq<string>>, body: string, env: Env)
    requires env.codec.cepInput(body) == Success(CepInput(QueryGet(query, "cep")))
    requires InPattern(QueryGet(query, "cep"))
    requires GetCepInfo(QueryGet(query, "cep"), env).Failure?
    ensures Commit(FindTemperature(server, query, env).log) == Commit(ServerCep.ValidateCep(body, env).log)
    ensures FindTemperature(server, query, env).attempted == ServerCep.ValidateCep(body, env).attempted
  {
  }
}
