/**
 * The combined service (`ServerCep`): `POST /` with a JSON body naming a CEP.
 * It validates the CEP, resolves it with the address provider, forwards the
 * address record's CEP to the weather service and re-emits that service's
 * report.
 */
module ServerCep {
  import opened Wrappers
  import opened Text
  import opened CepPattern
  import opened Records
  import opened Http
  import opened Upstream

  /**
   * `VerifyValidCEP`: whether `cep` matches `^\d{5}-*\d{3}$`, and the error
   * from compiling the pattern, which never occurs for this fixed pattern.
   */
  function VerifyValidCep(cep: string): (r: (bool, Option<string>))
    ensures r.0 <==> InPattern(cep)
    ensures r.1 == None
  {
    MatchesIsPattern(cep);
    (Matches(cep), None)
  }

  /**
   * `GetCEPInfo`: fetch the address record.  A transport or read failure is
   * returned as is; a body containing the marker is "not found" without any
   * decoding; any other body is decoded.
   */
  function GetCepInfo(cep: string, env: Env): (r: Result<ViaCep, string>)
    ensures var x := env.net(AddressUrl(cep));
      && (!x.Received? ==> r == Failure(x.err))
      && (x.Received? && (exists i :: OccursAt(x.body, ErrorMarker, i)) ==> r == Failure(NotFoundMessage))
      && (x.Received? && (forall i :: !OccursAt(x.body, ErrorMarker, i)) ==> r == env.codec.viaCep(x.body))
  {
    match env.net(AddressUrl(cep))
    case Unbuildable(e) => Failure(e)
    case RoundTripFailed(e) => Failure(e)
    case ReadFailed(e) => Failure(e)
    case Received(body) =>
      if Contains(body, ErrorMarker) then Failure(NotFoundMessage)
      else env.codec.viaCep(body)
  }

  /**
   * `ValidateCep`: the handler.  Each stage that fails writes its response
   * and returns, so no later stage runs and nothing later is attempted.
   */
  function ValidateCep(body: string, env: Env): (r: Reply)
    // 1. an undecodable body: 400, no fetch attempted
    ensures env.codec.cepInput(body).Failure? ==>
      SentError(r, StatusBadRequest, "CEP is required") && r.attempted == []
    // 2. a decoded CEP outside the pattern: 422, no fetch attempted
    ensures env.codec.cepInput(body).Success? && !InPattern(env.codec.cepInput(body).value.cep) ==>
      SentError(r, StatusUnprocessableEntity, "invalid zipcode") && r.attempted == []
    // 3. a valid CEP is looked up as given, and only then is any fetch attempted
    ensures |r.attempted| > 0 ==>
      && env.codec.cepInput(body).Success?
      && InPattern(env.codec.cepInput(body).value.cep)
      && r.attempted[0] == AddressUrl(env.codec.cepInput(body).value.cep)
    // 4. a failed address lookup: 404 for the not-found text, 400 otherwise
    ensures env.codec.cepInput(body).Success? && InPattern(env.codec.cepInput(body).value.cep) ==>
      var cep := env.codec.cepInput(body).value.cep;
      var addr := GetCepInfo(cep, env);
      && (addr.Failure? && addr.error == NotFoundMessage ==>
            SentError(r, StatusNotFound, NotFoundMessage) && r.attempted == [AddressUrl(cep)])
      && (addr.Failure? && addr.error != NotFoundMessage ==>
            SentError(r, StatusBadRequest, "Error getting CEP info: " + addr.error) && r.attempted == [AddressUrl(cep)])
      && (addr.Success? ==>
            r.attempted == [AddressUrl(cep), DownstreamUrl(env.queryEscape(addr.value.cep))])
    ensures Commit(r.log).status in {StatusOK, StatusBadRequest, StatusNotFound, StatusUnprocessableEntity, StatusInternalServerError}
  {
    match env.codec.cepInput(body)
    case Failure(_) =>
      ErrorThenHeader("CEP is required", StatusBadRequest, StatusBadRequest);
      Reply(HttpError("CEP is required", StatusBadRequest) + [WriteHeader(StatusBadRequest)], [])
    case Success(input) =>
      var (valid, err) := VerifyValidCep(input.cep);
      if err.Some? then
        Reply([WriteHeader(StatusInternalServerError)], [])
      else if !valid then
        ErrorThenHeader("invalid zipcode", StatusUnprocessableEntity, StatusUnprocessableEntity);
        Reply(HttpError("invalid zipcode", StatusUnprocessableEntity) + [WriteHeader(StatusUnprocessableEntity)], [])
      else
        var addressUrl := AddressUrl(input.cep);
        match GetCepInfo(input.cep, env)
        case Failure(e) =>
          if e == NotFoundMessage then
            ErrorThenHeader(e, StatusNotFound, StatusNotFound);
            Reply(HttpError(e, StatusNotFound) + [WriteHeader(StatusNotFound)], [addressUrl])
          else
            ErrorThenHeader("Error getting CEP info: " + e, StatusBadRequest, StatusInternalServerError);
            Reply(HttpError("Error getting CEP info: " + e, StatusBadRequest) + [WriteHeader(StatusInternalServerError)], [addressUrl])
        case Success(address) =>
          var url := DownstreamUrl(env.queryEscape(address.cep));
          var attempted := [addressUrl, url];
          match env.net(url)
          case Unbuildable(e) =>
            Reply(HttpError(e, StatusInternalServerError), attempted)
          case RoundTripFailed(e) =>
            Reply(HttpError("Error getting weather info: " + e, StatusBadRequest) + [WriteHeader(StatusInternalServerError)], attempted)
          case ReadFailed(e) =>
            Reply(HttpError(e, StatusInternalServerError), attempted)
          case Received(report) =>
            match env.codec.temperatures(report)
            case Failure(e) => Reply(HttpError(e, StatusInternalServerError), attempted)
            case Success(t) => Reply([WriteHeader(StatusOK)] + EncodeReport(t, env.codec), attempted)
  }

  /** Every accepted CEP has at least eight characters; every shorter string, "" included, is rejected. */
  lemma AcceptedCepsAreLong(cep: string)
    ensures VerifyValidCep(cep).0 ==> |cep| >= 8
    ensures |cep| < 8 ==> !VerifyValidCep(cep).0
  {
  }

  /** The hyphen may be absent or repeated; anything but digits and hyphens is rejected. */
  lemma VerifyValidCepExamples()
    ensures VerifyValidCep("01310-100") == (true, None)
    ensures VerifyValidCep("01310100") == (true, None)
    ensures VerifyValidCep("01310---100") == (true, None)
    ensures VerifyValidCep("0131-100") == (false, None)
    ensures VerifyValidCep("abcde-123") == (false, None)
    ensures VerifyValidCep("01310-1000") == (false, None)
    ensures VerifyValidCep("") == (false, None)
  {
  }

  /** With the marker in the body the lookup is "not found", whatever the decoder would make of it. */
  lemma MarkerOverridesDecoder(cep: string, env: Env, other: string -> Result<ViaCep, string>)
    requires env.net(AddressUrl(cep)).Received?
    requires Contains(env.net(AddressUrl(cep)).body, ErrorMarker)
    ensures GetCepInfo(cep, env) == Failure(NotFoundMessage)
    ensures GetCepInfo(cep, env.(codec := env.codec.(viaCep := other))) == Failure(NotFoundMessage)
  {
  }

  /** A body naming the city of Serro contains the marker inside the city name. */
  const SerroBody := "{\"cep\": \"39150-000\", \"localidade\": \"Serro\", \"uf\": \"MG\"}"

  /**
   * The marker check is a plain substring search, so an address whose city
   * name contains "erro" is answered 404 even though the provider found it.
   */
  lemma CityNamedSerroIsNotFound(body: string, env: Env, cep: string)
    requires env.codec.cepInput(body) == Success(CepInput(cep))
    requires InPattern(cep)
    requires env.net(AddressUrl(cep)) == Received(SerroBody)
    ensures SentError(ValidateCep(body, env), StatusNotFound, NotFoundMessage)
  {
    assert OccursAt("Serro", ErrorMarker, 1);
    ContainsInContext("{\"cep\": \"39150-000\", \"localidade\": \"", "Serro", "\", \"uf\": \"MG\"}", ErrorMarker);
    assert SerroBody == "{\"cep\": \"39150-000\", \"localidade\": \"" + "Serro" + "\", \"uf\": \"MG\"}";
  }

  /**
   * A 400 with no fetch attempted happens exactly when the body does not decode:
   * a body that decodes with a missing or empty `cep` gets 422 instead.
   */
  lemma BadRequestOnlyForUndecodableBody(body: string, env: Env)
    ensures var r := ValidateCep(body, env);
      (Commit(r.log).status == StatusBadRequest && r.attempted == []) <==> env.codec.cepInput(body).Failure?
  {
  }

  /** A well-formed body without a usable CEP is rejected as unprocessable, not as a bad request. */
  lemma EmptyCepIsUnprocessable(body: string, env: Env)
    requires env.codec.cepInput(body) == Success(CepInput(""))
    ensures SentError(ValidateCep(body, env), StatusUnprocessableEntity, "invalid zipcode")
  {
  }

  /**
   * Once the address is known, the weather service's answer decides the
   * response: build and read failures and an undecodable report are 500,
   * a failed round trip is 400, and a decoded report is sent back unchanged
   * with 200 (or, if encoding it fails, 200 with the encoder's error text).
   */
  lemma DownstreamOutcomes(body: string, env: Env, cep: string, address: ViaCep)
    requires env.codec.cepInput(body) == Success(CepInput(cep))
    requires InPattern(cep)
    requires GetCepInfo(cep, env) == Success(address)
    ensures var r := ValidateCep(body, env);
      var x := env.net(DownstreamUrl(env.queryEscape(address.cep)));
      && (x.Unbuildable? ==> SentError(r, StatusInternalServerError, x.err))
      && (x.RoundTripFailed? ==> SentError(r, StatusBadRequest, "Error getting weather info: " + x.err))
      && (x.ReadFailed? ==> SentError(r, StatusInternalServerError, x.err))
      && (x.Received? && env.codec.temperatures(x.body).Failure? ==>
            SentError(r, StatusInternalServerError, env.codec.temperatures(x.body).error))
      && (x.Received? && env.codec.temperatures(x.body).Success? ==>
            var t := env.codec.temperatures(x.body).value;
            && Commit(r.log).status == StatusOK
            && (env.codec.encode(t).Success? ==> Commit(r.log).body == [Json(t)])
            && (env.codec.encode(t).Failure? ==> Commit(r.log).body == [Plain(env.codec.encode(t).error + "\n")]))
  {
  }
}
