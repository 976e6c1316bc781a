/**
 * The world the handlers talk to, passed in as values: the network (one
 * outcome per URL), `url.QueryEscape`, and the JSON codec.  Also the two
 * providers' URLs and the marker both providers put in their error bodies.
 */
module Upstream {
  import opened Wrappers
  import opened Records
  import opened Http

  /**
   * What happens when a handler fetches a URL: the request cannot be built
   * (`http.NewRequest` rejects the URL), the round trip fails (`Do`/`Get`),
   * reading the body fails (`io.ReadAll`), or a body arrives.  Every failure
   * carries its error text.
   */
  datatype Exchange =
    | Unbuildable(err: string)
    | RoundTripFailed(err: string)
    | ReadFailed(err: string)
    | Received(body: string)

  /**
   * `encoding/json` as used by the servers: decoders return the value or the
   * error text; `encode` stands for `json.NewEncoder(w).Encode`, which either
   * succeeds or returns an error.
   */
  datatype Codec = Codec(
    cepInput: string -> Result<CepInput, string>,
    viaCep: string -> Result<ViaCep, string>,
    weather: string -> Result<Weather, string>,
    errorEnvelope: string -> Result<ErrorEnvelope, string>,
    temperatures: string -> Result<Temperatures, string>,
    encode: Temperatures -> Result<(), string>)

  datatype Env = Env(net: string -> Exchange, queryEscape: string -> string, codec: Codec)

  /**
   * What a handler did: its calls on the response writer, and the URLs it
   * tried to fetch, in order.  A URL whose request could not be built is
   * listed too, although no request for it was sent.
   */
  datatype Reply = Reply(log: seq<Action>, attempted: seq<string>)

  /** The substring both providers' error bodies contain. */
  const ErrorMarker := "erro"

  /** The error text the address lookup returns when it sees the marker. */
  const NotFoundMessage := "can not find zipcode"

  /** The address provider's endpoint, with the CEP spliced in unescaped. */
  function AddressUrl(cep: string): string
  {
    "http://viacep.com.br/ws/" + cep + "/json/"
  }

  /** The weather provider's endpoint for an already escaped location. */
  function WeatherUrl(apiKey: string, escapedLocation: string): string
  {
    "http://api.weatherapi.com/v1/current.json?key=" + apiKey + "&q=" + escapedLocation
  }

  /** The weather service, as the combined service calls it. */
  function DownstreamUrl(escapedCep: string): string
  {
    "http://weather:8181?cep=" + escapedCep
  }

  /** The reply's response is `code` with the plain-text message `msg`. */
  predicate SentError(r: Reply, code: int, msg: string)
  {
    Commit(r.log) == Response(code, [Plain(msg + "\n")])
  }

  /**
   * `json.NewEncoder(w).Encode(t)` after the 200 header: the report, or
   * `http.Error` with status 500 when encoding fails.  Either way the client
   * gets 200, since the header is already written.
   */
  function EncodeReport(t: Temperatures, codec: Codec): (log: seq<Action>)
    ensures Commit([WriteHeader(StatusOK)] + log) ==
      Response(StatusOK, if codec.encode(t).Success? then [Json(t)] else [Plain(codec.encode(t).error + "\n")])
  {
    match codec.encode(t)
    case Success(_) =>
      [Write(Json(t))]
    case Failure(e) =>
      var log := HttpError(e, StatusInternalServerError) + [WriteHeader(StatusInternalServerError)];
      BodyOfAppend([WriteHeader(StatusOK)], log);
      ErrorThenHeaders(e, StatusInternalServerError, [WriteHeader(StatusInternalServerError)]);
      log
  }

  /** The lookup is keyed by the CEP exactly as given. */
  lemma AddressUrlInjective(a: string, b: string)
    requires AddressUrl(a) == AddressUrl(b)
    ensures a == b
  {
    var p := "http://viacep.com.br/ws/";
    assert AddressUrl(a)[|p|..|AddressUrl(a)| - 6] == a;
    assert AddressUrl(b)[|p|..|AddressUrl(b)| - 6] == b;
  }
}
