# CEP temperature services — a Dafny model

The repository runs two small HTTP services around a Brazilian postal code (CEP).
The weather service (`GET /?cep=…`) validates the CEP. It resolves it to a city
with the ViaCEP address provider. It asks WeatherAPI for that city's current
conditions and answers with the temperatures in Celsius, Fahrenheit and Kelvin.
The combined service (`POST /` with `{"cep": …}`) validates the CEP and resolves
the address the same way. It then forwards the address record's CEP to the
weather service and sends back the report it gets. A third piece, the
`webserver` package, is a registry of handlers keyed by path that becomes a
router on start.

The model keeps every decision these handlers make and abstracts the world around
them:

- `CepPattern` gives the language of `^\d{5}-*\d{3}$` and a deterministic
  automaton for it, and proves the two agree.
- `Text.Contains` is `strings.Contains`. It is proved against "occurs at some
  index".
- `Http` records what a handler does to its `ResponseWriter` as a log of
  `WriteHeader`/`Write` actions. `Commit` turns the log into the response that
  reaches the client. The first final status written wins, and a write with no
  final status before it commits 200. An informational status (1xx other than
  101) is sent ahead and does not fix the final one. So the frequent
  `http.Error(w, msg, 400); w.WriteHeader(500)` sends 400, and the 500 is
  superfluous: Go only logs a warning about it. Body text written by `http.Error` is a `Plain` chunk; an encoded
  report is a `Json` chunk.
- `Upstream` holds the environment, passed in as a value. The network maps each
  URL to an `Exchange`: the request cannot be built, the round trip fails,
  reading fails, or a body arrives. `url.QueryEscape` and the JSON codec are
  functions. Decoders return the value or the error text, and the encoder
  returns success or the error text.
- `ServerCep` and `ServerWeather` are the two handlers and their lookups. Each
  handler is a total function to a `Reply`: the writer log plus the URLs it
  tried to fetch, in order. A URL whose request could not be built is listed
  too, although no request for it was sent. That is how "no later stage runs" and "the weather lookup is called
  with the address's `Localidade` and the server's key" are stated.
- `WebServer` holds the two maps, `AddHandler`, and the method dispatch of `Start`.

Errors are strings because the handlers classify them by text. The handlers
compare `err.Error()` with `"can not find zipcode"`.

## Behaviour worth knowing

- The pattern accepts any number of hyphens between the two digit groups, none
  included, so `"01310---100"` is a valid CEP
  (`ServerCep.VerifyValidCepExamples`).
- A request body that decodes but has a missing or empty `cep` gets 422. Only a
  body that does not decode gets 400 before any lookup is made
  (`ServerCep.BadRequestOnlyForUndecodableBody`).
- Three failure paths send 400 although the code also calls
  `WriteHeader(500)`: an address error other than "not found", a weather-lookup
  error, and a failed round trip to the weather service. `http.Error` writes 400
  first; the later `WriteHeader(500)` does not change the response, and Go
  only logs a "superfluous response.WriteHeader call" warning.

## A consequence of the marker check

Both lookups treat any body that contains the substring `erro` as an error body.
That substring also occurs in real place names such as "Serro", "Ferros" and
"Bezerros", and in street names such as "Aterro". A valid CEP whose address
record names such a place is therefore answered 404 "can not find zipcode"
(`ServerCep.CityNamedSerroIsNotFound`). The model keeps this behaviour because it
is what the code does.

## Model

| member | source | states |
|---|---|---|
| `Text.Contains` | internal/infra/web/server-cep.go:172 | the marker check is true exactly when the marker occurs at some index of the body |
| `CepPattern.RunAccepts` | internal/infra/web/server-cep.go:151 | from each automaton state, a suffix is accepted exactly when it completes the pattern (remaining leading digits, any hyphens, three digits) |
| `CepPattern.MatchesIsPattern` | internal/infra/web/server-cep.go:151 | the automaton accepts exactly five ASCII digits, then any number of hyphens (none included), then three ASCII digits |
| `ServerCep.VerifyValidCep` | internal/infra/web/server-cep.go:150-157 | the result is true iff the CEP is in the pattern's language, and the error is never set |
| `ServerCep.AcceptedCepsAreLong` | internal/infra/web/server-cep.go:151 | every accepted CEP has at least 8 characters; every shorter string, "" included, is rejected |
| `ServerCep.VerifyValidCepExamples` | internal/infra/web/server-cep.go:150-157 | "01310-100", "01310100" and "01310---100" are accepted; "0131-100", "abcde-123", "01310-1000" and "" are rejected |
| `ServerCep.GetCepInfo` | internal/infra/web/server-cep.go:159-184 | a fetch failure is returned as is; a body containing "erro" gives "can not find zipcode" without decoding; any other body gives the decoder's result |
| `ServerCep.MarkerOverridesDecoder` | internal/infra/web/server-cep.go:172-174 | with the marker in the body the lookup is "not found" whatever the decoder would return |
| `ServerCep.CityNamedSerroIsNotFound` | internal/infra/web/server-cep.go:172-174 | a found address whose city is "Serro" is answered 404 "can not find zipcode" |
| `ServerCep.ValidateCep` | internal/infra/web/server-cep.go:71-148 | check order: undecodable body 400, then bad format 422, then not-found 404, then other address error 400; nothing is fetched before validation passes; the downstream call uses the address record's CEP, not the user's |
| `ServerCep.BadRequestOnlyForUndecodableBody` | internal/infra/web/server-cep.go:78-96 | a 400 with nothing fetched happens if and only if the request body fails to decode |
| `ServerCep.EmptyCepIsUnprocessable` | internal/infra/web/server-cep.go:86-96 | a body that decodes to an empty CEP gets 422 "invalid zipcode" |
| `ServerCep.DownstreamOutcomes` | internal/infra/web/server-cep.go:111-147 | weather-service outcomes: unbuildable request, read or decode failure 500; failed round trip 400; a decoded report is re-emitted unchanged with 200, or 200 with the encoder's error text if encoding fails |
| `Http.Commit` | internal/infra/web/server-cep.go:78-147 | the status sent is the first non-informational status written before any body write (200 if a write or nothing comes first), it is never informational, and the body holds one chunk per write, in the order written |
| `Http.FirstActionFixesStatus` | internal/infra/web/server-cep.go:140-147 | once the 200 header is written, the `http.Error` in the encode-failure branch cannot change the status |
| `Upstream.EncodeReport` | internal/infra/web/server-cep.go:140-147 | after the 200 header, encoding sends 200 with the report, or 200 with the encoder's error text and a newline when encoding fails |
| `Http.ErrorThenHeader` | internal/infra/web/server-cep.go:106-107 | `http.Error(w, msg, code)` followed by `WriteHeader(other)` sends `code` with `msg` and a newline |
| `Upstream.AddressUrlInjective` | internal/infra/web/server-cep.go:160 | the address URL is keyed by the CEP exactly as given: different CEPs give different URLs |
| `ServerWeather.GetCepInfo` | internal/infra/web/server-weather.go:134-164 | the weather service's copy classifies every outcome exactly as the combined service's `GetCEPInfo` does |
| `ServerWeather.GetWeatherInfo` | internal/infra/web/server-weather.go:166-212 | a body with the marker is an error carrying the envelope's message, or the envelope's decode error, and never a reading; other bodies give the decoded reading or its error |
| `ServerWeather.MarkerNeverYieldsReading` | internal/infra/web/server-weather.go:187-201 | with the marker present the lookup fails, whatever the reading decoder would return |
| `ServerWeather.FindTemperature` | internal/infra/web/server-weather.go:67-132 | check order: empty `cep` 400, bad format 422, not-found 404, other address error 400, weather error 400; weather is looked up with the address's `Localidade` and the server's API key; success is 200 with the report, or 200 with the encoder's error text if encoding fails |
| `ServerWeather.ProviderErrorIsBadRequest` | internal/infra/web/server-weather.go:110-115 | the provider error "No matching location found." reaches the client as 400 with that message |
| `ServerWeather.Report` | internal/infra/web/server-weather.go:117-122 | the report's city is the provider's location name, Celsius and Fahrenheit are the provider's readings, and Kelvin exceeds Celsius by exactly 273 |
| `ServerWeather.ReportComesFromProvider` | internal/infra/web/server-weather.go:117-131 | the report's city is the provider's location name, Celsius and Fahrenheit pass through, Kelvin is Celsius + 273 (25 C gives 298 K) |
| `ServerWeather.MissingVersusMalformed` | internal/infra/web/server-weather.go:73-90 | an absent or empty parameter gets 400; a present but malformed one gets 422 |
| `ServerWeather.AddressFailuresAgree` | internal/infra/web/server-weather.go:92-103 | for the same valid CEP and world, an address failure gets the same response and fetches from both handlers |
| `WebServer.NewWebServer` | internal/infra/web/webserver/webserver.go:17-24 | both maps start empty, the port is stored, and the two maps have the same paths |
| `WebServer.AddHandler` | internal/infra/web/webserver/webserver.go:26-29 | the path gets the new handler and method; every other path keeps both entries; the two maps keep the same key set |
| `WebServer.ReRegistrationKeepsLast` | internal/infra/web/webserver/webserver.go:26-29 | registering a path twice leaves only the second method and handler |
| `WebServer.KindOf` | internal/infra/web/webserver/webserver.go:36-44 | exactly "POST" gives a POST route, exactly "GET" a GET route, and anything else (including "post") an all-methods route |
| `WebServer.Start` | internal/infra/web/webserver/webserver.go:34-47 | each registered path gets exactly one route, with its handler and the kind its method selects; the server listens on ":" + port |
| `WebServer.AddAllKeepsLast` | internal/infra/web/webserver/webserver.go:20-28 | after any sequence of registrations on a new server, both maps hold exactly the registered paths, each with its last method and handler, and the maps keep equal key sets |
| `WebServer.RoutesFollowLastRegistration` | internal/infra/web/webserver/webserver.go:26-44 | after any sequence of registrations, the routes are exactly the registered paths, each served as its last registration says |

## Left out

- Real HTTP is not modelled: `http.Get`, `http.DefaultClient.Do`, `io.ReadAll` and `ListenAndServe`. Each fetch becomes an `Exchange` chosen by the environment per URL. A URL that `http.NewRequest` rejects is one such outcome, because URL parsing is not modelled.
- `encoding/json` is not modelled. Decoders and the encoder are functions of the environment. A failed `Encode` is modelled as writing no part of the report, only the error text that `http.Error` adds, because the bytes of a half-written body are not modelled.
- `url.QueryEscape` is an opaque function, and so is the parsing of the raw query into `url.Values`. The query is given as a map from key to values.
- Http.Commit: status codes outside 100-999 are not modelled. Go's `WriteHeader` panics on them, and the handlers write only 200, 400, 404, 422 and 500.
- Response bodies, request bodies and CEPs are modelled as character strings, not byte strings. The marker and the pattern are ASCII, so the answers agree with Go's byte-level `strings.Contains` and `regexp.MatchString` on valid UTF-8, but a body that is not valid UTF-8 cannot be written in the model.
- Response headers (`Content-Type`, `X-Content-Type-Options`) are not modelled. Only status and body are.
- The chi router and its middleware (RequestID, RealIP, Recoverer, Logger, the 60-second timeout) are not modelled. Neither are the `/metrics` handler, `CreateServer`, `CreateServerWeather`, or the `WebServer.Router` field. They are library plumbing.
- OpenTelemetry is not modelled: tracer start and end, span names, and header propagation. `NewServerCep` and `NewServerWeather` only store tracing configuration and the API key. `ServerWeather` keeps just the key.
- `cmd/server-validate-cep/main.go` is not modelled. It covers signal handling, environment configuration, tracer bootstrap and starting the server in a goroutine. This is process lifecycle and concurrency.
- `ServerWeather.ReportComesFromProvider`: Kelvin is Celsius + 273 over `real`. IEEE `float64` rounding of that addition is not modelled.
- `ServerCep.VerifyValidCep`: the regular-expression engine is modelled only through the language of this one fixed pattern. The compile-error branch that the handlers map to 500 is kept but can never be taken.
