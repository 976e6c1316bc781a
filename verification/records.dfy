/**
 * The request-scoped records the two servers exchange.  Go's `float64`
 * temperatures are modelled as `real`.
 */
module Records {

  /** The address provider's answer for one CEP (`ViaCEP`). */
  datatype ViaCep = ViaCep(
    cep: string,
    logradouro: string,
    complemento: string,
    bairro: string,
    localidade: string,
    uf: string,
    ibge: string,
    gia: string,
    ddd: string,
    siafi: string)

  /** The combined service's request body `{"cep": ...}` (`CepInput`). */
  datatype CepInput = CepInput(cep: string)

  /**
   * The final report.  The weather server's `Temperatures` and the combined
   * server's `CepTemperatures` have the same fields and JSON names, so one
   * record stands for both.
   */
  datatype Temperatures = Temperatures(city: string, tempC: real, tempF: real, tempK: real)

  /** The weather provider's current-conditions answer (`Weather`). */
  datatype Weather = Weather(location: Location, current: Current)
  datatype Location = Location(name: string)
  datatype Current = Current(tempC: real, tempF: real)

  /** The weather provider's error envelope `{"error": {"code", "message"}}`. */
  datatype ErrorEnvelope = ErrorEnvelope(error: ProviderError)
  datatype ProviderError = ProviderError(code: int, message: string)
}
