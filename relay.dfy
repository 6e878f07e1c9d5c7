/** The relay's parameter check on the bars endpoint; the upstream calls themselves are not modelled. */
module Relay {
  import opened Api

  /**
   * `!symbols || !start || !end || !timeframe` rejects the request with
   * status 400: every parameter must be present and non-empty.
   */
  predicate HasRequiredParams(q: BarsQuery) {
    q.symbols != "" && q.start != "" && q.end != "" && q.timeframe != ""
  }
}
