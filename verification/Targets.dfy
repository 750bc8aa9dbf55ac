/** A target row, as the configuration, the store and the job manager all hold it. */
module Targets {
  datatype Target = Target(
    id: int,
    sortOrder: int,
    name: string,
    baseURL: string,
    apiKey: string,
    model: string,
    wireAPI: string,
    overrides: seq<string>)

  // The host of a base URL, as clients are shown it: net/url's parsing may be anything.
  const API_HOST: string -> string
}
