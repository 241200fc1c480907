/**
 * The crate's error kinds and its `Result` alias. The error module itself
 * (src/error.rs) is not part of this model; the four kinds below are the ones
 * the modelled code constructs, each carrying its human-readable message.
 */
module Errors {

  datatype Error =
    | Config(message: string)   // bad input or unsupported provider capability
    | Api(message: string)      // non-success HTTP status or an error reported by the API
    | Parse(message: string)    // a response body that does not decode
    | NoResults                 // a well-formed but empty result set

  datatype Result<+T> = Ok(value: T) | Err(error: Error)
}
