/**
 * An error with its `source()` chain, the shape shared by `anyhow::Error`,
 * `sqlx::Error` and the handlers' error enums.
 */
module Errors {
  import opened Wrappers

  datatype Error = Error(message: string, source: Option<Error>)

  /** A leaf error, such as the text a database driver reports. */
  function Leaf(message: string): Error {
    Error(message, None)
  }

  /** `anyhow::Context::context`: a new outermost message whose source is the old error. */
  function Context(message: string, inner: Error): Error {
    Error(message, Some(inner))
  }

  /** The messages of the causes below `source`, nearest first. */
  function Sources(source: Option<Error>): seq<string> {
    match source
    case None => []
    case Some(e) => [e.message] + Sources(e.source)
  }
}
