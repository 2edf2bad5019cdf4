/** Optional values and results with an error, the two shapes the harvester's failures take. */
module Wrappers {

  datatype Option<+T> = None | Some(value: T)

  /** The Python exceptions the modelled code can raise. */
  datatype Error =
    | ValueError     // "Method not supported", or a lone `{` or `}` in a `str.format` template
    | IndexError     // `cells[1]` on a single-cell row, or a positional `{}`/`{0}` field in `str.format`
    | AttributeError // `.findAll` on the `None` that a failed `soup.find` returns
    | KeyError       // a `{name}` field with no keyword argument of that name in `str.format`
    | TypeError      // `str.format` given the keyword `method` twice
    | RequestError   // the HTTP request itself failed

  datatype Result<+T> = Ok(value: T) | Err(error: Error)
}
