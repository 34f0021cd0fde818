/** Optional values, the exceptions the Python code raises, and results that carry them. */
module Wrappers {

  datatype Option<+T> = None | Some(value: T)

  /** The exception kinds the modelled code raises or catches. */
  datatype Error =
    | ValueError(msg: string)      // bad literal for int()/float(), unknown mode, unpacking
    | TypeError                    // indexing None, float() of a non-number
    | AttributeError               // .lower() on a value that is not a string
    | KeyError(key: string)        // dict["key"] on a missing key
    | NameError(name: string)      // a name that was never imported
    | NoPath                       // the shortest-path library found no path
    | IntegrityError               // a UNIQUE / NOT NULL constraint of sqlite
    | Raised(msg: string)          // `raise Exception(msg)`

  datatype Result<+T> = Ok(value: T) | Err(error: Error)

  /** The text `str(e)` gives for an exception. */
  function ErrorText(e: Error): string
  {
    match e
    case ValueError(m) => m
    case TypeError => "'NoneType' object is not subscriptable"
    case AttributeError => "object has no attribute 'lower'"
    case KeyError(k) => "'" + k + "'"
    case NameError(n) => "name '" + n + "' is not defined"
    case NoPath => "No path between nodes"
    case IntegrityError => "UNIQUE constraint failed"
    case Raised(m) => m
  }
}
