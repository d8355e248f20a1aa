/** Optional values, standing for the source's `T | null` and `T | undefined`. */
module Wrappers {

  datatype Option<+T> = None | Some(value: T) {

    /** The value, or `default` when absent. The source writes `v || 0`; with a default of 0 the two
        agree on every value the model has, since a present 0 gives 0 either way (NaN is not modelled). */
    function GetOr(default: T): T {
      match this
      case Some(v) => v
      case None => default
    }
  }
}
