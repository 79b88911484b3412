/** Optional values: Go's nil pointer results (`*TradingSignal`, `*Trade`, `*Portfolio`). */
module Wrappers {

  datatype Option<+T> = None | Some(value: T)
}
