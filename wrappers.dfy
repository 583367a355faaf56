/** Optional values: a line that could not be read or parsed, a search that found nothing. */
module Wrappers {

  datatype Option<+T> = None | Some(value: T)
}
