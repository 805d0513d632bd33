/** Optional values: `None` stands for JavaScript's `undefined` (a missing
    list element, a lookup that found nothing, a `NaN` month). */
module Wrappers {

  datatype Option<+T> = None | Some(value: T)
}
