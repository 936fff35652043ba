/** Optional values, used where the Python code returns a sentinel or nothing. */
module Wrappers {

  /** `None` stands for the "error" sentinel of the damage formula and for the
      early return of the growth chart when no character is selected. */
  datatype Option<+T> = None | Some(value: T)
}
