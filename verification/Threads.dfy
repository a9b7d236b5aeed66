/** What the step machines share. */
module Threads {

  /** Any number of threads, by number. */
  type Tid = nat

  datatype Option<T> = None | Some(value: T)
}
