/** Small types shared by all modules. */
module Wrappers {
  datatype Option<+T> = None | Some(value: T) {
    function ValueOr(default: T): T {
      if Some? then value else default
    }
  }

  /** What has happened so far, the latest last. */
  datatype History<+T> = Empty | Then(earlier: History<T>, last: T)

  function Items<T>(h: History<T>): seq<T> {
    match h
    case Empty => []
    case Then(earlier, last) => Items(earlier) + [last]
  }
}
