/** What happens to a worker, one batch of completions a wait. */
module Batches {
  ghost function Flatten<T>(batches: seq<seq<T>>): seq<T> {
    if batches == [] then [] else batches[0] + Flatten(batches[1..])
  }
}
