/** First-in first-out channels. */
module Channels {

  // Everything ever sent, and how much of it the receiver has taken.
  datatype Fifo<T> = Fifo(log: seq<T>, taken: nat)

  predicate Empty<T>(f: Fifo<T>) {
    f.taken >= |f.log|
  }

  function Push<T>(f: Fifo<T>, m: T): Fifo<T> {
    f.(log := f.log + [m])
  }

  function Pop<T>(f: Fifo<T>): Fifo<T> {
    f.(taken := f.taken + 1)
  }

  function Head<T>(f: Fifo<T>): T
    requires !Empty(f)
  {
    f.log[f.taken]
  }
}
