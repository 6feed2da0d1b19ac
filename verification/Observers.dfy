/** The values that promises carry and the functions that can be registered on them. */
module Observers {

  datatype Val =
    | Num(n: int)
    | Undefined
    | PromiseOf(id: nat)
    | Values(vs: seq<Val>)

  /** The three lists of a Deferred: done, fail, progress. */
  datatype Kind = Done | Fail | Progress

  datatype Observer =
    | User(n: nat)                                  // any client function
    | Forward(target: nat, kind: Kind)              // newDefer[ action ]
    | Handle(target: nat, kind: Kind, fn: nat)      // the wrapper `then` puts around fn
    | Collect(w: nat, i: nat)                       // updateFunc over resolveValues in `when`
    | CollectProgress(w: nat, i: nat)               // updateFunc over progressValues
}
