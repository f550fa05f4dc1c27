/** What a client sees of its socket: one poll after another. */
module Polling {

  /** A poll times out, fails or is interrupted, or brings a message. */
  datatype Poll<M> = Quiet | Broken | Message(m: M)

  /** How a phase ends on a finite stretch of polls: with a result, still waiting, by exit(EXIT_FAILURE),
      or at a failed assertion. */
  datatype Ending<T> = Done(value: T) | Waiting | Exited | Asserted

  /** The last of the first `n` polls failed. */
  predicate CutOff<M>(polls: seq<Poll<M>>, n: nat)
    requires n <= |polls|
  {
    n > 0 && polls[n - 1].Broken?
  }

  /** The messages among the first `n` polls that are wanted, in order. */
  function Chosen<M>(polls: seq<Poll<M>>, n: nat, wanted: M -> bool): seq<M>
    requires n <= |polls|
  {
    if n == 0 then []
    else if polls[n - 1].Message? && wanted(polls[n - 1].m) then Chosen(polls, n - 1, wanted) + [polls[n - 1].m]
    else Chosen(polls, n - 1, wanted)
  }
}
