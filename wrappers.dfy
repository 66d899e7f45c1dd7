/**
 * Option and Result: the absence of a value and the error path of a call;
 * and what is left of a scripted sequence of replies once one is taken.
 */
module Wrappers {

  datatype Option<+T> = None | Some(value: T)

  datatype Result<+T, +E> = Ok(value: T) | Err(error: E)

  /** A script of replies after one reply is taken; an exhausted script stays exhausted. */
  function AfterReply<T>(replies: seq<T>): (rest: seq<T>)
    ensures replies != [] ==> rest == replies[1..]
    ensures replies == [] ==> rest == []
  {
    if replies == [] then [] else replies[1..]
  }
}
