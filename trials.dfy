/**
  What both versions of the serial-addition engine share: the answer evaluator and the
  look-back window over the tail of a ledger.
*/
module Trials {

  /** The three scores a trial can get (the strings 'right', 'wrong' and 'miss'). */
  datatype Verdict = Right | Wrong | Miss

  /**
    The answer evaluator: an answer is right exactly when it equals the sum of the two
    most recently presented values, and wrong otherwise; an answer is never a miss.
  */
  function Judge(answer: int, previous: int, current: int): (v: Verdict)
    ensures v == Right <==> answer == previous + current
    ensures v == Wrong <==> answer != previous + current
  {
    if answer == current + previous then Right else Wrong
  }

  /**
    JavaScript's `s.slice(-n)`: the last n elements of s, or all of s when it has fewer
    than n. For n = 0 it is `slice(0)`, which keeps all of s.
  */
  function Last<T>(s: seq<T>, n: nat): (w: seq<T>)
    ensures |w| == if n == 0 || |s| < n then |s| else n
    ensures w == s[|s| - |w|..]
  {
    if n == 0 || |s| <= n then s else s[|s| - n..]
  }
}
