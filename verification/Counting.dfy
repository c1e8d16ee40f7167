/** The numbers below a bound. */
module Counting {

  ghost function NumbersBelow(n: nat): (r: set<nat>)
    ensures |r| == n && forall i: nat :: i in r <==> i < n
  {
    if n == 0 then {} else NumbersBelow(n - 1) + {n - 1}
  }

  lemma NoNumberBelow()
    ensures NumbersBelow(0) == {}
  {
  }

  lemma OneMoreNumber(n: nat)
    ensures NumbersBelow(n + 1) == NumbersBelow(n) + {n} && NumbersBelow(n) == NumbersBelow(n + 1) - {n}
  {
  }
}
