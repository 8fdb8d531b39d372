/** Facts about concatenation, stated once so that proofs need not rediscover them. */
module Sequences {
  lemma TailOfConcat<T>(x: seq<T>, y: seq<T>)
    requires x != []
    ensures (x + y)[0] == x[0] && (x + y)[1..] == x[1..] + y
  {
  }

  lemma ConcatAssociates<T>(x: seq<T>, y: seq<T>, z: seq<T>)
    ensures (x + y) + z == x + (y + z)
  {
  }

  lemma EmptyConcat<T>(x: seq<T>)
    ensures [] + x == x && x + [] == x
  {
  }

  lemma SingletonTail<T>(x: T)
    ensures [x][1..] == []
  {
  }

  lemma AtConcat<T>(x: seq<T>, y: seq<T>, k: nat)
    requires k < |y|
    ensures (x + y)[|x| + k] == y[k]
  {
  }
}
