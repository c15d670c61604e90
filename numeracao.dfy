/** The static counter `PROXIMO_NUMERO` that gives every account its number,
    made explicit: one instance stands for the process-wide counter and is
    passed to every account constructor. */
module Numeracao {

  /** The first number handed out. */
  const PRIMEIRO_NUMERO: int := 1000

  class GeradorNumeros {
    /** The next number to hand out. */
    var proximo: int
    /** Every number handed out so far, in order. */
    ghost var emitidos: seq<int>

    ghost predicate Valid()
      reads this
    {
      proximo == PRIMEIRO_NUMERO + |emitidos|
      && forall i :: 0 <= i < |emitidos| ==> emitidos[i] == PRIMEIRO_NUMERO + i
    }

    constructor ()
      ensures Valid() && emitidos == [] && proximo == PRIMEIRO_NUMERO
    {
      proximo := PRIMEIRO_NUMERO;
      emitidos := [];
    }

    /** `PROXIMO_NUMERO++`: hands out the current number and steps past it.
        The number is new, and larger than every number handed out before. */
    method Emite() returns (n: int)
      requires Valid()
      modifies this
      ensures Valid()
      ensures n == old(proximo) && proximo == n + 1
      ensures emitidos == old(emitidos) + [n]
      ensures forall m :: m in old(emitidos) ==> m < n
    {
      n := proximo;
      proximo := proximo + 1;
      emitidos := emitidos + [n];
    }
  }
}
