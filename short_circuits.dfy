/** Guard styles: nested `if`/`else` guards versus early `throw` guards. */
module ShortCircuits {
  import opened Effects

  /** The line both functions log once their guards pass. */
  const ImplementNow: string := "now implement the function "

  /** doNotIdeal: nested guards on `a`, `b` and `c`, each `else` throwing the name of the
      argument that failed. */
  function DoNotIdeal(a: real, b: real, c: real): (trace: seq<Event<string>>)
    ensures |trace| == 1
    ensures trace[0].Log? <==> a == 1.0 && b == 1.0 && c == 1.0
    ensures trace[0].Log? ==> trace[0].line == ImplementNow
    ensures a != 1.0 ==> trace[0] == Throw("a")
    ensures a == 1.0 && b != 1.0 ==> trace[0] == Throw("b")
    ensures a == 1.0 && b == 1.0 && c != 1.0 ==> trace[0] == Throw("c")
  {
    if a == 1.0 then
      if b == 1.0 then
        if c == 1.0 then [Log(ImplementNow)]
        else [Throw("c")]
      else [Throw("b")]
    else [Throw("a")]
  }

  /** doIdeal as written: three early guards, all of them on `a`. */
  function DoIdeal(a: real, b: real, c: real): (trace: seq<Event<string>>)
    ensures |trace| == 1
    ensures trace[0].Log? <==> a != 1.0 && a != 2.0 && a != 3.0
    ensures trace[0].Log? ==> trace[0].line == ImplementNow
    ensures a == 1.0 ==> trace[0] == Throw("a")
    ensures a == 2.0 ==> trace[0] == Throw("b")
    ensures a == 3.0 ==> trace[0] == Throw("c")
  {
    if a == 1.0 then [Throw("a")]
    else if a == 2.0 then [Throw("b")]
    else if a == 3.0 then [Throw("c")]
    else [Log(ImplementNow)]
  }

  /** doIdeal never reads `b` or `c`. */
  lemma DoIdealReadsOnlyA(a: real, b: real, c: real, b': real, c': real)
    ensures DoIdeal(a, b, c) == DoIdeal(a, b', c')
  {
  }

  /** The two are not equivalent; in fact they disagree on every input. */
  lemma GuardStylesNeverAgree(a: real, b: real, c: real)
    ensures DoNotIdeal(a, b, c) != DoIdeal(a, b, c)
    ensures DoNotIdeal(1.0, 1.0, 1.0) == [Log(ImplementNow)] && DoIdeal(1.0, 1.0, 1.0) == [Throw("a")]
    ensures DoNotIdeal(5.0, b, c) == [Throw("a")] && DoIdeal(5.0, b, c) == [Log(ImplementNow)]
  {
  }

  /** The early-throw version the nested one calls for: each guard tests its own argument and
      throws when it is not 1. */
  function DoIdealIntended(a: real, b: real, c: real): (trace: seq<Event<string>>)
    ensures trace == DoNotIdeal(a, b, c)
  {
    if a != 1.0 then [Throw("a")]
    else if b != 1.0 then [Throw("b")]
    else if c != 1.0 then [Throw("c")]
    else [Log(ImplementNow)]
  }

  /** A witness, from the a = 5 case of GuardStylesNeverAgree, of an input on which the
      as-written version completes while the nested one throws. */
  lemma DoIdealCompletesWhereNestedThrows()
    ensures exists a: real, b: real, c: real ::
      DoIdeal(a, b, c)[0].Log? && DoNotIdeal(a, b, c)[0].Throw?
  {
    GuardStylesNeverAgree(5.0, 0.0, 0.0);
    assert DoIdeal(5.0, 0.0, 0.0)[0].Log? && DoNotIdeal(5.0, 0.0, 0.0)[0].Throw?;
  }
}
