/** Three ways of producing a boolean from a switch over a shape: an early return from inside
    the switch, a mutable result assigned in every branch, and a result bound once from a
    switch expression. */
module SwitchResults {
  import opened Polymorphics

  /** The line each `doWork*` logs after its switch. */
  const ExtraStuff: string := "doing extra stuff here"

  /** What one `doWork*` call returns and what it logs. */
  datatype Work = Work(result: bool, log: seq<string>)

  /** doWorkNonIdeal: a narrow rectangle returns `false` from inside the switch, before the
      log line; every other shape breaks out, logs and returns `true`. */
  function DoWorkNonIdeal(e: Shape): (r: Work)
    ensures !r.result <==> e.RectangleVariant? && e.rectangle.halfWidth < 1.0
    ensures r.log == if r.result then [ExtraStuff] else []
  {
    var returnedEarly :=
      match e
      case RectangleVariant(rect) => rect.halfWidth < 1.0
      case CircleVariant(_) => false;
    if returnedEarly then Work(false, []) else Work(true, [ExtraStuff])
  }

  /** doWorkStillNotIdeal: `result` is set in every branch of the switch and then overwritten
      with `false` before it is returned, so the switch's work is lost. */
  method DoWorkStillNotIdeal(e: Shape) returns (r: Work)
    ensures !r.result
    ensures r.log == [ExtraStuff]
    ensures r.result == DoWorkIdeal(e).result <==> e.RectangleVariant? && e.rectangle.halfWidth < 1.0
  {
    var result: bool;
    match e {
      case RectangleVariant(rect) =>
        if rect.halfWidth < 1.0 {
          result := false;
        } else {
          result := true;
        }
      case CircleVariant(_) =>
        result := true;
    }
    result := false;
    var log := [ExtraStuff];
    r := Work(result, log);
  }

  /** doWorkIdeal: the result is bound once from the switch, then the line is logged on every
      path. */
  function DoWorkIdeal(e: Shape): (r: Work)
    ensures !r.result <==> e.RectangleVariant? && e.rectangle.halfWidth < 1.0
    ensures r.log == [ExtraStuff]
  {
    var result :=
      match e
      case RectangleVariant(rect) => if rect.halfWidth < 1.0 then false else true
      case CircleVariant(_) => true;
    Work(result, [ExtraStuff])
  }

  /** The early return does not change the answer. */
  lemma NonIdealResultIsIdealResult(e: Shape)
    ensures DoWorkNonIdeal(e).result == DoWorkIdeal(e).result
  {
  }

  /** It changes the side effects: the logs differ exactly on the early `false` path. */
  lemma NonIdealLogDiffersOnEarlyReturn(e: Shape)
    ensures DoWorkNonIdeal(e).log != DoWorkIdeal(e).log <==> !DoWorkIdeal(e).result
  {
  }

  /** A witness that the early-return path is reachable: a rectangle of half-width 1/2 takes
      it, so by NonIdealLogDiffersOnEarlyReturn the two logs differ there. */
  lemma NonIdealCanSkipLog()
    ensures exists e: Shape :: DoWorkNonIdeal(e).log == [] && DoWorkIdeal(e).log == [ExtraStuff]
  {
    var narrow := RectangleVariant(RectangleShape(0.5, 1.0));
    NonIdealLogDiffersOnEarlyReturn(narrow);
    assert DoWorkNonIdeal(narrow).log == [];
  }

  /** A circle passes whatever its radius; the comparison on half-width is strict, so a
      half-width of exactly 1 passes. */
  lemma DoWorkBoundaries(radius: real, halfHeight: real)
    ensures DoWorkIdeal(CircleVariant(CircleShape(radius))).result
    ensures DoWorkNonIdeal(CircleVariant(CircleShape(radius))).result
    ensures DoWorkIdeal(RectangleVariant(RectangleShape(1.0, halfHeight))).result
    ensures DoWorkNonIdeal(RectangleVariant(RectangleShape(1.0, halfHeight))).result
  {
  }
}
