/** Several CPI processes at once: calls on different objects interleave command by command. */
module Pool {
  import opened Host
  import opened Machine

  /** One host, one environment file, and at most one call in progress per object. */
  datatype System = System(w: World, tasks: map<string, Task>)

  /** A process starts a call (the last one on that object is over, or was killed), or an
      existing one moves. */
  datatype Move = Launch(call: Call) | Take(own: string, step: Label)

  function MoverOf(m: Move): string { if m.Launch? then OwnName(m.call) else m.own }

  function PoolStep(y: System, m: Move): System {
    match m
    case Launch(c) => y.(tasks := y.tasks[OwnName(c) := Start(y.w, c).t])
    case Take(own, l) =>
      if own !in y.tasks then y
      else
        var s := Step(State(y.w, y.tasks[own]), l);
        System(s.w, y.tasks[own := s.t])
  }

  function RunPool(y: System, ms: seq<Move>): System
    decreases |ms|
  {
    if ms == [] then y else RunPool(PoolStep(y, ms[0]), ms[1..])
  }

  /** Every task is filed under the object it works on, and touches nothing else. */
  ghost predicate Orderly(y: System) {
    forall o :: o in y.tasks ==> y.tasks[o].own == o && OwnTask(y.tasks[o])
  }

  lemma OrderlyStep(y: System, m: Move)
    requires Orderly(y)
    ensures Orderly(PoolStep(y, m))
    ensures OnlyTouches(y.w.host, PoolStep(y, m).w.host, MoverOf(m))
  {
    match m
    case Launch(c) => ProgramOwn(c);
    case Take(own, l) =>
      if own in y.tasks {
        StepFrame(State(y.w, y.tasks[own]), l);
      }
  }

  /** The moves that concern one object, in their order. */
  function Project(ms: seq<Move>, own: string): seq<Move> {
    if ms == [] then [] else (if MoverOf(ms[0]) == own then [ms[0]] else []) + Project(ms[1..], own)
  }

  lemma {:induction false} ProjectConcat(x: seq<Move>, y: seq<Move>, own: string)
    ensures Project(x + y, own) == Project(x, own) + Project(y, own)
  {
    if x == [] {
      assert x + y == y;
    } else {
      assert (x + y)[0] == x[0] && (x + y)[1..] == x[1..] + y;
      ProjectConcat(x[1..], y, own);
      var first := if MoverOf(x[0]) == own then [x[0]] else [];
      assert first + (Project(x[1..], own) + Project(y, own)) == first + Project(x[1..], own) + Project(y, own);
    }
  }

  lemma {:induction false} ProjectTwice(ms: seq<Move>, a: string, b: string)
    ensures Project(Project(ms, a), b) == if a == b then Project(ms, a) else []
  {
    if ms != [] {
      var first := if MoverOf(ms[0]) == a then [ms[0]] else [];
      ProjectConcat(first, Project(ms[1..], a), b);
      ProjectTwice(ms[1..], a, b);
      assert first != [] ==> first[1..] == [];
    }
  }
}
