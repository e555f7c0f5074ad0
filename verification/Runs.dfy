/** How the imperative client is tied to the machine: a method call is a run of a program. */
module Runs {
  import opened Host
  import opened Machine

  /** What the environment does up to and including one command of the call: the moves of
      goroutine and host before it, and its own outcome. */
  datatype Turn = Turn(before: Moves, o: Outcome)

  predicate Offstage(ls: seq<Label>) { forall i :: 0 <= i < |ls| ==> !ls[i].Main? }

  type Moves = ls: seq<Label> | Offstage(ls) witness []

  /** What the turns from `i` up to `j` make of a run: before each step of the call the moves
      of the turn, then the step with the turn's outcome. */
  function Replay(turns: nat -> Turn, i: nat, j: nat): seq<Label>
    decreases j
  {
    if j <= i then [] else Replay(turns, i, j - 1) + (turns(j - 1).before + [Main(turns(j - 1).o)])
  }

  lemma {:induction false} ReplayJoin(turns: nat -> Turn, i: nat, j: nat, k: nat)
    requires i <= j <= k
    ensures Replay(turns, i, j) + Replay(turns, j, k) == Replay(turns, i, k)
    decreases k
  {
    if j < k {
      ReplayJoin(turns, i, j, k - 1);
      var turn := turns(k - 1).before + [Main(turns(k - 1).o)];
      var r, s := Replay(turns, i, j), Replay(turns, j, k - 1);
      assert r + (s + turn) == r + s + turn;
    }
  }

  /** One turn, and those after it. */
  lemma ReplayTurn(turns: nat -> Turn, i: nat, k: nat)
    requires i < k
    ensures Replay(turns, i, i + 1) == turns(i).before + [Main(turns(i).o)]
    ensures Replay(turns, i, k) == turns(i).before + [Main(turns(i).o)] + Replay(turns, i + 1, k)
  {
    assert Replay(turns, i, i) == [];
    assert [] + (turns(i).before + [Main(turns(i).o)]) == turns(i).before + [Main(turns(i).o)];
    ReplayJoin(turns, i, i + 1, k);
  }

  /** One more turn, and those after it. */
  lemma ReplayMore(turns: nat -> Turn, i: nat, j: nat, k: nat)
    requires i <= j < k
    ensures Replay(turns, i, j) + (turns(j).before + [Main(turns(j).o)]) == Replay(turns, i, j + 1)
    ensures Replay(turns, i, j) + (turns(j).before + [Main(turns(j).o)] + Replay(turns, j + 1, k))
              == Replay(turns, i, k)
  {
    ReplayTurn(turns, j, k);
    ReplayJoin(turns, i, j, k);
  }

  /** The labels of a run that starts the goroutine at turn `start`, which takes no turn. */
  function Forked(turns: nat -> Turn, i: nat, start: nat, j: nat): seq<Label> {
    if j <= start then Replay(turns, i, j)
    else Replay(turns, i, start) + ([Main(turns(start).o)] + Replay(turns, start, j))
  }

  lemma ForkedJoin(turns: nat -> Turn, i: nat, start: nat, j: nat)
    requires i <= start < j
    ensures Forked(turns, start, start, j) == [Main(turns(start).o)] + Replay(turns, start, j)
    ensures Replay(turns, i, start) + Forked(turns, start, start, j) == Forked(turns, i, start, j)
  {
    var rest := [Main(turns(start).o)] + Replay(turns, start, j);
    assert Replay(turns, start, start) + rest == rest;
  }

  /** A stretch in which the call itself does not move. */
  function Lull(own: string, w: World, bg: Goroutine, ls: seq<Label>): (World, Goroutine)
    decreases |ls|
  {
    if ls == [] then (w, bg)
    else
      var s := Step(State(w, Task(own, [], bg, false)), ls[0]);
      Lull(own, s.w, s.t.bg, ls[1..])
  }

  lemma {:induction false} LullRun(s: State, ls: seq<Label>)
    requires Offstage(ls)
    ensures var (w, bg) := Lull(s.t.own, s.w, s.t.bg, ls);
            Run(s, ls) == State(w, s.t.(bg := bg))
    ensures s.t.todo != [] ==> Busy(s, ls)
    decreases |ls|
  {
    if ls != [] {
      LullRun(Step(s, ls[0]), ls[1..]);
    }
  }

  /** The call is not over before the last label. */
  predicate Busy(s: State, ls: seq<Label>)
    decreases |ls|
  {
    ls != [] ==> s.t.todo != [] && Busy(Step(s, ls[0]), ls[1..])
  }

  /** `ls` takes the program from the first world to the second, where it is over. */
  predicate Ran(own: string, w: World, bg: Goroutine, plan: seq<Action>, ls: seq<Label>,
                w': World, bg': Goroutine, ok: bool)
  {
    var s := State(w, Task(own, plan, bg, false));
    Busy(s, ls) && Run(s, ls) == State(w', Task(own, [], bg', !ok))
  }

  lemma {:induction false} BusySplit(s: State, ls: seq<Label>, ms: seq<Label>)
    requires Busy(s, ls) && Busy(Run(s, ls), ms)
    ensures Busy(s, ls + ms)
    decreases |ls|
  {
    if ls == [] {
      assert ls + ms == ms;
    } else {
      assert (ls + ms)[1..] == ls[1..] + ms;
      BusySplit(Step(s, ls[0]), ls[1..], ms);
    }
  }

  /** More program behind a busy call changes nothing until the call is over. */
  lemma {:induction false} Append(s: State, plan: seq<Action>, ls: seq<Label>)
    requires Busy(s, ls) && !s.t.failed
    ensures var r := Run(s, ls);
            var t := State(s.w, s.t.(todo := s.t.todo + plan));
            && Busy(t, ls)
            && Run(t, ls) == if r.t.failed then r else State(r.w, r.t.(todo := r.t.todo + plan))
    decreases |ls|
  {
    if ls != [] {
      var t := State(s.w, s.t.(todo := s.t.todo + plan));
      var r := Step(s, ls[0]);
      AppendStep(s, plan, ls[0]);
      if r.t.failed {
        assert Step(t, ls[0]) == r;
      } else {
        Append(r, plan, ls[1..]);
      }
    }
  }

  lemma AppendStep(s: State, plan: seq<Action>, l: Label)
    requires s.t.todo != [] && !s.t.failed
    ensures var r := Step(s, l);
            Step(State(s.w, s.t.(todo := s.t.todo + plan)), l)
              == if r.t.failed then r else State(r.w, r.t.(todo := r.t.todo + plan))
    ensures Step(s, l).t.failed ==> Step(s, l).t.todo == []
  {
    var long := s.t.todo + plan;
    assert long[0] == s.t.todo[0] && long[1..] == s.t.todo[1..] + plan;
    var e := Expand(s.t.todo[0], s.w, s.t.own);
    assert e + (s.t.todo[1..] + plan) == (e + s.t.todo[1..]) + plan;
  }

  /** A program that goes well, then another one. */
  lemma RanThen(own: string, w: World, bg: Goroutine, a: seq<Action>, ls: seq<Label>, w1: World, bg1: Goroutine,
                b: seq<Action>, ms: seq<Label>, w2: World, bg2: Goroutine, ok: bool)
    requires Ran(own, w, bg, a, ls, w1, bg1, true) && Ran(own, w1, bg1, b, ms, w2, bg2, ok)
    ensures Ran(own, w, bg, a + b, ls + ms, w2, bg2, ok)
  {
    var s := State(w, Task(own, a, bg, false));
    Append(s, b, ls);
    assert [] + b == b;
    var t := State(w, Task(own, a + b, bg, false));
    RunSplit(t, ls, ms);
    BusySplit(t, ls, ms);
  }

  /** A program that fails takes what follows with it. */
  lemma RanFails(own: string, w: World, bg: Goroutine, a: seq<Action>, ls: seq<Label>, w1: World, bg1: Goroutine,
                 b: seq<Action>)
    requires Ran(own, w, bg, a, ls, w1, bg1, false)
    ensures Ran(own, w, bg, a + b, ls, w1, bg1, false)
  {
    Append(State(w, Task(own, a, bg, false)), b, ls);
  }

  /** One action, after a lull: it fails, or the program goes on with what it expands to. */
  lemma RanAction(own: string, w: World, bg: Goroutine, a: Action, rest: seq<Action>, es: seq<Label>, o: Outcome,
                  ms: seq<Label>, w2: World, bg2: Goroutine, ok: bool)
    requires Offstage(es)
    requires var (w1, bg1) := Lull(own, w, bg, es);
             var (v, good) := Act(a, w1, own, o);
             if good then Ran(own, v, if a.Fork? then Ready else bg1, Expand(a, w1, own) + rest, ms, w2, bg2, ok)
             else ms == [] && w2 == v && bg2 == bg1 && !ok
    ensures Ran(own, w, bg, [a] + rest, es + [Main(o)] + ms, w2, bg2, ok)
  {
    var s := State(w, Task(own, [a] + rest, bg, false));
    LullRun(s, es);
    var r := Run(s, es);
    assert ([a] + rest)[0] == a && ([a] + rest)[1..] == rest;
    assert Run(r, [Main(o)]) == MainStep(r, o) by {
      assert [Main(o)][1..] == [];
    }
    assert Busy(r, [Main(o)]) by {
      assert [Main(o)][1..] == [];
    }
    RunSplit(s, es, [Main(o)]);
    BusySplit(s, es, [Main(o)]);
    RunSplit(s, es + [Main(o)], ms);
    assert ms == [] ==> Busy(Run(s, es + [Main(o)]), ms);
    BusySplit(s, es + [Main(o)], ms);
  }

  lemma RanNothing(own: string, w: World, bg: Goroutine)
    ensures Ran(own, w, bg, [], [], w, bg, true)
  {
  }

  /** An action that expands to nothing, on its own. */
  lemma RanSingle(own: string, w: World, bg: Goroutine, a: Action, es: seq<Label>, o: Outcome)
    requires Offstage(es)
    requires !a.Fork? && Expand(a, Lull(own, w, bg, es).0, own) == []
    ensures var (w1, bg1) := Lull(own, w, bg, es);
            var (v, ok) := Act(a, w1, own, o);
            Ran(own, w, bg, [a], es + [Main(o)], v, bg1, ok)
  {
    var (w1, bg1) := Lull(own, w, bg, es);
    var (v, ok) := Act(a, w1, own, o);
    RanNothing(own, v, bg1);
    assert [] + [] == Expand(a, w1, own);
    RanAction(own, w, bg, a, [], es, o, [], v, bg1, ok);
    assert [a] + [] == [a] && es + [Main(o)] + [] == es + [Main(o)];
  }

  /** An action on its own, taken at turn `i`, and what it expands to, up to turn `k`. */
  lemma RanTurns(own: string, w: World, bg: Goroutine, a: Action, turns: nat -> Turn, i: nat, k: nat,
                 w2: World, bg2: Goroutine, ok: bool)
    requires i < k && !a.Fork?
    requires var (w1, bg1) := Lull(own, w, bg, turns(i).before);
             var (v, good) := Act(a, w1, own, turns(i).o);
             if good then Ran(own, v, bg1, Expand(a, w1, own), Replay(turns, i + 1, k), w2, bg2, ok)
             else k == i + 1 && w2 == v && bg2 == bg1 && !ok
    ensures Ran(own, w, bg, [a], Replay(turns, i, k), w2, bg2, ok)
  {
    var (w1, bg1) := Lull(own, w, bg, turns(i).before);
    assert Expand(a, w1, own) + [] == Expand(a, w1, own) && [a] + [] == [a];
    RanAction(own, w, bg, a, [], turns(i).before, turns(i).o, Replay(turns, i + 1, k), w2, bg2, ok);
    ReplayTurn(turns, i, k);
  }

  /** A further stretch `plan[i..j]` of a program whose first `i` steps went well. */
  lemma RanNext(own: string, w: World, bg: Goroutine, plan: seq<Action>, i: nat, ls: seq<Label>, w1: World,
                bg1: Goroutine,
                j: nat, ms: seq<Label>, w2: World, bg2: Goroutine, ok: bool)
    requires i <= j <= |plan|
    requires Ran(own, w, bg, plan[..i], ls, w1, bg1, true) && Ran(own, w1, bg1, plan[i..j], ms, w2, bg2, ok)
    ensures Ran(own, w, bg, plan[..j], ls + ms, w2, bg2, ok)
    ensures !ok || j == |plan| ==> Ran(own, w, bg, plan, ls + ms, w2, bg2, ok)
  {
    RanThen(own, w, bg, plan[..i], ls, w1, bg1, plan[i..j], ms, w2, bg2, ok);
    assert plan[..i] + plan[i..j] == plan[..j];
    assert plan[..j] + plan[j..] == plan;
    if !ok {
      RanFails(own, w, bg, plan[..j], ls + ms, w2, bg2, plan[j..]);
    } else if j == |plan| {
      assert plan[..j] == plan;
    }
  }

  // ---------- The polling loop ----------

  function Polling(own: string): seq<Action> { [Poll, Do(VmQuestion(own))] }

  /** The call has been polling all along, and still is. */
  predicate Polled(own: string, w: World, bg: Goroutine, polls: seq<Label>, w1: World, bg1: Goroutine) {
    var s := State(w, Task(own, Polling(own), bg, false));
    Busy(s, polls) && Run(s, polls) == State(w1, Task(own, Polling(own), bg1, false))
  }

  /** A poll at turn `i` that does not see the question. */
  lemma PollOnce(own: string, w: World, turns: nat -> Turn, since: nat, i: nat, w1: World, bg1: Goroutine)
    requires since <= i && turns(i).o.fault == NoFault
    requires Polled(own, w, Ready, Replay(turns, since, i), w1, bg1)
    requires VmState(Lull(own, w1, bg1, turns(i).before).0.host, own) != STATE_BLOCKING_QUESTION
    ensures var (w2, bg2) := Lull(own, w1, bg1, turns(i).before);
            Polled(own, w, Ready, Replay(turns, since, i + 1), w2, bg2)
  {
    var polls, es, last := Replay(turns, since, i), turns(i).before, [Main(turns(i).o)];
    var s := State(w, Task(own, Polling(own), Ready, false));
    var s1 := Run(s, polls);
    LullRun(s1, es);
    assert last[1..] == [];
    assert [Poll] + Polling(own)[1..] == Polling(own);
    assert Run(Run(s1, es), last) == Run(s1, es);
    RunSplit(s1, es, last);
    BusySplit(s1, es, last);
    RunSplit(s, polls, es + last);
    BusySplit(s, polls, es + last);
  }

  lemma AfterPolls(own: string, w: World, bg: Goroutine, polls: seq<Label>, w1: World, bg1: Goroutine,
                   ls: seq<Label>, w2: World, bg2: Goroutine, ok: bool)
    requires Polled(own, w, bg, polls, w1, bg1) && Ran(own, w1, bg1, Polling(own), ls, w2, bg2, ok)
    ensures Ran(own, w, bg, Polling(own), polls + ls, w2, bg2, ok)
  {
    var s := State(w, Task(own, Polling(own), bg, false));
    RunSplit(s, polls, ls);
    BusySplit(s, polls, ls);
  }

  lemma ForkFirst(own: string, w: World, bg: Goroutine, o: Outcome, ls: seq<Label>, w2: World, bg2: Goroutine, ok: bool)
    requires Ran(own, w, Ready, Polling(own), ls, w2, bg2, ok)
    ensures Ran(own, w, bg, StartVm(own), [Main(o)] + ls, w2, bg2, ok)
  {
    assert [] + Polling(own) == Polling(own) && [Fork] + Polling(own) == StartVm(own);
    RanAction(own, w, bg, Fork, Polling(own), [], o, ls, w2, bg2, ok);
    assert [] + [Main(o)] + ls == [Main(o)] + ls;
  }

  /** StartVM as a whole, up to turn `k`: the fork, the polls that saw nothing, and a last poll
      at turn `i` that fails or is followed by the answer. */
  lemma StartRan(own: string, w: World, bg: Goroutine, turns: nat -> Turn, since: nat, i: nat, k: nat,
                 w1: World, bg1: Goroutine, w3: World, bg3: Goroutine, ok: bool)
    requires since <= i < k && Polled(own, w, Ready, Replay(turns, since, i), w1, bg1)
    requires var (w2, bg2) := Lull(own, w1, bg1, turns(i).before);
             if turns(i).o.fault == NoFault
             then
               && VmState(w2.host, own) == STATE_BLOCKING_QUESTION
               && Ran(own, w2, bg2, [Do(VmQuestion(own))], Replay(turns, i + 1, k), w3, bg3, ok)
             else k == i + 1 && w3 == w2 && bg3 == bg2 && !ok
    ensures Ran(own, w, bg, StartVm(own), Forked(turns, since, since, k), w3, bg3, ok)
  {
    var es, o, ms := turns(i).before, turns(i).o, Replay(turns, i + 1, k);
    assert [] + [Do(VmQuestion(own))] == [Do(VmQuestion(own))];
    assert Polling(own) == [Poll] + [Do(VmQuestion(own))];
    RanAction(own, w1, bg1, Poll, [Do(VmQuestion(own))], es, o, ms, w3, bg3, ok);
    AfterPolls(own, w, Ready, Replay(turns, since, i), w1, bg1, es + [Main(o)] + ms, w3, bg3, ok);
    ReplayMore(turns, since, i, k);
    ForkFirst(own, w, bg, turns(since).o, Replay(turns, since, k), w3, bg3, ok);
    ForkedJoin(turns, since, since, k);
  }

  // ---------- The polling loop ends ----------

  /** Within `bound` further polls, one fails or sees the blocking question. */
  predicate PollsEnd(own: string, w: World, bg: Goroutine, turns: nat -> Turn, i: nat, bound: nat)
    decreases bound
  {
    var (w1, bg1) := Lull(own, w, bg, turns(i).before);
    || turns(i).o.fault != NoFault
    || VmState(w1.host, own) == STATE_BLOCKING_QUESTION
    || (bound > 0 && PollsEnd(own, w1, bg1, turns, i + 1, bound - 1))
  }

  /** Within `d` turns the goroutine moves; the host gets round to what is in progress; a
      poll fails. */
  predicate MovesWithin(turns: nat -> Turn, i: nat, d: nat)
    decreases d
  {
    FirstMove(turns(i).before).Some? || (d > 0 && MovesWithin(turns, i + 1, d - 1))
  }

  predicate TicksWithin(turns: nat -> Turn, i: nat, d: nat)
    decreases d
  {
    Ticking in turns(i).before || (d > 0 && TicksWithin(turns, i + 1, d - 1))
  }

  predicate FailsWithin(turns: nat -> Turn, i: nat, d: nat)
    decreases d
  {
    turns(i).o.fault != NoFault || (d > 0 && FailsWithin(turns, i + 1, d - 1))
  }

  /** How the goroutine's first move ends. */
  function MoveWithin(turns: nat -> Turn, i: nat, d: nat): Fault
    requires MovesWithin(turns, i, d)
    decreases d
  {
    var move := FirstMove(turns(i).before);
    if move.Some? then move.value else MoveWithin(turns, i + 1, d - 1)
  }

  /** A copied VM that is off, on its way up, or at the question. */
  predicate Rising(own: string, w: World, bg: Goroutine) {
    && own in w.host.vms && w.host.vms[own].copied
    && (bg == Ready ==> w.host.vms[own].power == Off)
    && (bg != Ready ==> bg in {Blocked, Over} && w.host.vms[own].power in {Starting, Asking})
  }

  lemma {:induction false} RisingLull(own: string, w: World, bg: Goroutine, ls: seq<Label>)
    requires Offstage(ls) && Rising(own, w, bg)
    requires bg == Ready && FirstMove(ls).Some? ==> TakesEffect(FirstMove(ls).value)
    ensures var (w1, bg1) := Lull(own, w, bg, ls);
            && Rising(own, w1, bg1)
            && (bg1 == Ready <==> bg == Ready && FirstMove(ls) == None)
            && (bg != Ready && (Ticking in ls || w.host.vms[own].power == Asking) ==> w1.host.vms[own].power == Asking)
    decreases |ls|
  {
    if ls != [] {
      assert forall l :: l in ls <==> l == ls[0] || l in ls[1..];
      var s := Step(State(w, Task(own, [], bg, false)), ls[0]);
      RisingLull(own, s.w, s.t.bg, ls[1..]);
    }
  }

  lemma {:induction false} PollsEndMore(own: string, w: World, bg: Goroutine, turns: nat -> Turn, i: nat, d: nat,
                                        e: nat)
    requires PollsEnd(own, w, bg, turns, i, d) && d <= e
    ensures PollsEnd(own, w, bg, turns, i, e)
    decreases d
  {
    var (w1, bg1) := Lull(own, w, bg, turns(i).before);
    if d > 0 && PollsEnd(own, w1, bg1, turns, i + 1, d - 1) {
      PollsEndMore(own, w1, bg1, turns, i + 1, d - 1, e - 1);
    }
  }

  /** A poll that fails ends the loop, whatever else goes on. */
  lemma {:induction false} FailureEnds(own: string, w: World, bg: Goroutine, turns: nat -> Turn, i: nat, d: nat)
    requires FailsWithin(turns, i, d)
    ensures PollsEnd(own, w, bg, turns, i, d)
    decreases d
  {
    if turns(i).o.fault == NoFault {
      var (w1, bg1) := Lull(own, w, bg, turns(i).before);
      FailureEnds(own, w1, bg1, turns, i + 1, d - 1);
    }
  }

  /** Once the power-on took effect, the next tick raises the question. */
  lemma {:induction false} AsksWithin(own: string, w: World, bg: Goroutine, turns: nat -> Turn, i: nat, d: nat)
    requires Rising(own, w, bg) && bg != Ready && TicksWithin(turns, i, d)
    ensures PollsEnd(own, w, bg, turns, i, d)
    decreases d
  {
    RisingLull(own, w, bg, turns(i).before);
    var (w1, bg1) := Lull(own, w, bg, turns(i).before);
    if w1.host.vms[own].power != Asking {
      AsksWithin(own, w1, bg1, turns, i + 1, d - 1);
    }
  }

  /** From turn `i` on, the host gets round to what is in progress, or a poll fails, soon. */
  ghost predicate Ticks(turns: nat -> Turn, i: nat, due: nat) {
    forall j: nat :: j >= i ==> TicksWithin(turns, j, due) || FailsWithin(turns, j, due)
  }

  /** Termination of StartVM: a copied VM that is off asks its question within a bounded
      number of polls, once the power-on took effect, even if it reported an error. */
  lemma {:induction false} CopiedVmAsks(own: string, w: World, turns: nat -> Turn, due: nat, i: nat, d: nat)
    requires Rising(own, w, Ready) && Ticks(turns, i, due)
    requires MovesWithin(turns, i, d) && TakesEffect(MoveWithin(turns, i, d))
    ensures PollsEnd(own, w, Ready, turns, i, d + due + 1)
    decreases d
  {
    RisingLull(own, w, Ready, turns(i).before);
    var (w1, bg1) := Lull(own, w, Ready, turns(i).before);
    if bg1 == Ready {
      CopiedVmAsks(own, w1, turns, due, i + 1, d - 1);
    } else {
      if TicksWithin(turns, i + 1, due) {
        AsksWithin(own, w1, bg1, turns, i + 1, due);
      } else {
        FailureEnds(own, w1, bg1, turns, i + 1, due);
      }
      PollsEndMore(own, w1, bg1, turns, i + 1, due, d + due);
    }
  }

  /** While the VM stays off, nothing but the goroutine changes, and that only once. */
  lemma {:induction false} OffLull(own: string, w: World, bg: Goroutine, ls: seq<Label>)
    requires Offstage(ls) && own in w.host.vms && w.host.vms[own].power == Off && bg in {Ready, Over}
    requires bg == Ready && FirstMove(ls).Some? ==> !TakesEffect(FirstMove(ls).value)
    ensures Lull(own, w, bg, ls) == (w, if FirstMove(ls) == None then bg else Over)
    decreases |ls|
  {
    if ls != [] {
      var s := Step(State(w, Task(own, [], bg, false)), ls[0]);
      assert s.w == w;
      OffLull(own, w, s.t.bg, ls[1..]);
    }
  }

  /** A power-on without effect, and polls that do not fail: the loop does not end. */
  lemma {:induction false} NeverEnds(own: string, w: World, bg: Goroutine, turns: nat -> Turn, i: nat, d: nat, b: nat)
    requires own in w.host.vms && w.host.vms[own].power == Off && bg in {Ready, Over}
    requires bg == Ready ==> MovesWithin(turns, i, d) && !TakesEffect(MoveWithin(turns, i, d))
    requires forall j :: j >= i ==> turns(j).o.fault == NoFault
    ensures !PollsEnd(own, w, bg, turns, i, b)
    decreases b
  {
    OffLull(own, w, bg, turns(i).before);
    if b > 0 {
      var next := if FirstMove(turns(i).before) == None then bg else Over;
      NeverEnds(own, w, next, turns, i + 1, if d > 0 then d - 1 else 0, b - 1);
    }
  }

  lemma {:induction false} FailureWithin(turns: nat -> Turn, i: nat, j: nat)
    requires i <= j && turns(j).o.fault != NoFault
    ensures FailsWithin(turns, i, j - i)
    decreases j - i
  {
    if i < j {
      FailureWithin(turns, i + 1, j);
    }
  }

  predicate LoopEnds(own: string, w: World, turns: nat -> Turn, i: nat, b: nat) { PollsEnd(own, w, Ready, turns, i, b) }

  /** Exactly when the polling loop of StartVM ends, for a copied VM that is off, if goroutine
      and host get to move: the power-on must take effect, or a poll fail. */
  lemma PollingEnds(own: string, w: World, turns: nat -> Turn, due: nat, i: nat, d: nat)
    requires Rising(own, w, Ready) && Ticks(turns, i, due) && MovesWithin(turns, i, d)
    ensures (exists b: nat :: LoopEnds(own, w, turns, i, b)) <==>
              TakesEffect(MoveWithin(turns, i, d)) || exists j: nat :: j >= i && turns(j).o.fault != NoFault
  {
    if TakesEffect(MoveWithin(turns, i, d)) {
      CopiedVmAsks(own, w, turns, due, i, d);
      assert LoopEnds(own, w, turns, i, d + due + 1);
    } else if j: nat :| j >= i && turns(j).o.fault != NoFault {
      FailureWithin(turns, i, j);
      FailureEnds(own, w, Ready, turns, i, j - i);
      assert LoopEnds(own, w, turns, i, j - i);
    } else {
      forall b: nat ensures !LoopEnds(own, w, turns, i, b) {
        NeverEnds(own, w, Ready, turns, i, d, b);
      }
    }
  }

  /** From turn `i` on, soon a poll fails, or else the goroutine moves with effect and the host
      gets round to what is in progress. */
  ghost predicate Prompt(turns: nat -> Turn, i: nat, due: nat) {
    || FailsWithin(turns, i, due)
    || (MovesWithin(turns, i, due) && TakesEffect(MoveWithin(turns, i, due)) && Ticks(turns, i, due))
  }

  /** No step between the two turns meets a fault. */
  predicate Faultless(turns: nat -> Turn, i: nat, j: nat) {
    forall k :: i <= k < j ==> turns(k).o.fault == NoFault
  }

  /** What CreateVM relies on when it starts its fresh copy. */
  lemma PromptEnds(own: string, w: World, turns: nat -> Turn, due: nat, i: nat)
    requires Rising(own, w, Ready) && Prompt(turns, i, due)
    ensures PollsEnd(own, w, Ready, turns, i, due + due + 1)
  {
    if FailsWithin(turns, i, due) {
      FailureEnds(own, w, Ready, turns, i, due);
      PollsEndMore(own, w, Ready, turns, i, due, due + due + 1);
    } else {
      CopiedVmAsks(own, w, turns, due, i, due);
    }
  }
}
