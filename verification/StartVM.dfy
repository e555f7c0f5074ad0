/** StartVM: a goroutine blocked in power-on beside a loop that polls for the question. */
module StartVM {
  import opened Host
  import opened Machine
  import opened Traces

  function StartTask(own: string): Task { Task(own, StartVm(own), Idle, false) }

  /** An event of the polling loop that saw the blocking question. */
  predicate SawQuestion(e: Event, own: string) {
    e.cmd == VmInfo(own) && e.ok && VmState(e.host, own) == STATE_BLOCKING_QUESTION
  }

  /** `k` polls, then at most one answer, sent right after the first poll that saw the
      question. */
  ghost predicate PollsThenAnswer(tr: seq<Event>, own: string, k: nat) {
    && k <= |tr| <= k + 1
    && (forall i :: 0 <= i < k ==> tr[i].cmd == VmInfo(own))
    && (forall i :: 0 <= i < k - 1 ==> !SawQuestion(tr[i], own))
    && (|tr| == k + 1 ==> tr[k].cmd == VmQuestion(own) && k > 0 && SawQuestion(tr[k - 1], own))
  }

  /** The same for a call that is already polling, or about to answer. */
  ghost predicate TraceFrom(todo: seq<Action>, tr: seq<Event>, own: string) {
    && (todo == [] ==> tr == [])
    && (todo == [Do(VmQuestion(own))] ==> tr == [] || (|tr| == 1 && tr[0].cmd == VmQuestion(own)))
    && (todo == [Poll, Do(VmQuestion(own))] ==> exists k: nat :: PollsThenAnswer(tr, own, k))
  }

  lemma {:induction false} PollingTrace(s: State, ls: seq<Label>)
    requires s.t.todo in {[Poll, Do(VmQuestion(s.t.own))], [Do(VmQuestion(s.t.own))], []}
    ensures TraceFrom(s.t.todo, Trace(s, ls), s.t.own)
    decreases |ls|
  {
    var own := s.t.own;
    if ls == [] {
      assert PollsThenAnswer(Trace(s, ls), own, 0);
    } else {
      var r := Step(s, ls[0]);
      var later := Trace(r, ls[1..]);
      PollingShapes(s, ls[0]);
      PollingTrace(r, ls[1..]);
      if Events(s, ls[0]) == [] {
        assert Trace(s, ls) == later;
      } else {
        OneMorePoll(s.t.todo, r.t.todo, Events(s, ls[0])[0], later, own);
        assert Trace(s, ls) == [Events(s, ls[0])[0]] + later;
      }
    }
  }

  lemma OneMorePoll(todo: seq<Action>, next: seq<Action>, e: Event, later: seq<Event>, own: string)
    requires TraceFrom(next, later, own)
    requires todo == [Do(VmQuestion(own))] ==> e.cmd == VmQuestion(own) && next == []
    requires todo == [] ==> false
    requires todo == [Poll, Do(VmQuestion(own))] ==>
               && e.cmd == VmInfo(own)
               && next == (if !e.ok then [] else if SawQuestion(e, own) then [Do(VmQuestion(own))] else todo)
    ensures TraceFrom(todo, [e] + later, own)
  {
    if todo == [Poll, Do(VmQuestion(own))] {
      if next == todo {
        var k: nat :| PollsThenAnswer(later, own, k);
        assert PollsThenAnswer([e] + later, own, k + 1);
      } else {
        assert PollsThenAnswer([e] + later, own, 1);
      }
    }
  }

  lemma PollingShapes(s: State, l: Label)
    requires s.t.todo in {[Poll, Do(VmQuestion(s.t.own))], [Do(VmQuestion(s.t.own))], []}
    ensures var r := Step(s, l);
            && r.t.own == s.t.own
            && (!l.Main? ==> r.t.todo == s.t.todo)
            && (!l.Main? || s.t.todo == [] ==> Events(s, l) == [])
            && (l.Main? && s.t.todo == [Do(VmQuestion(s.t.own))] ==>
                  r.t.todo == [] && |Events(s, l)| == 1 && Events(s, l)[0].cmd == VmQuestion(s.t.own))
            && (l.Main? && s.t.todo == [] ==> r.t.todo == [])
            && (l.Main? && s.t.todo == [Poll, Do(VmQuestion(s.t.own))] ==>
                  && |Events(s, l)| == 1 && Events(s, l)[0].cmd == VmInfo(s.t.own)
                  && r.t.todo == (if !Events(s, l)[0].ok then []
                                  else if SawQuestion(Events(s, l)[0], s.t.own) then [Do(VmQuestion(s.t.own))]
                                  else s.t.todo))
  {
    var rest: seq<Action> := [Do(VmQuestion(s.t.own))];
    assert s.t.todo == [Poll, Do(VmQuestion(s.t.own))] ==> s.t.todo[1..] == rest;
    assert [] + rest == rest;
    assert [Poll] + rest == [Poll, Do(VmQuestion(s.t.own))];
  }

  /** StartVM safety, from any host and in any interleaving: the answer is sent at most once,
      and only right after the one poll that saw the blocking question. */
  lemma StartAnswersOnce(w: World, own: string, ls: seq<Label>)
    ensures exists k: nat :: PollsThenAnswer(Trace(State(w, StartTask(own)), ls), own, k)
  {
    StartTraceFrom(State(w, StartTask(own)), ls);
  }

  lemma {:induction false} StartTraceFrom(s: State, ls: seq<Label>)
    requires s.t.todo == StartVm(s.t.own)
    ensures exists k: nat :: PollsThenAnswer(Trace(s, ls), s.t.own, k)
    decreases |ls|
  {
    if ls == [] {
      assert PollsThenAnswer(Trace(s, ls), s.t.own, 0);
    } else {
      var r := Step(s, ls[0]);
      assert Events(s, ls[0]) == [];
      assert Trace(s, ls) == Trace(r, ls[1..]);
      if ls[0].Main? {
        assert r.t.todo == [] + StartVm(s.t.own)[1..] == [Poll, Do(VmQuestion(s.t.own))];
        PollingTrace(r, ls[1..]);
      } else {
        StartTraceFrom(r, ls[1..]);
      }
    }
  }

  /** What the goroutine and the loop know of each other. */
  ghost predicate StartInv(s: State) {
    var own := s.t.own;
    && s.t.todo in {StartVm(own), [Poll, Do(VmQuestion(own))], [Do(VmQuestion(own))], []}
    && (s.t.bg == Idle <==> s.t.todo == StartVm(own))
    && (s.t.todo == [Do(VmQuestion(own))] ==> own in s.w.host.vms && s.w.host.vms[own].power == Asking)
    && (Succeeded(s.t) ==> own in s.w.host.vms && s.w.host.vms[own].power == On)
  }

  lemma StartInvStep(s: State, l: Label)
    requires StartInv(s)
    ensures StartInv(Step(s, l))
  {
    match l
    case Main(o) =>
      if s.t.todo == StartVm(s.t.own) {
        assert [] + StartVm(s.t.own)[1..] == [Poll, Do(VmQuestion(s.t.own))];
      } else {
        StartInvMain(s, o);
      }
    case Background(o) => StartInvBackground(s, o);
    case Ticking =>
  }

  lemma StartInvMain(s: State, o: Outcome)
    requires StartInv(s) && s.t.todo != StartVm(s.t.own)
    ensures StartInv(MainStep(s, o))
  {
    PollingShapes(s, Main(o));
    NotTheStart(s.t.own);
    if s.t.todo == [Do(VmQuestion(s.t.own))] {
      Answered(s, o);
    }
  }

  lemma NotTheStart(own: string)
    ensures [Poll, Do(VmQuestion(own))] != StartVm(own) && [Do(VmQuestion(own))] != StartVm(own)
  {
  }

  lemma Answered(s: State, o: Outcome)
    requires s.t.todo == [Do(VmQuestion(s.t.own))] && s.t.own in s.w.host.vms && s.w.host.vms[s.t.own].power == Asking
    ensures var r := MainStep(s, o);
            !r.t.failed ==> s.t.own in r.w.host.vms && r.w.host.vms[s.t.own].power == On
    ensures MainStep(s, o).t.bg == s.t.bg
  {
  }

  lemma StartInvBackground(s: State, o: Outcome)
    requires StartInv(s)
    ensures StartInv(BackgroundStep(s, o))
  {
  }

  lemma {:induction false} StartInvRun(s: State, ls: seq<Label>)
    requires StartInv(s)
    ensures StartInv(Run(s, ls)) && Run(s, ls).t.own == s.t.own
    decreases |ls|
  {
    if ls != [] {
      StartInvStep(s, ls[0]);
      StartInvRun(Step(s, ls[0]), ls[1..]);
    }
  }

  /** From any host: a StartVM that succeeds has answered the question and left the VM on, and
      the goroutine is through at its next move, wherever it was. */
  lemma StartUnblocks(w: World, own: string, ls: seq<Label>, o: Outcome)
    ensures var s := Run(State(w, StartTask(own)), ls);
            Succeeded(s.t) ==>
              && own in s.w.host.vms && s.w.host.vms[own].power == On
              && Step(s, Background(o)).t.bg == Over
  {
    StartInvRun(State(w, StartTask(own)), ls);
  }

  // ---------- When the loop does not end ----------

  /** Every poll and the answer are replied to. */
  predicate Replied(ls: seq<Label>) { forall i :: 0 <= i < |ls| && ls[i].Main? ==> ls[i].o.fault == NoFault }

  /** The labels after the first step of the call, which starts the goroutine. */
  function AfterFork(ls: seq<Label>): seq<Label> {
    if ls == [] then [] else if ls[0].Main? then ls[1..] else AfterFork(ls[1..])
  }

  /** The call is where it was, or polling. */
  predicate StillPolling(s: State) { s.t.todo in {StartVm(s.t.own), [Poll, Do(VmQuestion(s.t.own))]} && !s.t.failed }

  /** The error of the goroutine is only logged: on a VM that is off, after a power-on that
      failed without effect, StartVM polls for as long as the polls are replied to. */
  lemma {:induction false} FailedPowerOnHangs(w: World, own: string, ls: seq<Label>)
    requires own in w.host.vms && w.host.vms[own].power == Off && Replied(ls)
    requires FirstMove(AfterFork(ls)).Some? ==> !TakesEffect(FirstMove(AfterFork(ls)).value)
    ensures var s := Run(State(w, StartTask(own)), ls);
            StillPolling(s) && s.w == w
    decreases |ls|
  {
    if ls != [] {
      var r := Step(State(w, StartTask(own)), ls[0]);
      if ls[0].Main? {
        assert [] + StartVm(own)[1..] == [Poll, Do(VmQuestion(own))];
        OffHangs(r, ls[1..]);
      } else {
        FailedPowerOnHangs(w, own, ls[1..]);
      }
    }
  }

  lemma {:induction false} OffHangs(s: State, ls: seq<Label>)
    requires s.t.todo == [Poll, Do(VmQuestion(s.t.own))] && !s.t.failed && s.t.bg in {Ready, Over} && Replied(ls)
    requires s.t.own in s.w.host.vms && s.w.host.vms[s.t.own].power == Off
    requires s.t.bg == Ready && FirstMove(ls).Some? ==> !TakesEffect(FirstMove(ls).value)
    ensures StillPolling(Run(s, ls)) && Run(s, ls).w == s.w
    decreases |ls|
  {
    if ls != [] {
      PollingShapes(s, ls[0]);
      OffHangs(Step(s, ls[0]), ls[1..]);
    }
  }

  /** The host can get the VM to the question. */
  predicate CanAsk(h: Host, own: string) {
    && own in h.vms
    && (h.vms[own].power == Asking || (h.vms[own].copied && h.vms[own].power in {Off, Starting}))
  }

  /** A VM that is not there, is on, or is no copy, raises no question: StartVM polls for as
      long as the polls are replied to. */
  lemma NoQuestionHangs(w: World, own: string, ls: seq<Label>)
    requires !CanAsk(w.host, own) && Replied(ls)
    ensures StillPolling(Run(State(w, StartTask(own)), ls))
  {
    NeverAsked(State(w, StartTask(own)), ls);
  }

  lemma {:induction false} NeverAsked(s: State, ls: seq<Label>)
    requires !CanAsk(s.w.host, s.t.own) && (StillPolling(s) || (s.t.failed && s.t.todo == []))
    ensures !Succeeded(Run(s, ls).t)
    ensures Replied(ls) && !s.t.failed ==> StillPolling(Run(s, ls))
    decreases |ls|
  {
    if ls != [] {
      NeverAskedStep(s, ls[0]);
      NeverAsked(Step(s, ls[0]), ls[1..]);
    }
  }

  lemma NeverAskedStep(s: State, l: Label)
    requires !CanAsk(s.w.host, s.t.own) && (StillPolling(s) || (s.t.failed && s.t.todo == []))
    ensures var r := Step(s, l);
            && r.t.own == s.t.own && !CanAsk(r.w.host, r.t.own)
            && (StillPolling(r) || (r.t.failed && r.t.todo == []))
            && (r.t.failed && !s.t.failed ==> l.Main? && l.o.fault != NoFault)
  {
    if s.t.todo == StartVm(s.t.own) {
      assert [] + StartVm(s.t.own)[1..] == [Poll, Do(VmQuestion(s.t.own))];
    } else {
      PollingShapes(s, l);
    }
  }

  /** StartVM can succeed exactly when the host can get the VM to the question. */
  lemma StartCanSucceed(w: World, own: string)
    ensures CanAsk(w.host, own) <==> exists ls :: StartSucceeds(w, own, ls)
  {
    if CanAsk(w.host, own) {
      var o := Outcome(NoFault, {}, "", Cdrom(false, None), Written, true);
      var ls := [Main(o), Background(o), Ticking, Main(o), Main(o)];
      GoodStart(w, own, o);
      assert StartSucceeds(w, own, ls);
    }
    forall ls | StartSucceeds(w, own, ls) ensures CanAsk(w.host, own) {
      if !CanAsk(w.host, own) {
        NeverAsked(State(w, StartTask(own)), ls);
      }
    }
  }

  predicate StartSucceeds(w: World, own: string, ls: seq<Label>) { Succeeded(Run(State(w, StartTask(own)), ls).t) }

  lemma GoodStart(w: World, own: string, o: Outcome)
    requires CanAsk(w.host, own) && o.fault == NoFault
    ensures StartSucceeds(w, own, [Main(o), Background(o), Ticking, Main(o), Main(o)])
  {
    var s := State(w, StartTask(own));
    var ls := [Main(o), Background(o), Ticking, Main(o), Main(o)];
    var r := AskedSoon(w, own, o);
    AnsweredSoon(r, o);
    RunSplit(s, ls[..3], ls[3..]);
    assert ls[..3] + ls[3..] == ls;
    RunThree(s, ls[..3]);
    RunTwo(r, ls[3..]);
  }

  lemma AskedSoon(w: World, own: string, o: Outcome) returns (r: State)
    requires CanAsk(w.host, own) && o.fault == NoFault
    ensures r == Step(Step(Step(State(w, StartTask(own)), Main(o)), Background(o)), Ticking)
    ensures r.t.own == own && r.t.todo == [Poll, Do(VmQuestion(own))] && !r.t.failed
    ensures VmState(r.w.host, own) == STATE_BLOCKING_QUESTION
  {
    assert [] + StartVm(own)[1..] == [Poll, Do(VmQuestion(own))];
    var s1 := Step(State(w, StartTask(own)), Main(o));
    assert s1 == State(w, Task(own, [Poll, Do(VmQuestion(own))], Ready, false));
    r := Step(Step(s1, Background(o)), Ticking);
  }

  lemma AnsweredSoon(s: State, o: Outcome)
    requires s.t.todo == [Poll, Do(VmQuestion(s.t.own))] && !s.t.failed && o.fault == NoFault
    requires VmState(s.w.host, s.t.own) == STATE_BLOCKING_QUESTION
    ensures Succeeded(Step(Step(s, Main(o)), Main(o)).t)
  {
    PollingShapes(s, Main(o));
    PollingShapes(Step(s, Main(o)), Main(o));
  }

  lemma RunTwo(s: State, ls: seq<Label>)
    requires |ls| == 2
    ensures Run(s, ls) == Step(Step(s, ls[0]), ls[1])
  {
    assert ls[1..][1..] == [];
    assert Run(s, ls) == Run(Step(s, ls[0]), ls[1..]);
    assert Run(Step(s, ls[0]), ls[1..]) == Run(Step(Step(s, ls[0]), ls[1]), []);
  }

  lemma RunThree(s: State, ls: seq<Label>)
    requires |ls| == 3
    ensures Run(s, ls) == Step(Step(Step(s, ls[0]), ls[1]), ls[2])
  {
    assert Run(s, ls) == Run(Step(s, ls[0]), ls[1..]);
    RunTwo(Step(s, ls[0]), ls[1..]);
  }
}
