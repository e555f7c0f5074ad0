/** DestroyVM and DestroyDisk: what a successful call leaves, and why retrying is safe. */
module Destroy {
  import opened Names
  import opened Host
  import opened Machine

  /** The host without the VM `own` and without the object or directory of that name. */
  function Without(h: Host, own: string): Host {
    h.(vms := h.vms - {own}, files := RemoveTree(h.files, own))
  }

  predicate Gone(h: Host, own: string) {
    own !in h.vms && forall p | p in h.files :: !Under(p, own)
  }

  function DestroyTask(own: string, bg: Goroutine): Task { Task(own, DestroyVm(own), bg, false) }

  /** Where a DestroyVM call on `own` can be, and what it has achieved by then. */
  ghost predicate DestroyInv(w0: World, own: string, s: State) {
    && s.t.own == own && s.w.cell == w0.cell
    && Without(s.w.host, own) == Without(w0.host, own)
    && s.t.todo in {DestroyVm(own), [Do(VmPowerOff(own)), Do(VmDestroy(own)), Sweep(own)],
                    [Do(VmDestroy(own)), Sweep(own)], [Sweep(own)], [Do(DatastoreRm(own))], []}
    && (s.t.todo in {[Sweep(own)], [Do(DatastoreRm(own))], []} && !s.t.failed ==> own !in s.w.host.vms)
    && (Succeeded(s.t) ==> Gone(s.w.host, own))
  }

  lemma WithoutKept(h: Host, k: Host, own: string)
    requires h.ds == k.ds && h.vms - {own} == k.vms - {own}
    requires forall p :: !Under(p, own) ==>
               (p in h.files <==> p in k.files) && (p in h.files ==> h.files[p] == k.files[p])
    ensures Without(h, own) == Without(k, own)
  {
    assert RemoveTree(h.files, own) == RemoveTree(k.files, own);
  }

  lemma ExecKeepsOthers(h: Host, c: Cmd, o: Outcome, own: string)
    requires c in {VmInfo(own), DatastoreLs, VmPowerOn(own), VmPowerOff(own), VmDestroy(own), DatastoreRm(own)}
    ensures Without(Exec(h, c, o).0, own) == Without(h, own)
  {
    WithoutKept(h, Exec(h, c, o).0, own);
  }

  lemma DestroyStep(w0: World, own: string, s: State, l: Label)
    requires DestroyInv(w0, own, s)
    ensures DestroyInv(w0, own, Step(s, l))
  {
    match l
    case Main(o) => if s.t.todo != [] { DestroyMain(w0, own, s, o); }
    case Background(o) => ExecKeepsOthers(s.w.host, VmPowerOn(own), o, own);
    case Ticking => WithoutKept(s.w.host, Tick(s.w.host, own), own);
  }

  lemma DestroyMain(w0: World, own: string, s: State, o: Outcome)
    requires DestroyInv(w0, own, s) && s.t.todo != []
    ensures DestroyInv(w0, own, MainStep(s, o))
  {
    ExecKeepsOthers(s.w.host, CommandOf(s.t.todo[0], own).value, o, own);
    TeardownShapes(s, own, o);
    UnlistedIsUnder(s.w.host, own);
  }

  /** How the program of DestroyVM unfolds. */
  lemma TeardownShapes(s: State, own: string, o: Outcome)
    requires s.t.todo != [] && s.t.own == own
    ensures var r := MainStep(s, o).t.todo;
            && (s.t.todo == DestroyVm(own) ==>
                  r in {[Do(VmPowerOff(own)), Do(VmDestroy(own)), Sweep(own)],
                        [Do(VmDestroy(own)), Sweep(own)], [Sweep(own)], []})
            && (s.t.todo == [Do(VmPowerOff(own)), Do(VmDestroy(own)), Sweep(own)] ==>
                  r in {[Do(VmDestroy(own)), Sweep(own)], []})
            && (s.t.todo == [Do(VmDestroy(own)), Sweep(own)] ==> r in {[Sweep(own)], []})
            && (s.t.todo == [Sweep(own)] ==> r in {[Do(DatastoreRm(own))], []})
            && (s.t.todo == [Do(DatastoreRm(own))] ==> r == [])
  {
    var a, rest := s.t.todo[0], s.t.todo[1..];
    var e := Expand(a, s.w, own);
    assert [] + rest == rest;
    assert s.t.todo == DestroyVm(own) ==> rest == [Sweep(own)];
    assert [Do(VmDestroy(own))] + [Sweep(own)] == [Do(VmDestroy(own)), Sweep(own)];
    assert [Do(VmPowerOff(own)), Do(VmDestroy(own))] + [Sweep(own)]
        == [Do(VmPowerOff(own)), Do(VmDestroy(own)), Sweep(own)];
    assert [Do(DatastoreRm(own))] + [] == [Do(DatastoreRm(own))];
  }

  lemma UnlistedIsUnder(h: Host, own: string)
    ensures own !in Listing(h) ==> forall p :: p in h.files ==> !Under(p, own)
  {
    assert forall p :: p in h.files && Under(p, own) ==> Top(p) == own && Top(p) in Listing(h);
  }

  lemma {:induction false} DestroyRun(w0: World, own: string, s: State, ls: seq<Label>)
    requires DestroyInv(w0, own, s)
    ensures DestroyInv(w0, own, Run(s, ls))
    decreases |ls|
  {
    if ls != [] {
      DestroyStep(w0, own, s, ls[0]);
      DestroyRun(w0, own, Step(s, ls[0]), ls[1..]);
    }
  }

  lemma GoneIsWithout(h: Host, own: string)
    ensures Gone(h, own) <==> h == Without(h, own)
  {
    assert own !in Without(h, own).vms;
    assert forall p :: p in Without(h, own).files ==> !Under(p, own);
    if Gone(h, own) {
      assert h.files == RemoveTree(h.files, own);
      assert h.vms == h.vms - {own};
    }
  }

  /** Whatever fails, and however a left-over power-on goroutine interferes, DestroyVM
      changes nothing but its own VM; when it succeeds, the VM and its directory are gone
      and the result is determined by the host it started from. */
  lemma DestroyResult(w: World, own: string, bg: Goroutine, ls: seq<Label>)
    ensures var s := Run(State(w, DestroyTask(own, bg)), ls);
            && Without(s.w.host, own) == Without(w.host, own)
            && s.w.cell == w.cell
            && (Succeeded(s.t) ==> s.w.host == Without(w.host, own))
  {
    DestroyRun(w, own, State(w, DestroyTask(own, bg)), ls);
    GoneIsWithout(Run(State(w, DestroyTask(own, bg)), ls).w.host, own);
  }

  /** The world after several DestroyVM attempts, each stopping where it may. */
  function Attempts(w: World, own: string, runs: seq<seq<Label>>): World
    decreases |runs|
  {
    if runs == [] then w
    else Attempts(Run(State(w, DestroyTask(own, Idle)), runs[0]).w, own, runs[1..])
  }

  /** Resumability: any number of attempts that stop or fail anywhere, followed by one that
      succeeds, leave exactly what one successful attempt would have left. */
  lemma {:induction false} DestroyResumable(w: World, own: string, runs: seq<seq<Label>>, ls: seq<Label>,
                                            direct: seq<Label>)
    requires Succeeded(Run(State(Attempts(w, own, runs), DestroyTask(own, Idle)), ls).t)
    requires Succeeded(Run(State(w, DestroyTask(own, Idle)), direct).t)
    ensures Run(State(Attempts(w, own, runs), DestroyTask(own, Idle)), ls).w
         == Run(State(w, DestroyTask(own, Idle)), direct).w
  {
    AttemptsKeep(w, own, runs);
    DestroyResult(Attempts(w, own, runs), own, Idle, ls);
    DestroyResult(w, own, Idle, direct);
  }

  lemma {:induction false} AttemptsKeep(w: World, own: string, runs: seq<seq<Label>>)
    ensures Without(Attempts(w, own, runs).host, own) == Without(w.host, own)
    ensures Attempts(w, own, runs).cell == w.cell
    decreases |runs|
  {
    if runs != [] {
      DestroyResult(w, own, Idle, runs[0]);
      AttemptsKeep(Run(State(w, DestroyTask(own, Idle)), runs[0]).w, own, runs[1..]);
    }
  }

  /** A stretch in which only the call itself moves, and no command fails. */
  predicate Calm(ls: seq<Label>) {
    forall i :: 0 <= i < |ls| ==> ls[i].Main? && ls[i].o.fault == NoFault
  }

  /** Progress: from every host, whatever state the VM is in, an undisturbed DestroyVM
      succeeds within five commands. */
  lemma DestroySucceeds(w: World, own: string, ls: seq<Label>)
    requires Calm(ls) && |ls| >= 5
    ensures Succeeded(Run(State(w, DestroyTask(own, Idle)), ls).t)
  {
    var s1 := State(w, Task(own, Teardown(own, VmState(w.host, own)) + [Sweep(own)], Idle, false));
    InspectStep(w, own, ls[0].o);
    CalmTail(ls);
    if own !in w.host.vms {
      assert s1.t.todo == [Sweep(own)];
      SweepSucceeds(s1, own, ls[1..]);
    } else if w.host.vms[own].power == On {
      StopThenDestroy(s1, own, ls[1..]);
    } else {
      DestroyFromOff(s1, own, ls[1..]);
    }
  }

  lemma InspectStep(w: World, own: string, o: Outcome)
    requires o.fault == NoFault
    ensures MainStep(State(w, DestroyTask(own, Idle)), o)
         == State(w, Task(own, Teardown(own, VmState(w.host, own)) + [Sweep(own)], Idle, false))
  {
    assert DestroyVm(own)[1..] == [Sweep(own)];
  }

  lemma StopThenDestroy(s: State, own: string, ls: seq<Label>)
    requires Calm(ls) && |ls| >= 4 && !s.t.failed
    requires s.t.own == own && s.t.todo == [Do(VmPowerOff(own)), Do(VmDestroy(own))] + [Sweep(own)]
    requires own in s.w.host.vms && s.w.host.vms[own].power == On
    ensures Succeeded(Run(s, ls).t)
  {
    var s1 := Step(s, ls[0]);
    assert s.t.todo[1..] == [Do(VmDestroy(own))] + [Sweep(own)];
    assert s1.t.todo == [Do(VmDestroy(own))] + [Sweep(own)];
    CalmTail(ls);
    DestroyFromOff(s1, own, ls[1..]);
  }

  lemma CalmTail(ls: seq<Label>)
    requires Calm(ls) && ls != []
    ensures Calm(ls[1..])
  {
  }

  lemma DestroyFromOff(s: State, own: string, ls: seq<Label>)
    requires Calm(ls) && |ls| >= 3 && !s.t.failed
    requires s.t.own == own && s.t.todo == [Do(VmDestroy(own))] + [Sweep(own)]
    requires own in s.w.host.vms && s.w.host.vms[own].power != On
    ensures Succeeded(Run(s, ls).t)
  {
    var s1 := Step(s, ls[0]);
    assert s.t.todo[1..] == [Sweep(own)];
    assert s1.t.todo == [Sweep(own)];
    CalmTail(ls);
    SweepSucceeds(s1, own, ls[1..]);
  }

  lemma SweepSucceeds(s: State, own: string, ls: seq<Label>)
    requires Calm(ls) && |ls| >= 2 && !s.t.failed && s.t.todo == [Sweep(own)]
    ensures Succeeded(Run(s, ls).t)
  {
    var s1 := Step(s, ls[0]);
    var s2 := Step(s1, ls[1]);
    assert s2.t.todo == [] && !s2.t.failed;
    CalmTail(ls);
    assert ls[1..][1..] == ls[2..];
    CalmTail(ls[1..]);
    StaysDone(s2, ls[2..]);
  }

  lemma {:induction false} StaysDone(s: State, ls: seq<Label>)
    requires Finished(s.t)
    ensures Finished(Run(s, ls).t) && Run(s, ls).t.failed == s.t.failed
    decreases |ls|
  {
    if ls != [] {
      StaysDone(Step(s, ls[0]), ls[1..]);
    }
  }

  /** Idempotence: on a host from which the VM is gone, DestroyVM changes nothing at any
      point of any run. */
  lemma {:induction false} DestroyIdempotent(w: World, own: string, bg: Goroutine, ls: seq<Label>)
    requires Gone(w.host, own)
    ensures Run(State(w, DestroyTask(own, bg)), ls).w == w
  {
    AbsentRun(w, State(w, DestroyTask(own, bg)), own, ls);
  }

  lemma {:induction false} AbsentRun(w: World, s: State, own: string, ls: seq<Label>)
    requires Gone(w.host, own) && s.w == w && s.t.own == own
    requires s.t.todo in {DestroyVm(own), [Sweep(own)], [Do(DatastoreRm(own))], []}
    ensures Run(s, ls).w == w
    decreases |ls|
  {
    if ls != [] {
      if ls[0].Main? && s.t.todo != [] {
        TeardownShapes(s, own, ls[0].o);
        assert RemoveTree(w.host.files, own) == w.host.files;
        assert RemoveFiles(w.host.files, own, ls[0].o.some) == w.host.files;
      }
      AbsentRun(w, Step(s, ls[0]), own, ls[1..]);
    }
  }

  /** Recoverability: wherever a CreateVM stops (a command failing before, half-way through
      or after taking effect, or the process dying) a later successful DestroyVM of its VM,
      even with the power-on goroutine still about, restores every VM and every datastore
      object to what it was, except at most the VM's own environment ISO. */
  lemma Recoverability(w: World, c: Call, ls: seq<Label>, ms: seq<Label>)
    requires c.CreateVM? && Gone(w.host, VmId(c.cid))
    ensures var s := Run(Start(w, c), ls);
            var r := Run(State(s.w, DestroyTask(VmId(c.cid), s.t.bg)), ms);
            Succeeded(r.t) ==>
              && r.w.host.vms == w.host.vms
              && r.w.host.files - {EnvIso(VmId(c.cid))} == w.host.files - {EnvIso(VmId(c.cid))}
  {
    var own := VmId(c.cid);
    var s := Run(Start(w, c), ls);
    var r := Run(State(s.w, DestroyTask(own, s.t.bg)), ms);
    CallFrame(w, c, ls);
    DestroyResult(s.w, own, s.t.bg, ms);
    if Succeeded(r.t) {
      assert r.w.host == Without(s.w.host, own);
      assert r.w.host.vms == w.host.vms;
      assert forall p {:trigger Under(p, own)} :: p != EnvIso(own) && !Under(p, own) ==> Owner(p) != own;
    }
  }

  /** Nothing was added or changed, though things may have been removed. */
  ghost predicate OnlyRemoves(x: map<Path, Content>, y: map<Path, Content>) {
    forall p :: p in y ==> p in x && y[p] == x[p]
  }

  /** DestroyDisk: a failed call leaves everything else alone, a successful one also leaves
      no object of the disk's name. */
  lemma DeleteDiskResult(w: World, cid: string, ls: seq<Label>)
    ensures var s := Run(Start(w, DeleteDisk(cid)), ls);
            && s.w.cell == w.cell
            && RemoveTree(s.w.host.files, DiskFile(cid)) == RemoveTree(w.host.files, DiskFile(cid))
            && OnlyRemoves(w.host.files, s.w.host.files)
            && (Succeeded(s.t) ==> s.w.host.files == RemoveTree(w.host.files, DiskFile(cid)))
  {
    DeleteDiskRun(w, DiskFile(cid), Start(w, DeleteDisk(cid)), ls);
    var s := Run(Start(w, DeleteDisk(cid)), ls);
    if Succeeded(s.t) {
      assert s.w.host.files == RemoveTree(s.w.host.files, DiskFile(cid));
    }
  }

  ghost predicate DeleteDiskInv(w: World, own: string, s: State) {
    && s.t.own == own && s.t.bg == Idle && s.t.todo in {[Sweep(own)], [Do(DatastoreRm(own))], []}
    && s.w.cell == w.cell && OnlyRemoves(w.host.files, s.w.host.files)
    && RemoveTree(s.w.host.files, own) == RemoveTree(w.host.files, own)
    && (Succeeded(s.t) ==> forall p | p in s.w.host.files :: !Under(p, own))
  }

  lemma DeleteDiskStep(w: World, own: string, s: State, l: Label)
    requires DeleteDiskInv(w, own, s)
    ensures DeleteDiskInv(w, own, Step(s, l))
  {
    UnlistedIsUnder(s.w.host, own);
    if l.Main? && s.t.todo != [] {
      TeardownShapes(s, own, l.o);
      RemovesOnly(s.w.host, CommandOf(s.t.todo[0], own).value, l.o, own);
    }
  }

  lemma RemovesOnly(h: Host, c: Cmd, o: Outcome, own: string)
    requires c in {DatastoreLs, DatastoreRm(own)}
    ensures OnlyRemoves(h.files, Exec(h, c, o).0.files)
    ensures RemoveTree(Exec(h, c, o).0.files, own) == RemoveTree(h.files, own)
  {
  }

  lemma {:induction false} DeleteDiskRun(w: World, own: string, s: State, ls: seq<Label>)
    requires DeleteDiskInv(w, own, s)
    ensures DeleteDiskInv(w, own, Run(s, ls))
    decreases |ls|
  {
    if ls != [] {
      DeleteDiskStep(w, own, s, ls[0]);
      DeleteDiskRun(w, own, Step(s, ls[0]), ls[1..]);
    }
  }
}
