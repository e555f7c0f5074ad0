/** The command sequences that the calls issue, whatever the replies. */
module Legal {
  import opened Names
  import opened Lookup
  import opened Host
  import opened Machine
  import opened Traces
  import opened IsoSwap
  import opened Destroy
  import opened Disks

  function CmdsOf(tr: seq<Event>): seq<Cmd> { seq(|tr|, i requires 0 <= i < |tr| => tr[i].cmd) }

  lemma CmdsFirst(es: seq<Event>, later: seq<Event>)
    ensures CmdsOf(es + later) == CmdsOf(es) + CmdsOf(later)
  {
  }

  // ---------- DestroyVM and DestroyDisk ----------

  function StopCmds(own: string, st: string): seq<Cmd> {
    (if st == STATE_POWER_ON then [VmPowerOff(own)] else []) + (if st != STATE_NOT_FOUND then [VmDestroy(own)] else [])
  }

  /** All that DestroyVM may issue on a VM that it finds in state `st`. */
  function DestroyCmds(own: string, st: string): seq<Cmd> {
    [VmInfo(own)] + StopCmds(own, st) + [DatastoreLs, DatastoreRm(own)]
  }

  /** The same from some way through. */
  function DestroyRest(own: string, todo: seq<Action>): seq<Cmd> {
    if todo == [Do(VmPowerOff(own)), Do(VmDestroy(own)), Sweep(own)] then
      [VmPowerOff(own), VmDestroy(own), DatastoreLs, DatastoreRm(own)]
    else if todo == [Do(VmDestroy(own)), Sweep(own)] then [VmDestroy(own), DatastoreLs, DatastoreRm(own)]
    else if todo == [Sweep(own)] then [DatastoreLs, DatastoreRm(own)]
    else if todo == [Do(DatastoreRm(own))] then [DatastoreRm(own)]
    else []
  }

  /** A removal was issued only for what the listing just before it showed. */
  ghost predicate RemovesListed(tr: seq<Event>, own: string) {
    forall i :: 0 < i < |tr| && tr[i].cmd == DatastoreRm(own) ==>
      tr[i - 1].cmd == DatastoreLs && own in Listing(tr[i - 1].host)
  }

  lemma {:induction false} DestroyRestRun(s: State, own: string, ls: seq<Label>)
    requires s.t.own == own
    requires s.t.todo in {[Do(VmPowerOff(own)), Do(VmDestroy(own)), Sweep(own)],
                          [Do(VmDestroy(own)), Sweep(own)], [Sweep(own)], [Do(DatastoreRm(own))], []}
    ensures CmdsOf(Trace(s, ls)) <= DestroyRest(own, s.t.todo)
    ensures RemovesListed(Trace(s, ls), own)
    decreases |ls|
  {
    if ls != [] {
      var r := Step(s, ls[0]);
      if ls[0].Main? && s.t.todo != [] {
        TeardownShapes(s, own, ls[0].o);
        DestroyRestRun(r, own, ls[1..]);
        var e, later := Events(s, ls[0])[0], Trace(r, ls[1..]);
        CmdsFirst([e], later);
        DestroyListed(s, own, ls[0].o, later);
      } else {
        assert Trace(s, ls) == Trace(r, ls[1..]);
        DestroyRestRun(r, own, ls[1..]);
      }
    }
  }

  lemma DestroyListed(s: State, own: string, o: Outcome, later: seq<Event>)
    requires s.t.own == own
    requires s.t.todo in {[Do(VmPowerOff(own)), Do(VmDestroy(own)), Sweep(own)],
                          [Do(VmDestroy(own)), Sweep(own)], [Sweep(own)], [Do(DatastoreRm(own))]}
    requires CmdsOf(later) <= DestroyRest(own, MainStep(s, o).t.todo) && RemovesListed(later, own)
    ensures CmdsOf(Events(s, Main(o)) + later) <= DestroyRest(own, s.t.todo)
    ensures RemovesListed(Events(s, Main(o)) + later, own)
  {
    var e := Events(s, Main(o))[0];
    TeardownShapes(s, own, o);
    CmdsFirst([e], later);
    assert later != [] ==> CmdsOf(later)[0] == later[0].cmd;
    assert CmdsOf([e]) == [e.cmd];
    assert s.t.todo == [Sweep(own)] && MainStep(s, o).t.todo != [] ==> own in Listing(s.w.host);
  }

  /** DestroyVM issues a prefix of the one sequence that fits the state it found, and removes
      nothing that is not listed. */
  lemma {:induction false} DestroyFollows(s: State, own: string, ls: seq<Label>)
    requires s.t == DestroyTask(own, s.t.bg)
    ensures var tr := Trace(s, ls);
            && RemovesListed(tr, own)
            && (tr != [] ==> CmdsOf(tr) <= DestroyCmds(own, VmState(tr[0].host, own)))
    decreases |ls|
  {
    if ls != [] {
      var r := Step(s, ls[0]);
      var later := Trace(r, ls[1..]);
      if ls[0].Main? {
        InspectShape(s, own, ls[0].o);
        DestroyRestRun(r, own, ls[1..]);
        InspectFirst(Events(s, ls[0])[0], later, own, r.t.todo);
      } else {
        assert Trace(s, ls) == later;
        DestroyFollows(r, own, ls[1..]);
      }
    }
  }

  lemma InspectFirst(e: Event, later: seq<Event>, own: string, todo: seq<Action>)
    requires e.cmd == VmInfo(own) && RemovesListed(later, own) && CmdsOf(later) <= DestroyRest(own, todo)
    requires todo in {[Do(VmPowerOff(own)), Do(VmDestroy(own)), Sweep(own)],
                      [Do(VmDestroy(own)), Sweep(own)], [Sweep(own)], []}
    requires todo == [] || [VmInfo(own)] + DestroyRest(own, todo) == DestroyCmds(own, VmState(e.host, own))
    ensures RemovesListed([e] + later, own)
    ensures CmdsOf([e] + later) <= DestroyCmds(own, VmState(e.host, own))
  {
    CmdsFirst([e], later);
    assert CmdsOf([e]) == [VmInfo(own)];
    assert later != [] ==> CmdsOf(later)[0] == later[0].cmd && DestroyRest(own, todo)[0] == later[0].cmd;
  }

  /** DestroyDisk issues a prefix of list and remove, and removes only what is listed. */
  lemma DeleteDiskFollows(w: World, cid: string, ls: seq<Label>)
    ensures var tr := Trace(Start(w, DeleteDisk(cid)), ls);
            && CmdsOf(tr) <= [DatastoreLs, DatastoreRm(DiskFile(cid))]
            && RemovesListed(tr, DiskFile(cid))
  {
    DestroyRestRun(Start(w, DeleteDisk(cid)), DiskFile(cid), ls);
  }

  lemma InspectShape(s: State, own: string, o: Outcome)
    requires s.t == DestroyTask(own, s.t.bg)
    ensures var r := MainStep(s, o).t.todo;
            r == [] || r == Teardown(own, VmState(s.w.host, own)) + [Sweep(own)]
    ensures var r := MainStep(s, o).t;
            && r.own == own
            && r.todo in {[Do(VmPowerOff(own)), Do(VmDestroy(own)), Sweep(own)],
                          [Do(VmDestroy(own)), Sweep(own)], [Sweep(own)], []}
            && (r.todo == [] || [VmInfo(own)] + DestroyRest(own, r.todo) == DestroyCmds(own, VmState(s.w.host, own)))
  {
    assert DestroyVm(own)[1..] == [Sweep(own)];
    TeardownShapes(s, own, o);
  }

  // ---------- AttachDisk and DetachDisk ----------

  function IsoCmds(vm: string, env: Env): seq<Cmd> {
    [CdromDisconnect(vm), CdromEject(vm), DatastoreUpload(vm, env), CdromInsert(vm, EnvIso(vm)), CdromConnect(vm)]
  }

  /** The commands of one step of a disk call that starts on `w`. */
  function StepCmds(a: Action, w: World): seq<Cmd> {
    match a
    case Do(cmd) => [cmd]
    case FindLink(vm, diskId) => [DeviceInfo(vm), DeviceRemove(vm, FindDevice(DevicesOf(w.host, vm), diskId))]
    case EditEnv(vm, edit) => if w.cell.Some? then IsoCmds(vm, Revise(w.cell.value, edit)) else []
    case _ => []
  }

  function Plan(todo: seq<Action>, w: World): seq<Cmd> {
    if todo == [] then [] else StepCmds(todo[0], w) + Plan(todo[1..], w)
  }

  lemma {:induction false} PlanConcat(x: seq<Action>, y: seq<Action>, w: World)
    ensures Plan(x + y, w) == Plan(x, w) + Plan(y, w)
  {
    if x == [] {
      assert x + y == y;
    } else {
      assert (x + y)[0] == x[0] && (x + y)[1..] == x[1..] + y;
      PlanConcat(x[1..], y, w);
      assert StepCmds(x[0], w) + (Plan(x[1..], w) + Plan(y, w)) == StepCmds(x[0], w) + Plan(x[1..], w) + Plan(y, w);
    }
  }

  lemma PublishPlan(vm: string, env: Env, w: World)
    ensures Plan(PublishEnv(vm, env), w) == IsoCmds(vm, env)
  {
    var p := PublishEnv(vm, env);
    assert p[1..] == UpdateIso(vm, env);
    assert Plan(p[5..], w) == [CdromConnect(vm)] by { assert p[5..][1..] == []; }
    assert Plan(p[4..], w) == [CdromInsert(vm, EnvIso(vm)), CdromConnect(vm)] by { assert p[4..][1..] == p[5..]; }
    assert p[3..][1..] == p[4..] && p[2..][1..] == p[3..] && p[1..][1..] == p[2..];
    assert Plan(p[3..], w) == [DatastoreUpload(vm, env)] + Plan(p[4..], w);
    assert Plan(p[2..], w) == [CdromEject(vm)] + Plan(p[3..], w);
    assert Plan(p[1..], w) == [CdromDisconnect(vm)] + Plan(p[2..], w);
  }

  /** The head of the program looks at what the call started on. */
  predicate HeadSees(w: World, s: State) {
    s.t.todo != [] &&
    var a := s.t.todo[0];
    && (a.Do? || a.FindLink? || a.EditEnv? || a.WriteEnv?)
    && (a.FindLink? ==> a.vm == s.t.own && DevicesOf(s.w.host, a.vm) == DevicesOf(w.host, a.vm))
    && (a.EditEnv? ==> s.w.cell == w.cell)
  }

  lemma HeadCmds(w: World, s: State, o: Outcome)
    requires HeadSees(w, s) && !s.t.failed
    ensures var a, issued := s.t.todo[0], CmdsOf(Events(s, Main(o)));
            && issued <= StepCmds(a, w)
            && (!MainStep(s, o).t.failed ==> StepCmds(a, w) == issued + Plan(Expand(a, s.w, s.t.own), w))
  {
    var a := s.t.todo[0];
    var e := Expand(a, s.w, s.t.own);
    if a.EditEnv? {
      if w.cell.Some? {
        PublishPlan(a.vm, Revise(w.cell.value, a.edit), w);
      }
    } else if a.FindLink? {
      if e != [] {
        assert e[1..] == [];
        assert Plan(e, w) == [e[0].cmd];
      }
    }
  }

  /** What a disk call issues in one step comes off the front of its plan. */
  lemma PlanStep(w: World, s: State, o: Outcome)
    requires HeadSees(w, s) && !s.t.failed
    ensures var r := MainStep(s, o);
            && CmdsOf(Events(s, Main(o))) <= Plan(s.t.todo, w)
            && (!r.t.failed ==> Plan(s.t.todo, w) == CmdsOf(Events(s, Main(o))) + Plan(r.t.todo, w))
  {
    var a, rest, issued := s.t.todo[0], s.t.todo[1..], CmdsOf(Events(s, Main(o)));
    HeadCmds(w, s, o);
    assert issued <= StepCmds(a, w) + Plan(rest, w);
    if !MainStep(s, o).t.failed {
      assert MainStep(s, o).t.todo == Expand(a, s.w, s.t.own) + rest;
      PlanConcat(Expand(a, s.w, s.t.own), rest, w);
      Reassociate(issued, Plan(Expand(a, s.w, s.t.own), w), Plan(rest, w));
    }
  }

  lemma Reassociate(x: seq<Cmd>, y: seq<Cmd>, z: seq<Cmd>)
    ensures x + y + z == x + (y + z)
  {
  }

  lemma DiskHead(w: World, c: Call, s: State)
    requires DiskCall(c) && DiskInv(w, c, s) && s.t.todo != [] && !s.t.failed
    ensures HeadSees(w, s)
  {
    if w.cell.Some? && Publishing(s, s.t.own, Revise(w.cell.value, EditOf(c))) {
      PublishActions(s.t.own, Revise(w.cell.value, EditOf(c)), 6 - |s.t.todo|);
    }
  }

  /** Attach and detach issue a prefix of one sequence, fixed by what they start on, and the
      whole of it when they succeed: the host is changed first, then the ISO is replaced by
      the edited environment. */
  lemma DiskCallFollows(w: World, c: Call, ls: seq<Label>)
    requires DiskCall(c)
    ensures CmdsOf(Trace(Start(w, c), ls)) <= Plan(Program(c), w)
    ensures Succeeded(Run(Start(w, c), ls).t) ==> CmdsOf(Trace(Start(w, c), ls)) == Plan(Program(c), w)
  {
    DiskFollows(w, c, Start(w, c), ls);
  }

  lemma {:induction false} DiskFollows(w: World, c: Call, s: State, ls: seq<Label>)
    requires DiskCall(c) && DiskInv(w, c, s)
    ensures CmdsOf(Trace(s, ls)) <= Plan(s.t.todo, w)
    ensures Succeeded(Run(s, ls).t) && !s.t.failed ==> CmdsOf(Trace(s, ls)) == Plan(s.t.todo, w)
    decreases |ls|
  {
    if ls != [] {
      var r := Step(s, ls[0]);
      DiskStep(w, c, s, ls[0]);
      DiskFollows(w, c, r, ls[1..]);
      CmdsFirst(Events(s, ls[0]), Trace(r, ls[1..]));
      if ls[0].Main? && s.t.todo != [] && !s.t.failed {
        DiskHead(w, c, s);
        PlanStep(w, s, ls[0].o);
        if r.t.failed { NothingMore(r, ls[1..]); }
      } else {
        assert Events(s, ls[0]) == [] && [] + CmdsOf(Trace(r, ls[1..])) == CmdsOf(Trace(r, ls[1..]));
      }
    }
  }
}
