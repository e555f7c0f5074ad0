/** What a CreateVM or a DeleteVM that stops or fails may leave of its VM. */
module Failures {
  import opened Names
  import opened Lookup
  import opened Host
  import opened Machine
  import opened Destroy
  import opened Create
  import opened Needs

  // ---------- DeleteVM ----------

  /** Nothing of `own` came in: files were removed at most, and what is left of the VM has the
      devices it had and is on only if it was. */
  ghost predicate Shrunk(h: Host, k: Host, own: string) {
    && OnlyRemoves(h.files, k.files)
    && (own in k.vms ==>
          && own in h.vms && k.vms[own].devices == h.vms[own].devices
          && (k.vms[own].power != Off ==> h.vms[own].power != Off))
  }

  predicate Destroying(t: Task) {
    t.bg == Idle &&
    t.todo in {DestroyVm(t.own), [Do(VmPowerOff(t.own)), Do(VmDestroy(t.own)), Sweep(t.own)],
               [Do(VmDestroy(t.own)), Sweep(t.own)], [Sweep(t.own)], [Do(DatastoreRm(t.own))], []}
  }

  lemma ExecShrinks(h: Host, c: Cmd, o: Outcome, own: string)
    requires c in {VmInfo(own), DatastoreLs, VmPowerOff(own), VmDestroy(own), DatastoreRm(own)}
    ensures Shrunk(h, Exec(h, c, o).0, own)
  {
  }

  lemma DestroyingStep(s: State, l: Label)
    requires Destroying(s.t)
    ensures Destroying(Step(s, l).t) && Step(s, l).t.own == s.t.own
    ensures Shrunk(s.w.host, Step(s, l).w.host, s.t.own)
  {
    if l.Main? && s.t.todo != [] {
      TeardownShapes(s, s.t.own, l.o);
      ExecShrinks(s.w.host, CommandOf(s.t.todo[0], s.t.own).value, l.o, s.t.own);
    }
  }

  /** A DestroyVM only takes away, wherever it stops. */
  lemma {:induction false} DestroyingRun(s: State, ls: seq<Label>)
    requires Destroying(s.t)
    ensures Shrunk(s.w.host, Run(s, ls).w.host, s.t.own)
    decreases |ls|
  {
    if ls != [] {
      DestroyingStep(s, ls[0]);
      DestroyingRun(Step(s, ls[0]), ls[1..]);
    }
  }

  // ---------- CreateVM, on an id that is taken ----------

  /** The VM is there or not as before, with the same devices, and on or not as before. */
  ghost predicate SameVm(h: Host, k: Host, own: string) {
    && h.ds == k.ds && (own in h.vms <==> own in k.vms)
    && (own in h.vms ==>
          && h.vms[own].devices == k.vms[own].devices
          && (h.vms[own].power == Off <==> k.vms[own].power == Off))
    && (own !in h.vms ==> k.files == h.files)
  }

  ghost predicate TakenInv(c: Call, h0: Host, s: State)
    requires c.CreateVM?
  {
    && s.t.own == VmId(c.cid) && s.t.bg == Idle && SameVm(h0, s.w.host, VmId(c.cid))
    && (|| (!s.t.failed && s.t.todo == Program(c) && s.w.host.files == h0.files)
        || (!s.t.failed && s.t.todo == Program(c)[1..] && VmId(c.cid) in h0.vms)
        || (s.t.failed && s.t.todo == []))
  }

  lemma TakenStep(c: Call, h0: Host, s: State, l: Label)
    requires c.CreateVM? && !Gone(h0, VmId(c.cid)) && TakenInv(c, h0, s)
    ensures TakenInv(c, h0, Step(s, l))
  {
    ProgramAt(c, Length(c));
    ProgramAt(c, Length(c) - 1);
    if l.Main? && !s.t.failed {
      if s.t.todo == Program(c) {
        assert s.t.todo == Program(c)[Length(c) - Length(c)..];
        Advance(s, l.o, Program(c), Length(c));
      } else {
        Advance(s, l.o, Program(c), Length(c) - 1);
      }
    }
  }

  /** A CreateVM on an id that is taken, by a VM or by files, leaves the VM as it is. */
  lemma {:induction false} TakenRun(c: Call, h0: Host, s: State, ls: seq<Label>)
    requires c.CreateVM? && !Gone(h0, VmId(c.cid)) && TakenInv(c, h0, s)
    ensures SameVm(h0, Run(s, ls).w.host, VmId(c.cid))
    decreases |ls|
  {
    if ls != [] {
      TakenStep(c, h0, s, ls[0]);
      TakenRun(c, h0, Step(s, ls[0]), ls[1..]);
    }
  }

  // ---------- CreateVM, on a fresh id ----------

  /** The action links no disk and powers nothing on. */
  predicate PlainAction(a: Action) {
    && !a.Inspect? && !a.Sweep? && !a.FindLink? && !a.EditEnv?
    && (a.Do? ==> !a.cmd.VmDiskAttach? && !a.cmd.VmPowerOn?)
  }

  predicate PlainAll(todo: seq<Action>) { forall i :: 0 <= i < |todo| ==> PlainAction(todo[i]) }

  /** The VM, if it is there, has nothing linked to it; it is not off only once the goroutine
      was started, and then the stemcell was usable. */
  ghost predicate FreshInv(c: Call, h0: Host, s: State)
    requires c.CreateVM?
  {
    && GatheredInv(c, h0, s) && PlainAll(s.t.todo) && OwnTask(s.t)
    && BareVm(s.w.host, VmId(c.cid), s.t.bg)
    && (s.t.bg != Idle ==> StemcellReady(h0, StemcellId(c.stemcell)))
  }

  predicate BareVm(h: Host, own: string, bg: Goroutine) {
    own in h.vms ==>
      && (forall d :: d in h.vms[own].devices ==> d.parent == "")
      && (h.vms[own].power != Off ==> bg != Idle)
  }

  lemma BareAct(a: Action, w: World, own: string, bg: Goroutine, o: Outcome)
    requires PlainAction(a) && OwnAction(a, own) && BareVm(w.host, own, bg)
    ensures BareVm(Act(a, w, own, o).0.host, own, bg)
  {
    if a.Do? {
      BareExec(w.host, a.cmd, o, own, bg);
    }
  }

  lemma BareExec(h: Host, c: Cmd, o: Outcome, own: string, bg: Goroutine)
    requires !c.VmDiskAttach? && !c.VmPowerOn? && Target(c) == own && BareVm(h, own, bg)
    ensures BareVm(Exec(h, c, o).0, own, bg)
  {
    if Accepts(h, c, o) {
      if o.fault in {NoFault, After} {
        BareEffect(h, c, o, own, bg);
      } else if o.fault == Halfway {
        BareHalf(h, c, o, own, bg);
      }
    }
  }

  lemma BareHalf(h: Host, c: Cmd, o: Outcome, own: string, bg: Goroutine)
    requires Accepts(h, c, o) && Target(c) == own && BareVm(h, own, bg)
    ensures BareVm(HalfEffect(h, c, o), own, bg)
  {
  }

  lemma BareEffect(h: Host, c: Cmd, o: Outcome, own: string, bg: Goroutine)
    requires Accepts(h, c, o) && !c.VmDiskAttach? && !c.VmPowerOn? && Target(c) == own && BareVm(h, own, bg)
    ensures BareVm(Effect(h, c, o), own, bg)
  {
    match c
    case ImportOvf(_) =>
    case VmRegister(_, _) =>
    case VmDiskCreate(_, _, _) =>
    case DatastoreCp(_, _) =>
    case DatastoreUpload(_, _) =>
    case VmDestroy(_) =>
    case DeviceRemove(_, device) => FewerParents(h.vms[own].devices, device);
    case _ =>
  }

  lemma {:induction false} FewerParents(devices: seq<Device>, name: string)
    ensures forall d :: d in WithoutDevice(devices, name) ==> d in devices
  {
    if devices != [] {
      FewerParents(devices[1..], name);
    }
  }

  lemma FreshStep(c: Call, h0: Host, s: State, l: Label)
    requires c.CreateVM? && FreshInv(c, h0, s)
    ensures FreshInv(c, h0, Step(s, l))
  {
    GatherStep(c, h0, s, l);
    StepFrame(s, l);
    match l
    case Main(o) => if s.t.todo != [] { FreshMain(c, h0, s, o); }
    case Background(_) =>
    case Ticking =>
  }

  lemma FreshMain(c: Call, h0: Host, s: State, o: Outcome)
    requires c.CreateVM? && FreshInv(c, h0, s) && s.t.todo != []
    ensures var r := MainStep(s, o);
            && PlainAll(r.t.todo) && BareVm(r.w.host, VmId(c.cid), r.t.bg)
            && (r.t.bg != Idle ==> StemcellReady(h0, StemcellId(c.stemcell)))
  {
    var a := s.t.todo[0];
    assert PlainAction(a) && OwnAction(a, s.t.own);
    BareAct(a, s.w, s.t.own, s.t.bg, o);
    if a.Fork? {
      ProgramAt(c, |s.t.todo|);
      StepAtExpands(c, |s.t.todo|, s.w);
    }
  }

  lemma {:induction false} FreshRun(c: Call, h0: Host, s: State, ls: seq<Label>)
    requires c.CreateVM? && FreshInv(c, h0, s)
    ensures FreshInv(c, h0, Run(s, ls))
    decreases |ls|
  {
    if ls != [] {
      FreshStep(c, h0, s, ls[0]);
      FreshRun(c, h0, Step(s, ls[0]), ls[1..]);
    }
  }

  lemma FreshStarts(w: World, c: Call)
    requires c.CreateVM? && Gone(w.host, VmId(c.cid))
    ensures FreshInv(c, w.host, Start(w, c))
  {
    CreateStarts(w, c);
    ProgramAt(c, 1);
    ProgramOwn(c);
    ProgramStraight(c);
    forall i | 0 <= i < |Program(c)| ensures PlainAction(Program(c)[i]) {
      ProgramAt(c, Length(c) - i);
    }
  }

  /** However a CreateVM on a fresh id ends, nothing is linked to what is there of the VM, and
      it is not off only if the stemcell was usable. */
  lemma FreshResult(w: World, c: Call, ls: seq<Label>)
    requires c.CreateVM? && Gone(w.host, VmId(c.cid))
    ensures var h := Run(Start(w, c), ls).w.host;
            VmId(c.cid) in h.vms ==>
              && (forall d :: d in h.vms[VmId(c.cid)].devices ==> d.parent == "")
              && (h.vms[VmId(c.cid)].power != Off ==> StemcellReady(w.host, StemcellId(c.stemcell)))
  {
    FreshStarts(w, c);
    FreshRun(c, w.host, Start(w, c), ls);
  }
}
