/** Attach and detach that are left alone succeed; what becomes of agreement after a
    CreateVM, and after an attach that is retried. */
module Retry {
  import opened Names
  import opened Lookup
  import opened Host
  import opened Machine
  import opened Traces
  import opened IsoSwap
  import opened Destroy
  import opened Create
  import opened Disks
  import opened Agreement

  /** Only the call itself moves, nothing fails, and the local files hold. */
  predicate Smooth(ls: seq<Label>) {
    forall i :: 0 <= i < |ls| ==> ls[i].Main? && ls[i].o.fault == NoFault && ls[i].o.write == Written && ls[i].o.intact
  }

  lemma {:induction false} PublishSucceeds(s: State, vm: string, env: Env, ls: seq<Label>)
    requires Publishing(s, vm, env) && !s.t.failed && vm in s.w.host.vms
    requires Smooth(ls) && |ls| >= |s.t.todo|
    ensures Succeeded(Run(s, ls).t)
    decreases |ls|
  {
    if s.t.todo == [] {
      StaysDone(s, ls);
    } else {
      PublishAccepted(s, vm, env, ls[0].o);
      PublishMoves(s, vm, env, ls[0].o);
      PublishMain(s, vm, env, ls[0].o);
      PublishSucceeds(Step(s, ls[0]), vm, env, ls[1..]);
    }
  }

  lemma PublishAccepted(s: State, vm: string, env: Env, o: Outcome)
    requires Publishing(s, vm, env) && s.t.todo != [] && vm in s.w.host.vms && o.fault == NoFault
    ensures var (w, ok) := Act(PublishEnv(vm, env)[6 - |s.t.todo|], s.w, vm, o);
            ok && vm in w.host.vms
  {
    var k := |s.t.todo|;
    if k == 6 {
      assert PublishEnv(vm, env)[0] == WriteEnv(env);
    } else {
      IsoAccepted(s.w.host, vm, env, k, o);
      assert PublishEnv(vm, env)[6 - k] == Do(IsoCmd(vm, env, k));
    }
  }

  /** The command of UpdateVMIso with `k` steps to go. */
  function IsoCmd(vm: string, env: Env, k: nat): Cmd
    requires 1 <= k <= 5
  {
    if k == 5 then CdromDisconnect(vm) else if k == 4 then CdromEject(vm) else if k == 3 then DatastoreUpload(vm, env)
    else if k == 2 then CdromInsert(vm, EnvIso(vm)) else CdromConnect(vm)
  }

  lemma IsoAccepted(h: Host, vm: string, env: Env, k: nat, o: Outcome)
    requires 1 <= k <= 5 && PublishStage(h, vm, env, k) && vm in h.vms && o.fault == NoFault
    ensures Exec(h, IsoCmd(vm, env, k), o).1 && vm in Exec(h, IsoCmd(vm, env, k), o).0.vms
  {
    assert k == 2 ==> EnvIso(vm) in h.files;
  }

  /** What the host asks of a disk call when its first command comes in. */
  predicate DiskReady(w: World, c: Call, o: Outcome)
    requires DiskCall(c)
  {
    var vm := VmId(c.cid);
    && vm in w.host.vms && w.cell.Some?
    && if c.AttachDisk? then Root(DiskFile(c.disk)) in w.host.files && FreshDevice(w.host.vms[vm], o.device)
       else HasDevice(w.host.vms[vm], FindDevice(w.host.vms[vm].devices, DiskId(c.disk)))
  }

  /** Progress: a disk call that is left alone succeeds, writes the environment file, and
      uploads a whole ISO. */
  lemma DiskCallSucceeds(w: World, c: Call, ls: seq<Label>)
    requires DiskCall(c) && |ls| >= 9 && Smooth(ls) && DiskReady(w, c, ls[0].o)
    ensures Succeeded(Run(Start(w, c), ls).t) && Wrote(w, c, ls) && Burned(Start(w, c), ls)
  {
    DiskSucceeds(w, c, ls);
    DiskUploads(w, c, ls);
    NothingBroken(Start(w, c), ls);
    assert Program(c)[1] == EditEnv(VmId(c.cid), EditOf(c));
    WriteHappens(Start(w, c), ls);
  }

  lemma DiskSucceeds(w: World, c: Call, ls: seq<Label>)
    requires DiskCall(c) && |ls| >= 9 && Smooth(ls) && DiskReady(w, c, ls[0].o)
    ensures Succeeded(Run(Start(w, c), ls).t)
  {
    if c.AttachDisk? {
      AttachBegins(w, c, ls[0].o);
      EditSucceeds(Step(Start(w, c), ls[0]), c, ls[1..]);
    } else {
      DetachSucceeds(w, c, ls);
    }
  }

  lemma DetachSucceeds(w: World, c: Call, ls: seq<Label>)
    requires c.DetachDisk? && |ls| >= 9 && Smooth(ls) && DiskReady(w, c, ls[0].o)
    ensures Succeeded(Run(Start(w, c), ls).t)
  {
    DetachBegins(w, c, ls[0].o, ls[1].o);
    EditSucceeds(MainStep(MainStep(Start(w, c), ls[0].o), ls[1].o), c, ls[2..]);
    RunTwoThen(Start(w, c), ls);
  }

  lemma RunTwoThen(s: State, ls: seq<Label>)
    requires |ls| >= 2 && ls[0].Main? && ls[1].Main?
    ensures Run(s, ls) == Run(MainStep(MainStep(s, ls[0].o), ls[1].o), ls[2..])
  {
    var s1 := Step(s, ls[0]);
    assert ls[1..][1..] == ls[2..];
    assert Run(s, ls) == Run(s1, ls[1..]);
    assert Run(s1, ls[1..]) == Run(Step(s1, ls[1]), ls[2..]);
  }

  lemma AttachBegins(w: World, c: Call, o: Outcome)
    requires c.AttachDisk? && o.fault == NoFault && DiskReady(w, c, o)
    ensures var s := MainStep(Start(w, c), o);
            && s.t == Task(VmId(c.cid), [EditEnv(VmId(c.cid), EditOf(c))], Idle, false)
            && VmId(c.cid) in s.w.host.vms && s.w.cell == w.cell
  {
    assert [] + Program(c)[1..] == [EditEnv(VmId(c.cid), EditOf(c))];
  }

  lemma DetachBegins(w: World, c: Call, o: Outcome, p: Outcome)
    requires c.DetachDisk? && o.fault == NoFault && p.fault == NoFault && DiskReady(w, c, o)
    ensures var s := MainStep(MainStep(Start(w, c), o), p);
            && s.t == Task(VmId(c.cid), [EditEnv(VmId(c.cid), EditOf(c))], Idle, false)
            && VmId(c.cid) in s.w.host.vms && s.w.cell == w.cell
  {
    DeviceFound(w, c, o);
    RemoveLeft(w, c);
    var s := MainStep(Start(w, c), o);
    assert [] + s.t.todo[1..] == [EditEnv(VmId(c.cid), EditOf(c))];
  }

  /** What is left of a detach once it has looked the device up. */
  function Removal(w: World, c: Call): seq<Action>
    requires c.DetachDisk? && VmId(c.cid) in w.host.vms
  {
    var name := FindDevice(w.host.vms[VmId(c.cid)].devices, DiskId(c.disk));
    [Do(DeviceRemove(VmId(c.cid), name)), EditEnv(VmId(c.cid), EditOf(c))]
  }

  lemma RemoveLeft(w: World, c: Call)
    requires c.DetachDisk? && VmId(c.cid) in w.host.vms
    ensures Removal(w, c)[1..] == [EditEnv(VmId(c.cid), EditOf(c))]
  {
  }

  lemma DeviceFound(w: World, c: Call, o: Outcome)
    requires c.DetachDisk? && VmId(c.cid) in w.host.vms && o.fault == NoFault
    ensures MainStep(Start(w, c), o) == State(w, Task(VmId(c.cid), Removal(w, c), Idle, false))
  {
    assert [Removal(w, c)[0]] + Program(c)[1..] == Removal(w, c);
  }

  lemma EditSucceeds(s: State, c: Call, ls: seq<Label>)
    requires DiskCall(c) && s.t.own == VmId(c.cid) && s.t.todo == [EditEnv(VmId(c.cid), EditOf(c))] && !s.t.failed
    requires VmId(c.cid) in s.w.host.vms && s.w.cell.Some? && Smooth(ls) && |ls| >= 7
    ensures Succeeded(Run(s, ls).t)
  {
    var env := Revise(s.w.cell.value, EditOf(c));
    assert PublishEnv(s.t.own, env) + [] == PublishEnv(s.t.own, env) == PublishEnv(s.t.own, env)[0..];
    PublishSucceeds(Step(s, ls[0]), s.t.own, env, ls[1..]);
  }

  // ---------- When attach and detach can succeed ----------

  /** A smooth run whose new device gets a name of its own. */
  lemma ASmoothRun(name: string) returns (ls: seq<Label>)
    ensures Smooth(ls) && |ls| == 9 && ls[0].o.device == name
  {
    var fine := Outcome(NoFault, {}, name, Cdrom(false, None), Written, true);
    ls := seq(9, i => Main(fine));
  }

  lemma FreshName(devices: seq<Device>) returns (name: string)
    ensures name != "" && forall d :: d in devices ==> |d.name| < |name|
  {
    name := "x";
    if devices != [] {
      var rest := FreshName(devices[1..]);
      name := rest + devices[0].name;
      assert forall d :: d in devices ==> d == devices[0] || d in devices[1..];
    }
  }

  /** A detach can succeed exactly when the disk is linked and the environment file readable. */
  lemma DetachCanSucceed(w: World, cid: string, disk: string, n: nat)
    requires GeneratedId(disk, n) && TidyWorld(w, VmId(cid), n)
    ensures Links(w.host, VmId(cid), disk) > 0 && w.cell.Some? <==> exists ls :: Succeeds(w, DetachDisk(cid, disk), ls)
  {
    var c := DetachDisk(cid, disk);
    if Links(w.host, VmId(cid), disk) > 0 && w.cell.Some? {
      var ls := ASmoothRun("");
      DetachReady(w, cid, disk, ls[0].o, n);
      DiskCallSucceeds(w, c, ls);
      assert Succeeds(w, c, ls);
    }
    forall ls | Succeeds(w, c, ls) ensures Links(w.host, VmId(cid), disk) > 0 && w.cell.Some? {
      DiskUploads(w, c, ls);
      if Links(w.host, VmId(cid), disk) == 0 {
        DetachNeedsLink(w, c, ls, n);
      }
    }
  }

  /** An attach can succeed exactly when VM and disk exist and the environment file is readable. */
  lemma AttachCanSucceed(w: World, cid: string, disk: string)
    ensures (VmId(cid) in w.host.vms && Root(DiskFile(disk)) in w.host.files && w.cell.Some?) <==>
              exists ls :: Succeeds(w, AttachDisk(cid, disk), ls)
  {
    var c := AttachDisk(cid, disk);
    if VmId(cid) in w.host.vms && Root(DiskFile(disk)) in w.host.files && w.cell.Some? {
      var name := FreshName(w.host.vms[VmId(cid)].devices);
      var ls := ASmoothRun(name);
      DiskCallSucceeds(w, c, ls);
      assert Succeeds(w, c, ls);
    }
    forall ls | Succeeds(w, c, ls)
      ensures VmId(cid) in w.host.vms && Root(DiskFile(disk)) in w.host.files && w.cell.Some?
    {
      DiskUploads(w, c, ls);
      AttachNeedsFile(w, c, ls);
      DiskRun(w, c, Start(w, c), ls);
    }
  }

  // ---------- An environment file that cannot be read ----------

  /** Once the environment file cannot be read, no attach or detach succeeds on any VM, and
      the file stays as it is. */
  lemma {:induction false} SpoiledForGood(w: World, ops: seq<Op>)
    requires w.cell == None && forall i :: 0 <= i < |ops| ==> DiskCall(ops[i].call)
    ensures NoneSucceeds(w, ops) && RunOps(w, ops).cell == None
    decreases |ops|
  {
    if ops != [] {
      var op := ops[0];
      DiskFiles(w, op.call, op.ls);
      if Succeeds(w, op.call, op.ls) {
        DiskUploads(w, op.call, op.ls);
      }
      SpoiledForGood(AfterOp(w, op), ops[1..]);
    }
  }

  // ---------- A detach that failed after its device was gone ----------

  /** Every one of the calls fails. */
  predicate NoneSucceeds(w: World, ops: seq<Op>)
    decreases |ops|
  {
    ops != [] ==> !Succeeds(w, ops[0].call, ops[0].ls) && NoneSucceeds(AfterOp(w, ops[0]), ops[1..])
  }

  lemma {:induction false} RetriesFail(w: World, cid: string, disk: string, ops: seq<Op>, n: nat)
    requires GeneratedId(disk, n) && TidyWorld(w, VmId(cid), n) && Links(w.host, VmId(cid), disk) == 0
    requires forall i :: 0 <= i < |ops| ==> ops[i].call == DetachDisk(cid, disk)
    ensures NoneSucceeds(w, ops) && RunOps(w, ops).cell == w.cell
    ensures !Attached(RunOps(w, ops).host, VmId(cid), disk)
    decreases |ops|
  {
    if ops != [] {
      var op := ops[0];
      DetachNeedsLink(w, op.call, op.ls, n);
      DiskCallResult(w, op.call, op.ls, n, disk);
      RetriesFail(AfterOp(w, op), cid, disk, ops[1..], n);
    }
  }

  /** A detach whose device.remove reports an error after taking effect cannot be completed:
      however often it is retried, no retry succeeds, and the environment file, which still
      lists the disk, stays as it is. */
  lemma {:induction false} FailedDetachStuck(w: World, cid: string, disk: string, o: Outcome, p: Outcome,
                                             retries: seq<Op>, n: nat)
    requires GeneratedId(disk, n) && TidyWorld(w, VmId(cid), n)
    requires Links(w.host, VmId(cid), disk) == 1 && Listed(w.cell, disk)
    requires o.fault == NoFault && p.fault == After
    requires forall i :: 0 <= i < |retries| ==> retries[i].call == DetachDisk(cid, disk)
    ensures var first := Op(DetachDisk(cid, disk), [Main(o), Main(p)]);
            var w1 := AfterOp(w, first);
            var w2 := RunOps(w1, retries);
            && Run(Start(w, first.call), first.ls).t.failed
            && NoneSucceeds(w1, retries)
            && !Attached(w2.host, VmId(cid), disk) && w2.cell == w.cell && !Agrees(w2, VmId(cid), disk)
  {
    var w1 := FailedDetachUnlinks(w, cid, disk, o, p, n);
    RetriesFail(w1, cid, disk, retries, n);
  }

  lemma FailedDetachUnlinks(w: World, cid: string, disk: string, o: Outcome, p: Outcome, n: nat) returns (r: World)
    requires GeneratedId(disk, n) && TidyWorld(w, VmId(cid), n) && Links(w.host, VmId(cid), disk) == 1
    requires Listed(w.cell, disk) && o.fault == NoFault && p.fault == After
    ensures r == AfterOp(w, Op(DetachDisk(cid, disk), [Main(o), Main(p)]))
    ensures Run(Start(w, DetachDisk(cid, disk)), [Main(o), Main(p)]).t.failed
    ensures TidyWorld(r, VmId(cid), n) && Links(r.host, VmId(cid), disk) == 0 && r.cell == w.cell
  {
    var c, ls := DetachDisk(cid, disk), [Main(o), Main(p)];
    r := AfterOp(w, Op(c, ls));
    RunTwoThen(Start(w, c), ls);
    assert ls[2..] == [];
    DetachReady(w, cid, disk, o, n);
    RemovedUnlinked(w, c, o, p);
    DiskCallResult(w, c, ls, n, disk);
    RelinkedLinks(c, w.host.ds, DevicesOf(w.host, VmId(cid)), DevicesOf(r.host, VmId(cid)), n, disk);
  }

  lemma RemovedUnlinked(w: World, c: Call, o: Outcome, p: Outcome)
    requires c.DetachDisk? && o.fault == NoFault && p.fault == After && DiskReady(w, c, o)
    ensures var r := MainStep(MainStep(Start(w, c), o), p);
            && r.t.failed && r.w.cell == w.cell && r.w.host.ds == w.host.ds
            && Relinked(c, w.host.ds, DevicesOf(w.host, VmId(c.cid)), DevicesOf(r.w.host, VmId(c.cid)))
  {
    DeviceFound(w, c, o);
    var vm := VmId(c.cid);
    var r := MainStep(State(w, Task(vm, Removal(w, c), Idle, false)), p);
    var name := FindDevice(w.host.vms[vm].devices, DiskId(c.disk));
    assert r.w.host == Effect(w.host, DeviceRemove(vm, name), p);
  }

  // ---------- Agreement after CreateVM ----------

  /** A successful CreateVM leaves no disk attached and none on the ISO. So every disk is in
      agreement but those that an environment file lists that CreateVM failed to replace. */
  lemma CreatedAgrees(w: World, c: Call, ls: seq<Label>, n: nat, disk: string)
    requires c.CreateVM? && !Contains(w.host.ds, "disk-") && Succeeded(Run(Start(w, c), ls).t)
    ensures Meets(AfterOp(w, Op(c, ls)), VmId(c.cid), disk, Seen(!(Unwritten(w, c, ls) && Listed(w.cell, disk)), true))
    ensures TidyWorld(AfterOp(w, Op(c, ls)), VmId(c.cid), n)
  {
    var r := AfterOp(w, Op(c, ls));
    CreateResult(w, c, ls);
    CreateWrites(w, c, ls);
    CallFrame(w, c, ls);
    Unlinked(r.host.vms[VmId(c.cid)].devices, ParentName(r.host.ds, DiskFile(disk)));
  }

  lemma {:induction false} Unlinked(devices: seq<Device>, parent: string)
    requires parent != "" && forall d :: d in devices ==> d.parent == ""
    ensures Linked(devices, parent) == 0
  {
    if devices != [] {
      assert devices[|devices| - 1] in devices;
      assert forall d :: d in devices[..|devices| - 1] ==> d in devices;
      Unlinked(devices[..|devices| - 1], parent);
    }
  }

  /** Agreement under failures, from the start: after a CreateVM, and any run of attach and
      detach calls on the new VM, stopping and failing anywhere, a disk that no call named, or
      whose last call succeeded, is in agreement if and only if its verdict says so. */
  lemma AgreementFromCreate(w: World, c: Call, ls: seq<Label>, ops: seq<Op>, n: nat, disk: string)
    requires c.CreateVM? && !Contains(w.host.ds, "disk-") && Succeeded(Run(Start(w, c), ls).t)
    requires OnVm(ops, c.cid, n)
    ensures var w1 := AfterOp(w, Op(c, ls));
            var v := LastVerdict(w1, ops, disk, Seen(!(Unwritten(w, c, ls) && Listed(w.cell, disk)), true));
            v.Seen? ==> (Agrees(RunOps(w1, ops), VmId(c.cid), disk) <==> v.file && v.iso)
  {
    CreatedAgrees(w, c, ls, n, disk);
    AgreementUnderFailures(AfterOp(w, Op(c, ls)), c.cid, ops, n, disk,
                           Seen(!(Unwritten(w, c, ls) && Listed(w.cell, disk)), true));
  }

  /** Agreement can be lost although the last call on the disk succeeded: an attach that fails
      after its command took effect, the attach again, then a detach. One link is left on the
      VM, and the environment knows nothing of it. */
  lemma RetriedAttachDisagrees(w: World, cid: string, disk: string, o: Outcome, again: seq<Label>, last: seq<Label>,
                               n: nat)
    requires GeneratedId(disk, n) && TidyWorld(w, VmId(cid), n)
    requires o.fault == After && DiskReady(w, AttachDisk(cid, disk), o)
    requires Smooth(again) && |again| >= 9
    requires DiskReady(w, AttachDisk(cid, disk), again[0].o) && again[0].o.device != o.device
    requires Smooth(last) && |last| >= 9
    ensures var first := Op(AttachDisk(cid, disk), [Main(o)]);
            var w1 := AfterOp(w, first);
            var w2 := AfterOp(w1, Op(AttachDisk(cid, disk), again));
            var w3 := AfterOp(w2, Op(DetachDisk(cid, disk), last));
            && Run(Start(w, first.call), first.ls).t.failed
            && Succeeded(Run(Start(w1, AttachDisk(cid, disk)), again).t)
            && Succeeded(Run(Start(w2, DetachDisk(cid, disk)), last).t) && Wrote(w2, DetachDisk(cid, disk), last)
            && Attached(w3.host, VmId(cid), disk) && !Listed(w3.cell, disk) && !Agrees(w3, VmId(cid), disk)
  {
    var w1 := FailedAttachLinks(w, cid, disk, o, n);
    var w2 := SecondAttachLinks(w1, cid, disk, again, n);
    DoubleDetachLeaves(w2, cid, disk, last, n);
  }

  lemma SecondAttachLinks(w: World, cid: string, disk: string, ls: seq<Label>, n: nat) returns (r: World)
    requires GeneratedId(disk, n) && TidyWorld(w, VmId(cid), n) && Links(w.host, VmId(cid), disk) > 0
    requires Smooth(ls) && |ls| >= 9 && DiskReady(w, AttachDisk(cid, disk), ls[0].o)
    ensures r == AfterOp(w, Op(AttachDisk(cid, disk), ls)) && Succeeded(Run(Start(w, AttachDisk(cid, disk)), ls).t)
    ensures TidyWorld(r, VmId(cid), n) && Links(r.host, VmId(cid), disk) > 1 && r.cell.Some?
  {
    var c := AttachDisk(cid, disk);
    r := AfterOp(w, Op(c, ls));
    DiskCallSucceeds(w, c, ls);
    DiskCallResult(w, c, ls, n, disk);
    DiskFiles(w, c, ls);
    DiskUploads(w, c, ls);
  }

  lemma DoubleDetachLeaves(w: World, cid: string, disk: string, ls: seq<Label>, n: nat)
    requires GeneratedId(disk, n) && TidyWorld(w, VmId(cid), n) && Links(w.host, VmId(cid), disk) > 1 && w.cell.Some?
    requires Smooth(ls) && |ls| >= 9
    ensures var c := DetachDisk(cid, disk);
            var r := AfterOp(w, Op(c, ls));
            && Succeeded(Run(Start(w, c), ls).t) && Wrote(w, c, ls)
            && Attached(r.host, VmId(cid), disk) && !Listed(r.cell, disk) && !Agrees(r, VmId(cid), disk)
  {
    var c := DetachDisk(cid, disk);
    DetachReady(w, cid, disk, ls[0].o, n);
    DiskCallSucceeds(w, c, ls);
    DiskCallResult(w, c, ls, n, disk);
    DiskFiles(w, c, ls);
  }

  lemma FailedAttachLinks(w: World, cid: string, disk: string, o: Outcome, n: nat) returns (r: World)
    requires GeneratedId(disk, n) && TidyWorld(w, VmId(cid), n)
    requires o.fault == After && DiskReady(w, AttachDisk(cid, disk), o)
    ensures r == AfterOp(w, Op(AttachDisk(cid, disk), [Main(o)]))
    ensures Run(Start(w, AttachDisk(cid, disk)), [Main(o)]).t.failed
    ensures TidyWorld(r, VmId(cid), n) && Links(r.host, VmId(cid), disk) > 0 && r.cell == w.cell
    ensures r.host.files == w.host.files && VmId(cid) in r.host.vms
    ensures DevicesOf(r.host, VmId(cid)) ==
              DevicesOf(w.host, VmId(cid)) + [Device(o.device, ParentName(w.host.ds, DiskFile(disk)))]
  {
    var c := AttachDisk(cid, disk);
    var was := DevicesOf(w.host, VmId(cid));
    assert [Main(o)][1..] == [];
    assert Run(Start(w, c), [Main(o)]) == Step(Start(w, c), Main(o));
    r := AfterOp(w, Op(c, [Main(o)]));
    LinkedAppend(was, Device(o.device, ParentName(w.host.ds, DiskFile(disk))), ParentName(w.host.ds, DiskFile(disk)));
    DiskCallResult(w, c, [Main(o)], n, disk);
  }

  lemma DetachReady(w: World, cid: string, disk: string, o: Outcome, n: nat)
    requires GeneratedId(disk, n) && TidyWorld(w, VmId(cid), n) && w.cell.Some?
    requires Links(w.host, VmId(cid), disk) > 0
    ensures DiskReady(w, DetachDisk(cid, disk), o)
  {
    var devices := DevicesOf(w.host, VmId(cid));
    FindDeviceCorrect(devices, w.host.ds, disk, n);
    var parent := ParentName(w.host.ds, DiskFile(disk));
    var i: nat :| LastLink(devices, parent, i) && devices[i].name == FindDevice(devices, DiskId(disk));
    assert devices[i] in devices;
  }
}
