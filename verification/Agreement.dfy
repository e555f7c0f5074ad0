/** Do the host, the environment file and the ISO agree on which disks a VM has? */
module Agreement {
  import opened Names
  import opened Lookup
  import opened Host
  import opened Machine
  import opened Traces
  import opened IsoSwap
  import opened Disks

  /** The device list of a VM as the disk lookup needs it. */
  ghost predicate Tidy(devices: seq<Device>, ds: string, n: nat) { Regular(devices, ds, n) && Named(devices) }

  predicate Listed(env: Option<Env>, disk: string) {
    env.Some? && disk in env.value.persistent
  }

  predicate Attached(h: Host, vm: string, disk: string) { Links(h, vm, disk) > 0 }

  predicate FileAgrees(w: World, vm: string, disk: string) {
    Listed(w.cell, disk) <==> Attached(w.host, vm, disk)
  }

  predicate IsoAgrees(w: World, vm: string, disk: string) {
    Listed(IsoOf(w.host, vm), disk) <==> Attached(w.host, vm, disk)
  }

  /** The environment file and the uploaded ISO list the disk exactly when it is attached. A
      file or ISO that cannot be read lists nothing. */
  predicate Agrees(w: World, vm: string, disk: string) { FileAgrees(w, vm, disk) && IsoAgrees(w, vm, disk) }

  lemma {:induction false} RemoveByName(devices: seq<Device>, i: nat)
    requires i < |devices|
    requires forall j, k :: 0 <= j < k < |devices| ==> devices[j].name != devices[k].name
    ensures WithoutDevice(devices, devices[i].name) == devices[..i] + devices[i + 1..]
  {
    if i == 0 {
      assert devices[..0] + devices[1..] == devices[1..];
    } else {
      RemoveByName(devices[1..], i - 1);
      assert devices[i] == devices[1..][i - 1];
      assert devices[..i] + devices[i + 1..] == [devices[0]] + (devices[1..][..i - 1] + devices[1..][i..]);
    }
  }

  lemma TidyCut(devices: seq<Device>, i: nat, ds: string, n: nat)
    requires i < |devices| && Tidy(devices, ds, n)
    ensures Tidy(devices[..i] + devices[i + 1..], ds, n)
  {
    var cut := devices[..i] + devices[i + 1..];
    forall d | d in cut ensures d in devices {
      var k :| 0 <= k < |cut| && cut[k] == d;
      assert d == devices[if k < i then k else k + 1];
    }
  }

  lemma ParentsApart(ds: string, x: string, y: string)
    ensures ParentName(ds, DiskFile(x)) == ParentName(ds, DiskFile(y)) ==> x == y
  {
    if ParentName(ds, DiskFile(x)) == ParentName(ds, DiskFile(y)) {
      PrefixCancels("[" + ds + "] ", DiskFile(x), DiskFile(y));
      IdsApart(x, y);
    }
  }

  /** What the host's part of a call does to the links of every disk. */
  lemma RelinkedLinks(c: Call, ds: string, was: seq<Device>, now: seq<Device>, n: nat, disk: string)
    requires DiskCall(c) && GeneratedId(c.disk, n) && Tidy(was, ds, n) && Relinked(c, ds, was, now)
    ensures Tidy(now, ds, n)
    ensures var parent := ParentName(ds, DiskFile(disk));
            Linked(now, parent) == Linked(was, parent) + Change(c, disk)
  {
    ParentsApart(ds, disk, c.disk);
    if c.AttachDisk? {
      LinkedAppend(was, now[|was|], ParentName(ds, DiskFile(disk)));
      TidyAppend(was, now[|was|], ds, c.disk, n);
    } else {
      var i := DetachedDevice(c, ds, was, now, n);
      TidyCut(was, i, ds, n);
      LinkedWithout(was, i, ParentName(ds, DiskFile(disk)));
    }
  }

  lemma TidyAppend(devices: seq<Device>, d: Device, ds: string, u: string, n: nat)
    requires Tidy(devices, ds, n) && GeneratedId(u, n) && d.parent == ParentName(ds, DiskFile(u))
    requires d.name != "" && forall e :: e in devices ==> e.name != d.name
    ensures Tidy(devices + [d], ds, n)
  {
  }

  /** The device that a detach takes out is linked to the disk it was asked for. */
  lemma DetachedDevice(c: Call, ds: string, was: seq<Device>, now: seq<Device>, n: nat) returns (i: nat)
    requires c.DetachDisk? && GeneratedId(c.disk, n) && Tidy(was, ds, n) && Relinked(c, ds, was, now)
    ensures i < |was| && was[i].parent == ParentName(ds, DiskFile(c.disk))
    ensures now == was[..i] + was[i + 1..]
  {
    FindDeviceCorrect(was, ds, c.disk, n);
    i :| LastLink(was, ParentName(ds, DiskFile(c.disk)), i) && was[i].name == FindDevice(was, DiskId(c.disk));
    RemoveByName(was, i);
  }

  /** The VM's devices can be looked up, and the ids of the run have the generated shape. */
  ghost predicate TidyWorld(w: World, vm: string, n: nat) { Tidy(DevicesOf(w.host, vm), w.host.ds, n) }

  /** What any attach or detach leaves, wherever it stops, for each disk of the VM. */
  lemma DiskCallResult(w: World, c: Call, ls: seq<Label>, n: nat, disk: string)
    requires DiskCall(c) && GeneratedId(c.disk, n) && TidyWorld(w, VmId(c.cid), n)
    ensures var vm := VmId(c.cid);
            var s := Run(Start(w, c), ls);
            && TidyWorld(s.w, vm, n)
            && Links(s.w.host, vm, disk) in {Links(w.host, vm, disk), Links(w.host, vm, disk) + Change(c, disk)}
            && (Succeeded(s.t) ==>
                  && w.cell.Some?
                  && Links(s.w.host, vm, disk) == Links(w.host, vm, disk) + Change(c, disk)
                  && Shows(s.w.host, vm, Revise(w.cell.value, EditOf(c)), Burned(Start(w, c), ls))
                  && ShowsEdit(w.cell.value, c, s.w, Burned(Start(w, c), ls), Wrote(w, c, ls)))
  {
    var s := Run(Start(w, c), ls);
    var was, now := DevicesOf(w.host, VmId(c.cid)), DevicesOf(s.w.host, VmId(c.cid));
    DiskRun(w, c, Start(w, c), ls);
    DiskFiles(w, c, ls);
    if Succeeded(s.t) { DiskUploads(w, c, ls); }
    if Relinked(c, w.host.ds, was, now) {
      RelinkedLinks(c, w.host.ds, was, now, n, disk);
    }
  }

  /** When a call that succeeds leaves the environment file in agreement on its own disk. */
  predicate FileRight(w: World, c: Call, ls: seq<Label>)
    requires DiskCall(c)
  {
    if c.AttachDisk? then Wrote(w, c, ls) || (Unwritten(w, c, ls) && Listed(w.cell, c.disk))
    else Links(w.host, VmId(c.cid), c.disk) > 1 <==> (Unwritten(w, c, ls) && Listed(w.cell, c.disk))
  }

  /** And the ISO: an attach must have uploaded a whole one, and a detach must have taken off
      the only link. */
  predicate IsoRight(w: World, c: Call, ls: seq<Label>)
    requires DiskCall(c)
  {
    if c.AttachDisk? then Burned(Start(w, c), ls) else Links(w.host, VmId(c.cid), c.disk) == 1
  }

  /** Agreement after one call, exactly. */
  lemma AgreementOfCall(w: World, c: Call, ls: seq<Label>, n: nat)
    requires DiskCall(c) && GeneratedId(c.disk, n) && TidyWorld(w, VmId(c.cid), n)
    requires Succeeded(Run(Start(w, c), ls).t)
    ensures FileAgrees(Run(Start(w, c), ls).w, VmId(c.cid), c.disk) <==> FileRight(w, c, ls)
    ensures IsoAgrees(Run(Start(w, c), ls).w, VmId(c.cid), c.disk) <==> IsoRight(w, c, ls)
  {
    DiskCallResult(w, c, ls, n, c.disk);
    DiskFiles(w, c, ls);
  }

  /** What a call leaves of another disk of the VM. Its links stay. A spoiled file, or a broken
      ISO, lists it no longer; a whole ISO lists what the file listed. */
  lemma OtherDisks(w: World, c: Call, ls: seq<Label>, n: nat, disk: string)
    requires DiskCall(c) && GeneratedId(c.disk, n) && TidyWorld(w, VmId(c.cid), n) && disk != c.disk
    ensures var vm := VmId(c.cid);
            var r := Run(Start(w, c), ls).w;
            var upload := LastUpload(Start(w, c), ls);
            && Links(r.host, vm, disk) == Links(w.host, vm, disk)
            && (Listed(r.cell, disk) <==> Listed(w.cell, disk) && !Spoils(w, c, ls))
            && (Listed(IsoOf(r.host, vm), disk) <==>
                  if upload == None then Listed(IsoOf(w.host, vm), disk)
                  else upload.value.Some? && Listed(w.cell, disk))
  {
    DiskCallResult(w, c, ls, n, disk);
    DiskFiles(w, c, ls);
  }

  // ---------- Runs of calls on one VM ----------

  /** A call and how far it got. */
  datatype Op = Op(call: Call, ls: seq<Label>)

  function AfterOp(w: World, op: Op): World { Run(Start(w, op.call), op.ls).w }

  function RunOps(w: World, ops: seq<Op>): World
    decreases |ops|
  {
    if ops == [] then w else RunOps(AfterOp(w, ops[0]), ops[1..])
  }

  /** How a disk stands after a run: `Open` if its last call failed or did not finish;
      otherwise whether the environment file and the ISO are in agreement on it. */
  datatype Verdict = Open | Seen(file: bool, iso: bool)

  /** How a call leaves its own disk. */
  function JudgeOwn(w: World, op: Op): Verdict
    requires DiskCall(op.call)
  {
    if !Succeeded(Run(Start(w, op.call), op.ls).t) then Open
    else Seen(FileRight(w, op.call, op.ls), IsoRight(w, op.call, op.ls))
  }

  /** How a call on another disk of the VM leaves a disk. */
  function JudgeOther(w: World, op: Op, disk: string, v: Verdict): Verdict
    requires DiskCall(op.call)
  {
    var attached, upload := Attached(w.host, VmId(op.call.cid), disk), LastUpload(Start(w, op.call), op.ls);
    if v.Open? then Open
    else Seen(if Spoils(w, op.call, op.ls) then !attached else v.file,
              if upload == None then v.iso else if upload.value == None then !attached else v.file)
  }

  /** How the disk stands after all of the calls. */
  function LastVerdict(w: World, ops: seq<Op>, disk: string, v: Verdict): Verdict
    requires forall i :: 0 <= i < |ops| ==> DiskCall(ops[i].call)
    decreases |ops|
  {
    if ops == [] then v
    else
      assert DiskCall(ops[0].call);
      LastVerdict(AfterOp(w, ops[0]), ops[1..], disk,
                  if ops[0].call.disk == disk then JudgeOwn(w, ops[0]) else JudgeOther(w, ops[0], disk, v))
  }

  ghost predicate OnVm(ops: seq<Op>, cid: string, n: nat) {
    forall i :: 0 <= i < |ops| ==> DiskCall(ops[i].call) && ops[i].call.cid == cid && GeneratedId(ops[i].call.disk, n)
  }

  /** What a verdict stands for. */
  ghost predicate Meets(w: World, vm: string, disk: string, v: Verdict) {
    v.Seen? ==> (FileAgrees(w, vm, disk) <==> v.file) && (IsoAgrees(w, vm, disk) <==> v.iso)
  }

  /** Agreement under failures: in every run of attach and detach calls on one VM, stopping
      and failing anywhere, a disk whose last call succeeded is listed exactly when it is
      attached if and only if its verdict says so, in the file and on the ISO. */
  lemma {:induction false} AgreementUnderFailures(w: World, cid: string, ops: seq<Op>, n: nat, disk: string, v: Verdict)
    requires OnVm(ops, cid, n) && TidyWorld(w, VmId(cid), n)
    requires Meets(w, VmId(cid), disk, v)
    ensures TidyWorld(RunOps(w, ops), VmId(cid), n)
    ensures Meets(RunOps(w, ops), VmId(cid), disk, LastVerdict(w, ops, disk, v))
    decreases |ops|
  {
    if ops != [] {
      var op := ops[0];
      DiskCallResult(w, op.call, op.ls, n, disk);
      if op.call.disk == disk {
        if JudgeOwn(w, op).Seen? {
          AgreementOfCall(w, op.call, op.ls, n);
        }
        AgreementUnderFailures(AfterOp(w, op), cid, ops[1..], n, disk, JudgeOwn(w, op));
      } else {
        OtherDisks(w, op.call, op.ls, n, disk);
        AgreementUnderFailures(AfterOp(w, op), cid, ops[1..], n, disk, JudgeOther(w, op, disk, v));
      }
    }
  }

  // ---------- Runs in which the local files hold ----------

  /** Writing the local files goes well, and no upload stops half-way. */
  predicate FilesHold(ls: seq<Label>) {
    forall i :: 0 <= i < |ls| && ls[i].Main? ==> ls[i].o.write == Written && ls[i].o.intact && ls[i].o.fault != Halfway
  }

  /** Whether the last call on the disk detached one link of several; `None` if it failed. */
  function LastDoubled(w: World, ops: seq<Op>, disk: string, b: Option<bool>): Option<bool>
    requires forall i :: 0 <= i < |ops| ==> DiskCall(ops[i].call)
    decreases |ops|
  {
    if ops == [] then b
    else
      assert DiskCall(ops[0].call);
      var c := ops[0].call;
      LastDoubled(AfterOp(w, ops[0]), ops[1..], disk,
                  if c.disk != disk then b
                  else if !Succeeded(Run(Start(w, c), ops[0].ls).t) then None
                  else Some(c.DetachDisk? && Links(w.host, VmId(c.cid), disk) > 1))
  }

  /** As long as the local files hold, the only calls that succeed and leave disagreement are
      those that detach one link of several. */
  lemma {:induction false} AgreementIfFilesHold(w: World, cid: string, ops: seq<Op>, n: nat, disk: string,
                                                b: Option<bool>)
    requires OnVm(ops, cid, n) && TidyWorld(w, VmId(cid), n)
    requires forall i :: 0 <= i < |ops| ==> FilesHold(ops[i].ls)
    requires b.Some? ==> Meets(w, VmId(cid), disk, Seen(!b.value, !b.value))
    ensures LastDoubled(w, ops, disk, b).Some? ==>
              (Agrees(RunOps(w, ops), VmId(cid), disk) <==> !LastDoubled(w, ops, disk, b).value)
    decreases |ops|
  {
    if ops != [] {
      var op := ops[0];
      var c := op.call;
      DiskCallResult(w, c, op.ls, n, disk);
      NothingBroken(Start(w, c), op.ls);
      if c.disk == disk {
        if Succeeded(Run(Start(w, c), op.ls).t) {
          AgreementOfCall(w, c, op.ls, n);
          assert Program(c)[1] == EditEnv(VmId(c.cid), EditOf(c));
          WriteHappens(Start(w, c), op.ls);
          DiskUploads(w, c, op.ls);
          AgreementIfFilesHold(AfterOp(w, op), cid, ops[1..], n, disk,
                               Some(c.DetachDisk? && Links(w.host, VmId(c.cid), disk) > 1));
        } else {
          AgreementIfFilesHold(AfterOp(w, op), cid, ops[1..], n, disk, None);
        }
      } else {
        OtherDisks(w, c, op.ls, n, disk);
        AgreementIfFilesHold(AfterOp(w, op), cid, ops[1..], n, disk, b);
      }
    }
  }

  lemma {:induction false} NothingBroken(s: State, ls: seq<Label>)
    requires FilesHold(ls)
    ensures LastWrite(s, ls) != Some(None) && LastUpload(s, ls) != Some(None)
    decreases |ls|
  {
    if ls != [] {
      NothingBroken(Step(s, ls[0]), ls[1..]);
    }
  }

  predicate WritePending(todo: seq<Action>) {
    exists i | 0 <= i < |todo| :: todo[i].WriteEnv? || todo[i].EditEnv?
  }

  lemma {:induction false} WriteHappens(s: State, ls: seq<Label>)
    requires FilesHold(ls) && WritePending(s.t.todo) && !s.t.failed
    ensures Succeeded(Run(s, ls).t) ==> LastWrite(s, ls).Some?
    decreases |ls|
  {
    if ls != [] {
      var r := Step(s, ls[0]);
      WriteStaysPending(s, ls[0]);
      if r.t.failed {
        NothingMore(r, ls[1..]);
      } else if Writes(s, ls[0]) == None {
        WriteHappens(r, ls[1..]);
      }
    }
  }

  lemma WriteStaysPending(s: State, l: Label)
    requires FilesHold([l]) && WritePending(s.t.todo) && !s.t.failed
    ensures var r := Step(s, l);
            && (r.t.failed ==> Finished(r.t))
            && (!r.t.failed ==> Writes(s, l).Some? || WritePending(r.t.todo))
  {
    assert l.Main? ==> [l][0].o.write == Written;
    if l.Main? && !Step(s, l).t.failed {
      var a, rest := s.t.todo[0], s.t.todo[1..];
      var e := Expand(a, s.w, s.t.own);
      var i :| 0 <= i < |s.t.todo| && (s.t.todo[i].WriteEnv? || s.t.todo[i].EditEnv?);
      if i > 0 {
        assert (e + rest)[|e| + i - 1] == s.t.todo[i];
      } else if a.EditEnv? {
        assert (e + rest)[0] == e[0];
      }
    }
  }

  // ---------- Detach without a link, and the round trip ----------

  /** Detaching a disk that is not linked never succeeds; in particular a DetachDisk that
      failed after its device was gone cannot be completed by retrying it. */
  lemma DetachNeedsLink(w: World, c: Call, ls: seq<Label>, n: nat)
    requires c.DetachDisk? && GeneratedId(c.disk, n) && TidyWorld(w, VmId(c.cid), n)
    requires Links(w.host, VmId(c.cid), c.disk) == 0
    ensures !Succeeded(Run(Start(w, c), ls).t)
    ensures Run(Start(w, c), ls).w.cell == w.cell
  {
    DiskRun(w, c, Start(w, c), ls);
    FindDeviceCorrect(DevicesOf(w.host, VmId(c.cid)), w.host.ds, c.disk, n);
    NeverEdits(w, c, Start(w, c), ls);
  }

  lemma {:induction false} NeverEdits(w: World, c: Call, s: State, ls: seq<Label>)
    requires c.DetachDisk? && DiskInv(w, c, s)
    requires !exists now :: Relinked(c, w.host.ds, DevicesOf(w.host, VmId(c.cid)), now)
    requires s.w.cell == w.cell
    ensures Run(s, ls).w.cell == w.cell
    decreases |ls|
  {
    if ls != [] {
      DiskStep(w, c, s, ls[0]);
      NeverEdits(w, c, Step(s, ls[0]), ls[1..]);
    }
  }

  /** Round trip: attaching an unlinked disk and detaching it again restores the device list
      and keeps the disk's file. If the environment did not list the disk, its entries are
      restored on the ISO exactly if the detach uploaded a whole one, and in the file exactly
      if the detach wrote it well or neither call changed it. */
  lemma RoundTrip(w: World, cid: string, disk: string, ls: seq<Label>, ms: seq<Label>, n: nat)
    requires GeneratedId(disk, n) && TidyWorld(w, VmId(cid), n) && Links(w.host, VmId(cid), disk) == 0
    requires Succeeded(Run(Start(w, AttachDisk(cid, disk)), ls).t)
    requires var w1 := Run(Start(w, AttachDisk(cid, disk)), ls).w;
             Succeeded(Run(Start(w1, DetachDisk(cid, disk)), ms).t)
    ensures var a, d := AttachDisk(cid, disk), DetachDisk(cid, disk);
            var w1 := Run(Start(w, a), ls).w;
            var w2 := Run(Start(w1, d), ms).w;
            var file := Root(DiskFile(disk));
            && DevicesOf(w2.host, VmId(cid)) == DevicesOf(w.host, VmId(cid))
            && file in w2.host.files && file in w.host.files && w2.host.files[file] == w.host.files[file]
            && (!Listed(w.cell, disk) ==>
                  && (IsoOf(w2.host, VmId(cid)) == w.cell <==> Burned(Start(w1, d), ms))
                  && (w2.cell == w.cell <==> Wrote(w1, d, ms) || (Unwritten(w1, d, ms) && Unwritten(w, a, ls))))
  {
    var a, d := AttachDisk(cid, disk), DetachDisk(cid, disk);
    var w1 := Run(Start(w, a), ls).w;
    var w2 := Run(Start(w1, d), ms).w;
    DevicesRestored(w, w1, w2, cid, disk, ls, ms, n);
    AttachNeedsFile(w, a, ls);
    CallFrame(w, a, ls);
    CallFrame(w1, d, ms);
    IdsApart(cid, disk);
    DiskUploads(w, a, ls);
    DiskUploads(w1, d, ms);
    DiskFiles(w, a, ls);
    DiskFiles(w1, d, ms);
    if !Listed(w.cell, disk) {
      AddDrop(w.cell.value, disk);
    }
  }

  lemma AddDrop(env: Env, disk: string)
    requires disk !in env.persistent
    ensures Revise(env, Drop(disk)) == env && Revise(Revise(env, Add(disk)), Drop(disk)) == env
    ensures Revise(env, Add(disk)) != env
  {
    assert env.persistent[disk := PERSISTENT_HINT] - {disk} == env.persistent == env.persistent - {disk};
    assert disk in Revise(env, Add(disk)).persistent;
  }

  lemma DevicesRestored(w: World, w1: World, w2: World, cid: string, disk: string, ls: seq<Label>, ms: seq<Label>,
                        n: nat)
    requires GeneratedId(disk, n) && TidyWorld(w, VmId(cid), n) && Links(w.host, VmId(cid), disk) == 0
    requires w1 == Run(Start(w, AttachDisk(cid, disk)), ls).w && Succeeded(Run(Start(w, AttachDisk(cid, disk)), ls).t)
    requires w2 == Run(Start(w1, DetachDisk(cid, disk)), ms).w && Succeeded(Run(Start(w1, DetachDisk(cid, disk)), ms).t)
    ensures DevicesOf(w2.host, VmId(cid)) == DevicesOf(w.host, VmId(cid))
  {
    var a, d := AttachDisk(cid, disk), DetachDisk(cid, disk);
    DiskDone(w, a, ls);
    DiskDone(w1, d, ms);
    var vm := VmId(cid);
    AttachDetach(a, d, w.host.ds, DevicesOf(w.host, vm), DevicesOf(w1.host, vm), DevicesOf(w2.host, vm), n);
  }

  lemma DiskDone(w: World, c: Call, ls: seq<Label>)
    requires DiskCall(c) && Succeeded(Run(Start(w, c), ls).t)
    ensures var r := Run(Start(w, c), ls).w;
            && r.host.ds == w.host.ds
            && Relinked(c, w.host.ds, DevicesOf(w.host, VmId(c.cid)), DevicesOf(r.host, VmId(c.cid)))
  {
    DiskRun(w, c, Start(w, c), ls);
  }

  /** The device that an attach appends to unlinked ones is the one that a detach takes out. */
  lemma AttachDetach(a: Call, d: Call, ds: string, d0: seq<Device>, d1: seq<Device>, d2: seq<Device>, n: nat)
    requires a.AttachDisk? && d.DetachDisk? && a.disk == d.disk && GeneratedId(a.disk, n) && Tidy(d0, ds, n)
    requires Linked(d0, ParentName(ds, DiskFile(a.disk))) == 0
    requires Relinked(a, ds, d0, d1) && Relinked(d, ds, d1, d2)
    ensures d2 == d0
  {
    var parent := ParentName(ds, DiskFile(a.disk));
    RelinkedLinks(a, ds, d0, d1, n, a.disk);
    var i := DetachedDevice(d, ds, d1, d2, n);
    var added := d1[|d0|];
    assert d1 == d0 + [added];
    OnlyLinkIsLast(d0, added, parent, i);
  }

  lemma OnlyLinkIsLast(devices: seq<Device>, added: Device, parent: string, i: nat)
    requires Linked(devices, parent) == 0 && i <= |devices|
    ensures (devices + [added])[i].parent == parent ==>
              (devices + [added])[..i] + (devices + [added])[i + 1..] == devices
  {
    if i < |devices| {
      LinkedAt(devices, i, parent);
    } else {
      assert (devices + [added])[..i] + (devices + [added])[i + 1..] == devices;
    }
  }

  lemma {:induction false} LinkedAt(devices: seq<Device>, i: nat, parent: string)
    ensures i < |devices| && devices[i].parent == parent ==> Linked(devices, parent) > 0
  {
    if i + 1 < |devices| {
      LinkedAt(devices[..|devices| - 1], i, parent);
    }
  }

  /** An attach gets nowhere unless the disk's file is there. */
  lemma AttachNeedsFile(w: World, c: Call, ls: seq<Label>)
    requires c.AttachDisk? && Succeeded(Run(Start(w, c), ls).t)
    ensures Root(DiskFile(c.disk)) in w.host.files
  {
    FileFromStart(Start(w, c), c, ls);
  }

  lemma {:induction false} FileFromStart(s: State, c: Call, ls: seq<Label>)
    requires c.AttachDisk? && s.t.todo == Program(c) && s.t.own == VmId(c.cid) && s.t.bg == Idle && !s.t.failed
    requires Succeeded(Run(s, ls).t)
    ensures Root(DiskFile(c.disk)) in s.w.host.files
    decreases |ls|
  {
    var r := Step(s, ls[0]);
    if ls[0].Main? {
      if r.t.failed {
        NothingMore(r, ls[1..]);
      }
    } else {
      FileFromStart(r, c, ls[1..]);
    }
  }
}
