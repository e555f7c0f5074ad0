/** The abstract machine that an operator has in mind, and how calls carry it out: stemcells,
    VMs that are on or off, disks, and which VM each disk is linked to. */
module Refinement {
  import opened Names
  import opened Lookup
  import opened Host
  import opened Machine
  import opened Destroy
  import opened Making
  import opened Create
  import opened Needs
  import opened Failures
  import opened Disks
  import opened Agreement
  import opened Retry
  import opened Tidiness

  /** `Partial`: files of a VM that is not registered. */
  datatype AVm = Partial | Whole(on: bool, links: imap<string, nat>)

  /** A stemcell is known by its .vmx file; the flag tells whether a VM can be built from it. */
  datatype Abstract = Abstract(stemcells: imap<string, bool>, vms: imap<string, AVm>, disks: imap<string, Content>)

  ghost function Shape(h: Host, cid: string): AVm {
    if VmId(cid) in h.vms then
      Whole(h.vms[VmId(cid)].power != Off, imap disk: string | true :: Links(h, VmId(cid), disk))
    else Partial
  }

  /** The stemcell's .vmx file is there. */
  predicate HasVmx(h: Host, source: string) {
    In(source, source + ".vmx") in h.files && h.files[In(source, source + ".vmx")].Vmx?
  }

  ghost function Abs(h: Host): Abstract {
    Abstract(
      imap cid: string | HasVmx(h, StemcellId(cid)) :: StemcellReady(h, StemcellId(cid)),
      imap cid: string | !Gone(h, VmId(cid)) :: Shape(h, cid),
      imap disk: string | Root(DiskFile(disk)) in h.files :: h.files[Root(DiskFile(disk))])
  }

  ghost function NoLinks(): imap<string, nat> { imap disk: string | true :: Linked([], DiskFile(disk)) }

  /** The disk exists and can be linked, or is linked and can be unlinked. */
  ghost predicate CanRelink(a: Abstract, c: Call)
    requires DiskCall(c)
  {
    && c.cid in a.vms && a.vms[c.cid].Whole? && c.disk in a.vms[c.cid].links
    && (c.AttachDisk? ==> c.disk in a.disks)
    && (c.DetachDisk? ==> a.vms[c.cid].links[c.disk] > 0)
  }

  /** The VM after its links were changed. */
  ghost function Linking(v: AVm, c: Call): AVm
    requires DiskCall(c) && v.Whole? && c.disk in v.links && (c.DetachDisk? ==> v.links[c.disk] > 0)
  {
    v.(links := v.links[c.disk := if c.AttachDisk? then v.links[c.disk] + 1 else v.links[c.disk] - 1])
  }

  ghost predicate UsableStemcell(a: Abstract, stemcell: string) { stemcell in a.stemcells && a.stemcells[stemcell] }

  /** The atomic step of a call. */
  ghost predicate AStep(a: Abstract, c: Call, b: Abstract) {
    match c
    case CreateStemcell(cid) => cid !in a.stemcells && b == a.(stemcells := a.stemcells[cid := true])
    case DeleteStemcell(cid) => b == a.(stemcells := a.stemcells - {cid})
    case CreateVM(cid, stemcell, _, _, _, _, _) =>
      cid !in a.vms && UsableStemcell(a, stemcell) && b == a.(vms := a.vms[cid := Whole(true, NoLinks())])
    case DeleteVM(cid) => b == a.(vms := a.vms - {cid})
    case CreateDisk(cid, mb) => cid !in a.disks && b == a.(disks := a.disks[cid := Disk(mb)])
    case DeleteDisk(cid) => b == a.(disks := a.disks - {cid})
    case _ => CanRelink(a, c) && b == a.(vms := a.vms[c.cid := Linking(a.vms[c.cid], c)])
  }

  /** What a call that did not get through may leave. A VM half made has nothing linked to it,
      and is on only if its stemcell was usable; an id that was taken is left as it was. A VM
      half deleted has the links it had, is on only if it was, or is down to some files. A
      stemcell half made may be unusable, and one half deleted was there before. A disk or a
      link is made or removed as a whole, if at all. */
  ghost predicate AFailure(a: Abstract, c: Call, b: Abstract) {
    match c
    case CreateVM(cid, stemcell, _, _, _, _, _) =>
      && (cid in a.vms ==> b == a)
      && b == a.(vms := b.vms) && b.vms - {cid} == a.vms - {cid}
      && (cid !in a.vms && cid in b.vms && b.vms[cid].Whole? ==>
            b.vms[cid].links == NoLinks() && (b.vms[cid].on ==> UsableStemcell(a, stemcell)))
    case DeleteVM(cid) =>
      && b == a.(vms := b.vms) && b.vms - {cid} == a.vms - {cid}
      && (cid in b.vms ==> cid in a.vms && Remnant(a.vms[cid], b.vms[cid]))
    case CreateStemcell(cid) =>
      || b == a
      || (cid !in a.stemcells && cid in b.stemcells && b == a.(stemcells := a.stemcells[cid := b.stemcells[cid]]))
    case DeleteStemcell(cid) =>
      && b == a.(stemcells := b.stemcells) && b.stemcells - {cid} == a.stemcells - {cid}
      && (cid in b.stemcells ==> cid in a.stemcells && (a.stemcells[cid] ==> b.stemcells[cid]))
    case _ => b == a || AStep(a, c, b)
  }

  /** What a deletion that failed may make of a VM. */
  ghost predicate Remnant(a: AVm, b: AVm) {
    b == Partial || (a.Whole? && b.links == a.links && (b.on ==> a.on))
  }

  // ---------- Frames ----------

  lemma StemcellFrame(h: Host, k: Host, own: string, cid: string)
    requires OnlyTouches(h, k, own) && own != StemcellId(cid)
    ensures HasVmx(h, StemcellId(cid)) <==> HasVmx(k, StemcellId(cid))
    ensures StemcellReady(h, StemcellId(cid)) <==> StemcellReady(k, StemcellId(cid))
  {
    var source := StemcellId(cid);
    assert Owner(In(source, source + ".vmx")) == source && Owner(In(source, "ephemeral.vmdk")) == source;
  }

  lemma VmFrame(h: Host, k: Host, own: string, cid: string)
    requires OnlyTouches(h, k, own) && own != VmId(cid)
    ensures Gone(h, VmId(cid)) <==> Gone(k, VmId(cid))
    ensures Shape(h, cid) == Shape(k, cid)
  {
    assert forall p :: Under(p, VmId(cid)) ==> Owner(p) == VmId(cid);
    if VmId(cid) in h.vms {
      assert Shape(h, cid).links == Shape(k, cid).links;
    }
  }

  lemma StemcellsKept(h: Host, k: Host, own: string)
    requires OnlyTouches(h, k, own) && forall s :: own != StemcellId(s)
    ensures Abs(k).stemcells == Abs(h).stemcells
  {
    forall s
      ensures HasVmx(h, StemcellId(s)) <==> HasVmx(k, StemcellId(s))
      ensures StemcellReady(h, StemcellId(s)) <==> StemcellReady(k, StemcellId(s))
    {
      StemcellFrame(h, k, own, s);
    }
  }

  lemma DisksKept(h: Host, k: Host, own: string)
    requires OnlyTouches(h, k, own) && forall d :: own != DiskFile(d)
    ensures Abs(k).disks == Abs(h).disks
  {
    assert forall d :: Owner(Root(DiskFile(d))) == DiskFile(d);
  }

  lemma VmsKept(h: Host, k: Host, own: string)
    requires OnlyTouches(h, k, own) && forall v :: own != VmId(v)
    ensures Abs(k).vms == Abs(h).vms
  {
    forall v ensures (Gone(h, VmId(v)) <==> Gone(k, VmId(v))) && Shape(h, v) == Shape(k, v) {
      VmFrame(h, k, own, v);
    }
  }

  /** A call on a VM changes nothing abstract but that VM. */
  lemma VmCallFrame(h: Host, k: Host, cid: string)
    requires OnlyTouches(h, k, VmId(cid))
    ensures Abs(k) == Abs(h).(vms := Abs(k).vms) && Abs(k).vms - {cid} == Abs(h).vms - {cid}
  {
    forall x ensures VmId(cid) != StemcellId(x) && VmId(cid) != DiskFile(x) {
      IdsApart(cid, x);
    }
    StemcellsKept(h, k, VmId(cid));
    DisksKept(h, k, VmId(cid));
    OtherVmsKept(h, k, cid);
  }

  lemma OtherVmsKept(h: Host, k: Host, cid: string)
    requires OnlyTouches(h, k, VmId(cid))
    ensures Abs(k).vms - {cid} == Abs(h).vms - {cid}
  {
    forall v | v != cid ensures (Gone(h, VmId(v)) <==> Gone(k, VmId(v))) && Shape(h, v) == Shape(k, v) {
      IdsApart(cid, v);
      VmFrame(h, k, VmId(cid), v);
    }
  }

  lemma DiskCallFrame(h: Host, k: Host, disk: string)
    requires OnlyTouches(h, k, DiskFile(disk))
    ensures Abs(k) == Abs(h).(disks := Abs(k).disks) && Abs(k).disks - {disk} == Abs(h).disks - {disk}
  {
    forall x ensures DiskFile(disk) != StemcellId(x) && DiskFile(disk) != VmId(x) {
      IdsApart(x, disk);
    }
    StemcellsKept(h, k, DiskFile(disk));
    VmsKept(h, k, DiskFile(disk));
    forall d | d != disk ensures Owner(Root(DiskFile(d))) != DiskFile(disk) {
      IdsApart(d, disk);
    }
  }

  lemma StemcellCallFrame(h: Host, k: Host, cid: string)
    requires OnlyTouches(h, k, StemcellId(cid))
    ensures Abs(k) == Abs(h).(stemcells := Abs(k).stemcells)
    ensures Abs(k).stemcells - {cid} == Abs(h).stemcells - {cid}
  {
    forall x ensures StemcellId(cid) != DiskFile(x) && StemcellId(cid) != VmId(x) {
      IdsApart(x, cid);
      IdsApart(cid, x);
    }
    DisksKept(h, k, StemcellId(cid));
    VmsKept(h, k, StemcellId(cid));
    forall s | s != cid
      ensures HasVmx(h, StemcellId(s)) <==> HasVmx(k, StemcellId(s))
      ensures StemcellReady(h, StemcellId(s)) <==> StemcellReady(k, StemcellId(s))
    {
      IdsApart(s, cid);
      StemcellFrame(h, k, StemcellId(cid), s);
    }
  }

  /** Maps that agree on all keys but one. */
  lemma ButOne<T>(x: imap<string, T>, y: imap<string, T>, key: string)
    requires x - {key} == y - {key}
    ensures key in y ==> y == x[key := y[key]]
    ensures key !in y ==> y == x - {key}
  {
    forall v | v != key ensures (v in x <==> v in y) && (v in x ==> x[v] == y[v]) {
      assert (v in x <==> v in x - {key}) && (v in y <==> v in y - {key});
      assert v in x ==> x[v] == (x - {key})[v] && y[v] == (y - {key})[v];
    }
  }

  lemma SameButOne<T>(x: imap<string, T>, y: imap<string, T>, key: string)
    requires x - {key} == y - {key} && (key in x <==> key in y) && (key in x ==> x[key] == y[key])
    ensures x == y
  {
    ButOne(x, y, key);
    ButOne(y, x, key);
  }

  // ---------- The calls on VMs ----------

  /** CreateVM: on success, the clone and the start together are one atomic step. */
  lemma CreateSimulates(w: World, c: Call, ls: seq<Label>)
    requires c.CreateVM?
    ensures var s := Run(Start(w, c), ls);
            AFailure(Abs(w.host), c, Abs(s.w.host)) && (Succeeded(s.t) ==> AStep(Abs(w.host), c, Abs(s.w.host)))
  {
    var s := Run(Start(w, c), ls);
    CallFrame(w, c, ls);
    VmCallFrame(w.host, s.w.host, c.cid);
    if Gone(w.host, VmId(c.cid)) {
      FreshLeaves(w, c, ls);
    } else {
      TakenLeaves(w, c, ls);
    }
    if Succeeded(s.t) {
      CreateNeeds(w, c, ls);
      CreateResult(w, c, ls);
      BareShape(s.w.host, c.cid);
      ButOne(Abs(w.host).vms, Abs(s.w.host).vms, c.cid);
    }
  }

  lemma BareShape(h: Host, cid: string)
    requires VmId(cid) in h.vms && forall d :: d in h.vms[VmId(cid)].devices ==> d.parent == ""
    ensures !Gone(h, VmId(cid)) && Shape(h, cid) == Whole(h.vms[VmId(cid)].power != Off, NoLinks())
  {
    forall disk ensures Links(h, VmId(cid), disk) == 0 {
      Unlinked(DevicesOf(h, VmId(cid)), ParentName(h.ds, DiskFile(disk)));
    }
    assert Shape(h, cid).links == NoLinks();
  }

  lemma FreshLeaves(w: World, c: Call, ls: seq<Label>)
    requires c.CreateVM? && Gone(w.host, VmId(c.cid))
    ensures var a, b := Abs(w.host), Abs(Run(Start(w, c), ls).w.host);
            && c.cid !in a.vms
            && (c.cid in b.vms && b.vms[c.cid].Whole? ==>
                  b.vms[c.cid].links == NoLinks() && (b.vms[c.cid].on ==> UsableStemcell(a, c.stemcell)))
  {
    var h := Run(Start(w, c), ls).w.host;
    FreshResult(w, c, ls);
    if VmId(c.cid) in h.vms {
      BareShape(h, c.cid);
    }
  }

  lemma TakenLeaves(w: World, c: Call, ls: seq<Label>)
    requires c.CreateVM? && !Gone(w.host, VmId(c.cid))
    ensures Abs(Run(Start(w, c), ls).w.host) == Abs(w.host)
  {
    var h, k := w.host, Run(Start(w, c), ls).w.host;
    TakenRun(c, h, Start(w, c), ls);
    CallFrame(w, c, ls);
    VmCallFrame(h, k, c.cid);
    SameVmShape(h, k, c.cid);
    SameButOne(Abs(h).vms, Abs(k).vms, c.cid);
  }

  lemma SameVmShape(h: Host, k: Host, cid: string)
    requires SameVm(h, k, VmId(cid)) && !Gone(h, VmId(cid))
    ensures !Gone(k, VmId(cid)) && Shape(h, cid) == Shape(k, cid)
  {
    if VmId(cid) in h.vms {
      assert Shape(h, cid).links == Shape(k, cid).links;
    }
  }

  /** DeleteVM, from any state of the VM. */
  lemma DeleteSimulates(w: World, cid: string, ls: seq<Label>)
    ensures var s := Run(Start(w, DeleteVM(cid)), ls);
            && AFailure(Abs(w.host), DeleteVM(cid), Abs(s.w.host))
            && (Succeeded(s.t) ==> AStep(Abs(w.host), DeleteVM(cid), Abs(s.w.host)))
  {
    var s := Run(Start(w, DeleteVM(cid)), ls);
    CallFrame(w, DeleteVM(cid), ls);
    VmCallFrame(w.host, s.w.host, cid);
    DestroyingRun(Start(w, DeleteVM(cid)), ls);
    ShrunkShape(w.host, s.w.host, cid);
    DestroyResult(w, VmId(cid), Idle, ls);
    if Succeeded(s.t) {
      GoneIsWithout(s.w.host, VmId(cid));
      WithoutTwice(w.host, VmId(cid));
      assert cid !in Abs(s.w.host).vms;
      ButOne(Abs(w.host).vms, Abs(s.w.host).vms, cid);
    }
  }

  lemma ShrunkShape(h: Host, k: Host, cid: string)
    requires Shrunk(h, k, VmId(cid)) && h.ds == k.ds
    ensures !Gone(k, VmId(cid)) ==> !Gone(h, VmId(cid)) && Remnant(Shape(h, cid), Shape(k, cid))
  {
    if VmId(cid) in k.vms {
      assert Shape(h, cid).links == Shape(k, cid).links;
    }
  }

  lemma WithoutTwice(h: Host, own: string)
    ensures Without(Without(h, own), own) == Without(h, own)
  {
    assert RemoveTree(RemoveTree(h.files, own), own) == RemoveTree(h.files, own);
  }

  /** A call on a VM that stopped or failed anywhere, then a DeleteVM that succeeds: together
      they are the abstract deletion. */
  lemma RetryDeletes(w: World, c: Call, ls: seq<Label>, cid: string, ms: seq<Label>)
    requires OwnName(c) == VmId(cid)
    ensures var w1 := Run(Start(w, c), ls).w;
            var s := Run(Start(w1, DeleteVM(cid)), ms);
            Succeeded(s.t) ==> AStep(Abs(w.host), DeleteVM(cid), Abs(s.w.host))
  {
    var w1 := Run(Start(w, c), ls).w;
    CallFrame(w, c, ls);
    VmCallFrame(w.host, w1.host, cid);
    DeleteSimulates(w1, cid, ms);
  }

  // ---------- Attach and detach ----------

  /** The steps of a disk call. */
  predicate DiskAction(a: Action, disk: string) {
    || a.FindLink? || a.EditEnv? || a.WriteEnv?
    || (a.Do? && (
          || (a.cmd.VmDiskAttach? && a.cmd.disk == DiskFile(disk)) || a.cmd.DeviceRemove? || a.cmd.DatastoreUpload?
          || a.cmd.CdromDisconnect? || a.cmd.CdromEject? || a.cmd.CdromInsert? || a.cmd.CdromConnect?))
  }

  predicate DiskActions(t: Task, disk: string) {
    t.bg == Idle && OwnTask(t) && forall i :: 0 <= i < |t.todo| ==> DiskAction(t.todo[i], disk)
  }

  /** The VM stays registered, or not, and on, or not, with the files it has. No device comes
      in without the disk's file. */
  ghost predicate OnlyDevices(h: Host, k: Host, own: string, disk: string) {
    && (own in h.vms <==> own in k.vms)
    && (own in h.vms ==> (h.vms[own].power != Off <==> k.vms[own].power != Off))
    && (forall p :: Under(p, own) ==> (p in h.files <==> p in k.files))
    && (Root(DiskFile(disk)) !in h.files ==> |DevicesOf(k, own)| <= |DevicesOf(h, own)|)
  }

  lemma {:induction false} FewerDevices(devices: seq<Device>, name: string)
    ensures |WithoutDevice(devices, name)| <= |devices|
  {
    if devices != [] {
      FewerDevices(devices[1..], name);
    }
  }

  lemma DiskActKeeps(a: Action, w: World, own: string, o: Outcome, disk: string)
    requires OwnAction(a, own) && DiskAction(a, disk)
    ensures OnlyDevices(w.host, Act(a, w, own, o).0.host, own, disk)
  {
    if a.Do? {
      DiskExecKeeps(a.cmd, w.host, own, o, disk);
    }
  }

  lemma DiskExecKeeps(c: Cmd, h: Host, own: string, o: Outcome, disk: string)
    requires OwnAction(Do(c), own) && DiskAction(Do(c), disk)
    ensures OnlyDevices(h, Exec(h, c, o).0, own, disk)
  {
    if Accepts(h, c, o) {
      if c.DeviceRemove? {
        FewerDevices(h.vms[own].devices, c.device);
      } else if c.VmDiskAttach? || c.DatastoreUpload? {
        assert OnlyDevices(h, Effect(h, c, o), own, disk);
      } else {
        assert OnlyDevices(h, Effect(h, c, o), own, disk);
      }
    }
  }

  lemma DiskActionStep(s: State, l: Label, disk: string)
    requires DiskActions(s.t, disk)
    ensures DiskActions(Step(s, l).t, disk) && Step(s, l).t.own == s.t.own
    ensures OnlyDevices(s.w.host, Step(s, l).w.host, s.t.own, disk)
  {
    StepFrame(s, l);
    if l.Main? && s.t.todo != [] {
      assert OwnAction(s.t.todo[0], s.t.own) && DiskAction(s.t.todo[0], disk);
      DiskActKeeps(s.t.todo[0], s.w, s.t.own, l.o, disk);
    }
  }

  lemma {:induction false} DiskActionRun(s: State, ls: seq<Label>, cid: string, disk: string)
    requires DiskActions(s.t, disk) && s.t.own == VmId(cid)
    ensures OnlyDevices(s.w.host, Run(s, ls).w.host, s.t.own, disk)
    decreases |ls|
  {
    if ls != [] {
      var r := Step(s, ls[0]);
      DiskActionStep(s, ls[0], disk);
      DiskActionRun(r, ls[1..], cid, disk);
      StepFrame(s, ls[0]);
      IdsApart(cid, disk);
      assert Root(DiskFile(disk)) in s.w.host.files <==> Root(DiskFile(disk)) in r.w.host.files;
    }
  }

  /** Attach and detach are atomic on the host: every run, however it ends, is the abstract
      step or nothing, and a success is the step. */
  lemma DiskCallSimulates(w: World, c: Call, ls: seq<Label>, n: nat)
    requires DiskCall(c) && GeneratedId(c.disk, n) && AllTidy(w.host, n)
    ensures var s := Run(Start(w, c), ls);
            AFailure(Abs(w.host), c, Abs(s.w.host)) && (Succeeded(s.t) ==> AStep(Abs(w.host), c, Abs(s.w.host)))
  {
    var s := Run(Start(w, c), ls);
    CallFrame(w, c, ls);
    VmCallFrame(w.host, s.w.host, c.cid);
    ProgramOwn(c);
    DiskActionRun(Start(w, c), ls, c.cid, c.disk);
    DiskRun(w, c, Start(w, c), ls);
    if Succeeded(s.t) {
      DiskDone(w, c, ls);
    }
    if Relinked(c, w.host.ds, DevicesOf(w.host, VmId(c.cid)), DevicesOf(s.w.host, VmId(c.cid))) {
      RelinkedShape(w.host, s.w.host, c, n);
    } else {
      SameShape(w.host, s.w.host, c.cid, c.disk);
    }
  }

  lemma SameShape(h: Host, k: Host, cid: string, disk: string)
    requires OnlyTouches(h, k, VmId(cid)) && OnlyDevices(h, k, VmId(cid), disk)
    requires DevicesOf(h, VmId(cid)) == DevicesOf(k, VmId(cid))
    ensures Abs(h) == Abs(k)
  {
    VmCallFrame(h, k, cid);
    SameGone(h, k, cid, disk);
    assert VmId(cid) in h.vms ==> Shape(h, cid).links == Shape(k, cid).links;
    SameButOne(Abs(h).vms, Abs(k).vms, cid);
  }

  lemma SameGone(h: Host, k: Host, cid: string, disk: string)
    requires OnlyDevices(h, k, VmId(cid), disk)
    ensures Gone(h, VmId(cid)) <==> Gone(k, VmId(cid))
  {
  }

  lemma RelinkedShape(h: Host, k: Host, c: Call, n: nat)
    requires DiskCall(c) && GeneratedId(c.disk, n) && AllTidy(h, n)
    requires OnlyTouches(h, k, VmId(c.cid)) && OnlyDevices(h, k, VmId(c.cid), c.disk)
    requires Relinked(c, h.ds, DevicesOf(h, VmId(c.cid)), DevicesOf(k, VmId(c.cid)))
    ensures AStep(Abs(h), c, Abs(k))
  {
    RelinkedLinking(h, k, c, n);
    VmCallFrame(h, k, c.cid);
    ButOne(Abs(h).vms, Abs(k).vms, c.cid);
  }

  lemma RelinkedLinking(h: Host, k: Host, c: Call, n: nat)
    requires DiskCall(c) && GeneratedId(c.disk, n) && AllTidy(h, n)
    requires OnlyTouches(h, k, VmId(c.cid)) && OnlyDevices(h, k, VmId(c.cid), c.disk)
    requires Relinked(c, h.ds, DevicesOf(h, VmId(c.cid)), DevicesOf(k, VmId(c.cid)))
    ensures VmId(c.cid) in h.vms && VmId(c.cid) in k.vms && (c.AttachDisk? ==> Root(DiskFile(c.disk)) in h.files)
    ensures c.DetachDisk? ==> Links(h, VmId(c.cid), c.disk) > 0
    ensures Shape(k, c.cid) == Linking(Shape(h, c.cid), c)
  {
    RelinkedThere(h, k, c, n);
    RelinkedEach(h, k, c, n);
    LinkingShape(h, k, c);
  }

  lemma LinkingShape(h: Host, k: Host, c: Call)
    requires DiskCall(c) && VmId(c.cid) in h.vms && VmId(c.cid) in k.vms
    requires h.vms[VmId(c.cid)].power != Off <==> k.vms[VmId(c.cid)].power != Off
    requires c.DetachDisk? ==> Links(h, VmId(c.cid), c.disk) > 0
    requires forall disk :: Links(k, VmId(c.cid), disk) == Links(h, VmId(c.cid), disk) + Change(c, disk)
    ensures Shape(k, c.cid) == Linking(Shape(h, c.cid), c)
  {
    assert Shape(k, c.cid).links == Linking(Shape(h, c.cid), c).links;
  }

  lemma RelinkedEach(h: Host, k: Host, c: Call, n: nat)
    requires DiskCall(c) && GeneratedId(c.disk, n) && AllTidy(h, n) && h.ds == k.ds
    requires Relinked(c, h.ds, DevicesOf(h, VmId(c.cid)), DevicesOf(k, VmId(c.cid)))
    ensures forall disk :: Links(k, VmId(c.cid), disk) == Links(h, VmId(c.cid), disk) + Change(c, disk)
  {
    forall disk ensures Links(k, VmId(c.cid), disk) == Links(h, VmId(c.cid), disk) + Change(c, disk) {
      RelinkedLinks(c, h.ds, DevicesOf(h, VmId(c.cid)), DevicesOf(k, VmId(c.cid)), n, disk);
    }
  }

  lemma RelinkedThere(h: Host, k: Host, c: Call, n: nat)
    requires DiskCall(c) && GeneratedId(c.disk, n) && AllTidy(h, n)
    requires OnlyTouches(h, k, VmId(c.cid)) && OnlyDevices(h, k, VmId(c.cid), c.disk)
    requires Relinked(c, h.ds, DevicesOf(h, VmId(c.cid)), DevicesOf(k, VmId(c.cid)))
    ensures VmId(c.cid) in h.vms && VmId(c.cid) in k.vms && (c.AttachDisk? ==> Root(DiskFile(c.disk)) in h.files)
    ensures c.DetachDisk? ==> Links(h, VmId(c.cid), c.disk) > 0
  {
    RelinkedLinks(c, h.ds, DevicesOf(h, VmId(c.cid)), DevicesOf(k, VmId(c.cid)), n, c.disk);
  }

  // ---------- Disks and stemcells ----------

  lemma CreateDiskSimulates(w: World, c: Call, ls: seq<Label>)
    requires c.CreateDisk?
    ensures var s := Run(Start(w, c), ls);
            AFailure(Abs(w.host), c, Abs(s.w.host)) && (Succeeded(s.t) ==> AStep(Abs(w.host), c, Abs(s.w.host)))
  {
    var s := Run(Start(w, c), ls);
    CallFrame(w, c, ls);
    DiskCallFrame(w.host, s.w.host, c.cid);
    MakingResult(w, c, ls);
    ButOne(Abs(w.host).disks, Abs(s.w.host).disks, c.cid);
    if s.w.host.files == w.host.files {
      assert Abs(s.w.host).disks == Abs(w.host).disks;
    }
  }

  /** A disk is deleted as a whole or not at all. */
  lemma DeleteDiskSimulates(w: World, cid: string, ls: seq<Label>)
    ensures var s := Run(Start(w, DeleteDisk(cid)), ls);
            && AFailure(Abs(w.host), DeleteDisk(cid), Abs(s.w.host))
            && (Succeeded(s.t) ==> AStep(Abs(w.host), DeleteDisk(cid), Abs(s.w.host)))
  {
    var s := Run(Start(w, DeleteDisk(cid)), ls);
    CallFrame(w, DeleteDisk(cid), ls);
    DiskCallFrame(w.host, s.w.host, cid);
    DeleteDiskResult(w, cid, ls);
    ButOne(Abs(w.host).disks, Abs(s.w.host).disks, cid);
    ButOne(Abs(s.w.host).disks, Abs(w.host).disks, cid);
    assert Succeeded(s.t) ==> Root(DiskFile(cid)) !in s.w.host.files;
  }

  lemma CreateStemcellSimulates(w: World, c: Call, ls: seq<Label>)
    requires c.CreateStemcell?
    ensures var s := Run(Start(w, c), ls);
            AFailure(Abs(w.host), c, Abs(s.w.host)) && (Succeeded(s.t) ==> AStep(Abs(w.host), c, Abs(s.w.host)))
  {
    var s := Run(Start(w, c), ls);
    CallFrame(w, c, ls);
    StemcellCallFrame(w.host, s.w.host, c.cid);
    MakingResult(w, c, ls);
    ButOne(Abs(w.host).stemcells, Abs(s.w.host).stemcells, c.cid);
    if FilesIn(w.host.files, StemcellId(c.cid)) == {} {
      NoStemcell(w.host, c.cid);
      assert c.cid !in Abs(s.w.host).stemcells ==> Abs(s.w.host).stemcells == Abs(w.host).stemcells;
      if Succeeded(s.t) { StemcellMade(w.host, s.w.host, c.cid); }
    } else {
      assert s.w.host.files == w.host.files;
      assert Abs(s.w.host).stemcells == Abs(w.host).stemcells;
    }
  }

  lemma NoStemcell(h: Host, cid: string)
    requires FilesIn(h.files, StemcellId(cid)) == {}
    ensures !HasVmx(h, StemcellId(cid))
  {
    FilesInDir(h.files, StemcellId(cid), StemcellId(cid) + ".vmx");
  }

  lemma StemcellMade(h: Host, k: Host, cid: string)
    requires FilesIn(h.files, StemcellId(cid)) == {}
    requires k.files == h.files[In(StemcellId(cid), StemcellId(cid) + ".vmx") := Vmx(false)]
    ensures HasVmx(k, StemcellId(cid)) && StemcellReady(k, StemcellId(cid))
  {
    var source := StemcellId(cid);
    FilesInDir(h.files, source, "ephemeral.vmdk");
    assert "ephemeral.vmdk"[0] == 'e' && (source + ".vmx")[0] == 'c';
  }

  lemma DeleteStemcellSimulates(w: World, cid: string, ls: seq<Label>)
    ensures var s := Run(Start(w, DeleteStemcell(cid)), ls);
            && AFailure(Abs(w.host), DeleteStemcell(cid), Abs(s.w.host))
            && (Succeeded(s.t) ==> AStep(Abs(w.host), DeleteStemcell(cid), Abs(s.w.host)))
  {
    var s := Run(Start(w, DeleteStemcell(cid)), ls);
    var source := StemcellId(cid);
    CallFrame(w, DeleteStemcell(cid), ls);
    StemcellCallFrame(w.host, s.w.host, cid);
    DestroyResult(w, source, Idle, ls);
    DestroyingRun(Start(w, DeleteStemcell(cid)), ls);
    if Succeeded(s.t) {
      assert Under(In(source, source + ".vmx"), source);
      ButOne(Abs(w.host).stemcells, Abs(s.w.host).stemcells, cid);
    }
  }

  // ---------- Histories ----------

  ghost predicate AMove(a: Abstract, c: Call, ok: bool, b: Abstract) {
    if ok then AStep(a, c, b) else AFailure(a, c, b)
  }

  /** Every call, as far as it gets, moves the abstract machine as it should. */
  lemma CallSimulates(w: World, c: Call, ls: seq<Label>, n: nat)
    requires GeneratedDisk(c, n) && AllTidy(w.host, n)
    ensures AMove(Abs(w.host), c, Succeeded(Run(Start(w, c), ls).t), Abs(Run(Start(w, c), ls).w.host))
    ensures AllTidy(Run(Start(w, c), ls).w.host, n)
  {
    TidyProgram(c, n);
    RunTidy(Start(w, c), ls, n);
    match c
    case CreateStemcell(_) => CreateStemcellSimulates(w, c, ls);
    case DeleteStemcell(cid) => DeleteStemcellSimulates(w, cid, ls);
    case CreateVM(_, _, _, _, _, _, _) => CreateSimulates(w, c, ls);
    case DeleteVM(cid) => DeleteSimulates(w, cid, ls);
    case CreateDisk(_, _) => CreateDiskSimulates(w, c, ls);
    case DeleteDisk(cid) => DeleteDiskSimulates(w, cid, ls);
    case _ => DiskCallSimulates(w, c, ls, n);
  }

  /** Each call of the history moves the abstract machine as it should. */
  ghost predicate Refines(w: World, ops: seq<Op>)
    decreases |ops|
  {
    ops != [] ==>
      var r := AfterOp(w, ops[0]);
      && AMove(Abs(w.host), ops[0].call, Succeeded(Run(Start(w, ops[0].call), ops[0].ls).t), Abs(r.host))
      && Refines(r, ops[1..])
  }

  /** Refinement: every history of calls, each stopping or failing anywhere, is a history of
      the abstract machine, in which every successful call is one atomic step. */
  lemma {:induction false} HistoryRefines(w: World, ops: seq<Op>, n: nat)
    requires AllTidy(w.host, n) && forall i :: 0 <= i < |ops| ==> GeneratedDisk(ops[i].call, n)
    ensures Refines(w, ops)
    decreases |ops|
  {
    if ops != [] {
      CallSimulates(w, ops[0].call, ops[0].ls, n);
      HistoryRefines(AfterOp(w, ops[0]), ops[1..], n);
    }
  }
}
