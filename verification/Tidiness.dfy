/** What the disk lookup relies on holds in every state that calls can reach. */
module Tidiness {
  import opened Names
  import opened Lookup
  import opened Host
  import opened Machine
  import opened Agreement
  import opened Pool

  ghost predicate AllTidy(h: Host, n: nat) {
    !Contains(h.ds, "disk-") && forall v :: v in h.vms ==> Tidy(h.vms[v].devices, h.ds, n)
  }

  /** Only disks with generated ids are attached. */
  predicate TidyCmd(c: Cmd, n: nat) {
    c.VmDiskAttach? ==>
      |c.disk| >= 10 && c.disk == DiskFile(c.disk[5..|c.disk| - 5]) && GeneratedId(c.disk[5..|c.disk| - 5], n)
  }

  predicate TidyAll(todo: seq<Action>, n: nat) {
    forall i :: 0 <= i < |todo| && todo[i].Do? ==> TidyCmd(todo[i].cmd, n)
  }

  predicate GeneratedDisk(c: Call, n: nat) { c.AttachDisk? || c.DetachDisk? ==> GeneratedId(c.disk, n) }

  lemma TidyProgram(c: Call, n: nat)
    requires GeneratedDisk(c, n)
    ensures TidyAll(Program(c), n)
  {
    if c.AttachDisk? {
      var file := DiskFile(c.disk);
      assert file[5..|file| - 5] == c.disk;
    }
  }

  lemma TidyOne(d: Device, ds: string, n: nat)
    requires !Contains(ds, "disk-") && d.name != "" && d.parent == ""
    ensures Tidy([d], ds, n)
  {
  }

  lemma TidyMore(devices: seq<Device>, d: Device, ds: string, n: nat)
    requires Tidy(devices, ds, n) && RegularParent(d.parent, ds, n)
    requires d.name != "" && forall e :: e in devices ==> e.name != d.name
    ensures Tidy(devices + [d], ds, n)
  {
  }

  lemma TidyWithout(devices: seq<Device>, name: string, ds: string, n: nat)
    requires Tidy(devices, ds, n)
    ensures Tidy(WithoutDevice(devices, name), ds, n)
  {
    if i :| 0 <= i < |devices| && devices[i].name == name {
      RemoveByName(devices, i);
      TidyCut(devices, i, ds, n);
    } else {
      NotThere(devices, name);
    }
  }

  lemma {:induction false} NotThere(devices: seq<Device>, name: string)
    requires forall i :: 0 <= i < |devices| ==> devices[i].name != name
    ensures WithoutDevice(devices, name) == devices
  {
    if devices != [] {
      NotThere(devices[1..], name);
      assert [devices[0]] + devices[1..] == devices;
    }
  }

  lemma EffectTidy(h: Host, c: Cmd, o: Outcome, n: nat)
    requires AllTidy(h, n) && TidyCmd(c, n) && Accepts(h, c, o)
    ensures AllTidy(Effect(h, c, o), n)
  {
    match c
    case ImportOvf(_) => TidyOne(ROOT_DISK, h.ds, n);
    case VmRegister(_, _) => TidyOne(ROOT_DISK, h.ds, n);
    case VmDiskCreate(vm, _, _) => TidyMore(h.vms[vm].devices, Device(o.device, ""), h.ds, n);
    case VmDiskAttach(vm, disk) =>
      assert disk == DiskFile(disk[5..|disk| - 5]) && GeneratedId(disk[5..|disk| - 5], n);
      TidyMore(h.vms[vm].devices, Device(o.device, ParentName(h.ds, disk)), h.ds, n);
    case DeviceRemove(vm, device) => TidyWithout(h.vms[vm].devices, device, h.ds, n);
    case DatastoreCp(_, _) =>
    case DatastoreUpload(_, _) =>
    case VmDestroy(_) =>
    case DatastoreRm(_) =>
    case DatastoreDiskCreate(_, _) =>
    case _ =>
  }

  lemma ExecTidy(h: Host, c: Cmd, o: Outcome, n: nat)
    requires AllTidy(h, n) && TidyCmd(c, n)
    ensures AllTidy(Exec(h, c, o).0, n)
  {
    if Accepts(h, c, o) && o.fault in {NoFault, After} {
      EffectTidy(h, c, o, n);
    }
  }

  lemma StepTidy(s: State, l: Label, n: nat)
    requires AllTidy(s.w.host, n) && TidyAll(s.t.todo, n)
    ensures AllTidy(Step(s, l).w.host, n) && TidyAll(Step(s, l).t.todo, n)
  {
    match l
    case Main(o) =>
      if s.t.todo != [] {
        var a := s.t.todo[0];
        if CommandOf(a, s.t.own).Some? {
          ExecTidy(s.w.host, CommandOf(a, s.t.own).value, o, n);
        }
        assert TidyAll(Expand(a, s.w, s.t.own), n);
      }
    case Background(o) => ExecTidy(s.w.host, VmPowerOn(s.t.own), o, n);
    case Ticking =>
  }

  lemma {:induction false} RunTidy(s: State, ls: seq<Label>, n: nat)
    requires AllTidy(s.w.host, n) && TidyAll(s.t.todo, n)
    ensures AllTidy(Run(s, ls).w.host, n)
    decreases |ls|
  {
    if ls != [] {
      StepTidy(s, ls[0], n);
      RunTidy(Step(s, ls[0]), ls[1..], n);
    }
  }

  ghost predicate TidySystem(y: System, n: nat) {
    AllTidy(y.w.host, n) && forall o :: o in y.tasks ==> TidyAll(y.tasks[o].todo, n)
  }

  /** Regular device lists everywhere: in every interleaved run of any calls, stopping and
      failing anywhere, in which only disks with generated ids are attached, the devices of
      every VM keep the names that the lookup of a disk's device relies on. */
  lemma {:induction false} AlwaysTidy(y: System, ms: seq<Move>, n: nat)
    requires TidySystem(y, n) && forall m :: m in ms && m.Launch? ==> GeneratedDisk(m.call, n)
    ensures TidySystem(RunPool(y, ms), n)
    decreases |ms|
  {
    if ms != [] {
      assert ms[0] in ms && forall m :: m in ms[1..] ==> m in ms;
      match ms[0] {
        case Launch(c) => TidyProgram(c, n);
        case Take(own, l) =>
          if own in y.tasks {
            StepTidy(State(y.w, y.tasks[own]), l, n);
          }
      }
      AlwaysTidy(PoolStep(y, ms[0]), ms[1..], n);
    }
  }

  /** The lookup is right in every reachable state: it names the last device linked to the
      disk, and nothing if there is none. */
  lemma LookupInRuns(y: System, ms: seq<Move>, vm: string, disk: string, n: nat)
    requires TidySystem(y, n) && GeneratedId(disk, n)
    requires forall m :: m in ms && m.Launch? ==> GeneratedDisk(m.call, n)
    ensures var h := RunPool(y, ms).w.host;
            vm in h.vms ==>
              var devices, parent := h.vms[vm].devices, ParentName(h.ds, DiskFile(disk));
              && (FindDevice(devices, DiskId(disk)) == "" <==> Linked(devices, parent) == 0)
              && (FindDevice(devices, DiskId(disk)) != "" ==>
                    exists i: nat ::
                      LastLink(devices, parent, i) && devices[i].name == FindDevice(devices, DiskId(disk)))
  {
    AlwaysTidy(y, ms, n);
    var h := RunPool(y, ms).w.host;
    if vm in h.vms {
      FindDeviceCorrect(h.vms[vm].devices, h.ds, disk, n);
    }
  }
}
