/** An abstract ESXi host: the registered VMs and the objects of one datastore, and
    what each govc command may do to them. */
module Host {
  import opened Names
  import opened Lookup

  datatype Option<+T> = None | Some(value: T)

  /** `Starting`: power-on was accepted and is in progress. `Asking`: it waits for the
      blocking question to be answered. */
  datatype Power = Off | Starting | Asking | On

  datatype Cdrom = Cdrom(connected: bool, iso: Option<Path>)

  datatype Nic = Nic(network: string, mac: string)

  /** `copied`: the VM's files were copied, so that its next power-on asks a question. */
  datatype Vm = Vm(
    power: Power, copied: bool, nested: bool, cpus: int, ram: int,
    nics: seq<Nic>, cdrom: Cdrom, devices: seq<Device>)

  datatype Hint = Hint(path: string, volume: string, lun: string)

  datatype NetSpec = NetSpec(adapter: string, mac: string)

  /** What the agent of a VM is told about it. */
  datatype Env = Env(
    agent: string, vm: string, networks: map<string, NetSpec>,
    system: string, ephemeral: string, persistent: map<string, Hint>)

  datatype Content = Plain | Disk(mb: int) | Vmx(copied: bool) | Iso(env: Env)

  datatype Host = Host(ds: string, vms: map<string, Vm>, files: map<Path, Content>)

  datatype Cmd =
    | ImportOvf(name: string)
    | DatastoreCp(src: string, dst: string)
    | VmRegister(vmx: Path, name: string)
    | VmChangeHardware(vm: string)
    | VmChangeResources(vm: string, cpus: int, ram: int)
    | VmNetworkAdd(vm: string, network: string, mac: string)
    | VmDiskCreate(vm: string, path: Path, mb: int)
    | CdromDisconnect(vm: string)
    | CdromEject(vm: string)
    | DatastoreUpload(vm: string, env: Env)   // to the ISO path of `vm`
    | CdromInsert(vm: string, iso: Path)
    | CdromConnect(vm: string)
    | VmPowerOn(vm: string)
    | VmPowerOff(vm: string)
    | VmInfo(vm: string)
    | VmQuestion(vm: string)                  // answer "2", "I copied it"
    | VmDestroy(vm: string)
    | DatastoreLs
    | DatastoreRm(name: string)
    | DatastoreDiskCreate(disk: string, mb: int)
    | VmDiskAttach(vm: string, disk: string)
    | DeviceInfo(vm: string)
    | DeviceRemove(vm: string, device: string)

  /** How a command ends: well, or with an error before it took effect, after it did, or
      half-way. */
  datatype Fault = NoFault | Before | After | Halfway

  /** How writing the environment file went: it may fail without effect, or leave a
      truncated file. The caller does not learn which. */
  datatype Write = Written | Kept | Spoiled

  /** Everything the environment decides about one step. `some` selects the files that a
      half-way command got to, or that vm.destroy leaves behind; `device` and `cdrom` are
      the host's choices for a new device and for a newly registered VM. `write` is what
      became of a write to the environment file, and `intact` tells whether the local ISO
      file that an upload sends is whole: it is private to the process until then. */
  datatype Outcome = Outcome(fault: Fault, some: set<string>, device: string, cdrom: Cdrom, write: Write, intact: bool)

  const ROOT_DISK := Device("disk-1000-0", "")

  function FilesIn(files: map<Path, Content>, dir: string): set<string> {
    set p | p in files && p.In? && p.dir == dir :: p.file
  }

  function AsCopy(c: Content): Content {
    if c.Vmx? then Vmx(true) else c
  }

  function CopyFiles(files: map<Path, Content>, src: string, dst: string, names: set<string>): map<Path, Content>
    requires names <= FilesIn(files, src)
  {
    files + map f | f in names :: In(dst, f) := AsCopy(files[In(src, f)])
  }

  /** The path is the root object `name` or lies in the directory of that name. */
  predicate Under(p: Path, name: string) {
    (p.Root? && p.name == name) || (p.In? && p.dir == name)
  }

  function RemoveTree(files: map<Path, Content>, name: string): map<Path, Content> {
    map p | p in files && !Under(p, name) :: files[p]
  }

  /** The directory without its files, except those in `left`. */
  function RemoveFiles(files: map<Path, Content>, dir: string, left: set<string>): map<Path, Content> {
    map p | p in files && !(p.In? && p.dir == dir && p.file !in left) :: files[p]
  }

  /** The root listing that datastore.ls prints. */
  function Listing(h: Host): set<string> {
    set p | p in h.files :: Top(p)
  }

  predicate FreshDevice(vm: Vm, name: string) {
    name != "" && forall d :: d in vm.devices ==> d.name != name
  }

  predicate HasDevice(vm: Vm, name: string) {
    exists d | d in vm.devices :: d.name == name
  }

  /** The device list without the first device of that name. */
  function WithoutDevice(devices: seq<Device>, name: string): seq<Device> {
    if devices == [] then []
    else if devices[0].name == name then devices[1..]
    else [devices[0]] + WithoutDevice(devices[1..], name)
  }

  /** Whether the host carries the command out rather than refusing it. */
  predicate Accepts(h: Host, c: Cmd, o: Outcome) {
    match c
    case ImportOvf(name) => name !in h.vms && FilesIn(h.files, name) == {}
    case DatastoreCp(src, dst) =>
      FilesIn(h.files, src) != {} && (forall p :: p in h.files ==> !Under(p, dst))
    case VmRegister(vmx, name) => name !in h.vms && vmx in h.files && h.files[vmx].Vmx?
    case VmNetworkAdd(vm, _, _) => vm in h.vms
    case VmDiskCreate(vm, disk, _) => vm in h.vms && disk !in h.files && FreshDevice(h.vms[vm], o.device)
    case DatastoreUpload(vm, _) => vm in h.vms ==> h.vms[vm].cdrom != Cdrom(true, Some(EnvIso(vm)))
    case CdromInsert(vm, iso) => vm in h.vms && iso in h.files
    case VmPowerOn(vm) => vm in h.vms && h.vms[vm].power == Off
    case VmPowerOff(vm) => vm in h.vms && h.vms[vm].power == On
    case VmInfo(_) => true
    case VmDestroy(vm) => vm in h.vms && h.vms[vm].power != On
    case DatastoreLs => true
    case DatastoreRm(_) => true
    case DatastoreDiskCreate(disk, _) => Root(disk) !in h.files
    case VmDiskAttach(vm, disk) => vm in h.vms && Root(disk) in h.files && FreshDevice(h.vms[vm], o.device)
    case DeviceRemove(vm, device) => vm in h.vms && HasDevice(h.vms[vm], device)
    case _ => c.vm in h.vms
  }

  function Imported(o: Outcome): Vm { Vm(Off, false, false, 1, 1, [], o.cdrom, [ROOT_DISK]) }

  /** Some of the files of an import. */
  function ImportSome(files: map<Path, Content>, name: string, names: set<string>): map<Path, Content> {
    files + map f | f in names :: In(name, f) := if f == name + ".vmx" then Vmx(false) else Plain
  }

  /** What an accepted command does. */
  function Effect(h: Host, c: Cmd, o: Outcome): Host
    requires Accepts(h, c, o)
  {
    match c
    case ImportOvf(name) =>
      h.(vms := h.vms[name := Imported(o)], files := h.files[In(name, name + ".vmx") := Vmx(false)])
    case DatastoreCp(src, dst) => h.(files := CopyFiles(h.files, src, dst, FilesIn(h.files, src)))
    case VmRegister(vmx, name) =>
      h.(vms := h.vms[name := Vm(Off, h.files[vmx].copied, false, 1, 1, [], o.cdrom, [ROOT_DISK])])
    case VmDiskCreate(vm, disk, mb) =>
      h.(vms := h.vms[vm := h.vms[vm].(devices := h.vms[vm].devices + [Device(o.device, "")])],
         files := h.files[disk := Disk(mb)])
    case DatastoreUpload(vm, env) => h.(files := h.files[EnvIso(vm) := if o.intact then Iso(env) else Plain])
    case VmInfo(_) => h
    case DatastoreLs => h
    case DeviceInfo(_) => h
    case VmDestroy(vm) => h.(vms := h.vms - {vm}, files := RemoveFiles(h.files, vm, o.some))
    case DatastoreRm(name) => h.(files := RemoveTree(h.files, name))
    case DatastoreDiskCreate(disk, mb) => h.(files := h.files[Root(disk) := Disk(mb)])
    case _ => h.(vms := h.vms[c.vm := Configured(h.vms[c.vm], h.ds, c, o)])
  }

  /** What a command that reconfigures one VM makes of it. */
  function Configured(v: Vm, ds: string, c: Cmd, o: Outcome): Vm {
    match c
    case VmChangeHardware(_) => v.(nested := true)
    case VmChangeResources(_, cpus, ram) => v.(cpus := cpus, ram := ram)
    case VmNetworkAdd(_, network, mac) => v.(nics := v.nics + [Nic(network, mac)])
    case CdromDisconnect(_) => v.(cdrom := v.cdrom.(connected := false))
    case CdromEject(_) => v.(cdrom := v.cdrom.(iso := None))
    case CdromInsert(_, iso) => v.(cdrom := v.cdrom.(iso := Some(iso)))
    case CdromConnect(_) => v.(cdrom := v.cdrom.(connected := true))
    case VmPowerOn(_) => v.(power := Starting)
    case VmPowerOff(_) => v.(power := Off)
    case VmQuestion(_) => if v.power == Asking then v.(power := On, copied := false) else v
    case VmDiskAttach(_, disk) => v.(devices := v.devices + [Device(o.device, ParentName(ds, disk))])
    case DeviceRemove(_, device) => v.(devices := WithoutDevice(v.devices, device))
    case _ => v
  }

  /** What is left of an accepted command that fails half-way: a partial import or copy, a
      partial upload, a partial removal, or a VM that was switched off but not destroyed. */
  function HalfEffect(h: Host, c: Cmd, o: Outcome): Host
    requires Accepts(h, c, o)
  {
    match c
    case ImportOvf(name) => h.(vms := h.vms[name := Imported(o)], files := ImportSome(h.files, name, o.some))
    case DatastoreCp(src, dst) => h.(files := CopyFiles(h.files, src, dst, FilesIn(h.files, src) * o.some))
    case DatastoreUpload(vm, _) => h.(files := h.files[EnvIso(vm) := Plain])
    case DatastoreRm(name) => h.(files := RemoveFiles(h.files, name, o.some))
    case VmDestroy(vm) => h.(vms := h.vms[vm := h.vms[vm].(power := Off)])
    case _ => h
  }

  /** One command: the host afterwards and whether the command reported success. */
  function Exec(h: Host, c: Cmd, o: Outcome): (Host, bool) {
    if !Accepts(h, c, o) then (h, false)
    else
      match o.fault
      case NoFault => (Effect(h, c, o), true)
      case Before => (h, false)
      case After => (Effect(h, c, o), false)
      case Halfway => (HalfEffect(h, c, o), false)
  }

  /** The host gets round to a power-on in progress: a copied VM raises the blocking
      question, any other comes up. */
  function Tick(h: Host, vm: string): Host {
    if vm in h.vms && h.vms[vm].power == Starting then
      h.(vms := h.vms[vm := h.vms[vm].(power := if h.vms[vm].copied then Asking else On)])
    else h
  }

  /** The VM (or root object) that a command changes; queries change nothing. */
  function Target(c: Cmd): string {
    match c
    case ImportOvf(name) => name
    case DatastoreCp(_, dst) => dst
    case VmRegister(_, name) => name
    case DatastoreLs => ""
    case DatastoreRm(name) => name
    case DatastoreDiskCreate(disk, _) => disk
    case _ => c.vm
  }

  /** The path, if any, that a command names belongs to the command's own target. */
  predicate OwnPaths(c: Cmd) {
    match c
    case VmDiskCreate(vm, disk, _) => Owner(disk) == vm
    case VmRegister(vmx, name) => Owner(vmx) == name
    case CdromInsert(vm, iso) => Owner(iso) == vm
    case _ => true
  }

  /** The two hosts differ in what `own` owns at most. */
  ghost predicate OnlyTouches(h: Host, k: Host, own: string) {
    && h.ds == k.ds
    && (forall v :: v != own ==> (v in h.vms <==> v in k.vms) && (v in h.vms ==> h.vms[v] == k.vms[v]))
    && (forall p :: Owner(p) != own ==> (p in h.files <==> p in k.files) && (p in h.files ==> h.files[p] == k.files[p]))
  }

  /** Frame: whatever its outcome, a command touches what its target owns and no more. */
  lemma ExecFrame(h: Host, c: Cmd, o: Outcome)
    requires OwnPaths(c)
    ensures OnlyTouches(h, Exec(h, c, o).0, Target(c))
  {
    if Accepts(h, c, o) {
      match o.fault
      case NoFault => EffectFrame(h, c, o);
      case After => EffectFrame(h, c, o);
      case Halfway => HalfEffectFrame(h, c, o);
      case Before =>
    }
  }

  lemma EffectFrame(h: Host, c: Cmd, o: Outcome)
    requires OwnPaths(c) && Accepts(h, c, o)
    ensures OnlyTouches(h, Effect(h, c, o), Target(c))
  {
    match c
    case ImportOvf(_) =>
    case DatastoreCp(_, _) =>
    case VmRegister(_, _) =>
    case VmDiskCreate(_, _, _) =>
    case DatastoreUpload(_, _) =>
    case VmDestroy(_) =>
    case DatastoreRm(_) =>
    case DatastoreDiskCreate(_, _) =>
    case _ =>
  }

  lemma HalfEffectFrame(h: Host, c: Cmd, o: Outcome)
    requires OwnPaths(c) && Accepts(h, c, o)
    ensures OnlyTouches(h, HalfEffect(h, c, o), Target(c))
  {
    match c
    case ImportOvf(_) =>
    case DatastoreUpload(_, _) =>
    case DatastoreCp(_, _) =>
    case DatastoreRm(_) =>
    case VmDestroy(_) =>
    case _ =>
  }

  /** The two hosts agree on what `own` owns. */
  ghost predicate SameOwn(h: Host, k: Host, own: string) {
    && h.ds == k.ds
    && (own in h.vms <==> own in k.vms) && (own in h.vms ==> h.vms[own] == k.vms[own])
    && (forall p :: Owner(p) == own ==> (p in h.files <==> p in k.files) && (p in h.files ==> h.files[p] == k.files[p]))
  }

  /** The commands that look at nothing but their target, beyond the directory a copy is taken
      from, or the disk that is attached. */
  predicate Local(c: Cmd) { OwnPaths(c) && !c.DatastoreLs? }

  function SourceOf(c: Cmd): string {
    if c.DatastoreCp? then c.src else if c.VmDiskAttach? then c.disk else Target(c)
  }

  /** Locality: hosts that agree on the target (and the source) are treated
      alike, and agree on the target afterwards. */
  lemma ExecLocal(h: Host, k: Host, c: Cmd, o: Outcome)
    requires Local(c)
    requires SameOwn(h, k, Target(c)) && SameOwn(h, k, SourceOf(c))
    ensures Exec(h, c, o).1 == Exec(k, c, o).1
    ensures SameOwn(Exec(h, c, o).0, Exec(k, c, o).0, Target(c))
  {
    AcceptsLocal(h, k, c, o);
    if Accepts(h, c, o) {
      match o.fault
      case NoFault => EffectLocal(h, k, c, o);
      case After => EffectLocal(h, k, c, o);
      case Halfway => HalfEffectLocal(h, k, c, o);
      case Before =>
    }
  }

  lemma AcceptsLocal(h: Host, k: Host, c: Cmd, o: Outcome)
    requires Local(c)
    requires SameOwn(h, k, Target(c)) && SameOwn(h, k, SourceOf(c))
    ensures Accepts(h, c, o) <==> Accepts(k, c, o)
  {
    match c
    case ImportOvf(name) => SameFiles(h, k, name);
    case DatastoreCp(src, dst) =>
      SameFiles(h, k, src);
      assert forall p :: Under(p, dst) ==> Owner(p) == dst;
    case VmDiskAttach(_, disk) => assert Owner(Root(disk)) == disk;
    case _ =>
  }

  lemma EffectLocal(h: Host, k: Host, c: Cmd, o: Outcome)
    requires Local(c) && Accepts(h, c, o) && Accepts(k, c, o)
    requires SameOwn(h, k, Target(c)) && SameOwn(h, k, SourceOf(c))
    ensures SameOwn(Effect(h, c, o), Effect(k, c, o), Target(c))
  {
    match c
    case ImportOvf(_) =>
    case DatastoreCp(src, _) => SameFiles(h, k, src);
    case VmRegister(_, _) =>
    case VmDiskCreate(_, _, _) =>
    case DatastoreUpload(_, _) =>
    case VmDestroy(_) =>
    case DatastoreRm(_) =>
    case DatastoreDiskCreate(_, _) =>
    case _ =>
  }

  lemma HalfEffectLocal(h: Host, k: Host, c: Cmd, o: Outcome)
    requires Local(c) && Accepts(h, c, o) && Accepts(k, c, o)
    requires SameOwn(h, k, Target(c)) && SameOwn(h, k, SourceOf(c))
    ensures SameOwn(HalfEffect(h, c, o), HalfEffect(k, c, o), Target(c))
  {
    match c
    case ImportOvf(_) =>
    case DatastoreUpload(_, _) =>
    case DatastoreCp(src, _) => SameFiles(h, k, src);
    case DatastoreRm(_) =>
    case VmDestroy(_) =>
    case _ =>
  }

  lemma SameFiles(h: Host, k: Host, dir: string)
    requires SameOwn(h, k, dir)
    ensures FilesIn(h.files, dir) == FilesIn(k.files, dir)
    ensures forall f :: f in FilesIn(h.files, dir) ==> h.files[In(dir, f)] == k.files[In(dir, f)]
  {
    forall f ensures f in FilesIn(h.files, dir) <==> f in FilesIn(k.files, dir) {
      FilesInDir(h.files, dir, f);
      FilesInDir(k.files, dir, f);
    }
    forall f | f in FilesIn(h.files, dir) ensures h.files[In(dir, f)] == k.files[In(dir, f)] {
      assert Owner(In(dir, f)) == dir;
    }
  }

  lemma FilesInDir(files: map<Path, Content>, dir: string, f: string)
    ensures f in FilesIn(files, dir) <==> In(dir, f) in files
  {
    if In(dir, f) in files {
      assert In(dir, f).file == f;
    }
  }
}
