/** The CPI calls as fail-fast command programs, run one small step at a time. */
module Machine {
  import opened Names
  import opened Lookup
  import opened Host

  datatype Edit = Add(disk: string) | Drop(disk: string)

  /** One step of a call. `Inspect`, `Sweep`, `FindLink` and `EditEnv` continue with further
      steps that depend on what they saw. */
  datatype Action =
    | Do(cmd: Cmd)
    | Inspect(vm: string)                       // vm.info: what is there to stop and destroy?
    | Sweep(name: string)                       // datastore.ls: remove `name` if it is listed
    | FindLink(vm: string, diskId: string)      // device.info: remove the disk's device
    | Fork                                      // start the goroutine that powers the VM on
    | Poll                                      // vm.info: wait for the blocking question
    | WriteEnv(env: Env)                        // /tmp/env.json, then the local ISO
    | EditEnv(vm: string, edit: Edit)           // read /tmp/env.json back and change it

  /** The power-on goroutine: not started, about to issue vm.power, blocked in it, over. */
  datatype Goroutine = Idle | Ready | Blocked | Over

  /** A call in progress on the VM or object `own`. A call that fails drops what it had
      still to do. */
  datatype Task = Task(own: string, todo: seq<Action>, bg: Goroutine, failed: bool)

  /** The host and what the one environment file, /tmp/env.json, holds, if it can be read. */
  datatype World = World(host: Host, cell: Option<Env>)

  datatype State = State(w: World, t: Task)

  /** Who moves: the call itself, its goroutine, or the host's power-on in progress. */
  datatype Label = Main(o: Outcome) | Background(o: Outcome) | Ticking

  /** How the goroutine's first move among `ls` ends. */
  function FirstMove(ls: seq<Label>): Option<Fault> {
    if ls == [] then None else if ls[0].Background? then Some(ls[0].o.fault) else FirstMove(ls[1..])
  }

  /** A command that ends so was carried out, whatever it reports. */
  predicate TakesEffect(f: Fault) { f in {NoFault, After} }

  const STATE_NOT_FOUND := "state-not-found"
  const STATE_POWER_ON := "state-on"
  const STATE_POWER_OFF := "state-off"
  const STATE_BLOCKING_QUESTION := "state-blocking-question"

  function VmState(h: Host, vm: string): string {
    if vm !in h.vms then STATE_NOT_FOUND
    else if h.vms[vm].power == Asking then STATE_BLOCKING_QUESTION
    else if h.vms[vm].power == On then STATE_POWER_ON
    else STATE_POWER_OFF
  }

  const PERSISTENT_HINT := Hint("/dev/sdc", "2", "0")

  function Revise(env: Env, edit: Edit): Env {
    match edit
    case Add(disk) => env.(persistent := env.persistent[disk := PERSISTENT_HINT])
    case Drop(disk) => env.(persistent := env.persistent - {disk})
  }

  /** The commands of UpdateVMIso. */
  function UpdateIso(vm: string, env: Env): seq<Action> {
    [Do(CdromDisconnect(vm)), Do(CdromEject(vm)), Do(DatastoreUpload(vm, env)),
     Do(CdromInsert(vm, EnvIso(vm))), Do(CdromConnect(vm))]
  }

  function PublishEnv(vm: string, env: Env): seq<Action> {
    [WriteEnv(env)] + UpdateIso(vm, env)
  }

  /** What DestroyVM does next, by the state it saw. */
  function Teardown(vm: string, st: string): seq<Action> {
    if st == STATE_POWER_ON then [Do(VmPowerOff(vm)), Do(VmDestroy(vm))]
    else if st != STATE_NOT_FOUND then [Do(VmDestroy(vm))]
    else []
  }

  /** The command an action issues, if it issues one. */
  function CommandOf(a: Action, own: string): Option<Cmd> {
    match a
    case Do(cmd) => Some(cmd)
    case Inspect(vm) => Some(VmInfo(vm))
    case Sweep(_) => Some(DatastoreLs)
    case FindLink(vm, _) => Some(DeviceInfo(vm))
    case Poll => Some(VmInfo(own))
    case _ => None
  }

  /** What an action that went well puts in its place. */
  function Expand(a: Action, w: World, own: string): seq<Action> {
    match a
    case Inspect(vm) => Teardown(vm, VmState(w.host, vm))
    case Sweep(name) => if name in Listing(w.host) then [Do(DatastoreRm(name))] else []
    case FindLink(vm, diskId) =>
      if vm in w.host.vms then [Do(DeviceRemove(vm, FindDevice(w.host.vms[vm].devices, diskId)))] else []
    case Poll => if VmState(w.host, own) == STATE_BLOCKING_QUESTION then [] else [Poll]
    case EditEnv(vm, edit) => if w.cell.Some? then PublishEnv(vm, Revise(w.cell.value, edit)) else []
    case _ => []
  }

  /** The environment file after a write; a truncated one cannot be read back. */
  function Saved(cell: Option<Env>, env: Env, write: Write): Option<Env> {
    match write
    case Written => Some(env)
    case Kept => cell
    case Spoiled => None
  }

  /** The world after an action, and whether the action went well. WriteEnv only reports an
      error of opening the local ISO file. An EditEnv without a readable environment file
      ends the call like an error. */
  function Act(a: Action, w: World, own: string, o: Outcome): (World, bool) {
    match a
    case Fork => (w, true)
    case WriteEnv(env) => (w.(cell := Saved(w.cell, env, o.write)), o.fault == NoFault)
    case EditEnv(_, _) => (w, o.fault == NoFault && w.cell.Some?)
    case _ =>
      var (h, ok) := Exec(w.host, CommandOf(a, own).value, o);
      (w.(host := h), ok)
  }

  function MainStep(s: State, o: Outcome): State {
    if s.t.todo == [] then s
    else
      var a, rest := s.t.todo[0], s.t.todo[1..];
      var (w, ok) := Act(a, s.w, s.t.own, o);
      if !ok then State(w, s.t.(todo := [], failed := true))
      else State(w, s.t.(todo := Expand(a, s.w, s.t.own) + rest, bg := if a.Fork? then Ready else s.t.bg))
  }

  /** The goroutine: its error is only logged. It stays blocked until the VM is on, or gone. */
  function BackgroundStep(s: State, o: Outcome): State {
    match s.t.bg
    case Ready =>
      var (h, ok) := Exec(s.w.host, VmPowerOn(s.t.own), o);
      State(s.w.(host := h), s.t.(bg := if ok then Blocked else Over))
    case Blocked =>
      if s.t.own !in s.w.host.vms || s.w.host.vms[s.t.own].power in {On, Off}
      then s.(t := s.t.(bg := Over)) else s
    case _ => s
  }

  function Step(s: State, l: Label): State {
    match l
    case Main(o) => MainStep(s, o)
    case Background(o) => BackgroundStep(s, o)
    case Ticking => s.(w := s.w.(host := Tick(s.w.host, s.t.own)))
  }

  function Run(s: State, ls: seq<Label>): State
    decreases |ls|
  {
    if ls == [] then s else Run(Step(s, ls[0]), ls[1..])
  }

  predicate Finished(t: Task) { t.todo == [] }

  predicate Succeeded(t: Task) { t.todo == [] && !t.failed }

  lemma {:induction false} RunSplit(s: State, ls: seq<Label>, ms: seq<Label>)
    ensures Run(s, ls + ms) == Run(Run(s, ls), ms)
    decreases |ls|
  {
    if ls == [] {
      assert ls + ms == ms;
    } else {
      assert (ls + ms)[1..] == ls[1..] + ms;
      RunSplit(Step(s, ls[0]), ls[1..], ms);
    }
  }

  /** How a task moves through a program whose last `m` steps are still to do. */
  lemma Advance(s: State, o: Outcome, prog: seq<Action>, m: nat)
    requires 0 < m <= |prog| && s.t.todo == prog[|prog| - m..]
    ensures var a := prog[|prog| - m];
            var (w, ok) := Act(a, s.w, s.t.own, o);
            var bg := if a.Fork? then Ready else s.t.bg;
            && (!ok ==> MainStep(s, o) == State(w, s.t.(todo := [], failed := true)))
            && (ok && Expand(a, s.w, s.t.own) == [] ==>
                  MainStep(s, o) == State(w, s.t.(todo := prog[|prog| - (m - 1)..], bg := bg)))
            && (ok && Expand(a, s.w, s.t.own) == [a] ==> MainStep(s, o) == State(w, s.t.(bg := bg)))
  {
    var a := prog[|prog| - m];
    assert s.t.todo[0] == a;
    assert [] + s.t.todo[1..] == s.t.todo[1..] == prog[|prog| - (m - 1)..];
    assert [a] + s.t.todo[1..] == s.t.todo;
  }

  // ---------- The calls ----------

  datatype Net = Net(name: string, spec: NetSpec)

  datatype Call =
    | CreateStemcell(cid: string)
    | DeleteStemcell(cid: string)
    | CreateVM(cid: string, stemcell: string, agent: string, cpus: int, ram: int, mb: int, nets: seq<Net>)
    | DeleteVM(cid: string)
    | CreateDisk(cid: string, mb: int)
    | DeleteDisk(cid: string)
    | AttachDisk(cid: string, disk: string)
    | DetachDisk(cid: string, disk: string)

  function CloneVm(source: string, vm: string): seq<Action> {
    [Do(DatastoreCp(source, vm)), Do(VmRegister(In(vm, source + ".vmx"), vm)), Do(VmChangeHardware(vm))]
  }

  /** One vm.network.add per network. Failing to generate a MAC address shows as a step
      that fails without effect. */
  function AddNetworks(vm: string, nets: seq<Net>): seq<Action> {
    seq(|nets|, i requires 0 <= i < |nets| => Do(VmNetworkAdd(vm, nets[i].spec.adapter, nets[i].spec.mac)))
  }

  function NetTable(nets: seq<Net>): map<string, NetSpec> {
    if nets == [] then map[]
    else NetTable(nets[..|nets| - 1])[nets[|nets| - 1].name := nets[|nets| - 1].spec]
  }

  function NewEnv(cid: string, agent: string, nets: seq<Net>): Env {
    Env(agent, cid, NetTable(nets), "0", "1", map[])
  }

  function StartVm(vm: string): seq<Action> { [Fork, Poll, Do(VmQuestion(vm))] }

  function BuildVm(vm: string, source: string, cpus: int, ram: int, mb: int, nets: seq<Net>): seq<Action> {
    CloneVm(source, vm) + [Do(VmChangeResources(vm, cpus, ram))] + AddNetworks(vm, nets)
    + [Do(VmDiskCreate(vm, In(vm, "ephemeral.vmdk"), mb))]
  }

  function DestroyVm(vm: string): seq<Action> { [Inspect(vm), Sweep(vm)] }

  function Program(c: Call): seq<Action> {
    match c
    case CreateStemcell(cid) => [Do(ImportOvf(StemcellId(cid)))]
    case DeleteStemcell(cid) => DestroyVm(StemcellId(cid))
    case CreateVM(cid, stemcell, agent, cpus, ram, mb, nets) =>
      BuildVm(VmId(cid), StemcellId(stemcell), cpus, ram, mb, nets)
      + PublishEnv(VmId(cid), NewEnv(cid, agent, nets)) + StartVm(VmId(cid))
    case DeleteVM(cid) => DestroyVm(VmId(cid))
    case CreateDisk(cid, mb) => [Do(DatastoreDiskCreate(DiskFile(cid), mb))]
    case DeleteDisk(cid) => [Sweep(DiskFile(cid))]
    case AttachDisk(cid, disk) => [Do(VmDiskAttach(VmId(cid), DiskFile(disk))), EditEnv(VmId(cid), Add(disk))]
    case DetachDisk(cid, disk) => [FindLink(VmId(cid), DiskId(disk)), EditEnv(VmId(cid), Drop(disk))]
  }

  /** The VM or root object that a call is about. */
  function OwnName(c: Call): string {
    match c
    case CreateStemcell(cid) => StemcellId(cid)
    case DeleteStemcell(cid) => StemcellId(cid)
    case CreateDisk(cid, _) => DiskFile(cid)
    case DeleteDisk(cid) => DiskFile(cid)
    case _ => VmId(c.cid)
  }

  function Start(w: World, c: Call): State { State(w, Task(OwnName(c), Program(c), Idle, false)) }

  predicate Succeeds(w: World, c: Call, ls: seq<Label>) { Succeeded(Run(Start(w, c), ls).t) }

  // ---------- Frame ----------

  /** The action touches nothing that `own` does not own. */
  predicate OwnAction(a: Action, own: string) {
    match a
    case Do(cmd) => Target(cmd) == own && OwnPaths(cmd)
    case Sweep(name) => name == own
    case WriteEnv(_) => true
    case Fork => true
    case Poll => true
    case _ => a.vm == own
  }

  predicate OwnAll(todo: seq<Action>, own: string) {
    forall i :: 0 <= i < |todo| ==> OwnAction(todo[i], own)
  }

  predicate OwnTask(t: Task) { OwnAll(t.todo, t.own) }

  lemma OwnConcat(x: seq<Action>, y: seq<Action>, own: string)
    requires OwnAll(x, own) && OwnAll(y, own)
    ensures OwnAll(x + y, own)
  {
  }

  lemma ProgramOwn(c: Call)
    ensures OwnAll(Program(c), OwnName(c))
  {
    if c.CreateVM? {
      CreateOwn(c);
    } else {
      assert forall i :: 0 <= i < |Program(c)| ==> OwnAction(Program(c)[i], OwnName(c));
    }
  }

  lemma CreateOwn(c: Call)
    requires c.CreateVM?
    ensures OwnAll(Program(c), VmId(c.cid))
  {
    var vm := VmId(c.cid);
    var build := BuildVm(vm, StemcellId(c.stemcell), c.cpus, c.ram, c.mb, c.nets);
    var publish := PublishEnv(vm, NewEnv(c.cid, c.agent, c.nets));
    BuildOwn(c);
    PublishOwn(vm, NewEnv(c.cid, c.agent, c.nets));
    OwnConcat(build, publish, vm);
    OwnConcat(build + publish, StartVm(vm), vm);
  }

  lemma PublishOwn(vm: string, env: Env)
    ensures OwnAll(PublishEnv(vm, env), vm) && OwnAll(StartVm(vm), vm)
  {
  }

  lemma BuildOwn(c: Call)
    requires c.CreateVM?
    ensures OwnAll(BuildVm(VmId(c.cid), StemcellId(c.stemcell), c.cpus, c.ram, c.mb, c.nets), VmId(c.cid))
  {
    var vm := VmId(c.cid);
    var disk: seq<Action> := [Do(VmDiskCreate(vm, In(vm, "ephemeral.vmdk"), c.mb))];
    var front := CloneVm(StemcellId(c.stemcell), vm) + [Do(VmChangeResources(vm, c.cpus, c.ram))];
    OwnConcat(front, AddNetworks(vm, c.nets), vm);
    OwnConcat(front + AddNetworks(vm, c.nets), disk, vm);
  }

  lemma StepFrame(s: State, l: Label)
    requires OwnTask(s.t)
    ensures OwnTask(Step(s, l).t) && Step(s, l).t.own == s.t.own
    ensures OnlyTouches(s.w.host, Step(s, l).w.host, s.t.own)
  {
    match l
    case Main(o) => MainStepFrame(s, o);
    case Background(o) => ExecFrame(s.w.host, VmPowerOn(s.t.own), o);
    case Ticking =>
  }

  lemma MainStepFrame(s: State, o: Outcome)
    requires OwnTask(s.t)
    ensures OwnTask(MainStep(s, o).t) && MainStep(s, o).t.own == s.t.own
    ensures OnlyTouches(s.w.host, MainStep(s, o).w.host, s.t.own)
  {
    if s.t.todo != [] {
      var a := s.t.todo[0];
      assert OwnAction(a, s.t.own);
      ActFrame(a, s.w, s.t.own, o);
      ExpandOwn(a, s.w, s.t.own);
      OwnConcat(Expand(a, s.w, s.t.own), s.t.todo[1..], s.t.own);
    }
  }

  lemma ActFrame(a: Action, w: World, own: string, o: Outcome)
    requires OwnAction(a, own)
    ensures OnlyTouches(w.host, Act(a, w, own, o).0.host, own)
  {
    if CommandOf(a, own).Some? {
      var cmd := CommandOf(a, own).value;
      if a.Sweep? {
        assert Exec(w.host, cmd, o).0 == w.host;
      } else {
        ExecFrame(w.host, cmd, o);
      }
    }
  }

  lemma ExpandOwn(a: Action, w: World, own: string)
    requires OwnAction(a, own)
    ensures OwnAll(Expand(a, w, own), own)
  {
  }

  /** Frame theorem: however far a call gets, whatever fails on the way and however its
      goroutine is scheduled, it touches only what the call's own object owns. */
  lemma {:induction false} RunFrame(s: State, ls: seq<Label>)
    requires OwnTask(s.t)
    ensures OwnTask(Run(s, ls).t) && Run(s, ls).t.own == s.t.own
    ensures OnlyTouches(s.w.host, Run(s, ls).w.host, s.t.own)
    decreases |ls|
  {
    if ls != [] {
      StepFrame(s, ls[0]);
      RunFrame(Step(s, ls[0]), ls[1..]);
    }
  }

  lemma CallFrame(w: World, c: Call, ls: seq<Label>)
    ensures OnlyTouches(w.host, Run(Start(w, c), ls).w.host, OwnName(c))
  {
    ProgramOwn(c);
    RunFrame(Start(w, c), ls);
  }
}
