/** One environment file for all VMs: when it is as good as a file per VM, and when not. */
module Cache {
  import opened Names
  import opened Lookup
  import opened Host
  import opened Machine
  import opened Traces
  import opened IsoSwap
  import opened Create
  import opened Disks
  import opened Agreement
  import opened Retry
  import opened Pool

  // ---------- The machine with a file per VM ----------

  /** The same processes, each reading and writing the environment file of its own VM. */
  datatype Ideal = Ideal(host: Host, envs: map<string, Env>, tasks: map<string, Task>)

  function FileOf(envs: map<string, Env>, own: string): Option<Env> {
    if own in envs then Some(envs[own]) else None
  }

  function IdealStep(z: Ideal, m: Move): Ideal {
    match m
    case Launch(c) => z.(tasks := z.tasks[OwnName(c) := Start(World(z.host, None), c).t])
    case Take(own, l) =>
      if own !in z.tasks then z
      else
        var s := Step(State(World(z.host, FileOf(z.envs, own)), z.tasks[own]), l);
        Ideal(s.w.host, if s.w.cell.Some? then z.envs[own := s.w.cell.value] else z.envs - {own}, z.tasks[own := s.t])
  }

  function IdealRun(z: Ideal, ms: seq<Move>): Ideal
    decreases |ms|
  {
    if ms == [] then z else IdealRun(IdealStep(z, ms[0]), ms[1..])
  }

  /** Who wrote the environment file last, well or badly. */
  function AuthorStep(y: System, m: Move, author: string): string {
    if m.Take? && m.own in y.tasks && Writes(State(y.w, y.tasks[m.own]), m.step).Some? then m.own else author
  }

  function AuthorRun(y: System, ms: seq<Move>, author: string): string
    decreases |ms|
  {
    if ms == [] then author else AuthorRun(PoolStep(y, ms[0]), ms[1..], AuthorStep(y, ms[0], author))
  }

  /** The move reads the environment file. */
  predicate Reads(y: System, m: Move) {
    m.Take? && m.step.Main? && m.own in y.tasks && y.tasks[m.own].todo != [] && y.tasks[m.own].todo[0].EditEnv?
  }

  /** The file is read back only for the VM whose process wrote it last. */
  predicate ReadsOwn(y: System, ms: seq<Move>, author: string)
    decreases |ms|
  {
    ms != [] ==>
      && (Reads(y, ms[0]) ==> ms[0].own == author)
      && ReadsOwn(PoolStep(y, ms[0]), ms[1..], AuthorStep(y, ms[0], author))
  }

  /** The shared file holds what the last author's own file would hold. */
  predicate Simulates(y: System, z: Ideal, author: string) {
    y.w.host == z.host && y.tasks == z.tasks && y.w.cell == FileOf(z.envs, author)
  }

  /** A step that does not read the file comes out the same whatever the file holds. */
  lemma StepBlind(h: Host, a: Option<Env>, b: Option<Env>, t: Task, l: Label)
    requires l.Main? && t.todo != [] ==> !t.todo[0].EditEnv?
    ensures var s, r := Step(State(World(h, a), t), l), Step(State(World(h, b), t), l);
            var written := Writes(State(World(h, a), t), l);
            && s.w.host == r.w.host && s.t == r.t
            && s.w.cell == (if written.Some? then written.value else a)
            && r.w.cell == (if written.Some? then written.value else b)
  {
  }

  lemma SimulationStep(y: System, z: Ideal, m: Move, author: string)
    requires Simulates(y, z, author)
    requires Reads(y, m) ==> m.own == author
    ensures Simulates(PoolStep(y, m), IdealStep(z, m), AuthorStep(y, m, author))
  {
    if m.Take? && m.own in y.tasks {
      if m.own == author {
        SameFile(y, z, m, author);
      } else {
        StepBlind(z.host, y.w.cell, FileOf(z.envs, m.own), z.tasks[m.own], m.step);
      }
    }
  }

  lemma SameFile(y: System, z: Ideal, m: Move, author: string)
    requires Simulates(y, z, author) && m.Take? && m.own in y.tasks && m.own == author
    ensures Simulates(PoolStep(y, m), IdealStep(z, m), author)
  {
    var s := Step(State(y.w, y.tasks[m.own]), m.step);
    assert s.w.cell == FileOf(IdealStep(z, m).envs, author);
  }

  /** Cache refinement: in every interleaved run in which each attach and detach reads the file
      while its own VM wrote it last, the shared file is as good as one file per VM. The
      processes see and do the same, and the hosts are equal, step by step. */
  lemma {:induction false} CacheRefines(y: System, z: Ideal, ms: seq<Move>, author: string)
    requires Simulates(y, z, author) && ReadsOwn(y, ms, author)
    ensures Simulates(RunPool(y, ms), IdealRun(z, ms), AuthorRun(y, ms, author))
    decreases |ms|
  {
    if ms != [] {
      SimulationStep(y, z, ms[0], author);
      CacheRefines(PoolStep(y, ms[0]), IdealStep(z, ms[0]), ms[1..], AuthorStep(y, ms[0], author));
    }
  }

  // ---------- Whose environment a VM is shown ----------

  predicate Speaks(env: Env, own: string) { VmId(env.vm) == own }

  /** The action hands out no environment but the VM's own. */
  predicate SpeaksAction(a: Action, own: string) {
    match a
    case WriteEnv(env) => Speaks(env, own)
    case Do(cmd) => cmd.DatastoreUpload? ==> Speaks(cmd.env, cmd.vm)
    case _ => true
  }

  predicate SpeaksAll(todo: seq<Action>, own: string) {
    forall i :: 0 <= i < |todo| ==> SpeaksAction(todo[i], own)
  }

  /** Every VM's file, and every uploaded ISO, carries the identity of its VM. */
  ghost predicate OwnIdentities(z: Ideal) {
    && (forall o :: o in z.envs ==> Speaks(z.envs[o], o))
    && (forall o :: o in z.tasks ==> z.tasks[o].own == o && OwnTask(z.tasks[o]) && SpeaksAll(z.tasks[o].todo, o))
    && (forall v :: IsoOf(z.host, v).Some? ==> Speaks(IsoOf(z.host, v).value, v))
  }

  lemma SpeaksConcat(x: seq<Action>, y: seq<Action>, own: string)
    requires SpeaksAll(x, own) && SpeaksAll(y, own)
    ensures SpeaksAll(x + y, own)
  {
  }

  lemma SpeaksProgram(c: Call)
    ensures SpeaksAll(Program(c), OwnName(c))
  {
    if c.CreateVM? {
      var vm := VmId(c.cid);
      var build := BuildVm(vm, StemcellId(c.stemcell), c.cpus, c.ram, c.mb, c.nets);
      var publish := PublishEnv(vm, EnvOf(c));
      assert forall i :: 0 <= i < |build| ==> build[i].Do? && !build[i].cmd.DatastoreUpload?;
      SpeaksConcat(build, publish, vm);
      SpeaksConcat(build + publish, StartVm(vm), vm);
    }
  }

  /** Commands other than an upload leave every uploaded ISO alone, or remove it. */
  lemma UploadsOnly(h: Host, c: Cmd, o: Outcome, v: string)
    requires OwnPaths(c) && !(c.DatastoreUpload? && c.vm == v)
    ensures IsoOf(Exec(h, c, o).0, v) in {IsoOf(h, v), None}
  {
  }

  lemma SpeaksStep(w: World, t: Task, l: Label)
    requires OwnTask(t) && SpeaksAll(t.todo, t.own)
    requires w.cell.Some? ==> Speaks(w.cell.value, t.own)
    requires forall v :: IsoOf(w.host, v).Some? ==> Speaks(IsoOf(w.host, v).value, v)
    ensures var s := Step(State(w, t), l);
            && SpeaksAll(s.t.todo, t.own)
            && (s.w.cell.Some? ==> Speaks(s.w.cell.value, t.own))
            && (forall v :: IsoOf(s.w.host, v).Some? ==> Speaks(IsoOf(s.w.host, v).value, v))
  {
    match l
    case Main(o) =>
      if t.todo != [] {
        assert OwnAction(t.todo[0], t.own) && SpeaksAction(t.todo[0], t.own);
        SpeaksAct(t.todo[0], w, t.own, o);
        SpeaksExpand(t.todo[0], w, t.own);
        SpeaksConcat(Expand(t.todo[0], w, t.own), t.todo[1..], t.own);
      }
    case Background(o) =>
      forall v ensures IsoOf(Exec(w.host, VmPowerOn(t.own), o).0, v) in {IsoOf(w.host, v), None} {
        UploadsOnly(w.host, VmPowerOn(t.own), o, v);
      }
    case Ticking => assert forall v :: IsoOf(Tick(w.host, t.own), v) == IsoOf(w.host, v);
  }

  lemma SpeaksExpand(a: Action, w: World, own: string)
    requires OwnAction(a, own) && SpeaksAction(a, own)
    requires w.cell.Some? ==> Speaks(w.cell.value, own)
    ensures SpeaksAll(Expand(a, w, own), own)
  {
  }

  lemma SpeaksAct(a: Action, w: World, own: string, o: Outcome)
    requires OwnAction(a, own) && SpeaksAction(a, own)
    requires w.cell.Some? ==> Speaks(w.cell.value, own)
    requires forall v :: IsoOf(w.host, v).Some? ==> Speaks(IsoOf(w.host, v).value, v)
    ensures var r := Act(a, w, own, o).0;
            && (r.cell.Some? ==> Speaks(r.cell.value, own))
            && (forall v :: IsoOf(r.host, v).Some? ==> Speaks(IsoOf(r.host, v).value, v))
  {
    if CommandOf(a, own).Some? {
      var cmd := CommandOf(a, own).value;
      var h := Act(a, w, own, o).0.host;
      forall v ensures IsoOf(h, v).Some? ==> Speaks(IsoOf(h, v).value, v) {
        if !(cmd.DatastoreUpload? && cmd.vm == v) {
          UploadsOnly(w.host, cmd, o, v);
        }
      }
    }
  }

  lemma IdentityStep(z: Ideal, m: Move)
    requires OwnIdentities(z)
    ensures OwnIdentities(IdealStep(z, m))
  {
    match m
    case Launch(c) =>
      ProgramOwn(c);
      SpeaksProgram(c);
    case Take(own, l) =>
      if own in z.tasks {
        var s := State(World(z.host, FileOf(z.envs, own)), z.tasks[own]);
        SpeaksStep(s.w, s.t, l);
        StepFrame(s, l);
      }
  }

  lemma {:induction false} IdentityRun(z: Ideal, ms: seq<Move>)
    requires OwnIdentities(z)
    ensures OwnIdentities(IdealRun(z, ms))
    decreases |ms|
  {
    if ms != [] {
      IdentityStep(z, ms[0]);
      IdentityRun(IdealStep(z, ms[0]), ms[1..]);
    }
  }

  /** Under the same proviso no VM is ever shown another VM's environment. */
  lemma EachItsOwn(y: System, z: Ideal, ms: seq<Move>, author: string, vm: string)
    requires Simulates(y, z, author) && ReadsOwn(y, ms, author) && OwnIdentities(z)
    ensures IsoOf(RunPool(y, ms).w.host, vm).Some? ==> Speaks(IsoOf(RunPool(y, ms).w.host, vm).value, vm)
  {
    CacheRefines(y, z, ms, author);
    IdentityRun(z, ms);
  }

  // ---------- Without the proviso ----------

  /** A disk call that succeeds shows the VM an environment if the ISO file was whole, and its
      own if and only if the file it started from was written for that VM. */
  lemma OwnIdentityIff(w: World, c: Call, ls: seq<Label>)
    requires DiskCall(c) && Succeeded(Run(Start(w, c), ls).t)
    ensures var shown := IsoOf(Run(Start(w, c), ls).w.host, VmId(c.cid));
            && w.cell.Some? && (shown.Some? <==> Burned(Start(w, c), ls))
            && (shown.Some? ==> (Speaks(shown.value, VmId(c.cid)) <==> Speaks(w.cell.value, VmId(c.cid))))
  {
    DiskFiles(w, c, ls);
    DiskUploads(w, c, ls);
  }

  /** Two VMs are enough to go wrong: with a VM running, create a second one, then attach a
      disk to the first. All goes well, and the first VM is told to be the second. */
  lemma SecondVmMisleads(w: World, c: Call, ls: seq<Label>, first: string, disk: string, ms: seq<Label>, n: nat)
    requires c.CreateVM? && first != c.cid && Succeeded(Run(Start(w, c), ls).t) && Wrote(w, c, ls)
    requires GeneratedId(disk, n) && TidyWorld(w, VmId(first), n) && VmId(first) in w.host.vms
    requires Root(DiskFile(disk)) in w.host.files
    requires |ms| >= 9 && Smooth(ms) && FreshDevice(w.host.vms[VmId(first)], ms[0].o.device)
    ensures var w1 := Run(Start(w, c), ls).w;
            var s := Run(Start(w1, AttachDisk(first, disk)), ms);
            && Succeeded(s.t)
            && Presents(s.w.host, VmId(first), Revise(EnvOf(c), Add(disk)))
            && !Speaks(Revise(EnvOf(c), Add(disk)), VmId(first))
  {
    var w1 := Run(Start(w, c), ls).w;
    CreateWrites(w, c, ls);
    CallFrame(w, c, ls);
    IdsApart(c.cid, disk);
    IdsApart(c.cid, first);
    DiskCallSucceeds(w1, AttachDisk(first, disk), ms);
    DiskCallResult(w1, AttachDisk(first, disk), ms, n, disk);
  }
}
