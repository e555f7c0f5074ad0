/** Calls on different objects do not get in each other's way. */
module Serial {
  import opened Names
  import opened Host
  import opened Machine
  import opened Pool

  /** The action looks at nothing beyond `own` and the kept objects. */
  predicate LocalAction(a: Action, own: string, keep: set<string>) {
    && OwnAction(a, own)
    && (a.Do? ==> Local(a.cmd) && SourceOf(a.cmd) in keep + {own})
  }

  predicate LocalAll(todo: seq<Action>, own: string, keep: set<string>) {
    forall i :: 0 <= i < |todo| ==> LocalAction(todo[i], own, keep)
  }

  /** What a call looks at outside its own object is kept: the stemcell of a new VM, the disk
      that is attached. */
  predicate LocalCall(c: Call, keep: set<string>) {
    && (c.CreateVM? ==> StemcellId(c.stemcell) in keep)
    && (c.AttachDisk? ==> DiskFile(c.disk) in keep)
  }

  /** The environment file is not read back. */
  predicate Blind(todo: seq<Action>) { forall i :: 0 <= i < |todo| ==> !todo[i].EditEnv? }

  /** The calls that serialise: all but attach and detach, which read the environment file. */
  predicate BlindCall(c: Call) { !c.AttachDisk? && !c.DetachDisk? }

  lemma BlindProgram(c: Call)
    requires BlindCall(c)
    ensures Blind(Program(c))
  {
    if c.CreateVM? {
      var build := BuildVm(VmId(c.cid), StemcellId(c.stemcell), c.cpus, c.ram, c.mb, c.nets);
      assert Blind(build) && Blind(PublishEnv(VmId(c.cid), NewEnv(c.cid, c.agent, c.nets)));
      assert Blind(StartVm(VmId(c.cid)));
    }
  }

  lemma BlindStep(s: State, l: Label)
    requires Blind(s.t.todo)
    ensures Blind(Step(s, l).t.todo)
  {
    if l.Main? && s.t.todo != [] {
      assert !s.t.todo[0].EditEnv? && Blind(Expand(s.t.todo[0], s.w, s.t.own));
    }
  }

  lemma LocalConcat(x: seq<Action>, y: seq<Action>, own: string, keep: set<string>)
    requires LocalAll(x, own, keep) && LocalAll(y, own, keep)
    ensures LocalAll(x + y, own, keep)
  {
  }

  lemma LocalProgram(c: Call, keep: set<string>)
    requires LocalCall(c, keep)
    ensures LocalAll(Program(c), OwnName(c), keep)
  {
    if c.CreateVM? {
      LocalCreate(c, keep);
    } else {
      assert forall i :: 0 <= i < |Program(c)| ==> LocalAction(Program(c)[i], OwnName(c), keep);
    }
  }

  lemma LocalCreate(c: Call, keep: set<string>)
    requires c.CreateVM? && LocalCall(c, keep)
    ensures LocalAll(Program(c), VmId(c.cid), keep)
  {
    var vm := VmId(c.cid);
    var build := BuildVm(vm, StemcellId(c.stemcell), c.cpus, c.ram, c.mb, c.nets);
    var env := NewEnv(c.cid, c.agent, c.nets);
    LocalBuild(c, keep);
    LocalPublish(vm, env, keep);
    LocalConcat(build, PublishEnv(vm, env), vm, keep);
    LocalConcat(build + PublishEnv(vm, env), StartVm(vm), vm, keep);
  }

  lemma LocalPublish(vm: string, env: Env, keep: set<string>)
    ensures LocalAll(PublishEnv(vm, env), vm, keep) && LocalAll(StartVm(vm), vm, keep)
  {
  }

  lemma LocalBuild(c: Call, keep: set<string>)
    requires c.CreateVM? && LocalCall(c, keep)
    ensures LocalAll(BuildVm(VmId(c.cid), StemcellId(c.stemcell), c.cpus, c.ram, c.mb, c.nets), VmId(c.cid), keep)
  {
    var vm := VmId(c.cid);
    var disk: seq<Action> := [Do(VmDiskCreate(vm, In(vm, "ephemeral.vmdk"), c.mb))];
    var resources: seq<Action> := [Do(VmChangeResources(vm, c.cpus, c.ram))];
    LocalConcat(CloneVm(StemcellId(c.stemcell), vm), resources, vm, keep);
    LocalConcat(CloneVm(StemcellId(c.stemcell), vm) + resources, AddNetworks(vm, c.nets), vm, keep);
    LocalConcat(CloneVm(StemcellId(c.stemcell), vm) + resources + AddNetworks(vm, c.nets), disk, vm, keep);
  }

  lemma OwnNameIsNotEnv(c: Call)
    ensures OwnName(c) != "env"
  {
    assert OwnName(c)[0] != 'e';
  }

  ghost predicate AgreeOn(h: Host, k: Host, own: string, keep: set<string>) {
    SameOwn(h, k, own) && forall o :: o in keep ==> SameOwn(h, k, o)
  }

  /** Whether the object is listed at the root depends on what it owns only. */
  lemma ListedLocally(h: Host, k: Host, own: string)
    requires SameOwn(h, k, own) && own != "env"
    ensures own in Listing(h) <==> own in Listing(k)
  {
    assert forall p :: Top(p) == own ==> Owner(p) == own;
    assert forall p :: p in h.files && Top(p) == own ==> p in k.files;
    assert forall p :: p in k.files && Top(p) == own ==> p in h.files;
  }

  lemma LocalAct(a: Action, w: World, v: World, own: string, o: Outcome, keep: set<string>)
    requires LocalAction(a, own, keep) && AgreeOn(w.host, v.host, own, keep) && own != "env"
    requires a.EditEnv? ==> w.cell == v.cell
    ensures Act(a, w, own, o).1 == Act(a, v, own, o).1
    ensures w.cell == v.cell ==> Act(a, w, own, o).0.cell == Act(a, v, own, o).0.cell
    ensures SameOwn(Act(a, w, own, o).0.host, Act(a, v, own, o).0.host, own)
    ensures Expand(a, w, own) == Expand(a, v, own)
  {
    ListedLocally(w.host, v.host, own);
    if CommandOf(a, own).Some? && !a.Sweep? {
      ExecLocal(w.host, v.host, CommandOf(a, own).value, o);
    }
  }

  lemma LocalExpand(a: Action, w: World, own: string, keep: set<string>)
    requires LocalAction(a, own, keep)
    ensures LocalAll(Expand(a, w, own), own, keep)
  {
  }

  /** A local task moves alike on hosts, and environment files, that agree on what it looks at. */
  lemma LocalStep(w: World, v: World, t: Task, l: Label, keep: set<string>)
    requires LocalAll(t.todo, t.own, keep) && AgreeOn(w.host, v.host, t.own, keep) && t.own != "env"
    requires w.cell == v.cell || Blind(t.todo)
    ensures w.cell == v.cell ==> Step(State(w, t), l).w.cell == Step(State(v, t), l).w.cell
    ensures Step(State(w, t), l).t == Step(State(v, t), l).t
    ensures SameOwn(Step(State(w, t), l).w.host, Step(State(v, t), l).w.host, t.own)
    ensures LocalAll(Step(State(w, t), l).t.todo, t.own, keep)
  {
    match l
    case Main(o) =>
      if t.todo != [] {
        assert LocalAction(t.todo[0], t.own, keep);
        LocalAct(t.todo[0], w, v, t.own, o, keep);
        LocalExpand(t.todo[0], w, t.own, keep);
        LocalConcat(Expand(t.todo[0], w, t.own), t.todo[1..], t.own, keep);
      }
    case Background(o) => ExecLocal(w.host, v.host, VmPowerOn(t.own), o);
    case Ticking =>
  }

  /** Two systems that agree on one object, its task, and what is kept. */
  ghost predicate Alike(y: System, z: System, own: string, keep: set<string>) {
    && Orderly(y) && Orderly(z)
    && AgreeOn(y.w.host, z.w.host, own, keep)
    && (own in y.tasks <==> own in z.tasks)
    && (own in y.tasks ==>
          y.tasks[own] == z.tasks[own] && LocalAll(y.tasks[own].todo, own, keep) && Blind(y.tasks[own].todo))
  }

  /** The moves leave the kept objects alone, and the calls on `own` look at nothing else. */
  ghost predicate Apart(ms: seq<Move>, own: string, keep: set<string>) {
    && own !in keep && own != "env"
    && forall m :: m in ms ==> MoverOf(m) !in keep && (m.Launch? && OwnName(m.call) == own ==> LocalCall(m.call, keep))
  }

  /** And they do not read the environment file. */
  ghost predicate Permitted(ms: seq<Move>, own: string, keep: set<string>) {
    Apart(ms, own, keep) && forall m :: m in ms && m.Launch? && OwnName(m.call) == own ==> BlindCall(m.call)
  }

  lemma OwnMove(y: System, z: System, m: Move, own: string, keep: set<string>)
    requires Alike(y, z, own, keep) && Permitted([m], own, keep) && MoverOf(m) == own
    ensures Alike(PoolStep(y, m), PoolStep(z, m), own, keep)
  {
    assert m in [m];
    OrderlyStep(y, m);
    OrderlyStep(z, m);
    match m
    case Launch(c) =>
      LocalProgram(c, keep);
      BlindProgram(c);
    case Take(_, l) =>
      if own in y.tasks {
        BlindStep(State(y.w, y.tasks[own]), l);
        LocalStep(y.w, z.w, y.tasks[own], l, keep);
      }
  }

  lemma OtherMove(y: System, z: System, m: Move, own: string, keep: set<string>)
    requires Alike(y, z, own, keep) && Permitted([m], own, keep) && MoverOf(m) != own
    ensures Alike(PoolStep(y, m), z, own, keep)
  {
    assert m in [m];
    OrderlyStep(y, m);
  }

  /** Isolation: whatever other calls do in between, an object and its task end up as if only
      the calls on that object had moved. */
  lemma {:induction false} Isolation(y: System, z: System, ms: seq<Move>, own: string, keep: set<string>)
    requires Alike(y, z, own, keep) && Permitted(ms, own, keep)
    ensures Alike(RunPool(y, ms), RunPool(z, Project(ms, own)), own, keep)
    decreases |ms|
  {
    if ms != [] {
      assert ms[0] in ms && forall m :: m in ms[1..] ==> m in ms;
      if MoverOf(ms[0]) == own {
        OwnMove(y, z, ms[0], own, keep);
        assert Project(ms, own) == [ms[0]] + Project(ms[1..], own);
        assert ([ms[0]] + Project(ms[1..], own))[1..] == Project(ms[1..], own);
        Isolation(PoolStep(y, ms[0]), PoolStep(z, ms[0]), ms[1..], own, keep);
      } else {
        OtherMove(y, z, ms[0], own, keep);
        assert Project(ms, own) == Project(ms[1..], own);
        Isolation(PoolStep(y, ms[0]), z, ms[1..], own, keep);
      }
    }
  }

  // ---------- Serialisability ----------

  /** Only local calls, on objects that are not kept. */
  ghost predicate LocalMoves(ms: seq<Move>, keep: set<string>) {
    forall m :: m in ms ==> MoverOf(m) !in keep && (m.Launch? ==> LocalCall(m.call, keep) && BlindCall(m.call))
  }

  /** No call is in progress yet. */
  predicate Quiet(y: System) { y.tasks == map[] }

  /** Two interleavings of the same calls, in which each object sees the same moves in the
      same order, reach the same host and leave the calls in the same state. */
  lemma Interleavings(y: System, ms: seq<Move>, ns: seq<Move>, keep: set<string>)
    requires Quiet(y) && LocalMoves(ms, keep) && LocalMoves(ns, keep)
    requires forall o :: Project(ms, o) == Project(ns, o)
    ensures RunPool(y, ms).w.host == RunPool(y, ns).w.host
    ensures RunPool(y, ms).tasks == RunPool(y, ns).tasks
  {
    var a, b := RunPool(y, ms), RunPool(y, ns);
    forall o
      ensures SameOwn(a.w.host, b.w.host, o)
      ensures (o in a.tasks <==> o in b.tasks) && (o in a.tasks ==> a.tasks[o] == b.tasks[o])
    {
      SameEverywhere(y, ms, ns, keep, o);
    }
    SameHosts(a.w.host, b.w.host);
  }

  lemma SameHosts(h: Host, k: Host)
    requires forall o :: SameOwn(h, k, o)
    ensures h == k
  {
    assert SameOwn(h, k, "");
    forall v ensures (v in h.vms <==> v in k.vms) && (v in h.vms ==> h.vms[v] == k.vms[v]) {
      assert SameOwn(h, k, v);
    }
    forall p ensures (p in h.files <==> p in k.files) && (p in h.files ==> h.files[p] == k.files[p]) {
      assert SameOwn(h, k, Owner(p));
    }
    assert h.vms == k.vms && h.files == k.files;
  }

  lemma SameEverywhere(y: System, ms: seq<Move>, ns: seq<Move>, keep: set<string>, o: string)
    requires Quiet(y) && LocalMoves(ms, keep) && LocalMoves(ns, keep) && Project(ms, o) == Project(ns, o)
    ensures var a, b := RunPool(y, ms), RunPool(y, ns);
            && SameOwn(a.w.host, b.w.host, o)
            && (o in a.tasks <==> o in b.tasks) && (o in a.tasks ==> a.tasks[o] == b.tasks[o])
  {
    if o in keep || o == "env" {
      Untouched(y, ms, keep, o);
      Untouched(y, ns, keep, o);
    } else {
      Isolation(y, y, ms, o, keep);
      Isolation(y, y, ns, o, keep);
    }
  }

  /** The kept objects, and /env itself, stay as they are. */
  lemma {:induction false} Untouched(y: System, ms: seq<Move>, keep: set<string>, o: string)
    requires Orderly(y) && LocalMoves(ms, keep) && (o in keep || o == "env") && o !in y.tasks
    ensures SameOwn(y.w.host, RunPool(y, ms).w.host, o) && o !in RunPool(y, ms).tasks
    decreases |ms|
  {
    if ms != [] {
      assert ms[0] in ms && forall m :: m in ms[1..] ==> m in ms;
      OrderlyStep(y, ms[0]);
      if ms[0].Launch? { OwnNameIsNotEnv(ms[0].call); }
      Untouched(PoolStep(y, ms[0]), ms[1..], keep, o);
    }
  }

  /** The calls one object after another. */
  function InSeries(ms: seq<Move>, order: seq<string>): seq<Move> {
    if order == [] then [] else Project(ms, order[0]) + InSeries(ms, order[1..])
  }

  lemma {:induction false} SeriesProjects(ms: seq<Move>, order: seq<string>, o: string)
    requires forall i, j :: 0 <= i < j < |order| ==> order[i] != order[j]
    ensures Project(InSeries(ms, order), o) == if o in order then Project(ms, o) else []
    ensures forall m :: m in InSeries(ms, order) ==> m in ms
  {
    if order != [] {
      ProjectConcat(Project(ms, order[0]), InSeries(ms, order[1..]), o);
      ProjectTwice(ms, order[0], o);
      SeriesProjects(ms, order[1..], o);
      ProjectSubset(ms, order[0]);
      assert o in order <==> o == order[0] || o in order[1..];
    }
  }

  lemma {:induction false} ProjectSubset(ms: seq<Move>, own: string)
    ensures forall m :: m in Project(ms, own) ==> m in ms && MoverOf(m) == own
    ensures (forall m :: m in ms ==> MoverOf(m) != own) ==> Project(ms, own) == []
  {
    if ms != [] {
      ProjectSubset(ms[1..], own);
    }
  }

  /** Serialisability: any command-level interleaving of CreateVM, DeleteVM, CreateDisk,
      DeleteDisk (and stemcell) calls, with the stemcells in use kept, failing wherever they
      may, reaches the host that is reached by running the calls one object after another,
      in whichever order of the objects. */
  lemma Serialisable(y: System, ms: seq<Move>, order: seq<string>, keep: set<string>)
    requires Quiet(y) && LocalMoves(ms, keep)
    requires forall i, j :: 0 <= i < j < |order| ==> order[i] != order[j]
    requires forall m :: m in ms ==> MoverOf(m) in order
    ensures RunPool(y, ms).w.host == RunPool(y, InSeries(ms, order)).w.host
    ensures RunPool(y, ms).tasks == RunPool(y, InSeries(ms, order)).tasks
  {
    forall o ensures Project(ms, o) == Project(InSeries(ms, order), o) {
      SeriesProjects(ms, order, o);
      ProjectSubset(ms, o);
    }
    SeriesProjects(ms, order, "");
    Interleavings(y, ms, InSeries(ms, order), keep);
  }

  // ---------- Persistent disks ----------

  predicate OnDisk(c: Call, disk: string) { (c.CreateDisk? || c.DeleteDisk?) && c.cid == disk }

  lemma DiskCalls(c: Call, disk: string)
    ensures OwnName(c) == DiskFile(disk) <==> OnDisk(c, disk)
  {
    IdsApart(disk, c.cid);
    IdsApart(c.cid, disk);
  }

  /** Conservation of persistent disks: over every run of any calls, interleaved and failing
      in any way, what becomes of a disk is decided by the CreateDisk and DeleteDisk calls on
      it alone. Attaching, detaching, and destroying a VM it is linked to, change nothing. */
  lemma DiskConservation(y: System, ms: seq<Move>, disk: string)
    requires Quiet(y)
    ensures SameOwn(RunPool(y, ms).w.host, RunPool(y, Project(ms, DiskFile(disk))).w.host, DiskFile(disk))
    ensures forall m :: m in Project(ms, DiskFile(disk)) && m.Launch? ==> OnDisk(m.call, disk)
  {
    ProjectSubset(ms, DiskFile(disk));
    forall m | m in ms && m.Launch? ensures OwnName(m.call) == DiskFile(disk) ==> OnDisk(m.call, disk) {
      DiskCalls(m.call, disk);
    }
    assert DiskFile(disk)[0] == 'd';
    Isolation(y, y, ms, DiskFile(disk), {});
  }

  /** In particular, without such a call the disk's file is neither made, changed nor removed. */
  lemma DiskKept(y: System, ms: seq<Move>, disk: string)
    requires Quiet(y)
    requires forall m :: m in ms && m.Launch? ==> !OnDisk(m.call, disk)
    ensures SameOwn(y.w.host, RunPool(y, ms).w.host, DiskFile(disk))
  {
    DiskConservation(y, ms, disk);
    ProjectSubset(ms, DiskFile(disk));
    NothingLaunched(y, Project(ms, DiskFile(disk)));
  }

  lemma {:induction false} NothingLaunched(y: System, ms: seq<Move>)
    requires Quiet(y) && forall m :: m in ms ==> !m.Launch?
    ensures RunPool(y, ms) == y
    decreases |ms|
  {
    if ms != [] {
      assert ms[0] in ms;
      NothingLaunched(y, ms[1..]);
    }
  }
}
