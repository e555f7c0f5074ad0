/** Attach and detach on several VMs at once: agreement holds VM by VM, as long as the shared
    environment file is as good as a file per VM. */
module Together {
  import opened Names
  import opened Host
  import opened Machine
  import opened IsoSwap
  import opened Disks
  import opened Agreement
  import opened Pool
  import opened Serial
  import opened Crowd
  import opened Cache

  ghost predicate IdealOrderly(z: Ideal) {
    forall o :: o in z.tasks ==> z.tasks[o].own == o && OwnTask(z.tasks[o])
  }

  lemma IdealOrderlyStep(z: Ideal, m: Move)
    requires IdealOrderly(z)
    ensures IdealOrderly(IdealStep(z, m))
    ensures OnlyTouches(z.host, IdealStep(z, m).host, MoverOf(m))
    ensures forall o :: o != MoverOf(m) ==>
              && FileOf(IdealStep(z, m).envs, o) == FileOf(z.envs, o)
              && (o in IdealStep(z, m).tasks <==> o in z.tasks)
              && (o in z.tasks ==> IdealStep(z, m).tasks[o] == z.tasks[o])
  {
    match m
    case Launch(c) => ProgramOwn(c);
    case Take(own, l) =>
      if own in z.tasks {
        StepFrame(State(World(z.host, FileOf(z.envs, own)), z.tasks[own]), l);
      }
  }

  /** With a file per VM: two systems that agree on one object, its task, its file, and what is
      kept. */
  ghost predicate IdealAlike(y: Ideal, z: Ideal, own: string, keep: set<string>) {
    && IdealOrderly(y) && IdealOrderly(z)
    && AgreeOn(y.host, z.host, own, keep) && FileOf(y.envs, own) == FileOf(z.envs, own)
    && (own in y.tasks <==> own in z.tasks)
    && (own in y.tasks ==> y.tasks[own] == z.tasks[own] && LocalAll(y.tasks[own].todo, own, keep))
  }

  lemma IdealOwnMove(y: Ideal, z: Ideal, m: Move, own: string, keep: set<string>)
    requires IdealAlike(y, z, own, keep) && Apart([m], own, keep) && MoverOf(m) == own
    ensures IdealAlike(IdealStep(y, m), IdealStep(z, m), own, keep)
  {
    assert m in [m];
    IdealOrderlyStep(y, m);
    IdealOrderlyStep(z, m);
    match m
    case Launch(c) => LocalProgram(c, keep);
    case Take(_, l) =>
      if own in y.tasks {
        LocalStep(World(y.host, FileOf(y.envs, own)), World(z.host, FileOf(z.envs, own)), y.tasks[own], l, keep);
      }
  }

  lemma IdealOtherMove(y: Ideal, z: Ideal, m: Move, own: string, keep: set<string>)
    requires IdealAlike(y, z, own, keep) && Apart([m], own, keep) && MoverOf(m) != own
    ensures IdealAlike(IdealStep(y, m), z, own, keep)
  {
    assert m in [m];
    IdealOrderlyStep(y, m);
  }

  /** Isolation with a file per VM, attach and detach included: whatever other calls do in
      between, an object, its task and its file end up as if only the calls on it had moved. */
  lemma {:induction false} IdealIsolation(y: Ideal, z: Ideal, ms: seq<Move>, own: string, keep: set<string>)
    requires IdealAlike(y, z, own, keep) && Apart(ms, own, keep)
    ensures IdealAlike(IdealRun(y, ms), IdealRun(z, Project(ms, own)), own, keep)
    decreases |ms|
  {
    if ms != [] {
      assert ms[0] in ms && forall m :: m in ms[1..] ==> m in ms;
      if MoverOf(ms[0]) == own {
        IdealOwnMove(y, z, ms[0], own, keep);
        assert Project(ms, own) == [ms[0]] + Project(ms[1..], own);
        assert ([ms[0]] + Project(ms[1..], own))[1..] == Project(ms[1..], own);
        IdealIsolation(IdealStep(y, ms[0]), IdealStep(z, ms[0]), ms[1..], own, keep);
      } else {
        IdealOtherMove(y, z, ms[0], own, keep);
        assert Project(ms, own) == Project(ms[1..], own);
        IdealIsolation(IdealStep(y, ms[0]), z, ms[1..], own, keep);
      }
    }
  }

  // ---------- One VM by itself ----------

  lemma {:induction false} IdealRunSplit(z: Ideal, ms: seq<Move>, ns: seq<Move>)
    ensures IdealRun(z, ms + ns) == IdealRun(IdealRun(z, ms), ns)
    decreases |ms|
  {
    if ms == [] {
      assert ms + ns == ns;
    } else {
      assert (ms + ns)[1..] == ms[1..] + ns;
      IdealRunSplit(IdealStep(z, ms[0]), ms[1..], ns);
    }
  }

  /** What a VM has of the system: the host, and its own file. */
  function WorldOf(z: Ideal, own: string): World { World(z.host, FileOf(z.envs, own)) }

  lemma {:induction false} IdealAlone(z: Ideal, own: string, ls: seq<Label>)
    requires own in z.tasks && z.tasks[own].own == own
    ensures WorldOf(IdealRun(z, Takes(own, ls)), own) == Run(State(WorldOf(z, own), z.tasks[own]), ls).w
    decreases |ls|
  {
    if ls != [] {
      assert Takes(own, ls)[0] == Take(own, ls[0]) && Takes(own, ls)[1..] == Takes(own, ls[1..]);
      StepOwn(State(WorldOf(z, own), z.tasks[own]), ls[0]);
      IdealAlone(IdealStep(z, Take(own, ls[0])), own, ls[1..]);
    }
  }

  /** The moves of one call after another. */
  function MovesOfOps(ops: seq<Op>): seq<Move> {
    if ops == [] then []
    else [Launch(ops[0].call)] + Takes(OwnName(ops[0].call), ops[0].ls) + MovesOfOps(ops[1..])
  }

  lemma IdealLaunch(z: Ideal, c: Call, ls: seq<Label>)
    ensures WorldOf(IdealRun(z, [Launch(c)] + Takes(OwnName(c), ls)), OwnName(c))
         == Run(Start(WorldOf(z, OwnName(c)), c), ls).w
  {
    var own := OwnName(c);
    assert ([Launch(c)] + Takes(own, ls))[1..] == Takes(own, ls);
    IdealAlone(IdealStep(z, Launch(c)), own, ls);
  }

  lemma {:induction false} IdealOps(z: Ideal, own: string, ops: seq<Op>)
    requires forall i :: 0 <= i < |ops| ==> OwnName(ops[i].call) == own
    ensures WorldOf(IdealRun(z, MovesOfOps(ops)), own) == RunOps(WorldOf(z, own), ops)
    decreases |ops|
  {
    if ops != [] {
      var first := [Launch(ops[0].call)] + Takes(own, ops[0].ls);
      IdealRunSplit(z, first, MovesOfOps(ops[1..]));
      IdealLaunch(z, ops[0].call, ops[0].ls);
      IdealOps(IdealRun(z, first), own, ops[1..]);
    }
  }

  // ---------- Agreement ----------

  /** Agreement looks at nothing but what the VM owns, and its file. */
  lemma MeetsLocally(w: World, v: World, vm: string, disk: string, verdict: Verdict)
    requires SameOwn(w.host, v.host, vm) && w.cell == v.cell
    ensures Meets(w, vm, disk, verdict) <==> Meets(v, vm, disk, verdict)
  {
    assert Owner(EnvIso(vm)) == vm;
    assert Links(w.host, vm, disk) == Links(v.host, vm, disk);
    assert IsoOf(w.host, vm) == IsoOf(v.host, vm);
  }

  /** Agreement under failures and interleaving: calls on one VM run one after another, stopping
      and failing anywhere, while any other calls run beside them. If the environment file is
      read back only for the VM that wrote it last, and the attached disks' files are left
      alone, then a disk stands as its verdict says; and if the VM wrote the shared file last,
      that file is its own. */
  lemma AgreementTogether(y: System, z: Ideal, ms: seq<Move>, author: string, cid: string, ops: seq<Op>, n: nat,
                          disk: string, v: Verdict, keep: set<string>)
    requires Quiet(y) && Simulates(y, z, author) && ReadsOwn(y, ms, author)
    requires Apart(ms, VmId(cid), keep) && Project(ms, VmId(cid)) == MovesOfOps(ops)
    requires OnVm(ops, cid, n) && TidyWorld(WorldOf(z, VmId(cid)), VmId(cid), n)
    requires Meets(WorldOf(z, VmId(cid)), VmId(cid), disk, v)
    ensures var h, file := RunPool(y, ms).w.host, FileOf(IdealRun(z, ms).envs, VmId(cid));
            && Meets(World(h, file), VmId(cid), disk, LastVerdict(WorldOf(z, VmId(cid)), ops, disk, v))
            && (AuthorRun(y, ms, author) == VmId(cid) ==> RunPool(y, ms).w.cell == file)
  {
    CacheRefines(y, z, ms, author);
    AgreementOfVm(z, ms, cid, ops, n, disk, v, keep);
  }

  /** What a VM owns, and its file, end up as its calls alone would have left them. */
  lemma OpsTogether(z: Ideal, ms: seq<Move>, vm: string, ops: seq<Op>, keep: set<string>)
    requires z.tasks == map[] && Apart(ms, vm, keep) && Project(ms, vm) == MovesOfOps(ops)
    requires forall i :: 0 <= i < |ops| ==> OwnName(ops[i].call) == vm
    ensures var w, alone := WorldOf(IdealRun(z, ms), vm), RunOps(WorldOf(z, vm), ops);
            SameOwn(w.host, alone.host, vm) && w.cell == alone.cell
  {
    IdealIsolation(z, z, ms, vm, keep);
    IdealOps(z, vm, ops);
  }

  lemma AgreementOfVm(z: Ideal, ms: seq<Move>, cid: string, ops: seq<Op>, n: nat, disk: string, v: Verdict,
                      keep: set<string>)
    requires z.tasks == map[] && Apart(ms, VmId(cid), keep) && Project(ms, VmId(cid)) == MovesOfOps(ops)
    requires OnVm(ops, cid, n) && TidyWorld(WorldOf(z, VmId(cid)), VmId(cid), n)
    requires Meets(WorldOf(z, VmId(cid)), VmId(cid), disk, v)
    ensures Meets(WorldOf(IdealRun(z, ms), VmId(cid)), VmId(cid), disk,
                  LastVerdict(WorldOf(z, VmId(cid)), ops, disk, v))
  {
    var vm := VmId(cid);
    OpsTogether(z, ms, vm, ops, keep);
    AgreementUnderFailures(WorldOf(z, vm), cid, ops, n, disk, v);
    MeetsLocally(WorldOf(IdealRun(z, ms), vm), RunOps(WorldOf(z, vm), ops), vm, disk,
                 LastVerdict(WorldOf(z, vm), ops, disk, v));
  }
}
