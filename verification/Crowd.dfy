/** What is proved of a call on its own holds of it among others. */
module Crowd {
  import opened Names
  import opened Host
  import opened Machine
  import opened Destroy
  import opened IsoSwap
  import opened Agreement
  import opened Tidiness
  import opened Refinement
  import opened Pool
  import opened Serial

  function Takes(own: string, ls: seq<Label>): seq<Move> {
    seq(|ls|, i requires 0 <= i < |ls| => Take(own, ls[i]))
  }

  lemma {:induction false} RunPoolSplit(y: System, ms: seq<Move>, ns: seq<Move>)
    ensures RunPool(y, ms + ns) == RunPool(RunPool(y, ms), ns)
    decreases |ms|
  {
    if ms == [] {
      assert ms + ns == ns;
    } else {
      assert (ms + ns)[1..] == ms[1..] + ns;
      RunPoolSplit(PoolStep(y, ms[0]), ms[1..], ns);
    }
  }

  /** A task that has the system to itself runs as in the machine. */
  lemma {:induction false} Alone(y: System, own: string, ls: seq<Label>)
    requires own in y.tasks && y.tasks[own].own == own
    ensures var s := Run(State(y.w, y.tasks[own]), ls);
            RunPool(y, Takes(own, ls)) == System(s.w, y.tasks[own := s.t])
    decreases |ls|
  {
    if ls == [] {
      assert y.tasks[own := y.tasks[own]] == y.tasks;
    } else {
      assert Takes(own, ls)[0] == Take(own, ls[0]) && Takes(own, ls)[1..] == Takes(own, ls[1..]);
      var z := PoolStep(y, Take(own, ls[0]));
      StepOwn(State(y.w, y.tasks[own]), ls[0]);
      Alone(z, own, ls[1..]);
      assert z.tasks[own := Run(State(y.w, y.tasks[own]), ls).t] == y.tasks[own := Run(State(y.w, y.tasks[own]), ls).t];
    }
  }

  lemma StepOwn(s: State, l: Label)
    ensures Step(s, l).t.own == s.t.own
  {
  }

  lemma LaunchAlone(y: System, c: Call, ls: seq<Label>)
    ensures var s := Run(Start(y.w, c), ls);
            var z := RunPool(y, [Launch(c)] + Takes(OwnName(c), ls));
            z.w == s.w && OwnName(c) in z.tasks && z.tasks[OwnName(c)] == s.t
  {
    var z := PoolStep(y, Launch(c));
    assert ([Launch(c)] + Takes(OwnName(c), ls))[1..] == Takes(OwnName(c), ls);
    Alone(z, OwnName(c), ls);
  }

  /** A call among others: if the moves on its object are its launch and its own steps, then
      it gets as far, and does to its object, what it would with the host to itself. The others
      may be any calls, attach and detach included, that keep off the stemcells in use. */
  lemma CallInCrowd(y: System, ms: seq<Move>, c: Call, ls: seq<Label>, keep: set<string>)
    requires Quiet(y) && Permitted(ms, OwnName(c), keep)
    requires Project(ms, OwnName(c)) == [Launch(c)] + Takes(OwnName(c), ls)
    ensures var s := Run(Start(y.w, c), ls);
            var z := RunPool(y, ms);
            && SameOwn(z.w.host, s.w.host, OwnName(c))
            && OwnName(c) in z.tasks && z.tasks[OwnName(c)] == s.t
  {
    Isolation(y, y, ms, OwnName(c), keep);
    LaunchAlone(y, c, ls);
  }

  /** Nothing of the VM is left but, at most, its environment ISO. */
  ghost predicate Cleared(h: Host, own: string) {
    own !in h.vms && forall p :: Owner(p) == own && p != EnvIso(own) ==> p !in h.files
  }

  lemma WithoutIsGone(h: Host, own: string)
    ensures Gone(Without(h, own), own)
  {
  }

  lemma DeleteClears(w: World, cid: string, ls: seq<Label>)
    ensures var s := Run(Start(w, DeleteVM(cid)), ls);
            Succeeded(s.t) ==> Cleared(s.w.host, VmId(cid))
  {
    var own, s := VmId(cid), Run(Start(w, DeleteVM(cid)), ls);
    DestroyResult(w, own, Idle, ls);
    if Succeeded(s.t) {
      GoneIsWithout(s.w.host, own);
      WithoutIsGone(w.host, own);
      GoneCleared(s.w.host, own);
    }
  }

  lemma DeletedAfter(y: System, ms: seq<Move>, cid: string, ds: seq<Label>)
    ensures var z := RunPool(y, ms + ([Launch(DeleteVM(cid))] + Takes(VmId(cid), ds)));
            && VmId(cid) in z.tasks
            && (Succeeded(z.tasks[VmId(cid)]) ==> Cleared(z.w.host, VmId(cid)))
  {
    var y1 := RunPool(y, ms);
    RunPoolSplit(y, ms, [Launch(DeleteVM(cid))] + Takes(VmId(cid), ds));
    LaunchAlone(y1, DeleteVM(cid), ds);
    DeleteClears(y1.w, cid, ds);
  }

  /** A DeleteVM among others: whatever calls on the VM came before, a DeleteVM that succeeds
      leaves of it at most its environment ISO. The calls on other objects may be any. */
  lemma DeleteInCrowd(y: System, ms: seq<Move>, pre: seq<Move>, cid: string, ds: seq<Label>, keep: set<string>)
    requires Quiet(y) && Permitted(ms, VmId(cid), keep)
    requires Project(ms, VmId(cid)) == pre + ([Launch(DeleteVM(cid))] + Takes(VmId(cid), ds))
    ensures var z := RunPool(y, ms);
            && VmId(cid) in z.tasks
            && (Succeeded(z.tasks[VmId(cid)]) ==> Cleared(z.w.host, VmId(cid)))
  {
    Isolation(y, y, ms, VmId(cid), keep);
    DeletedAfter(y, pre, cid, ds);
    SameCleared(RunPool(y, ms).w.host, RunPool(y, Project(ms, VmId(cid))).w.host, VmId(cid));
  }

  lemma SameCleared(h: Host, k: Host, own: string)
    requires SameOwn(h, k, own)
    ensures Cleared(h, own) <==> Cleared(k, own)
  {
  }

  /** The moves that do not concern `own`. */
  function Leave(ms: seq<Move>, own: string): seq<Move> {
    if ms == [] then [] else (if MoverOf(ms[0]) != own then [ms[0]] else []) + Leave(ms[1..], own)
  }

  lemma {:induction false} LeaveProjects(ms: seq<Move>, own: string, o: string)
    ensures Project(Leave(ms, own), o) == if o == own then [] else Project(ms, o)
    ensures forall m :: m in Leave(ms, own) ==> m in ms
    decreases |ms|
  {
    if ms != [] {
      var first := if MoverOf(ms[0]) != own then [ms[0]] else [];
      LeaveProjects(ms[1..], own, o);
      ProjectConcat(first, Leave(ms[1..], own), o);
      assert first != [] ==> first[1..] == [];
    }
  }

  /** Without moves of its own an object is as it was. */
  lemma LeftAlone(y: System, ms: seq<Move>, own: string, keep: set<string>)
    requires Quiet(y) && Permitted(ms, own, keep) && Project(ms, own) == []
    ensures SameOwn(RunPool(y, ms).w.host, y.w.host, own)
  {
    Isolation(y, y, ms, own, keep);
  }

  /** The hosts are the same but for the VM's environment ISO. */
  predicate Restored(h: Host, k: Host, own: string) {
    h.ds == k.ds && h.vms == k.vms && h.files - {EnvIso(own)} == k.files - {EnvIso(own)}
  }

  lemma ClearedRestores(h: Host, k: Host, own: string)
    requires Cleared(h, own) && Cleared(k, own) && h.ds == k.ds
    requires forall o :: o != own ==> SameOwn(h, k, o)
    ensures Restored(h, k, own)
  {
    forall v ensures (v in h.vms <==> v in k.vms) && (v in h.vms ==> h.vms[v] == k.vms[v]) {
      assert v != own ==> SameOwn(h, k, v);
    }
    forall p | p != EnvIso(own)
      ensures (p in h.files <==> p in k.files) && (p in h.files ==> h.files[p] == k.files[p])
    {
      assert Owner(p) != own ==> SameOwn(h, k, Owner(p));
    }
    assert h.vms == k.vms;
  }

  /** Recoverability among others: a CreateVM of a fresh id that stopped anywhere, and a
      DeleteVM of that id that succeeds later, with any create and delete calls on other objects
      before, between and beside them, failing as they may, leave the host as those other calls
      alone would have left it, but for the VM's environment ISO. */
  lemma RecoverabilityInCrowd(y: System, ms: seq<Move>, c: Call, ls: seq<Label>, ds: seq<Label>, keep: set<string>)
    requires Quiet(y) && c.CreateVM? && LocalMoves(ms, keep) && Gone(y.w.host, VmId(c.cid))
    requires Project(ms, VmId(c.cid)) ==
               [Launch(c)] + Takes(VmId(c.cid), ls) + ([Launch(DeleteVM(c.cid))] + Takes(VmId(c.cid), ds))
    ensures var own := VmId(c.cid);
            var z, others := RunPool(y, ms), RunPool(y, Leave(ms, own));
            && own in z.tasks
            && z.tasks - {own} == others.tasks
            && (Succeeded(z.tasks[own]) ==> Restored(z.w.host, others.w.host, own))
  {
    var own := VmId(c.cid);
    var z, others := RunPool(y, ms), RunPool(y, Leave(ms, own));
    OwnPermitted(ms, c, keep);
    DeleteInCrowd(y, ms, [Launch(c)] + Takes(own, ls), c.cid, ds, keep);
    LeaveProjects(ms, own, own);
    LeftAlone(y, Leave(ms, own), own, keep);
    OthersAlike(y, ms, own, keep);
    if Succeeded(z.tasks[own]) {
      GoneCleared(y.w.host, own);
      SameCleared(others.w.host, y.w.host, own);
      ClearedRestores(z.w.host, others.w.host, own);
    }
  }

  lemma GoneCleared(h: Host, own: string)
    requires Gone(h, own)
    ensures Cleared(h, own)
  {
    forall p | Owner(p) == own && p != EnvIso(own) ensures p !in h.files {
      assert Under(p, own);
    }
  }

  lemma OwnPermitted(ms: seq<Move>, c: Call, keep: set<string>)
    requires LocalMoves(ms, keep) && Project(ms, OwnName(c)) != [] && Project(ms, OwnName(c))[0] == Launch(c)
    ensures Permitted(ms, OwnName(c), keep) && Permitted(Leave(ms, OwnName(c)), OwnName(c), keep)
  {
    ProjectSubset(ms, OwnName(c));
    assert Project(ms, OwnName(c))[0] in Project(ms, OwnName(c));
    OwnNameIsNotEnv(c);
    LeaveProjects(ms, OwnName(c), OwnName(c));
  }

  lemma OthersAlike(y: System, ms: seq<Move>, own: string, keep: set<string>)
    requires Quiet(y) && LocalMoves(ms, keep) && Permitted(Leave(ms, own), own, keep)
    ensures var z, others := RunPool(y, ms), RunPool(y, Leave(ms, own));
            && z.w.host.ds == others.w.host.ds && z.tasks - {own} == others.tasks
            && forall o :: o != own ==> SameOwn(z.w.host, others.w.host, o)
  {
    var z, others := RunPool(y, ms), RunPool(y, Leave(ms, own));
    forall o ensures OneAlike(z, others, own, o) {
      OtherAlike(y, ms, own, keep, o);
    }
    TasksAlike(z, others, own);
    assert OneAlike(z, others, own, own + "x");
    forall o | o != own ensures SameOwn(z.w.host, others.w.host, o) {
      assert OneAlike(z, others, own, o);
    }
  }

  /** The object and its task are the same, unless the object is `own`, which has no task. */
  ghost predicate OneAlike(z: System, others: System, own: string, o: string) {
    if o == own then o !in others.tasks
    else
      && SameOwn(z.w.host, others.w.host, o)
      && (o in z.tasks <==> o in others.tasks) && (o in z.tasks ==> z.tasks[o] == others.tasks[o])
  }

  lemma OtherAlike(y: System, ms: seq<Move>, own: string, keep: set<string>, o: string)
    requires Quiet(y) && LocalMoves(ms, keep) && Permitted(Leave(ms, own), own, keep)
    ensures OneAlike(RunPool(y, ms), RunPool(y, Leave(ms, own)), own, o)
  {
    LeaveProjects(ms, own, o);
    if o == own {
      Isolation(y, y, Leave(ms, own), own, keep);
    } else {
      SameEverywhere(y, ms, Leave(ms, own), keep, o);
    }
  }

  lemma TasksAlike(z: System, others: System, own: string)
    requires forall o :: OneAlike(z, others, own, o)
    ensures z.tasks - {own} == others.tasks
  {
    forall o
      ensures (o in z.tasks - {own} <==> o in others.tasks)
      ensures o in others.tasks ==> o in z.tasks && z.tasks[o] == others.tasks[o]
    {
      assert OneAlike(z, others, own, o);
    }
  }

  // ---------- Concurrent calls as a history ----------

  function Owners(ops: seq<Op>): seq<string> {
    if ops == [] then [] else [OwnName(ops[0].call)] + Owners(ops[1..])
  }

  /** The moves are those of the given calls, one call per object. */
  ghost predicate MovesOf(ms: seq<Move>, ops: seq<Op>) {
    && (forall i, j :: 0 <= i < j < |ops| ==> OwnName(ops[i].call) != OwnName(ops[j].call))
    && (forall i :: 0 <= i < |ops| ==>
          Project(ms, OwnName(ops[i].call)) == [Launch(ops[i].call)] + Takes(OwnName(ops[i].call), ops[i].ls))
    && (forall m :: m in ms ==> exists i :: 0 <= i < |ops| && OwnName(ops[i].call) == MoverOf(m))
  }

  lemma {:induction false} OwnersAt(ops: seq<Op>)
    ensures |Owners(ops)| == |ops| && forall i :: 0 <= i < |ops| ==> Owners(ops)[i] == OwnName(ops[i].call)
  {
    if ops != [] {
      OwnersAt(ops[1..]);
    }
  }

  lemma OwnersCover(ms: seq<Move>, ops: seq<Op>)
    requires MovesOf(ms, ops)
    ensures forall i, j :: 0 <= i < j < |Owners(ops)| ==> Owners(ops)[i] != Owners(ops)[j]
    ensures forall m :: m in ms ==> MoverOf(m) in Owners(ops)
  {
    OwnersAt(ops);
    forall m | m in ms ensures MoverOf(m) in Owners(ops) {
      var i :| 0 <= i < |ops| && OwnName(ops[i].call) == MoverOf(m);
      assert Owners(ops)[i] == MoverOf(m);
    }
  }

  lemma LaunchedLocal(ms: seq<Move>, op: Op, keep: set<string>, n: nat)
    requires LocalMoves(ms, keep) && Project(ms, OwnName(op.call)) == [Launch(op.call)] + Takes(OwnName(op.call), op.ls)
    ensures GeneratedDisk(op.call, n)
  {
    ProjectSubset(ms, OwnName(op.call));
    assert Project(ms, OwnName(op.call))[0] == Launch(op.call);
  }

  lemma {:induction false} SeriesIsHistory(y: System, ms: seq<Move>, ops: seq<Op>)
    requires forall i :: 0 <= i < |ops| ==>
               Project(ms, OwnName(ops[i].call)) == [Launch(ops[i].call)] + Takes(OwnName(ops[i].call), ops[i].ls)
    ensures RunPool(y, InSeries(ms, Owners(ops))).w == RunOps(y.w, ops)
    decreases |ops|
  {
    if ops != [] {
      var own := OwnName(ops[0].call);
      assert Owners(ops)[0] == own && Owners(ops)[1..] == Owners(ops[1..]);
      RunPoolSplit(y, Project(ms, own), InSeries(ms, Owners(ops[1..])));
      LaunchAlone(y, ops[0].call, ops[0].ls);
      SeriesIsHistory(RunPool(y, Project(ms, own)), ms, ops[1..]);
    }
  }

  /** Concurrent refinement: any command-level interleaving of create and delete calls on
      different objects, stopping and failing anywhere, ends on the host of a history of the
      same calls one after another, in every order, and each such history is one of the
      abstract machine. */
  lemma ConcurrentRefines(y: System, ms: seq<Move>, ops: seq<Op>, keep: set<string>, n: nat)
    requires Quiet(y) && LocalMoves(ms, keep) && MovesOf(ms, ops) && AllTidy(y.w.host, n)
    ensures RunPool(y, ms).w.host == RunOps(y.w, ops).host
    ensures Refines(y.w, ops)
  {
    OwnersCover(ms, ops);
    Serialisable(y, ms, Owners(ops), keep);
    SeriesIsHistory(y, ms, ops);
    forall i | 0 <= i < |ops| ensures GeneratedDisk(ops[i].call, n) {
      LaunchedLocal(ms, ops[i], keep, n);
    }
    HistoryRefines(y.w, ops, n);
  }

  // ---------- ISO replacement ----------

  ghost predicate TraysReady(y: System) {
    Orderly(y) && forall o :: o in y.tasks ==> TrayInv(State(y.w, y.tasks[o]))
  }

  lemma TraysStep(y: System, m: Move)
    requires TraysReady(y)
    ensures TraysReady(PoolStep(y, m))
  {
    OrderlyStep(y, m);
    match m
    case Launch(c) =>
      ProgramOwn(c);
      ProgramChained(c);
    case Take(own, l) =>
      if own in y.tasks {
        TrayStep(State(y.w, y.tasks[own]), l);
      }
  }

  lemma {:induction false} TraysRun(y: System, ms: seq<Move>)
    requires TraysReady(y)
    ensures TraysReady(RunPool(y, ms))
    decreases |ms|
  {
    if ms != [] {
      TraysStep(y, ms[0]);
      TraysRun(PoolStep(y, ms[0]), ms[1..]);
    }
  }

  predicate AboutToUpload(t: Task) { t.todo != [] && t.todo[0].Do? && t.todo[0].cmd.DatastoreUpload? }

  /** ISO replacement safety among others: in every state of every interleaved run of any calls,
      at most one at a time per VM, a call that is about to upload finds its own VM's CD-ROM
      disconnected and ejected. */
  lemma UploadsInCrowd(y: System, ms: seq<Move>, own: string)
    requires Quiet(y)
    ensures var z := RunPool(y, ms);
            own in z.tasks && AboutToUpload(z.tasks[own]) ==>
              && z.tasks[own].todo[0].cmd.vm == own
              && (own in z.w.host.vms ==> z.w.host.vms[own].cdrom == Cdrom(false, None))
  {
    TraysRun(y, ms);
    var z := RunPool(y, ms);
    if own in z.tasks && z.tasks[own].todo != [] {
      assert OwnAction(z.tasks[own].todo[0], own);
    }
  }
}
