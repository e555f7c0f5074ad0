/** Replacing the environment ISO of a VM: disconnect, eject, upload, insert, connect. */
module IsoSwap {
  import opened Names
  import opened Host
  import opened Machine
  import opened Traces

  /** The environment that the agent of `vm` finds on its ISO. */
  function IsoOf(h: Host, vm: string): Option<Env> {
    if EnvIso(vm) in h.files && h.files[EnvIso(vm)].Iso? then Some(h.files[EnvIso(vm)].env) else None
  }

  /** The CD-ROM of `vm` is connected to the VM's ISO. */
  predicate Connected(h: Host, vm: string) {
    vm in h.vms && h.vms[vm].cdrom == Cdrom(true, Some(EnvIso(vm))) && EnvIso(vm) in h.files
  }

  /** It is connected to an ISO that holds `env`. */
  predicate Presents(h: Host, vm: string, env: Env) { Connected(h, vm) && IsoOf(h, vm) == Some(env) }

  /** It is connected to an ISO that holds `env` if the file was whole, and nothing otherwise. */
  predicate Shows(h: Host, vm: string, env: Env, whole: bool) {
    Connected(h, vm) && IsoOf(h, vm) == if whole then Some(env) else None
  }

  /** The CD-ROM and the ISO with `k` steps of PublishEnv to go. */
  ghost predicate PublishStage(h: Host, vm: string, env: Env, k: nat) {
    && (k <= 4 ==> vm in h.vms)
    && (1 <= k <= 4 ==> !h.vms[vm].cdrom.connected)
    && (2 <= k <= 3 ==> h.vms[vm].cdrom.iso == None)
    && (k <= 2 ==> EnvIso(vm) in h.files && IsoOf(h, vm) in {None, Some(env)})
    && (k <= 1 ==> h.vms[vm].cdrom.iso == Some(EnvIso(vm)))
    && (k == 0 ==> h.vms[vm].cdrom.connected)
  }

  lemma PublishStep(w: World, vm: string, env: Env, k: nat, o: Outcome)
    requires 1 <= k <= 6 && PublishStage(w.host, vm, env, k)
    requires Act(PublishEnv(vm, env)[6 - k], w, vm, o).1
    ensures PublishStage(Act(PublishEnv(vm, env)[6 - k], w, vm, o).0.host, vm, env, k - 1)
  {
  }

  /** A task in the middle of PublishEnv. */
  ghost predicate Publishing(s: State, vm: string, env: Env) {
    && |s.t.todo| <= 6 && s.t.own == vm
    && s.t.todo == PublishEnv(vm, env)[6 - |s.t.todo|..]
    && PublishStage(s.w.host, vm, env, |s.t.todo|)
  }

  predicate PublishAction(a: Action, vm: string, env: Env) {
    a == WriteEnv(env) ||
    (a.Do? && a.cmd in {CdromDisconnect(vm), CdromEject(vm), DatastoreUpload(vm, env), CdromInsert(vm, EnvIso(vm)),
                        CdromConnect(vm)})
  }

  lemma PublishActions(vm: string, env: Env, i: nat)
    requires i < 6
    ensures PublishAction(PublishEnv(vm, env)[i], vm, env)
  {
  }

  /** PublishEnv is worked off step by step. */
  lemma PublishMoves(s: State, vm: string, env: Env, o: Outcome)
    requires 0 < |s.t.todo| <= 6 && s.t.own == vm && s.t.todo == PublishEnv(vm, env)[6 - |s.t.todo|..]
    ensures var k := |s.t.todo|;
            var (w, ok) := Act(PublishEnv(vm, env)[6 - k], s.w, vm, o);
            MainStep(s, o) == if ok then State(w, s.t.(todo := PublishEnv(vm, env)[6 - (k - 1)..]))
                              else State(w, s.t.(todo := [], failed := true))
  {
    var a := PublishEnv(vm, env)[6 - |s.t.todo|];
    PublishActions(vm, env, 6 - |s.t.todo|);
    assert Expand(a, s.w, vm) == [] && !a.Fork?;
    Advance(s, o, PublishEnv(vm, env), |s.t.todo|);
  }

  lemma PublishMain(s: State, vm: string, env: Env, o: Outcome)
    requires Publishing(s, vm, env) && !s.t.failed && s.t.todo != []
    ensures MainStep(s, o).t.failed || Publishing(MainStep(s, o), vm, env)
  {
    PublishMoves(s, vm, env, o);
    var k := |s.t.todo|;
    var (w, ok) := Act(PublishEnv(vm, env)[6 - k], s.w, vm, o);
    if ok {
      PublishStep(s.w, vm, env, k, o);
    }
    PublishGoesOn(s.t, MainStep(s, o), w, ok, vm, env, k - 1);
  }

  lemma PublishGoesOn(t: Task, r: State, w: World, ok: bool, vm: string, env: Env, k: nat)
    requires k <= 6 && t.own == vm && (ok ==> PublishStage(w.host, vm, env, k))
    requires r == if ok then State(w, t.(todo := PublishEnv(vm, env)[6 - k..]))
                  else State(w, t.(todo := [], failed := true))
    ensures r.t.failed || Publishing(r, vm, env)
  {
  }

  lemma PublishElsewhere(s: State, vm: string, env: Env, l: Label)
    requires Publishing(s, vm, env) && !l.Main?
    ensures Publishing(Step(s, l), vm, env)
  {
    TrayAside(s, l);
  }

  /** Goroutine and host leave CD-ROMs, files and the program alone. */
  lemma TrayAside(s: State, l: Label)
    requires !l.Main?
    ensures var r := Step(s, l);
            && r.t.todo == s.t.todo && r.t.own == s.t.own
            && r.w.host.files == s.w.host.files
            && (s.t.own in r.w.host.vms <==> s.t.own in s.w.host.vms)
            && (s.t.own in s.w.host.vms ==> r.w.host.vms[s.t.own].cdrom == s.w.host.vms[s.t.own].cdrom)
  {
  }

  /** From any CD-ROM state, and whatever else goes on, a UpdateVMIso that succeeds leaves
      the CD-ROM connected to the new contents: the environment, if the file was whole. */
  lemma UpdateIsoResult(w: World, vm: string, env: Env, bg: Goroutine, ls: seq<Label>)
    ensures var s := State(w, Task(vm, UpdateIso(vm, env), bg, false));
            Succeeded(Run(s, ls).t) ==> Shows(Run(s, ls).w.host, vm, env, Burned(s, ls))
  {
    var s := State(w, Task(vm, UpdateIso(vm, env), bg, false));
    assert UpdateIso(vm, env) == PublishEnv(vm, env)[1..];
    PublishRun(s, vm, env, ls);
    UpdatedIso(s, env, ls);
  }

  lemma UpdatedIso(s: State, env: Env, ls: seq<Label>)
    requires s.t.todo == UpdateIso(s.t.own, env) && !s.t.failed
    ensures Succeeded(Run(s, ls).t) ==> IsoOf(Run(s, ls).w.host, s.t.own) == if Burned(s, ls) then Some(env) else None
  {
    UpdateIsoHands(s.t.own, env);
    assert UploadTo(s.t.todo[2], s.t.own);
    UploadHappens(s, ls);
    HandsOutRun(s, ls, env);
    IsoIsLastUpload(s, ls);
  }

  lemma UpdateIsoHands(vm: string, env: Env)
    ensures HandsOut(UpdateIso(vm, env), env) && OwnAll(UpdateIso(vm, env), vm) && KeepsIso(UpdateIso(vm, env))
  {
  }

  lemma {:induction false} PublishRun(s: State, vm: string, env: Env, ls: seq<Label>)
    requires s.t.failed || Publishing(s, vm, env)
    requires s.t.failed ==> Finished(s.t)
    ensures Succeeded(Run(s, ls).t) ==> Connected(Run(s, ls).w.host, vm)
    decreases |ls|
  {
    if ls != [] {
      if s.t.failed {
        NothingMore(s, ls);
      } else {
        if ls[0].Main? {
          if s.t.todo != [] { PublishMain(s, vm, env, ls[0].o); }
        } else {
          PublishElsewhere(s, vm, env, ls[0]);
        }
        PublishRun(Step(s, ls[0]), vm, env, ls[1..]);
      }
    }
  }

  // ---------- What the ISO holds ----------

  /** Nothing is created at the ISO's path but by an upload. */
  predicate KeepsIso(todo: seq<Action>) {
    forall i :: 0 <= i < |todo| ==> !(todo[i].Do? && todo[i].cmd.VmDiskCreate? && todo[i].cmd.path.EnvIso?)
  }

  lemma ProgramKeepsIso(c: Call)
    ensures KeepsIso(Program(c))
  {
    if c.CreateVM? {
      var vm := VmId(c.cid);
      var build := BuildVm(vm, StemcellId(c.stemcell), c.cpus, c.ram, c.mb, c.nets);
      assert KeepsIso(build) && KeepsIso(PublishEnv(vm, NewEnv(c.cid, c.agent, c.nets))) && KeepsIso(StartVm(vm));
    }
  }

  /** Commands other than an upload leave every uploaded ISO alone. */
  lemma ExecKeepsIso(h: Host, c: Cmd, o: Outcome, v: string)
    requires OwnPaths(c) && !(c.DatastoreUpload? && c.vm == v) && !(c.VmDiskCreate? && c.path.EnvIso?)
    ensures IsoOf(Exec(h, c, o).0, v) == IsoOf(h, v)
  {
  }

  lemma IsoStep(s: State, l: Label)
    requires OwnTask(s.t) && KeepsIso(s.t.todo)
    ensures OwnTask(Step(s, l).t) && KeepsIso(Step(s, l).t.todo) && Step(s, l).t.own == s.t.own
    ensures IsoOf(Step(s, l).w.host, s.t.own)
         == if Uploads(s, l).Some? then Uploads(s, l).value else IsoOf(s.w.host, s.t.own)
  {
    StepFrame(s, l);
    match l
    case Main(o) =>
      if s.t.todo != [] {
        var a := s.t.todo[0];
        assert OwnAction(a, s.t.own);
        assert KeepsIso(Expand(a, s.w, s.t.own));
        if CommandOf(a, s.t.own).Some? && !UploadTo(a, s.t.own) {
          ExecKeepsIso(s.w.host, CommandOf(a, s.t.own).value, o, s.t.own);
        }
      }
    case Background(o) => ExecKeepsIso(s.w.host, VmPowerOn(s.t.own), o, s.t.own);
    case Ticking =>
  }

  /** The ISO holds what the last upload left in it. */
  lemma {:induction false} IsoIsLastUpload(s: State, ls: seq<Label>)
    requires OwnTask(s.t) && KeepsIso(s.t.todo)
    ensures IsoOf(Run(s, ls).w.host, s.t.own)
         == if LastUpload(s, ls).Some? then LastUpload(s, ls).value else IsoOf(s.w.host, s.t.own)
    decreases |ls|
  {
    if ls != [] {
      IsoStep(s, ls[0]);
      IsoIsLastUpload(Step(s, ls[0]), ls[1..]);
    }
  }

  // ---------- Uploads only behind an ejected tray ----------

  /** In the program an ejection directly follows a disconnection, and an upload an ejection. */
  predicate Chained(todo: seq<Action>, own: string) {
    forall i :: 0 < i < |todo| && todo[i].Do? ==>
      && (todo[i].cmd.CdromEject? ==> todo[i - 1] == Do(CdromDisconnect(own)))
      && (todo[i].cmd.DatastoreUpload? ==> todo[i - 1] == Do(CdromEject(own)))
  }

  /** What the tray is like when the head of the program is reached. */
  predicate HeadReady(s: State) {
    s.t.todo != [] && s.t.todo[0].Do? && s.t.own in s.w.host.vms ==>
      var tray := s.w.host.vms[s.t.own].cdrom;
      && (s.t.todo[0].cmd.CdromEject? ==> !tray.connected)
      && (s.t.todo[0].cmd.DatastoreUpload? ==> tray == Cdrom(false, None))
  }

  ghost predicate TrayInv(s: State) { OwnTask(s.t) && Chained(s.t.todo, s.t.own) && HeadReady(s) }

  /** The action is one that may head a chained program anywhere. */
  predicate FreeHead(todo: seq<Action>) {
    todo != [] && todo[0].Do? ==> !todo[0].cmd.CdromEject? && !todo[0].cmd.DatastoreUpload?
  }

  lemma ExpandChained(a: Action, w: World, own: string)
    requires OwnAction(a, own)
    ensures Chained(Expand(a, w, own), own) && FreeHead(Expand(a, w, own))
    ensures a.Do? ==> Expand(a, w, own) == []
  {
  }

  lemma ChainedConcat(x: seq<Action>, y: seq<Action>, own: string)
    requires Chained(x, own) && Chained(y, own) && FreeHead(y)
    ensures Chained(x + y, own)
  {
    forall i | 0 < i < |x + y| && (x + y)[i].Do?
      ensures (x + y)[i].cmd.CdromEject? ==> (x + y)[i - 1] == Do(CdromDisconnect(own))
      ensures (x + y)[i].cmd.DatastoreUpload? ==> (x + y)[i - 1] == Do(CdromEject(own))
    {
      if i > |x| {
        assert (x + y)[i] == y[i - |x|] && (x + y)[i - 1] == y[i - |x| - 1];
      }
    }
  }

  lemma TrayStep(s: State, l: Label)
    requires TrayInv(s)
    ensures TrayInv(Step(s, l))
  {
    StepFrame(s, l);
    if l.Main? {
      if s.t.todo != [] { TrayMain(s, l.o); }
    }
  }

  lemma TrayMain(s: State, o: Outcome)
    requires TrayInv(s) && s.t.todo != []
    ensures Chained(MainStep(s, o).t.todo, s.t.own) && HeadReady(MainStep(s, o))
  {
    var a, rest := s.t.todo[0], s.t.todo[1..];
    var e := Expand(a, s.w, s.t.own);
    assert OwnAction(a, s.t.own);
    ExpandChained(a, s.w, s.t.own);
    ChainedRest(s.t.todo, s.t.own);
    if e == [] {
      assert e + rest == rest;
      TrayMoves(s, o);
    } else {
      FreeRest(s);
      ChainedConcat(e, rest, s.t.own);
      assert (e + rest)[0] == e[0];
    }
  }

  lemma ChainedRest(todo: seq<Action>, own: string)
    requires Chained(todo, own) && todo != []
    ensures Chained(todo[1..], own)
  {
    forall i | 0 < i < |todo[1..]| && todo[1..][i].Do?
      ensures todo[1..][i].cmd.CdromEject? ==> todo[1..][i - 1] == Do(CdromDisconnect(own))
      ensures todo[1..][i].cmd.DatastoreUpload? ==> todo[1..][i - 1] == Do(CdromEject(own))
    {
      assert todo[1..][i] == todo[i + 1] && todo[1..][i - 1] == todo[i];
    }
  }

  /** Behind an action that is no command by itself nothing relies on the tray. */
  lemma FreeRest(s: State)
    requires Chained(s.t.todo, s.t.own) && s.t.todo != [] && !s.t.todo[0].Do?
    ensures FreeHead(s.t.todo[1..])
  {
    if |s.t.todo| > 1 {
      assert s.t.todo[1..][0] == s.t.todo[1];
    }
  }

  /** The tray is as the next step needs it once the step before it went well. */
  lemma TrayMoves(s: State, o: Outcome)
    requires TrayInv(s) && s.t.todo != [] && Expand(s.t.todo[0], s.w, s.t.own) == []
    ensures HeadReady(MainStep(s, o))
  {
    var a, rest := s.t.todo[0], s.t.todo[1..];
    assert [] + rest == rest;
    if !FreeHead(rest) {
      assert rest[0] == s.t.todo[1];
      assert a == Do(if rest[0].cmd.CdromEject? then CdromDisconnect(s.t.own) else CdromEject(s.t.own));
    }
  }

  lemma ProgramChained(c: Call)
    ensures Chained(Program(c), OwnName(c))
    ensures FreeHead(Program(c))
  {
    if c.CreateVM? {
      var vm := VmId(c.cid);
      var build := BuildVm(vm, StemcellId(c.stemcell), c.cpus, c.ram, c.mb, c.nets);
      var publish := PublishEnv(vm, NewEnv(c.cid, c.agent, c.nets));
      assert forall i :: 0 <= i < |build| && build[i].Do? ==>
               !build[i].cmd.CdromEject? && !build[i].cmd.DatastoreUpload?;
      ChainedConcat(build, publish, vm);
      ChainedConcat(build + publish, StartVm(vm), vm);
      assert Program(c)[0] == build[0];
    }
  }

  lemma {:induction false} TrayRun(s: State, ls: seq<Label>)
    requires TrayInv(s)
    ensures forall e :: e in Trace(s, ls) && e.cmd.DatastoreUpload? ==>
              (e.cmd.vm in e.host.vms ==> e.host.vms[e.cmd.vm].cdrom == Cdrom(false, None))
    decreases |ls|
  {
    if ls != [] {
      TrayStep(s, ls[0]);
      TrayRun(Step(s, ls[0]), ls[1..]);
      assert s.t.todo != [] ==> OwnAction(s.t.todo[0], s.t.own);
    }
  }

  /** ISO replacement safety: in every run of every call, from any host, the ISO of a VM is
      overwritten only while the VM's CD-ROM is disconnected and ejected. Retries start from
      a host like any other. */
  lemma UploadsOnlyWhenEjected(w: World, c: Call, ls: seq<Label>)
    ensures forall e :: e in Trace(Start(w, c), ls) && e.cmd.DatastoreUpload? ==>
              (e.cmd.vm in e.host.vms ==> e.host.vms[e.cmd.vm].cdrom == Cdrom(false, None))
  {
    ProgramOwn(c);
    ProgramChained(c);
    TrayRun(Start(w, c), ls);
  }
}
