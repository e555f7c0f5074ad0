/** CreateVM step by step: what holds when each of its commands is issued. */
module Create {
  import opened Names
  import opened Lookup
  import opened Host
  import opened Machine
  import opened Destroy
  import opened Traces
  import opened IsoSwap

  /** What CloneVM needs of its source. */
  predicate StemcellReady(h: Host, source: string) {
    && In(source, source + ".vmx") in h.files && h.files[In(source, source + ".vmx")].Vmx?
    && In(source, "ephemeral.vmdk") !in h.files
  }

  function EnvOf(c: Call): Env
    requires c.CreateVM?
  {
    NewEnv(c.cid, c.agent, c.nets)
  }

  function Nics(nets: seq<Net>): seq<Nic> {
    seq(|nets|, i requires 0 <= i < |nets| => Nic(nets[i].spec.adapter, nets[i].spec.mac))
  }

  /** The number of steps of the program. */
  function Length(c: Call): nat
    requires c.CreateVM?
  {
    14 + |c.nets|
  }

  /** The step of CreateVM after which `m - 1` steps remain. */
  function StepAt(c: Call, m: nat): Action
    requires c.CreateVM? && 1 <= m <= Length(c)
  {
    var vm, source := VmId(c.cid), StemcellId(c.stemcell);
    if m == Length(c) then Do(DatastoreCp(source, vm))
    else if m == Length(c) - 1 then Do(VmRegister(In(vm, source + ".vmx"), vm))
    else if m == Length(c) - 2 then Do(VmChangeHardware(vm))
    else if m == Length(c) - 3 then Do(VmChangeResources(vm, c.cpus, c.ram))
    else if m > 10 then
      var spec := c.nets[Length(c) - 4 - m].spec;
      Do(VmNetworkAdd(vm, spec.adapter, spec.mac))
    else if m == 10 then Do(VmDiskCreate(vm, In(vm, "ephemeral.vmdk"), c.mb))
    else if m == 9 then WriteEnv(EnvOf(c))
    else if m == 8 then Do(CdromDisconnect(vm))
    else if m == 7 then Do(CdromEject(vm))
    else if m == 6 then Do(DatastoreUpload(vm, EnvOf(c)))
    else if m == 5 then Do(CdromInsert(vm, EnvIso(vm)))
    else if m == 4 then Do(CdromConnect(vm))
    else if m == 3 then Fork
    else if m == 2 then Poll
    else Do(VmQuestion(vm))
  }

  lemma ProgramAt(c: Call, m: nat)
    requires c.CreateVM? && 1 <= m <= Length(c)
    ensures |Program(c)| == Length(c)
    ensures Program(c)[Length(c) - m] == StepAt(c, m)
  {
    var vm, source := VmId(c.cid), StemcellId(c.stemcell);
    var build := BuildVm(vm, source, c.cpus, c.ram, c.mb, c.nets);
    var publish := PublishEnv(vm, EnvOf(c));
    assert |build| == 5 + |c.nets| && |publish| == 6;
    var i := Length(c) - m;
    if i < |build| {
      assert Program(c)[i] == build[i];
    } else if i < |build| + 6 {
      assert Program(c)[i] == publish[i - |build|];
    } else {
      assert Program(c)[i] == StartVm(vm)[i - |build| - 6];
    }
  }

  /** There is a disk of that size under the path. */
  predicate HasDisk(h: Host, p: Path, mb: int) { p in h.files && h.files[p] == Disk(mb) }

  /** The number of networks whose adapter has been added. */
  function NetsDone(c: Call, m: nat): nat
    requires c.CreateVM?
  {
    if m >= Length(c) - 4 then 0 else if m <= 10 then |c.nets| else Length(c) - 4 - m
  }

  /** The new VM with `m` steps to go. */
  ghost predicate VmStage(c: Call, v: Vm, bg: Goroutine, m: nat)
    requires c.CreateVM?
  {
    && (forall d :: d in v.devices ==> d.parent == "") && Named(v.devices)
    && (m >= 10 ==> v.devices == [ROOT_DISK])
    && v.nics == Nics(c.nets[..NetsDone(c, m)])
    && (m <= Length(c) - 3 ==> v.nested)
    && (m <= Length(c) - 4 ==> v.cpus == c.cpus && v.ram == c.ram)
    && (m >= 3 ==> v.power == Off)
    && (m >= 1 ==> v.copied)
    && (m == 2 ==> v.power != On && (bg == Ready ==> v.power == Off))
    && (m == 1 ==> v.power == Asking)
    && (m == 0 ==> v.power == On && !v.copied)
  }

  /** The host and the goroutine with `m` steps to go. */
  ghost predicate Stage(c: Call, h: Host, bg: Goroutine, m: nat)
    requires c.CreateVM?
  {
    var vm := VmId(c.cid);
    && m <= Length(c)
    && (m == Length(c) - 1 ==>
          forall f :: In(vm, f) in h.files && h.files[In(vm, f)].Vmx? ==> h.files[In(vm, f)].copied)
    && (m <= Length(c) - 2 ==> vm in h.vms && VmStage(c, h.vms[vm], bg, m))
    && (m < 10 ==> HasDisk(h, In(vm, "ephemeral.vmdk"), c.mb))
    && (m <= 9 ==> PublishStage(h, vm, EnvOf(c), if m <= 3 then 0 else m - 3))
    && (m >= 3 <==> bg == Idle)
    && (m <= 1 ==> bg != Ready)
  }

  ghost predicate CreateInv(c: Call, s: State)
    requires c.CreateVM?
  {
    && s.t.own == VmId(c.cid)
    && (s.t.failed ==> s.t.todo == [])
    && (!s.t.failed ==>
          && |s.t.todo| <= Length(c) == |Program(c)|
          && s.t.todo == Program(c)[Length(c) - |s.t.todo|..]
          && Stage(c, s.w.host, s.t.bg, |s.t.todo|))
  }

  lemma CreateStarts(w: World, c: Call)
    requires c.CreateVM?
    ensures CreateInv(c, Start(w, c))
  {
    ProgramAt(c, 1);
  }

  /** One step of the call itself that goes well. */
  lemma StageStep(c: Call, w: World, bg: Goroutine, m: nat, o: Outcome)
    requires c.CreateVM? && 1 <= m <= Length(c) && Stage(c, w.host, bg, m)
    requires Act(StepAt(c, m), w, VmId(c.cid), o).1
    requires m == 2 ==> VmState(w.host, VmId(c.cid)) == STATE_BLOCKING_QUESTION
    ensures Stage(c, Act(StepAt(c, m), w, VmId(c.cid), o).0.host, if m == 3 then Ready else bg, m - 1)
  {
    if m >= Length(c) - 3 {
      CloneStep(c, w, bg, m, o);
    } else if m > 10 {
      NetStep(c, w, bg, m, o);
    } else if m >= 9 {
      DiskStep(c, w, bg, m, o);
    } else if m >= 4 {
      IsoStep(c, w, bg, m, o);
    } else {
      LaunchStep(c, w, bg, m, o);
    }
  }

  lemma CloneStep(c: Call, w: World, bg: Goroutine, m: nat, o: Outcome)
    requires c.CreateVM? && Length(c) - 3 <= m <= Length(c) && Stage(c, w.host, bg, m)
    requires Act(StepAt(c, m), w, VmId(c.cid), o).1
    ensures Stage(c, Act(StepAt(c, m), w, VmId(c.cid), o).0.host, bg, m - 1)
  {
    if m == Length(c) {
      assert forall f :: Under(In(VmId(c.cid), f), VmId(c.cid));
    }
  }

  lemma NetStep(c: Call, w: World, bg: Goroutine, m: nat, o: Outcome)
    requires c.CreateVM? && 10 < m < Length(c) - 3 && Stage(c, w.host, bg, m)
    requires Act(StepAt(c, m), w, VmId(c.cid), o).1
    ensures Stage(c, Act(StepAt(c, m), w, VmId(c.cid), o).0.host, bg, m - 1)
  {
    var k := Length(c) - 4 - m;
    assert Nics(c.nets[..k + 1]) == Nics(c.nets[..k]) + [Nic(c.nets[k].spec.adapter, c.nets[k].spec.mac)];
  }

  lemma DiskStep(c: Call, w: World, bg: Goroutine, m: nat, o: Outcome)
    requires c.CreateVM? && 9 <= m <= 10 && Stage(c, w.host, bg, m)
    requires Act(StepAt(c, m), w, VmId(c.cid), o).1
    ensures Stage(c, Act(StepAt(c, m), w, VmId(c.cid), o).0.host, bg, m - 1)
  {
    assert "ephemeral.vmdk"[0] == 'e' && (StemcellId(c.stemcell) + ".vmx")[0] == 'c';
  }

  lemma IsoStep(c: Call, w: World, bg: Goroutine, m: nat, o: Outcome)
    requires c.CreateVM? && 4 <= m <= 8 && Stage(c, w.host, bg, m)
    requires Act(StepAt(c, m), w, VmId(c.cid), o).1
    ensures Stage(c, Act(StepAt(c, m), w, VmId(c.cid), o).0.host, bg, m - 1)
  {
    assert PublishEnv(VmId(c.cid), EnvOf(c))[6 - (m - 3)] == StepAt(c, m);
    PublishStep(w, VmId(c.cid), EnvOf(c), m - 3, o);
    IsoKeeps(StepAt(c, m), w, VmId(c.cid), o);
    StageKept(c, w.host, Act(StepAt(c, m), w, VmId(c.cid), o).0.host, bg, m);
  }

  /** The steps of UpdateVMIso change the CD-ROM and the ISO only. */
  lemma IsoKeeps(a: Action, w: World, vm: string, o: Outcome)
    requires a.Do? && vm in w.host.vms
    requires a.cmd in {CdromDisconnect(vm), CdromEject(vm), CdromInsert(vm, EnvIso(vm)), CdromConnect(vm)}
             || (a.cmd.DatastoreUpload? && a.cmd.vm == vm)
    ensures OnlyCdrom(w.host, Act(a, w, vm, o).0.host, vm)
  {
  }

  ghost predicate OnlyCdrom(h: Host, k: Host, vm: string) {
    && vm in h.vms && vm in k.vms && k.vms[vm] == h.vms[vm].(cdrom := k.vms[vm].cdrom)
    && forall p :: p in h.files && p != EnvIso(vm) ==> p in k.files && k.files[p] == h.files[p]
  }

  lemma StageKept(c: Call, h: Host, k: Host, bg: Goroutine, m: nat)
    requires c.CreateVM? && 4 <= m <= 8 && Stage(c, h, bg, m) && OnlyCdrom(h, k, VmId(c.cid))
    requires PublishStage(k, VmId(c.cid), EnvOf(c), m - 4)
    ensures Stage(c, k, bg, m - 1)
  {
  }

  lemma LaunchStep(c: Call, w: World, bg: Goroutine, m: nat, o: Outcome)
    requires c.CreateVM? && 1 <= m <= 3 && Stage(c, w.host, bg, m)
    requires Act(StepAt(c, m), w, VmId(c.cid), o).1
    requires m == 2 ==> VmState(w.host, VmId(c.cid)) == STATE_BLOCKING_QUESTION
    ensures Stage(c, Act(StepAt(c, m), w, VmId(c.cid), o).0.host, if m == 3 then Ready else bg, m - 1)
  {
  }

  lemma CreateStep(c: Call, s: State, l: Label)
    requires c.CreateVM? && CreateInv(c, s)
    ensures CreateInv(c, Step(s, l))
  {
    if l.Main? {
      CreateMainStep(c, s, l.o);
    } else if !s.t.failed {
      if l.Background? {
        StageBackground(c, s, l.o, |s.t.todo|);
      } else {
        StageTick(c, s.w.host, s.t.bg, |s.t.todo|);
      }
      CreateStays(c, s, Step(s, l));
    }
  }

  lemma CreateStays(c: Call, s: State, r: State)
    requires c.CreateVM? && CreateInv(c, s) && !s.t.failed
    requires r.t == s.t.(bg := r.t.bg) && Stage(c, r.w.host, r.t.bg, |s.t.todo|)
    ensures CreateInv(c, r)
  {
  }

  /** The goroutine's power-on is accepted while the call is polling, and only then. */
  lemma StageBackground(c: Call, s: State, o: Outcome, m: nat)
    requires c.CreateVM? && s.t.own == VmId(c.cid) && Stage(c, s.w.host, s.t.bg, m)
    ensures Stage(c, BackgroundStep(s, o).w.host, BackgroundStep(s, o).t.bg, m)
  {
  }

  lemma StageTick(c: Call, h: Host, bg: Goroutine, m: nat)
    requires c.CreateVM? && Stage(c, h, bg, m)
    ensures Stage(c, Tick(h, VmId(c.cid)), bg, m)
  {
  }

  lemma CreateMainStep(c: Call, s: State, o: Outcome)
    requires c.CreateVM? && CreateInv(c, s)
    ensures CreateInv(c, MainStep(s, o))
  {
    var m := |s.t.todo|;
    if m > 0 {
      var a := StepAt(c, m);
      ProgramAt(c, m);
      if m == 2 && VmState(s.w.host, s.t.own) != STATE_BLOCKING_QUESTION {
        PollAgain(c, s, o);
      } else if Act(a, s.w, s.t.own, o).1 {
        StepAtExpands(c, m, s.w);
        StageStep(c, s.w, s.t.bg, m, o);
        CreateAdvance(c, s, o, m, a);
      } else {
        Advance(s, o, Program(c), m);
      }
    }
  }

  lemma PollAgain(c: Call, s: State, o: Outcome)
    requires c.CreateVM? && CreateInv(c, s) && |s.t.todo| == 2
    requires VmState(s.w.host, s.t.own) != STATE_BLOCKING_QUESTION
    ensures MainStep(s, o) == s || MainStep(s, o) == s.(t := s.t.(todo := [], failed := true))
  {
    ProgramAt(c, 2);
    Advance(s, o, Program(c), 2);
  }

  lemma CreateAdvance(c: Call, s: State, o: Outcome, m: nat, a: Action)
    requires c.CreateVM? && CreateInv(c, s) && !s.t.failed && 0 < m == |s.t.todo| && a == Program(c)[Length(c) - m]
    requires Act(a, s.w, s.t.own, o).1 && Expand(a, s.w, s.t.own) == [] && (a.Fork? <==> m == 3)
    requires Stage(c, Act(a, s.w, s.t.own, o).0.host, if m == 3 then Ready else s.t.bg, m - 1)
    ensures CreateInv(c, MainStep(s, o))
  {
    Advance(s, o, Program(c), m);
    CreateMoved(c, s, MainStep(s, o), m);
  }

  lemma CreateMoved(c: Call, s: State, r: State, m: nat)
    requires c.CreateVM? && s.t.own == VmId(c.cid) && !s.t.failed && 0 < m <= Length(c) == |Program(c)|
    requires r.t == s.t.(todo := Program(c)[Length(c) - (m - 1)..], bg := r.t.bg)
    requires Stage(c, r.w.host, r.t.bg, m - 1)
    ensures CreateInv(c, r)
  {
  }

  lemma StepAtExpands(c: Call, m: nat, w: World)
    requires c.CreateVM? && 1 <= m <= Length(c)
    ensures StepAt(c, m).Fork? <==> m == 3
    ensures m != 2 ==> Expand(StepAt(c, m), w, VmId(c.cid)) == []
    ensures m == 2 ==> StepAt(c, m) == Poll
  {
  }

  /** The invariant of every CreateVM run. */
  lemma {:induction false} CreateRun(c: Call, s: State, ls: seq<Label>)
    requires c.CreateVM? && CreateInv(c, s)
    ensures CreateInv(c, Run(s, ls))
    decreases |ls|
  {
    if ls != [] {
      CreateStep(c, s, ls[0]);
      CreateRun(c, Step(s, ls[0]), ls[1..]);
    }
  }

  // ---------- What the agent is told ----------

  /** The networks are listed under distinct names, in whatever order. */
  predicate DistinctNames(nets: seq<Net>) {
    forall i, j :: 0 <= i < j < |nets| ==> nets[i].name != nets[j].name
  }

  function NetNames(nets: seq<Net>): set<string> {
    set i | 0 <= i < |nets| :: nets[i].name
  }

  lemma NetNamesLast(nets: seq<Net>)
    requires nets != []
    ensures NetNames(nets) == NetNames(nets[..|nets| - 1]) + {nets[|nets| - 1].name}
  {
    var k := |nets| - 1;
    forall name | name in NetNames(nets[..k]) ensures name in NetNames(nets) {
      var i :| 0 <= i < k && nets[..k][i].name == name;
      assert nets[i].name == name;
    }
    forall name | name in NetNames(nets) ensures name in NetNames(nets[..k]) + {nets[k].name} {
      var i :| 0 <= i < |nets| && nets[i].name == name;
      assert i < k ==> nets[..k][i].name == name;
    }
  }

  lemma {:induction false} NetTableEntries(nets: seq<Net>)
    requires DistinctNames(nets)
    ensures NetTable(nets).Keys == NetNames(nets)
    ensures forall i :: 0 <= i < |nets| ==>
              nets[i].name in NetTable(nets) && NetTable(nets)[nets[i].name] == nets[i].spec
  {
    if nets != [] {
      var k := |nets| - 1;
      NetTableEntries(nets[..k]);
      NetNamesLast(nets);
      forall i | 0 <= i < |nets|
        ensures nets[i].name in NetTable(nets) && NetTable(nets)[nets[i].name] == nets[i].spec
      {
        assert i < k ==> nets[..k][i] == nets[i];
      }
    }
  }

  /** The environment is what the agent of the new VM is to be told: who it is and what its VM
      is called, that the system disk is disk 0 and the ephemeral disk is disk 1, that there is
      no persistent disk, and for every network the adapter and the MAC address it was given. */
  predicate Tells(env: Env, c: Call)
    requires c.CreateVM?
  {
    && env.agent == c.agent && env.vm == c.cid
    && env.system == "0" && env.ephemeral == "1" && env.persistent == map[]
    && (DistinctNames(c.nets) ==>
          && env.networks.Keys == NetNames(c.nets)
          && forall i :: 0 <= i < |c.nets| ==>
               c.nets[i].name in env.networks && env.networks[c.nets[i].name] == c.nets[i].spec)
  }

  /** What the agent finds after the call: on the ISO if that was whole, and in the environment
      file if it was written. */
  predicate Told(c: Call, r: World, burned: bool, wrote: bool)
    requires c.CreateVM?
  {
    var iso := IsoOf(r.host, VmId(c.cid));
    && (burned ==> iso.Some? && Tells(iso.value, c))
    && (wrote ==> r.cell.Some? && Tells(r.cell.value, c))
  }

  lemma NewEnvTells(c: Call)
    requires c.CreateVM?
    ensures Tells(EnvOf(c), c)
  {
    if DistinctNames(c.nets) {
      NetTableEntries(c.nets);
    }
  }

  // ---------- What the stages give ----------

  /** The new VM, up and running as it was asked for. */
  ghost predicate Running(c: Call, h: Host)
    requires c.CreateVM?
  {
    var vm := VmId(c.cid);
    && Connected(h, vm) && HasDisk(h, In(vm, "ephemeral.vmdk"), c.mb)
    && var v := h.vms[vm];
    && v.power == On && !v.copied && v.nested && v.cpus == c.cpus && v.ram == c.ram
    && v.nics == Nics(c.nets)
    && Named(v.devices) && forall d :: d in v.devices ==> d.parent == ""
  }

  /** A CreateVM that succeeds has built the VM it was asked for, running, and its power-on is
      through. The connected ISO tells the agent about it if that file was whole, and so does
      the environment file if it was written. */
  lemma CreateResult(w: World, c: Call, ls: seq<Label>)
    requires c.CreateVM?
    ensures var s := Run(Start(w, c), ls);
            Succeeded(s.t) ==>
              && Running(c, s.w.host) && s.t.bg in {Blocked, Over}
              && Shows(s.w.host, VmId(c.cid), EnvOf(c), Burned(Start(w, c), ls))
    ensures Succeeded(Run(Start(w, c), ls).t) ==>
              Told(c, Run(Start(w, c), ls).w, Burned(Start(w, c), ls), Wrote(w, c, ls))
  {
    CreateStarts(w, c);
    CreateRun(c, Start(w, c), ls);
    CreateIso(w, c, ls);
    CreateWrites(w, c, ls);
    NewEnvTells(c);
    assert c.nets[..|c.nets|] == c.nets;
  }

  /** Once CreateVM is past its upload, the ISO holds what was uploaded. */
  lemma CreateIso(w: World, c: Call, ls: seq<Label>)
    requires c.CreateVM?
    ensures var s := Run(Start(w, c), ls);
            !s.t.failed && |s.t.todo| < 6 ==>
              IsoOf(s.w.host, VmId(c.cid)) == if Burned(Start(w, c), ls) then Some(EnvOf(c)) else None
  {
    ProgramStraight(c);
    HandsOutRun(Start(w, c), ls, EnvOf(c));
    ProgramOwn(c);
    ProgramKeepsIso(c);
    IsoIsLastUpload(Start(w, c), ls);
    CreateStarts(w, c);
    Uploaded(c, Start(w, c), ls);
  }

  lemma UploadedNow(c: Call, s: State, l: Label)
    requires c.CreateVM? && s.t.own == VmId(c.cid) && 6 <= |s.t.todo| <= Length(c) == |Program(c)|
    requires s.t.todo == Program(c)[Length(c) - |s.t.todo|..]
    ensures var r := Step(s, l);
            !r.t.failed && |r.t.todo| < 6 ==> Uploads(s, l).Some?
  {
    var m := |s.t.todo|;
    if l.Main? {
      ProgramAt(c, m);
      Advance(s, l.o, Program(c), m);
      StepAtExpands(c, m, s.w);
      assert s.t.todo[0] == StepAt(c, m);
    }
  }

  lemma {:induction false} Uploaded(c: Call, s: State, ls: seq<Label>)
    requires c.CreateVM? && CreateInv(c, s) && !s.t.failed && |s.t.todo| >= 6
    ensures var r := Run(s, ls);
            !r.t.failed && |r.t.todo| < 6 ==> LastUpload(s, ls).Some?
    decreases |ls|
  {
    if ls != [] {
      var r := Step(s, ls[0]);
      CreateStep(c, s, ls[0]);
      UploadedNow(c, s, ls[0]);
      if r.t.failed {
        NothingMore(r, ls[1..]);
      } else if |r.t.todo| >= 6 {
        Uploaded(c, r, ls[1..]);
      }
    }
  }

  /** Staging of the power-on: whenever the goroutine is about to issue it, the VM is
      registered and off, its ephemeral disk exists, its CD-ROM is connected to the
      environment just built (if its ISO file was whole), and the host takes the command. */
  lemma PowerOnStaged(w: World, c: Call, ls: seq<Label>, o: Outcome)
    requires c.CreateVM?
    ensures var s := Run(Start(w, c), ls);
            s.t.bg == Ready && !s.t.failed ==>
              && Accepts(s.w.host, VmPowerOn(VmId(c.cid)), o)
              && Shows(s.w.host, VmId(c.cid), EnvOf(c), Burned(Start(w, c), ls))
              && HasDisk(s.w.host, In(VmId(c.cid), "ephemeral.vmdk"), c.mb)
              && s.w.host.vms[VmId(c.cid)].copied
  {
    CreateStarts(w, c);
    CreateRun(c, Start(w, c), ls);
    CreateIso(w, c, ls);
  }

  // ---------- Room for the new VM ----------

  /** The id is fresh and the stemcell is there. */
  predicate Startable(w: World, c: Call) {
    c.CreateVM? && Gone(w.host, VmId(c.cid)) && StemcellReady(w.host, StemcellId(c.stemcell))
  }

  /** Nothing is in the way of the steps that create something. */
  ghost predicate Room(c: Call, h: Host, m: nat)
    requires c.CreateVM?
  {
    var vm, source := VmId(c.cid), StemcellId(c.stemcell);
    && (m == Length(c) ==> Gone(h, vm) && StemcellReady(h, source))
    && (m == Length(c) - 1 ==>
          vm !in h.vms && In(vm, source + ".vmx") in h.files && h.files[In(vm, source + ".vmx")].Vmx?)
    && (10 <= m < Length(c) ==> In(vm, "ephemeral.vmdk") !in h.files)
  }

  ghost predicate RoomInv(c: Call, s: State)
    requires c.CreateVM?
  {
    CreateInv(c, s) && (!s.t.failed ==> Room(c, s.w.host, |s.t.todo|))
  }

  lemma RoomAct(c: Call, w: World, m: nat, o: Outcome)
    requires c.CreateVM? && 10 < m <= Length(c) && Room(c, w.host, m)
    requires Act(StepAt(c, m), w, VmId(c.cid), o).1
    ensures Room(c, Act(StepAt(c, m), w, VmId(c.cid), o).0.host, m - 1)
  {
    var vm, source := VmId(c.cid), StemcellId(c.stemcell);
    if m == Length(c) {
      FilesInDir(w.host.files, source, source + ".vmx");
      FilesInDir(w.host.files, source, "ephemeral.vmdk");
      assert Under(In(vm, "ephemeral.vmdk"), vm);
    }
  }

  lemma RoomStep(c: Call, s: State, l: Label)
    requires c.CreateVM? && RoomInv(c, s)
    ensures RoomInv(c, Step(s, l))
  {
    CreateStep(c, s, l);
    if !s.t.failed {
      if !l.Main? {
        RoomElsewhere(c, s, l);
      } else if s.t.todo != [] {
        RoomMain(c, s, l.o);
      }
    }
  }

  lemma RoomMain(c: Call, s: State, o: Outcome)
    requires c.CreateVM? && RoomInv(c, s) && !s.t.failed && 0 < |s.t.todo|
    ensures !MainStep(s, o).t.failed ==> Room(c, MainStep(s, o).w.host, |MainStep(s, o).t.todo|)
  {
    var m := |s.t.todo|;
    ProgramAt(c, m);
    Advance(s, o, Program(c), m);
    StepAtExpands(c, m, s.w);
    if m > 10 && Act(StepAt(c, m), s.w, s.t.own, o).1 {
      RoomAct(c, s.w, m, o);
    }
  }

  lemma RoomElsewhere(c: Call, s: State, l: Label)
    requires c.CreateVM? && RoomInv(c, s) && !s.t.failed && !l.Main?
    ensures Room(c, Step(s, l).w.host, |s.t.todo|)
  {
  }

  lemma {:induction false} RoomRun(c: Call, s: State, ls: seq<Label>)
    requires c.CreateVM? && RoomInv(c, s)
    ensures RoomInv(c, Run(s, ls))
    decreases |ls|
  {
    if ls != [] {
      RoomStep(c, s, ls[0]);
      RoomRun(c, Step(s, ls[0]), ls[1..]);
    }
  }

  /** An outcome without a fault, and with a name for a new device that is not taken. */
  predicate Usable(o: Outcome) { o.fault == NoFault && o.device !in {"", ROOT_DISK.name} }

  /** Staging: with a fresh id and a stemcell, every command of CreateVM meets what the host
      asks of it, wherever the call has got to. It is never refused, and fails only where a
      fault strikes. */
  lemma NothingRefused(w: World, c: Call, ls: seq<Label>, o: Outcome)
    requires Startable(w, c) && Usable(o)
    ensures var s := Run(Start(w, c), ls);
            !s.t.failed ==> !MainStep(s, o).t.failed
  {
    RoomStarts(w, c);
    RoomRun(c, Start(w, c), ls);
    if !Run(Start(w, c), ls).t.failed {
      StepAccepted(c, Run(Start(w, c), ls), o);
    }
  }

  lemma RoomStarts(w: World, c: Call)
    requires Startable(w, c)
    ensures RoomInv(c, Start(w, c))
  {
    CreateStarts(w, c);
    ProgramAt(c, 1);
  }

  lemma StepAccepted(c: Call, s: State, o: Outcome)
    requires c.CreateVM? && RoomInv(c, s) && !s.t.failed && Usable(o)
    ensures !MainStep(s, o).t.failed
  {
    var m := |s.t.todo|;
    if m > 0 {
      ProgramAt(c, m);
      ActAccepted(c, s.w, s.t.bg, m, o);
      Advance(s, o, Program(c), m);
      StepAtExpands(c, m, s.w);
    }
  }

  lemma ActAccepted(c: Call, w: World, bg: Goroutine, m: nat, o: Outcome)
    requires c.CreateVM? && 1 <= m <= Length(c) && Stage(c, w.host, bg, m) && Room(c, w.host, m) && Usable(o)
    ensures Act(StepAt(c, m), w, VmId(c.cid), o).1
  {
    if m == Length(c) {
      FilesInDir(w.host.files, StemcellId(c.stemcell), StemcellId(c.stemcell) + ".vmx");
    }
  }

  /** A run in which nothing fails and the host gets round to the power-on: the call's own
      steps up to the polling, the goroutine, the host, one poll, the answer. */
  predicate GoodRun(c: Call, ls: seq<Label>)
    requires c.CreateVM?
  {
    && |ls| == Length(c) + 2
    && (forall i :: 0 <= i < |ls| && i != Length(c) - 2 && i != Length(c) - 1 ==> ls[i].Main? && Usable(ls[i].o))
    && ls[Length(c) - 2].Background? && ls[Length(c) - 2].o.fault == NoFault
    && ls[Length(c) - 1] == Ticking
  }

  /** Such a run succeeds: the theorems about successful calls are not empty. */
  lemma CreateSucceeds(w: World, c: Call, ls: seq<Label>)
    requires Startable(w, c) && GoodRun(c, ls)
    ensures Succeeded(Run(Start(w, c), ls).t)
  {
    RoomStarts(w, c);
    ProgramAt(c, 1);
    var k := Length(c) - 2;
    CalmCreate(c, Start(w, c), ls[..k]);
    RunSplit(Start(w, c), ls[..k], ls[k..]);
    assert ls[..k] + ls[k..] == ls;
    FinishCreate(c, Run(Start(w, c), ls[..k]), ls[k..]);
  }

  lemma {:induction false} CalmCreate(c: Call, s: State, ls: seq<Label>)
    requires c.CreateVM? && RoomInv(c, s) && !s.t.failed && |s.t.todo| == |ls| + 2
    requires forall i :: 0 <= i < |ls| ==> ls[i].Main? && Usable(ls[i].o)
    ensures RoomInv(c, Run(s, ls)) && !Run(s, ls).t.failed && |Run(s, ls).t.todo| == 2
    ensures ls != [] ==> Run(s, ls).t.bg == Ready
    decreases |ls|
  {
    if ls != [] {
      RoomStep(c, s, ls[0]);
      StepAccepted(c, s, ls[0].o);
      CalmStep(c, s, ls[0].o);
      CalmCreate(c, Step(s, ls[0]), ls[1..]);
    }
  }

  lemma CalmStep(c: Call, s: State, o: Outcome)
    requires c.CreateVM? && s.t.own == VmId(c.cid) && !s.t.failed && 2 < |s.t.todo| <= Length(c) == |Program(c)|
    requires s.t.todo == Program(c)[Length(c) - |s.t.todo|..] && !MainStep(s, o).t.failed
    ensures |MainStep(s, o).t.todo| == |s.t.todo| - 1
    ensures |s.t.todo| == 3 ==> MainStep(s, o).t.bg == Ready
  {
    ProgramAt(c, |s.t.todo|);
    Advance(s, o, Program(c), |s.t.todo|);
    StepAtExpands(c, |s.t.todo|, s.w);
  }

  lemma FinishCreate(c: Call, s: State, ls: seq<Label>)
    requires c.CreateVM? && RoomInv(c, s) && !s.t.failed && |s.t.todo| == 2 && s.t.bg == Ready
    requires |ls| == 4 && ls[0].Background? && ls[0].o.fault == NoFault && ls[1] == Ticking
    requires ls[2].Main? && Usable(ls[2].o) && ls[3].Main? && Usable(ls[3].o)
    ensures Succeeded(Run(s, ls).t)
  {
    var s2 := Raised(c, s, ls[0].o);
    AnswerCreate(c, s2, ls[2].o, ls[3].o);
    RunFour(s, ls);
  }

  lemma RunFour(s: State, ls: seq<Label>)
    requires |ls| == 4
    ensures Run(s, ls) == Step(Step(Step(Step(s, ls[0]), ls[1]), ls[2]), ls[3])
  {
    var s1 := Step(s, ls[0]);
    var s2 := Step(s1, ls[1]);
    var s3 := Step(s2, ls[2]);
    assert ls[1..][1..] == ls[2..] && ls[2..][1..] == ls[3..] && ls[3..][1..] == [];
    assert Run(s, ls) == Run(s1, ls[1..]);
    assert Run(s1, ls[1..]) == Run(s2, ls[2..]);
    assert Run(s2, ls[2..]) == Run(s3, ls[3..]);
    assert Run(s3, ls[3..]) == Run(Step(s3, ls[3]), []);
  }

  /** The goroutine powers the VM on, and the host raises the question. */
  lemma Raised(c: Call, s: State, o: Outcome) returns (r: State)
    requires c.CreateVM? && RoomInv(c, s) && !s.t.failed && |s.t.todo| == 2 && s.t.bg == Ready
    requires o.fault == NoFault
    ensures r == Step(Step(s, Background(o)), Ticking)
    ensures RoomInv(c, r) && !r.t.failed && |r.t.todo| == 2
    ensures VmState(r.w.host, VmId(c.cid)) == STATE_BLOCKING_QUESTION
  {
    r := Step(Step(s, Background(o)), Ticking);
    RoomStep(c, s, Background(o));
    RoomStep(c, Step(s, Background(o)), Ticking);
  }

  lemma AnswerCreate(c: Call, s: State, o: Outcome, p: Outcome)
    requires c.CreateVM? && RoomInv(c, s) && !s.t.failed && |s.t.todo| == 2
    requires VmState(s.w.host, VmId(c.cid)) == STATE_BLOCKING_QUESTION && Usable(o) && Usable(p)
    ensures Succeeded(MainStep(MainStep(s, o), p).t)
  {
    ProgramAt(c, 2);
    ProgramAt(c, 1);
    Advance(s, o, Program(c), 2);
    var r := MainStep(s, o);
    RoomStep(c, s, Main(o));
    Advance(r, p, Program(c), 1);
    StepAccepted(c, r, p);
  }

  // ---------- The network loop ----------

  /** Network loop: whatever the order, a successful CreateVM leaves one adapter per network,
      the environment names exactly these networks, and each network's MAC address in the
      environment is that of the adapter added for it. */
  lemma NetworksMatch(w: World, c: Call, ls: seq<Label>)
    requires c.CreateVM? && DistinctNames(c.nets) && Succeeded(Run(Start(w, c), ls).t)
    ensures VmId(c.cid) in Run(Start(w, c), ls).w.host.vms
    ensures var v := Run(Start(w, c), ls).w.host.vms[VmId(c.cid)];
            var env := EnvOf(c);
            && |v.nics| == |c.nets|
            && env.networks.Keys == NetNames(c.nets)
            && forall i :: 0 <= i < |c.nets| ==>
                 && c.nets[i].name in env.networks
                 && v.nics[i] == Nic(c.nets[i].spec.adapter, env.networks[c.nets[i].name].mac)
  {
    CreateResult(w, c, ls);
    NetTableEntries(c.nets);
  }

  // ---------- Commands and writes ----------

  lemma ProgramStraight(c: Call)
    requires c.CreateVM?
    ensures Straight(Program(c)) && NoInfo(Program(c)) && HandsOut(Program(c), EnvOf(c))
  {
    ProgramAt(c, 1);
    forall i | 0 <= i < |Program(c)| ensures Program(c)[i] == StepAt(c, Length(c) - i) {
      ProgramAt(c, Length(c) - i);
    }
  }

  /** Whatever fails, the commands of CreateVM are a prefix of its one script, and the whole
      of it when the call succeeds. */
  lemma CreateFollowsScript(w: World, c: Call, ls: seq<Label>)
    requires c.CreateVM?
    ensures Commands(Trace(Start(w, c), ls)) <= Script(Program(c))
    ensures Succeeded(Run(Start(w, c), ls).t) ==> Commands(Trace(Start(w, c), ls)) == Script(Program(c))
  {
    ProgramStraight(c);
    IssuesPrefix(Start(w, c), ls);
  }

  /** The environment file is left alone, holds the new VM's environment, or cannot be read. */
  lemma CreateWrites(w: World, c: Call, ls: seq<Label>)
    requires c.CreateVM?
    ensures LastWrite(Start(w, c), ls) in {None, Some(None), Some(Some(EnvOf(c)))}
    ensures Run(Start(w, c), ls).w.cell ==
              if LastWrite(Start(w, c), ls).Some? then LastWrite(Start(w, c), ls).value else w.cell
  {
    ProgramStraight(c);
    HandsOutRun(Start(w, c), ls, EnvOf(c));
    CellIsLastWrite(Start(w, c), ls);
  }
}
