/** The CPI actions, composed from client and agent settings. */
module Actions {
  import opened Names
  import opened Host
  import opened Machine
  import opened Runs
  import opened Destroy
  import opened Making
  import opened IsoSwap
  import opened Create
  import opened Disks
  import opened Traces
  import opened Client

  class Cpi {
    const p: Process

    constructor (p: Process)
      ensures this.p == p
    {
      this.p := p;
    }

    /** Unpack the image and import it under a new id; `ovf` is what unpacking came to. */
    method CreateStemcell(cid: string, ovf: Option<string>) returns (ok: bool, ghost ls: seq<Label>)
      requires p.bg == Idle
      modifies p
      ensures Ran(StemcellId(cid), old(p.W()), Idle, Program(Call.CreateStemcell(cid)), ls, p.W(), p.bg, ok)
      ensures p.now >= old(p.now)
      ensures ls == if ovf.None? then Unissued(p.turns, p.now) else Replay(p.turns, old(p.now), p.now)
      ensures ovf.None? ==> !ok && p.W() == old(p.W()) && p.now == old(p.now)
      ensures ok ==> Vacant(old(p.host), Call.CreateStemcell(cid)) &&
                       Made(old(p.host), Call.CreateStemcell(cid), p.host)
    {
      ghost var w0 := p.W();
      if ovf.None? {
        RanUnissued(StemcellId(cid), w0, Idle, ImportOvf(StemcellId(cid)), p.turns, p.now);
        ok, ls := false, Unissued(p.turns, p.now);
      } else {
        ok, ls := p.Issue(ImportOvf(StemcellId(cid)), StemcellId(cid));
      }
      MakingResult(w0, Call.CreateStemcell(cid), ls);
    }

    /** A query: nothing moves but what moves by itself. */
    method HasVM(vmCid: string) returns (ok: bool, found: bool)
      modifies p
      ensures p.now == old(p.now) + 1
      ensures (p.W(), p.bg) == Lull(VmId(vmCid), old(p.W()), old(p.bg), p.turns(old(p.now)).before)
      ensures ok == (p.turns(old(p.now)).o.fault == NoFault)
      ensures if ok then found == (VmId(vmCid) in p.host.vms) else !found
    {
      ok, found := p.HasVM(VmId(vmCid));
    }

    method DeleteVM(cid: string) returns (ok: bool, ghost ls: seq<Label>)
      requires p.bg == Idle
      modifies p
      ensures Ran(VmId(cid), old(p.W()), Idle, Program(Call.DeleteVM(cid)), ls, p.W(), p.bg, ok)
      ensures p.now >= old(p.now) && ls == Replay(p.turns, old(p.now), p.now)
      ensures ok ==> p.host == Without(old(p.host), VmId(cid))
    {
      ok, ls := p.DestroyVM(VmId(cid));
    }

    method DeleteStemcell(cid: string) returns (ok: bool, ghost ls: seq<Label>)
      requires p.bg == Idle
      modifies p
      ensures Ran(StemcellId(cid), old(p.W()), Idle, Program(Call.DeleteStemcell(cid)), ls, p.W(), p.bg, ok)
      ensures p.now >= old(p.now) && ls == Replay(p.turns, old(p.now), p.now)
      ensures ok ==> p.host == Without(old(p.host), StemcellId(cid))
    {
      ok, ls := p.DestroyVM(StemcellId(cid));
    }

    method CreateDisk(cid: string, mb: int) returns (ok: bool, ghost ls: seq<Label>)
      requires p.bg == Idle
      modifies p
      ensures Ran(DiskFile(cid), old(p.W()), Idle, Program(Call.CreateDisk(cid, mb)), ls, p.W(), p.bg, ok)
      ensures p.now >= old(p.now) && ls == Replay(p.turns, old(p.now), p.now)
      ensures ok ==> Root(DiskFile(cid)) !in old(p.host).files
      ensures ok ==> p.host.files == old(p.host).files[Root(DiskFile(cid)) := Disk(mb)]
    {
      ghost var w0 := p.W();
      ok, ls := p.Issue(DatastoreDiskCreate(DiskFile(cid), mb), DiskFile(cid));
      MakingResult(w0, Call.CreateDisk(cid, mb), ls);
    }

    method DeleteDisk(cid: string) returns (ok: bool, ghost ls: seq<Label>)
      requires p.bg == Idle
      modifies p
      ensures Ran(DiskFile(cid), old(p.W()), Idle, Program(Call.DeleteDisk(cid)), ls, p.W(), p.bg, ok)
      ensures p.now >= old(p.now) && ls == Replay(p.turns, old(p.now), p.now)
      ensures ok ==> p.host.files == RemoveTree(old(p.host).files, DiskFile(cid))
    {
      ghost var w0 := p.W();
      ok, ls := p.DestroyDisk(DiskId(cid));
      DeleteDiskResult(w0, cid, ls);
    }

    /** What AttachDisk and DetachDisk do after the host's part: read the environment file,
        edit it, write it back, and replace the VM's ISO. */
    method RewriteEnv(vm: string, edit: Edit) returns (ok: bool, ghost ls: seq<Label>)
      modifies p
      ensures Ran(vm, old(p.W()), old(p.bg), [EditEnv(vm, edit)], ls, p.W(), p.bg, ok)
      ensures p.now >= old(p.now) && ls == Replay(p.turns, old(p.now), p.now)
    {
      ghost var w0, g0, first := p.W(), p.bg, p.now;
      var env;
      ghost var es, o;
      ok, env, es, o := p.AgentEnvFromFile(vm);
      if ok {
        ok, ls := Publish(vm, Revise(env.value, edit));
      }
      RanTurns(vm, w0, g0, EditEnv(vm, edit), p.turns, first, p.now, p.W(), p.bg, ok);
      ls := Replay(p.turns, first, p.now);
    }

    /** GenerateAgentEnvIso followed by UpdateVMIso. */
    method Publish(vm: string, env: Env) returns (ok: bool, ghost ls: seq<Label>)
      modifies p
      ensures Ran(vm, old(p.W()), old(p.bg), PublishEnv(vm, env), ls, p.W(), p.bg, ok)
      ensures old(p.now) <= p.now <= old(p.now) + 6 && ls == Replay(p.turns, old(p.now), p.now)
      ensures ok ==> p.now == old(p.now) + 6 && Faultless(p.turns, old(p.now), p.now)
    {
      ghost var w0, g0, first := p.W(), p.bg, p.now;
      ok, ls := p.GenerateAgentEnvIso(env, vm);
      if ok {
        ghost var w1, g1, middle, ms := p.W(), p.bg, p.now, [];
        ok, ms := p.UpdateVMIso(vm, env);
        ReplayJoin(p.turns, first, middle, p.now);
        RanThen(vm, w0, g0, [WriteEnv(env)], ls, w1, g1, UpdateIso(vm, env), ms, p.W(), p.bg, ok);
        ls := ls + ms;
      } else {
        RanFails(vm, w0, g0, [WriteEnv(env)], ls, p.W(), p.bg, UpdateIso(vm, env));
      }
    }

    method AttachDisk(vmCid: string, diskCid: string) returns (ok: bool, ghost ls: seq<Label>)
      requires p.bg == Idle
      modifies p
      ensures Ran(VmId(vmCid), old(p.W()), Idle, Program(Call.AttachDisk(vmCid, diskCid)), ls, p.W(), p.bg, ok)
      ensures p.now >= old(p.now) && ls == Replay(p.turns, old(p.now), p.now)
      ensures ok ==> old(p.cell).Some? && var start := Machine.Start(old(p.W()), Call.AttachDisk(vmCid, diskCid));
                       Shows(p.host, VmId(vmCid), Revise(old(p.cell).value, Add(diskCid)), Burned(start, ls))
      ensures ok ==> var c := Call.AttachDisk(vmCid, diskCid);
                       ShowsEdit(old(p.cell).value, c, p.W(), Burned(Machine.Start(old(p.W()), c), ls),
                                 Wrote(old(p.W()), c, ls))
    {
      ghost var w0, g0, first, c := p.W(), p.bg, p.now, Call.AttachDisk(vmCid, diskCid);
      var attach := Do(VmDiskAttach(VmId(vmCid), DiskFile(diskCid)));
      ok, ls := p.Issue(attach.cmd, VmId(vmCid));
      if ok {
        ghost var w1, g1, middle, ms := p.W(), p.bg, p.now, [];
        ok, ms := RewriteEnv(VmId(vmCid), Add(diskCid));
        ReplayJoin(p.turns, first, middle, p.now);
        RanThen(VmId(vmCid), w0, g0, [attach], ls, w1, g1, [EditEnv(VmId(vmCid), Add(diskCid))], ms, p.W(), p.bg, ok);
        ls := ls + ms;
      } else {
        RanFails(VmId(vmCid), w0, g0, [attach], ls, p.W(), p.bg, [EditEnv(VmId(vmCid), Add(diskCid))]);
      }
      assert [attach] + [EditEnv(VmId(vmCid), Add(diskCid))] == Program(c);
      DiskFiles(w0, c, ls);
      if ok { DiskUploads(w0, c, ls); }
    }

    method DetachDisk(vmCid: string, diskCid: string) returns (ok: bool, ghost ls: seq<Label>)
      requires p.bg == Idle
      modifies p
      ensures Ran(VmId(vmCid), old(p.W()), Idle, Program(Call.DetachDisk(vmCid, diskCid)), ls, p.W(), p.bg, ok)
      ensures p.now >= old(p.now) && ls == Replay(p.turns, old(p.now), p.now)
      ensures ok ==> old(p.cell).Some? && var start := Machine.Start(old(p.W()), Call.DetachDisk(vmCid, diskCid));
                       Shows(p.host, VmId(vmCid), Revise(old(p.cell).value, Drop(diskCid)), Burned(start, ls))
      ensures ok ==> var c := Call.DetachDisk(vmCid, diskCid);
                       ShowsEdit(old(p.cell).value, c, p.W(), Burned(Machine.Start(old(p.W()), c), ls),
                                 Wrote(old(p.W()), c, ls))
    {
      ghost var w0, g0, first, c := p.W(), p.bg, p.now, Call.DetachDisk(vmCid, diskCid);
      var find := FindLink(VmId(vmCid), DiskId(diskCid));
      ok, ls := p.DetachDisk(VmId(vmCid), DiskId(diskCid));
      if ok {
        ghost var w1, g1, middle, ms := p.W(), p.bg, p.now, [];
        ok, ms := RewriteEnv(VmId(vmCid), Drop(diskCid));
        ReplayJoin(p.turns, first, middle, p.now);
        RanThen(VmId(vmCid), w0, g0, [find], ls, w1, g1, [EditEnv(VmId(vmCid), Drop(diskCid))], ms, p.W(), p.bg, ok);
        ls := ls + ms;
      } else {
        RanFails(VmId(vmCid), w0, g0, [find], ls, p.W(), p.bg, [EditEnv(VmId(vmCid), Drop(diskCid))]);
      }
      assert [find] + [EditEnv(VmId(vmCid), Drop(diskCid))] == Program(c);
      DiskFiles(w0, c, ls);
      if ok { DiskUploads(w0, c, ls); }
    }

    // ---------- CreateVM ----------

    /** The network loop: one adapter per network, in whatever order the map is iterated.
        `nets` lists the networks in that order, with the MAC addresses they were given. */
    method AddAdapters(vm: string, networks: map<string, NetSpec>)
      returns (ok: bool, updated: map<string, NetSpec>, ghost nets: seq<Net>, ghost ls: seq<Label>, ghost drawn: bool)
      modifies p
      ensures ListsNetworks(nets, networks) && Drawn(p.macs, old(p.now), p.now, nets)
      ensures Ran(vm, old(p.W()), old(p.bg), AddNetworks(vm, nets), ls, p.W(), p.bg, ok)
      ensures old(p.now) <= p.now <= old(p.now) + |networks.Keys|
      ensures drawn ==> ls == Replay(p.turns, old(p.now), p.now)
      ensures !drawn ==> ls == Replay(p.turns, old(p.now), p.now) + Unissued(p.turns, p.now)
      ensures !drawn ==> !ok && p.macs(p.now) == None && p.now < old(p.now) + |networks.Keys|
      ensures ok ==> updated == NetTable(nets) && |nets| == |networks.Keys|
      ensures ok ==> p.now == old(p.now) + |networks.Keys| && Faultless(p.turns, old(p.now), p.now)
    {
      ghost var w0, g0, first := p.W(), p.bg, p.now;
      var names := networks.Keys;
      ok, updated, nets, ls, drawn := true, map[], [], [], true;
      RanNothing(vm, w0, g0);
      assert NetNames(nets) == {};
      while names != {}
        invariant names <= networks.Keys && SomeNetworks(nets, networks, networks.Keys - names)
        invariant Ran(vm, w0, g0, AddNetworks(vm, nets), ls, p.W(), p.bg, true)
        invariant updated == NetTable(nets) && drawn && ok
        invariant p.now == first + |networks.Keys| - |names| == first + |nets| && Faultless(p.turns, first, p.now)
        invariant ls == Replay(p.turns, first, p.now) && Drawn(p.macs, first, p.now, nets)
        decreases |names|
      {
        var name :| name in names;
        names := names - {name};
        ghost var w1, g1, since, ms := p.W(), p.bg, p.now, [];
        var macAddress;
        ok, macAddress := p.GenerateMacAddress();
        var net := Net(name, networks[name].(mac := macAddress));
        drawn := ok;
        if ok {
          ok, ms := p.Issue(VmNetworkAdd(vm, networks[name].adapter, macAddress), vm);
          ReplayJoin(p.turns, first, since, p.now);
        } else {
          RanUnissued(vm, w1, g1, VmNetworkAdd(vm, net.spec.adapter, net.spec.mac), p.turns, since);
          ms := Unissued(p.turns, since);
        }
        AdapterRan(vm, w0, g0, nets, ls, w1, g1, net, ms, p.W(), p.bg, ok);
        AnotherNetwork(nets, networks, names, net);
        DrawnAnother(p.macs, first, since, nets, net, p.now);
        nets, ls := nets + [net], ls + ms;
        if !ok {
          nets := NetworksLeft(vm, w0, g0, nets, ls, p.W(), p.bg, networks, names, p.macs, first, p.now);
          return;
        }
        updated := updated[name := net.spec];
      }
    }

    /** CreateVM up to its ephemeral disk. */
    method Build(vm: string, source: string, cpus: int, ram: int, mb: int, networks: map<string, NetSpec>)
      returns (ok: bool, updated: map<string, NetSpec>, ghost nets: seq<Net>, ghost ls: seq<Label>, ghost drawn: bool)
      modifies p
      ensures ListsNetworks(nets, networks) && Drawn(p.macs, old(p.now) + 4, p.now, nets)
      ensures Ran(vm, old(p.W()), old(p.bg), BuildVm(vm, source, cpus, ram, mb, nets), ls, p.W(), p.bg, ok)
      ensures old(p.now) <= p.now <= old(p.now) + 5 + |networks.Keys|
      ensures drawn ==> ls == Replay(p.turns, old(p.now), p.now)
      ensures !drawn ==> ls == Replay(p.turns, old(p.now), p.now) + Unissued(p.turns, p.now)
      ensures !drawn ==> !ok && p.macs(p.now) == None && old(p.now) + 4 <= p.now < old(p.now) + 4 + |networks.Keys|
      ensures ok ==> updated == NetTable(nets) && |nets| == |networks.Keys|
      ensures ok ==> p.now == old(p.now) + 5 + |networks.Keys| && Faultless(p.turns, old(p.now), p.now)
    {
      ghost var w0, g0, first := p.W(), p.bg, p.now;
      var resources, disk := Do(VmChangeResources(vm, cpus, ram)), Do(VmDiskCreate(vm, In(vm, "ephemeral.vmdk"), mb));
      updated, drawn := map[], true;
      nets := ListNetworks(networks, networks.Keys);
      ghost var plan, ms := CloneVm(source, vm), [];
      ok, ls := p.CloneVM(source, vm);
      if !ok {
        RanFails(vm, w0, g0, plan, ls, p.W(), p.bg, [resources]);
        RanFails(vm, w0, g0, plan + [resources], ls, p.W(), p.bg, AddNetworks(vm, nets));
        RanFails(vm, w0, g0, plan + [resources] + AddNetworks(vm, nets), ls, p.W(), p.bg, [disk]);
        return;
      }
      ghost var w1, g1, middle := p.W(), p.bg, p.now;
      ok, ms := p.Issue(resources.cmd, vm);
      RanThen(vm, w0, g0, plan, ls, w1, g1, [resources], ms, p.W(), p.bg, ok);
      ReplayJoin(p.turns, first, middle, p.now);
      plan, ls := plan + [resources], ls + ms;
      if !ok {
        RanFails(vm, w0, g0, plan, ls, p.W(), p.bg, AddNetworks(vm, nets));
        RanFails(vm, w0, g0, plan + AddNetworks(vm, nets), ls, p.W(), p.bg, [disk]);
        return;
      }
      w1, g1, middle := p.W(), p.bg, p.now;
      ok, updated, nets, ms, drawn := AddAdapters(vm, networks);
      RanThen(vm, w0, g0, plan, ls, w1, g1, AddNetworks(vm, nets), ms, p.W(), p.bg, ok);
      ReplayJoin(p.turns, first, middle, p.now);
      plan, ls := plan + AddNetworks(vm, nets), ls + ms;
      if !ok {
        RanFails(vm, w0, g0, plan, ls, p.W(), p.bg, [disk]);
        return;
      }
      w1, g1, middle := p.W(), p.bg, p.now;
      ok, ms := p.Issue(disk.cmd, vm);
      RanThen(vm, w0, g0, plan, ls, w1, g1, [disk], ms, p.W(), p.bg, ok);
      ReplayJoin(p.turns, first, middle, p.now);
      ls := ls + ms;
    }

    /** CreateVM up to its start of the VM. */
    method Prepare(vmUuid: string, stemcell: string, agent: string, cpus: int, ram: int, mb: int,
                   networks: map<string, NetSpec>)
      returns (ok: bool, ghost nets: seq<Net>, ghost ls: seq<Label>, ghost drawn: bool)
      requires p.bg == Idle
      modifies p
      ensures ListsNetworks(nets, networks) && Drawn(p.macs, old(p.now) + 4, p.now, nets)
      ensures var c := Call.CreateVM(vmUuid, stemcell, agent, cpus, ram, mb, nets);
              Ran(VmId(vmUuid), old(p.W()), Idle, Preparation(c), ls, p.W(), p.bg, ok)
      ensures old(p.now) <= p.now <= old(p.now) + 11 + |networks.Keys|
      ensures drawn ==> ls == Replay(p.turns, old(p.now), p.now)
      ensures !drawn ==> ls == Replay(p.turns, old(p.now), p.now) + Unissued(p.turns, p.now)
      ensures !drawn ==> !ok && p.macs(p.now) == None && old(p.now) + 4 <= p.now < old(p.now) + 4 + |networks.Keys|
      ensures ok ==> p.now == old(p.now) + 11 + |networks.Keys| == old(p.now) + 11 + |nets|
      ensures ok ==> Faultless(p.turns, old(p.now), p.now)
    {
      ghost var w0, first := p.W(), p.now;
      var vm, source := VmId(vmUuid), StemcellId(stemcell);
      var updated;
      ok, updated, nets, ls, drawn := Build(vm, source, cpus, ram, mb, networks);
      ghost var c := Call.CreateVM(vmUuid, stemcell, agent, cpus, ram, mb, nets);
      ghost var build, publish := BuildVm(vm, source, cpus, ram, mb, nets), PublishEnv(vm, EnvOf(c));
      if ok {
        ghost var w1, g1, middle, ms := p.W(), p.bg, p.now, [];
        var agentEnv := Env(agent, vmUuid, updated, "0", "1", map[]);
        ok, ms := Publish(vm, agentEnv);
        RanThen(vm, w0, Idle, build, ls, w1, g1, publish, ms, p.W(), p.bg, ok);
        ReplayJoin(p.turns, first, middle, p.now);
        ls := ls + ms;
      } else {
        RanFails(vm, w0, Idle, build, ls, p.W(), p.bg, publish);
      }
    }

    /** The start of the new VM, which is a copy that was never started; `w0`, `past` and `first`
        keep the record of its making. */
    method Launch(vm: string, ghost c: Call, ghost w0: World, ghost past: seq<Label>, ghost first: nat, ghost due: nat)
      returns (ok: bool, ghost ls: seq<Label>)
      requires c.CreateVM? && vm == VmId(c.cid)
      requires Ran(vm, w0, Idle, Preparation(c), past, p.W(), p.bg, true)
      requires Faultless(p.turns, first, p.now) && PromptAfter(p.turns, first, p.now, due)
      modifies p
      ensures Ran(vm, old(p.W()), old(p.bg), StartVm(vm), ls, p.W(), p.bg, ok)
      ensures p.now > old(p.now) && ls == Forked(p.turns, old(p.now), old(p.now), p.now)
    {
      FreshCopyAsks(w0, c, past, p.W(), p.bg, p.turns, due, first, p.now);
      ok, ls := p.StartVM(vm, due + due + 1);
    }

    /** The whole of CreateVM. Its polling loop ends because the VM it starts is a copy that
        was never started; `start` is the turn at which the loop begins, if the call gets there. */
    method CreateVM(vmUuid: string, stemcell: string, agent: string, cpus: int, ram: int, mb: int,
                    networks: map<string, NetSpec>, ghost due: nat)
      returns (ok: bool, ghost nets: seq<Net>, ghost ls: seq<Label>, ghost drawn: bool)
      requires p.bg == Idle
      requires PromptAfter(p.turns, p.now, p.now + 11 + |networks.Keys|, due)
      modifies p
      ensures ListsNetworks(nets, networks) && Drawn(p.macs, old(p.now) + 4, p.now, nets)
      ensures var c := Call.CreateVM(vmUuid, stemcell, agent, cpus, ram, mb, nets);
              && Ran(VmId(vmUuid), old(p.W()), Idle, Program(c), ls, p.W(), p.bg, ok)
              && (ok ==> Running(c, p.host) &&
                           Told(c, p.W(), Burned(Machine.Start(old(p.W()), c), ls), Wrote(old(p.W()), c, ls)))
      ensures p.now >= old(p.now)
      ensures drawn ==> ls == Forked(p.turns, old(p.now), old(p.now) + 11 + |networks.Keys|, p.now)
      ensures !drawn ==> ls == Replay(p.turns, old(p.now), p.now) + Unissued(p.turns, p.now)
      ensures !drawn ==> !ok && p.macs(p.now) == None && old(p.now) + 4 <= p.now < old(p.now) + 4 + |networks.Keys|
    {
      ghost var w0, first, start := p.W(), p.now, p.now + 11 + |networks.Keys|;
      assert PromptAfter(p.turns, first, start, due);
      ok, nets, ls, drawn := Prepare(vmUuid, stemcell, agent, cpus, ram, mb, networks);
      ghost var c := Call.CreateVM(vmUuid, stemcell, agent, cpus, ram, mb, nets);
      if ok {
        ghost var w1, g1, ms := p.W(), p.bg, [];
        ok, ms := Launch(VmId(vmUuid), c, w0, ls, first, due);
        ForkedJoin(p.turns, first, start, p.now);
        CreateDone(w0, c, ls, w1, g1, ms, p.W(), p.bg, ok);
        ls := ls + ms;
      } else {
        RanFails(VmId(vmUuid), w0, Idle, Preparation(c), ls, p.W(), p.bg, StartVm(VmId(vmUuid)));
      }
    }
  }

  // ---------- Labels ----------

  /** A step that the call fails by itself, before it issues the command. */
  function Unissued(turns: nat -> Turn, i: nat): seq<Label> { [Main(turns(i).o.(fault := Before))] }

  lemma RanUnissued(own: string, w: World, bg: Goroutine, cmd: Cmd, turns: nat -> Turn, i: nat)
    ensures Ran(own, w, bg, [Do(cmd)], Unissued(turns, i), w, bg, false)
  {
    RanSingle(own, w, bg, Do(cmd), [], turns(i).o.(fault := Before));
    assert [] + Unissued(turns, i) == Unissued(turns, i);
  }

  /** From turn `i` on, the networks got the MAC addresses that were drawn, one a turn. */
  ghost predicate Drawn(macs: nat -> Option<string>, i: nat, now: nat, nets: seq<Net>) {
    forall k :: 0 <= k < |nets| && i + k < now ==> macs(i + k) == Some(nets[k].spec.mac)
  }

  lemma DrawnAnother(macs: nat -> Option<string>, i: nat, since: nat, nets: seq<Net>, net: Net, now: nat)
    requires Drawn(macs, i, since, nets) && since == i + |nets|
    requires now == since || (now == since + 1 && macs(since) == Some(net.spec.mac))
    ensures Drawn(macs, i, now, nets + [net])
  {
  }

  /** Turn `start`, if the call gets there, is one from which a copied VM soon asks. */
  ghost predicate PromptAfter(turns: nat -> Turn, i: nat, start: nat, due: nat) {
    Faultless(turns, i, start) ==> Prompt(turns, start, due)
  }

  // ---------- The networks of a map, listed ----------

  /** The list holds the networks of the given names, each once, with their adapters. */
  ghost predicate SomeNetworks(nets: seq<Net>, networks: map<string, NetSpec>, names: set<string>) {
    && DistinctNames(nets) && NetNames(nets) == names <= networks.Keys
    && forall i :: 0 <= i < |nets| ==>
         nets[i].name in networks && nets[i].spec.adapter == networks[nets[i].name].adapter
  }

  /** All of them, in some order. */
  ghost predicate ListsNetworks(nets: seq<Net>, networks: map<string, NetSpec>) {
    SomeNetworks(nets, networks, networks.Keys)
  }

  lemma AnotherNetwork(nets: seq<Net>, networks: map<string, NetSpec>, left: set<string>, net: Net)
    requires SomeNetworks(nets, networks, networks.Keys - left - {net.name}) && net.name in networks.Keys - left
    requires net.spec.adapter == networks[net.name].adapter
    ensures SomeNetworks(nets + [net], networks, networks.Keys - left)
    ensures NetTable(nets + [net]) == NetTable(nets)[net.name := net.spec]
  {
    OneMore(nets, networks, networks.Keys - left - {net.name}, net);
    assert networks.Keys - left - {net.name} + {net.name} == networks.Keys - left;
  }

  lemma OneMore(nets: seq<Net>, networks: map<string, NetSpec>, names: set<string>, net: Net)
    requires SomeNetworks(nets, networks, names) && net.name in networks.Keys - names
    requires net.spec.adapter == networks[net.name].adapter
    ensures SomeNetworks(nets + [net], networks, names + {net.name})
    ensures NetTable(nets + [net]) == NetTable(nets)[net.name := net.spec]
  {
    assert (nets + [net])[..|nets|] == nets;
    NetNamesLast(nets + [net]);
    assert forall i :: 0 <= i < |nets| ==> nets[i].name in NetNames(nets);
  }

  lemma JoinNetworks(nets: seq<Net>, more: seq<Net>, networks: map<string, NetSpec>, names: set<string>,
                     others: set<string>)
    requires SomeNetworks(nets, networks, names) && SomeNetworks(more, networks, others) && names !! others
    ensures SomeNetworks(nets + more, networks, names + others)
    decreases |more|
  {
    if more == [] {
      assert nets + more == nets && NetNames(more) == {};
    } else {
      var k := |more| - 1;
      var net := more[k];
      var fewer := more[..k];
      NetNamesLast(more);
      assert net.name !in NetNames(fewer);
      JoinNetworks(nets, fewer, networks, names, others - {net.name});
      OneMore(nets + fewer, networks, names + (others - {net.name}), net);
      assert nets + fewer + [net] == nets + more;
      assert names + (others - {net.name}) + {net.name} == names + others;
    }
  }

  /** Networks can be listed; their MAC addresses do not matter here. */
  lemma ListNetworks(networks: map<string, NetSpec>, names: set<string>) returns (nets: seq<Net>)
    requires names <= networks.Keys
    ensures SomeNetworks(nets, networks, names)
    decreases |names|
  {
    if names == {} {
      nets := [];
    } else {
      var name :| name in names;
      nets := ListNetworks(networks, names - {name});
      OneMore(nets, networks, names - {name}, Net(name, networks[name]));
      nets := nets + [Net(name, networks[name])];
      assert names - {name} + {name} == names;
    }
  }

  /** The network loop stopped: the networks that it did not get to complete the list. */
  lemma NetworksLeft(vm: string, w: World, bg: Goroutine, nets: seq<Net>, ls: seq<Label>, w1: World, bg1: Goroutine,
                     networks: map<string, NetSpec>, names: set<string>, macs: nat -> Option<string>, i: nat, now: nat)
    returns (all: seq<Net>)
    requires Drawn(macs, i, now, nets) && now <= i + |nets|
    requires names <= networks.Keys && SomeNetworks(nets, networks, networks.Keys - names)
    requires Ran(vm, w, bg, AddNetworks(vm, nets), ls, w1, bg1, false)
    ensures Drawn(macs, i, now, all) && ListsNetworks(all, networks)
    ensures Ran(vm, w, bg, AddNetworks(vm, all), ls, w1, bg1, false)
  {
    var rest := ListNetworks(networks, names);
    all := nets + rest;
    AdaptersConcat(vm, nets, rest);
    RanFails(vm, w, bg, AddNetworks(vm, nets), ls, w1, bg1, AddNetworks(vm, rest));
    JoinNetworks(nets, rest, networks, networks.Keys - names, names);
    assert networks.Keys - names + names == networks.Keys;
  }

  lemma AdaptersConcat(vm: string, nets: seq<Net>, more: seq<Net>)
    ensures AddNetworks(vm, nets + more) == AddNetworks(vm, nets) + AddNetworks(vm, more)
  {
  }

  lemma AdapterRan(vm: string, w: World, bg: Goroutine, nets: seq<Net>, ls: seq<Label>, w1: World, bg1: Goroutine,
                   net: Net, ms: seq<Label>, w2: World, bg2: Goroutine, ok: bool)
    requires Ran(vm, w, bg, AddNetworks(vm, nets), ls, w1, bg1, true)
    requires Ran(vm, w1, bg1, [Do(VmNetworkAdd(vm, net.spec.adapter, net.spec.mac))], ms, w2, bg2, ok)
    ensures Ran(vm, w, bg, AddNetworks(vm, nets + [net]), ls + ms, w2, bg2, ok)
  {
    AdaptersConcat(vm, nets, [net]);
    assert AddNetworks(vm, [net]) == [Do(VmNetworkAdd(vm, net.spec.adapter, net.spec.mac))];
    RanThen(vm, w, bg, AddNetworks(vm, nets), ls, w1, bg1, AddNetworks(vm, [net]), ms, w2, bg2, ok);
  }

  /** The program of CreateVM up to its start of the VM. */
  function Preparation(c: Call): seq<Action>
    requires c.CreateVM?
  {
    BuildVm(VmId(c.cid), StemcellId(c.stemcell), c.cpus, c.ram, c.mb, c.nets) + PublishEnv(VmId(c.cid), EnvOf(c))
  }

  lemma CreateDone(w: World, c: Call, ls: seq<Label>, w1: World, bg1: Goroutine, ms: seq<Label>, r: World,
                   bg: Goroutine, ok: bool)
    requires c.CreateVM? && Ran(VmId(c.cid), w, Idle, Preparation(c), ls, w1, bg1, true)
    requires Ran(VmId(c.cid), w1, bg1, StartVm(VmId(c.cid)), ms, r, bg, ok)
    ensures Ran(VmId(c.cid), w, Idle, Program(c), ls + ms, r, bg, ok)
    ensures ok ==> Running(c, r.host) && Told(c, r, Burned(Machine.Start(w, c), ls + ms), Wrote(w, c, ls + ms))
  {
    RanThen(VmId(c.cid), w, Idle, Preparation(c), ls, w1, bg1, StartVm(VmId(c.cid)), ms, r, bg, ok);
    CreateResult(w, c, ls + ms);
  }

  /** The VM that CreateVM goes on to start asks its question. */
  lemma FreshCopyAsks(w: World, c: Call, ls: seq<Label>, w1: World, bg1: Goroutine, turns: nat -> Turn, due: nat,
                      i: nat, start: nat)
    requires c.CreateVM? && Faultless(turns, i, start) && PromptAfter(turns, i, start, due)
    requires Ran(VmId(c.cid), w, Idle, Preparation(c), ls, w1, bg1, true)
    ensures bg1 == Idle && PollsEnd(VmId(c.cid), w1, Ready, turns, start, due + due + 1)
  {
    var vm := VmId(c.cid);
    Append(State(w, Task(vm, Preparation(c), Idle, false)), StartVm(vm), ls);
    assert [] + StartVm(vm) == StartVm(vm);
    assert Run(Machine.Start(w, c), ls) == State(w1, Task(vm, StartVm(vm), bg1, false));
    CreateStarts(w, c);
    CreateRun(c, Machine.Start(w, c), ls);
    PromptEnds(vm, w1, turns, due, start);
  }
}
