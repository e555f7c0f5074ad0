/** The CPI as it is written: client methods that issue govc commands one after another and
    stop at the first error, and the actions that compose them. Every method is proved to be
    a run of its program in the machine. */
module Client {
  import opened Names
  import opened Lookup
  import opened Host
  import opened Machine
  import opened Traces
  import opened Runs
  import opened Destroy
  import opened IsoSwap

  /** The part of a vm.info reply that is looked at. */
  datatype Runtime = Runtime(question: bool, powerState: string)

  /** The reply to vm.info tells the state of the VM by its first record, whatever else it says. */
  predicate Reports(response: seq<Runtime>, h: Host, vm: string) {
    && (response == [] <==> vm !in h.vms)
    && (vm in h.vms ==>
          && (response[0].question <==> h.vms[vm].power == Asking)
          && (h.vms[vm].power != Asking ==> (response[0].powerState == "poweredOn" <==> h.vms[vm].power == On)))
  }

  /** The decision of vmState: it is right about every reply that reports the host. */
  method DecodeState(response: seq<Runtime>) returns (state: string)
    ensures forall h, vm :: Reports(response, h, vm) ==> state == VmState(h, vm)
  {
    if |response| == 0 {
      state := STATE_NOT_FOUND;
    } else if response[0].question {
      state := STATE_BLOCKING_QUESTION;
    } else if response[0].powerState == "poweredOn" {
      state := STATE_POWER_ON;
    } else {
      state := STATE_POWER_OFF;
    }
  }

  /** One CPI process: the host it talks to, the environment file it shares with other
      processes, and its power-on goroutine. */
  class Process {
    var host: Host
    var cell: Option<Env>
    var bg: Goroutine
    var now: nat
    const turns: nat -> Turn
    const replies: nat -> seq<Runtime>
    const macs: nat -> Option<string>

    constructor (host: Host, cell: Option<Env>, turns: nat -> Turn, replies: nat -> seq<Runtime>,
                 macs: nat -> Option<string>)
      ensures this.host == host && this.cell == cell
      ensures this.turns == turns && this.replies == replies && this.macs == macs
      ensures bg == Idle && now == 0
    {
      this.host, this.cell, this.turns, this.replies, this.macs := host, cell, turns, replies, macs;
      bg, now := Idle, 0;
    }

    function W(): World reads this { World(host, cell) }

    // ---------- The runner ----------

    /** Goroutine and host move while the call prepares its next step. */
    method Wait(own: string) returns (ghost es: seq<Label>)
      modifies this
      ensures now == old(now)
      ensures es == turns(now).before
      ensures (W(), bg) == Lull(own, old(W()), old(bg), es)
    {
      var before := turns(now).before;
      es := [];
      ghost var w0, g0 := W(), bg;
      var i := 0;
      while i < |before|
        invariant 0 <= i <= |before| && now == old(now)
        invariant es == before[..i]
        invariant Lull(own, w0, g0, es) == (W(), bg)
      {
        var s := Step(State(W(), Task(own, [], bg, false)), before[i]);
        LullSnoc(own, w0, g0, es, before[i]);
        host, bg := s.w.host, s.t.bg;
        es, i := es + [before[i]], i + 1;
      }
    }

    /** Runs one govc command. */
    method CliCommand(cmd: Cmd, own: string) returns (ok: bool, ghost es: seq<Label>, ghost o: Outcome)
      modifies this
      ensures now == old(now) + 1 && o == turns(old(now)).o
      ensures es == turns(old(now)).before
      ensures var (w, g) := Lull(own, old(W()), old(bg), es);
              bg == g && W() == w.(host := Exec(w.host, cmd, o).0) && ok == Exec(w.host, cmd, o).1
    {
      es := Wait(own);
      o := turns(now).o;
      var (h, good) := Exec(host, cmd, turns(now).o);
      host, ok, now := h, good, now + 1;
    }

    /** A command of which only the error matters. */
    method Issue(cmd: Cmd, own: string) returns (ok: bool, ghost ls: seq<Label>)
      modifies this
      ensures Ran(own, old(W()), old(bg), [Do(cmd)], ls, W(), bg, ok)
      ensures now == old(now) + 1 && (ok ==> Faultless(turns, old(now), now))
      ensures ls == Replay(turns, old(now), now)
    {
      ghost var w0, g0, since := W(), bg, now;
      ghost var es, o;
      ok, es, o := CliCommand(cmd, own);
      RanSingle(own, w0, g0, Do(cmd), es, o);
      ls := es + [Main(o)];
      ReplayTurn(turns, since, now);
    }

    // ---------- Queries ----------

    /** vm.info: no VM, a question, powered on, or else off. The reply is any that reports the
        host; where the oracle gives another one, which the host would not send, a plain one
        stands in for it. */
    method VmStateOf(vm: string) returns (ok: bool, state: string, ghost es: seq<Label>, ghost o: Outcome)
      modifies this
      ensures now == old(now) + 1 && o == turns(old(now)).o && ok == (o.fault == NoFault)
      ensures es == turns(old(now)).before
      ensures (W(), bg) == Lull(vm, old(W()), old(bg), es)
      ensures ok ==> state == VmState(host, vm)
    {
      ok, es, o := CliCommand(VmInfo(vm), vm);
      state := "";
      if !ok { return; }
      var response := replies(now);
      if !Reports(response, host, vm) {
        response := [];
        if vm in host.vms {
          var power := host.vms[vm].power;
          response := [Runtime(power == Asking, if power == On then "poweredOn" else "poweredOff")];
        }
      }
      state := DecodeState(response);
    }

    /** datastore.ls: at least one listing, the first one being that of the root, in any order. */
    method ListRoot(own: string) returns (ok: bool, response: seq<seq<string>>, ghost es: seq<Label>, ghost o: Outcome)
      modifies this
      ensures now == old(now) + 1 && es == turns(old(now)).before && o == turns(old(now)).o
      ensures ok == (o.fault == NoFault)
      ensures (W(), bg) == Lull(own, old(W()), old(bg), es)
      ensures ok ==> |response| >= 1 && forall name :: name in response[0] <==> name in Listing(host)
    {
      ok, es, o := CliCommand(DatastoreLs, own);
      var names := Listing(host);
      var listing: seq<string> := [];
      while names != {}
        invariant forall name :: name in Listing(host) <==> name in names || name in listing
        decreases |names|
      {
        var name :| name in names;
        names, listing := names - {name}, listing + [name];
      }
      response := [listing];
    }

    method DatastorePathExists(path: string) returns (ok: bool, found: bool, ghost es: seq<Label>, ghost o: Outcome)
      modifies this
      ensures now == old(now) + 1 && es == turns(old(now)).before && o == turns(old(now)).o
      ensures ok == (o.fault == NoFault)
      ensures (W(), bg) == Lull(path, old(W()), old(bg), es)
      ensures ok ==> found == (path in Listing(host))
    {
      var response;
      ok, response, es, o := ListRoot(path);
      found := false;
      if !ok { return; }
      var files := response[0];
      var i := 0;
      while i < |files|
        invariant 0 <= i <= |files|
        invariant found <==> path in files[..i]
      {
        if files[i] == path {
          found := true;
          assert path in files;
          break;
        }
        i := i + 1;
      }
      assert !found ==> files[..i] == files;
    }

    /** device.info: the last device whose parent contains the disk id, or no name at all. */
    method GetVmDiskName(vm: string, diskId: string)
      returns (ok: bool, name: string, ghost es: seq<Label>, ghost o: Outcome)
      modifies this
      ensures now == old(now) + 1 && es == turns(old(now)).before && o == turns(old(now)).o
      ensures (W(), bg) == Lull(vm, old(W()), old(bg), es)
      ensures ok == Exec(host, DeviceInfo(vm), o).1
      ensures ok ==> vm in host.vms && name == FindDevice(host.vms[vm].devices, diskId)
    {
      ok, es, o := CliCommand(DeviceInfo(vm), vm);
      name := "";
      if !ok { return; }
      var devices := host.vms[vm].devices;
      var i := 0;
      while i < |devices|
        invariant 0 <= i <= |devices|
        invariant name == FindDevice(devices[..i], diskId)
      {
        assert devices[..i + 1][..i] == devices[..i];
        if Contains(devices[i].parent, diskId) {
          name := devices[i].name;
        }
        i := i + 1;
      }
      assert devices[..i] == devices;
    }

    // ---------- Client methods ----------

    /** The next command of `plan`, after `k` steps that went well; `w0`, `g0` and `since` keep
        the record from the start of the plan. */
    method Proceed(cmd: Cmd, own: string, ghost plan: seq<Action>, ghost k: nat,
                   ghost w0: World, ghost g0: Goroutine, ghost since: nat) returns (ok: bool)
      requires k < |plan| && plan[k] == Do(cmd) && now == since + k && Faultless(turns, since, now)
      requires Ran(own, w0, g0, plan[..k], Replay(turns, since, now), W(), bg, true)
      modifies this
      ensures Ran(own, w0, g0, plan[..k + 1], Replay(turns, since, now), W(), bg, ok)
      ensures !ok || k + 1 == |plan| ==> Ran(own, w0, g0, plan, Replay(turns, since, now), W(), bg, ok)
      ensures now == since + k + 1 && (ok ==> Faultless(turns, since, now))
    {
      ghost var w1, g1, past, ls := W(), bg, Replay(turns, since, now), [];
      ok, ls := Issue(cmd, own);
      ReplayJoin(turns, since, since + k, now);
      assert plan[k..k + 1] == [Do(cmd)];
      RanNext(own, w0, g0, plan, k, past, w1, g1, k + 1, ls, W(), bg, ok);
    }

    method CloneVM(source: string, vm: string) returns (ok: bool, ghost ls: seq<Label>)
      modifies this
      ensures Ran(vm, old(W()), old(bg), CloneVm(source, vm), ls, W(), bg, ok)
      ensures old(now) <= now <= old(now) + 3 && ls == Replay(turns, old(now), now)
      ensures ok ==> now == old(now) + 3 && Faultless(turns, old(now), now)
    {
      ghost var w0, g0, since, plan := W(), bg, now, CloneVm(source, vm);
      RanNothing(vm, w0, g0);
      ok := Proceed(DatastoreCp(source, vm), vm, plan, 0, w0, g0, since);
      if ok { ok := Proceed(VmRegister(In(vm, source + ".vmx"), vm), vm, plan, 1, w0, g0, since); }
      if ok { ok := Proceed(VmChangeHardware(vm), vm, plan, 2, w0, g0, since); }
      ls := Replay(turns, since, now);
    }

    /** From any CD-ROM state, success means: connected to the new contents, which are the
        environment if the local ISO file was whole. */
    method UpdateVMIso(vm: string, env: Env) returns (ok: bool, ghost ls: seq<Label>)
      modifies this
      ensures Ran(vm, old(W()), old(bg), UpdateIso(vm, env), ls, W(), bg, ok)
      ensures old(now) <= now <= old(now) + 5 && ls == Replay(turns, old(now), now)
      ensures ok ==> now == old(now) + 5 && Faultless(turns, old(now), now)
      ensures ok ==> Shows(host, vm, env, Burned(State(old(W()), Task(vm, UpdateIso(vm, env), old(bg), false)), ls))
    {
      ghost var w0, g0, since, plan := W(), bg, now, UpdateIso(vm, env);
      RanNothing(vm, w0, g0);
      ok := Proceed(CdromDisconnect(vm), vm, plan, 0, w0, g0, since);
      if ok { ok := Proceed(CdromEject(vm), vm, plan, 1, w0, g0, since); }
      if ok { ok := Proceed(DatastoreUpload(vm, env), vm, plan, 2, w0, g0, since); }
      if ok { ok := Proceed(CdromInsert(vm, EnvIso(vm)), vm, plan, 3, w0, g0, since); }
      if ok { ok := Proceed(CdromConnect(vm), vm, plan, 4, w0, g0, since); }
      ls := Replay(turns, since, now);
      IsoPresented(vm, w0, g0, env, ls, W(), bg, ok);
    }

    /** The goroutine is started; then the loop polls until it sees the blocking question,
        and answers it. The loop ends because a poll that fails or sees the question is at
        most `bound` polls away. */
    method StartVM(vm: string, ghost bound: nat) returns (ok: bool, ghost ls: seq<Label>)
      requires bg == Idle && PollsEnd(vm, W(), Ready, turns, now, bound)
      modifies this
      ensures Ran(vm, old(W()), old(bg), StartVm(vm), ls, W(), bg, ok)
      ensures now > old(now) && ls == Forked(turns, old(now), old(now), now)
    {
      ghost var w0, g0, since, left := W(), bg, now, bound;
      bg := Ready;
      while true
        invariant PollsEnd(vm, W(), bg, turns, now, left)
        invariant now >= since && Polled(vm, w0, Ready, Replay(turns, since, now), W(), bg)
        decreases left
      {
        ghost var w1, g1, poll := W(), bg, now;
        var good, state;
        ghost var es, o;
        good, state, es, o := VmStateOf(vm);
        if good && state != STATE_BLOCKING_QUESTION {
          PollOnce(vm, w0, turns, since, poll, w1, g1);
          left := left - 1;
        } else {
          ok := good;
          if ok {
            ok, ls := Issue(VmQuestion(vm), vm);
          }
          StartRan(vm, w0, g0, turns, since, poll, now, w1, g1, W(), bg, ok);
          ls := Forked(turns, since, since, now);
          return;
        }
      }
    }

    /** Stops the VM if it is on and destroys it if it is there. */
    method CarryOut(vm: string, state: string) returns (ok: bool, ghost ls: seq<Label>)
      modifies this
      ensures Ran(vm, old(W()), old(bg), Teardown(vm, state), ls, W(), bg, ok)
      ensures now >= old(now) && ls == Replay(turns, old(now), now)
    {
      ghost var w0, g0, since, plan, k := W(), bg, now, Teardown(vm, state), 0;
      ok := true;
      RanNothing(vm, w0, g0);
      if state == STATE_POWER_ON {
        ok := Proceed(VmPowerOff(vm), vm, plan, 0, w0, g0, since);
        k := 1;
      }
      if ok && state != STATE_NOT_FOUND {
        ok := Proceed(VmDestroy(vm), vm, plan, k, w0, g0, since);
      }
      ls := Replay(turns, since, now);
    }

    /** What DestroyVM does about the VM itself, by the state it finds it in. */
    method StopAndDestroy(vm: string) returns (ok: bool, ghost ls: seq<Label>)
      modifies this
      ensures Ran(vm, old(W()), old(bg), [Inspect(vm)], ls, W(), bg, ok)
      ensures now >= old(now) && ls == Replay(turns, old(now), now)
    {
      ghost var w0, g0, first := W(), bg, now;
      var state;
      ghost var es, o;
      ok, state, es, o := VmStateOf(vm);
      if ok {
        ok, ls := CarryOut(vm, state);
      }
      RanTurns(vm, w0, g0, Inspect(vm), turns, first, now, W(), bg, ok);
      ls := Replay(turns, first, now);
    }

    method RemoveIfListed(name: string) returns (ok: bool, ghost ls: seq<Label>)
      modifies this
      ensures Ran(name, old(W()), old(bg), [Sweep(name)], ls, W(), bg, ok)
      ensures now >= old(now) && ls == Replay(turns, old(now), now)
    {
      ghost var w0, g0, first := W(), bg, now;
      var found;
      ghost var es, o;
      ok, found, es, o := DatastorePathExists(name);
      if ok {
        RanNothing(name, W(), bg);
        if found {
          ok, ls := Issue(DatastoreRm(name), name);
        }
      }
      RanTurns(name, w0, g0, Sweep(name), turns, first, now, W(), bg, ok);
      ls := Replay(turns, first, now);
    }

    /** What is there is stopped if it is on, destroyed, and its directory removed if it is
        still listed. Success leaves the host without the VM and otherwise as it was. */
    method DestroyVM(vm: string) returns (ok: bool, ghost ls: seq<Label>)
      modifies this
      ensures Ran(vm, old(W()), old(bg), DestroyVm(vm), ls, W(), bg, ok)
      ensures now >= old(now) && ls == Replay(turns, old(now), now)
      ensures Without(host, vm) == Without(old(host), vm) && cell == old(cell)
      ensures ok ==> host == Without(old(host), vm)
    {
      ghost var w0, g0, first := W(), bg, now;
      ok, ls := StopAndDestroy(vm);
      if ok {
        ghost var w1, g1, middle, ms := W(), bg, now, [];
        ok, ms := RemoveIfListed(vm);
        ReplayJoin(turns, first, middle, now);
        RanThen(vm, w0, g0, [Inspect(vm)], ls, w1, g1, [Sweep(vm)], ms, W(), bg, ok);
        ls := ls + ms;
      } else {
        RanFails(vm, w0, g0, [Inspect(vm)], ls, W(), bg, [Sweep(vm)]);
      }
      assert [Inspect(vm)] + [Sweep(vm)] == DestroyVm(vm);
      DestroyResult(w0, vm, g0, ls);
    }

    /** A query: nothing moves but what moves by itself. */
    method HasVM(vm: string) returns (ok: bool, found: bool)
      modifies this
      ensures now == old(now) + 1 && (W(), bg) == Lull(vm, old(W()), old(bg), turns(old(now)).before)
      ensures ok == (turns(old(now)).o.fault == NoFault)
      ensures if ok then found == (vm in host.vms) else !found
    {
      var state;
      ghost var es, o;
      ok, state, es, o := VmStateOf(vm);
      found := ok && state != STATE_NOT_FOUND;
    }

    method DestroyDisk(diskName: string) returns (ok: bool, ghost ls: seq<Label>)
      modifies this
      ensures Ran(diskName + ".vmdk", old(W()), old(bg), [Sweep(diskName + ".vmdk")], ls, W(), bg, ok)
      ensures now >= old(now) && ls == Replay(turns, old(now), now)
    {
      ok, ls := RemoveIfListed(diskName + ".vmdk");
    }

    method DetachDisk(vm: string, diskId: string) returns (ok: bool, ghost ls: seq<Label>)
      modifies this
      ensures Ran(vm, old(W()), old(bg), [FindLink(vm, diskId)], ls, W(), bg, ok)
      ensures now >= old(now) && ls == Replay(turns, old(now), now)
    {
      ghost var w0, g0, first := W(), bg, now;
      var name;
      ghost var es, o;
      ok, name, es, o := GetVmDiskName(vm, diskId);
      if ok {
        ok, ls := Issue(DeviceRemove(vm, name), vm);
      }
      RanTurns(vm, w0, g0, FindLink(vm, diskId), turns, first, now, W(), bg, ok);
      ls := Replay(turns, first, now);
    }

    // ---------- Agent settings ----------

    /** Writes /tmp/env.json, ignoring an error that may have truncated it, then the local ISO
        file. Only an error of opening the latter is reported. */
    method GenerateAgentEnvIso(env: Env, own: string) returns (ok: bool, ghost ls: seq<Label>)
      modifies this
      ensures Ran(own, old(W()), old(bg), [WriteEnv(env)], ls, W(), bg, ok)
      ensures now == old(now) + 1 && ls == Replay(turns, old(now), now) && ok == (turns(old(now)).o.fault == NoFault)
      ensures var (w, g) := Lull(own, old(W()), old(bg), turns(old(now)).before);
              host == w.host && bg == g && cell == Saved(w.cell, env, turns(old(now)).o.write)
    {
      ReplayTurn(turns, now, now + 1);
      ghost var w0, g0, o := W(), bg, turns(now).o;
      ghost var es := Wait(own);
      RanSingle(own, w0, g0, WriteEnv(env), es, o);
      cell := Saved(cell, env, turns(now).o.write);
      ok, now := turns(now).o.fault == NoFault, now + 1;
      ls := es + [Main(o)];
    }

    /** Reads the environment file back; without one the process panics. */
    method AgentEnvFromFile(own: string) returns (ok: bool, env: Option<Env>, ghost es: seq<Label>, ghost o: Outcome)
      modifies this
      ensures now == old(now) + 1 && es == turns(old(now)).before && o == turns(old(now)).o
      ensures (W(), bg) == Lull(own, old(W()), old(bg), es)
      ensures ok == (o.fault == NoFault && cell.Some?) && (ok ==> env == cell)
    {
      es := Wait(own);
      o := turns(now).o;
      env := cell;
      ok, now := turns(now).o.fault == NoFault && cell.Some?, now + 1;
    }

    /** Two random bytes, or an error when the source of randomness fails. */
    method GenerateMacAddress() returns (ok: bool, mac: string)
      ensures ok == macs(now).Some? && (ok ==> macs(now) == Some(mac))
    {
      match macs(now)
      case Some(m) => ok, mac := true, m;
      case None => ok, mac := false, "";
    }
  }

  lemma IsoPresented(vm: string, w: World, bg: Goroutine, env: Env, ls: seq<Label>, w1: World, bg1: Goroutine, ok: bool)
    requires Ran(vm, w, bg, UpdateIso(vm, env), ls, w1, bg1, ok)
    ensures ok ==> Shows(w1.host, vm, env, Burned(State(w, Task(vm, UpdateIso(vm, env), bg, false)), ls))
  {
    UpdateIsoResult(w, vm, env, bg, ls);
  }

  lemma {:induction false} LullSnoc(own: string, w: World, bg: Goroutine, ls: seq<Label>, l: Label)
    ensures var (w1, bg1) := Lull(own, w, bg, ls);
            var s := Step(State(w1, Task(own, [], bg1, false)), l);
            Lull(own, w, bg, ls + [l]) == (s.w, s.t.bg)
    decreases |ls|
  {
    if ls == [] {
      assert ls + [l] == [l] && [l][1..] == [];
    } else {
      var s := Step(State(w, Task(own, [], bg, false)), ls[0]);
      assert (ls + [l])[0] == ls[0] && (ls + [l])[1..] == ls[1..] + [l];
      LullSnoc(own, s.w, s.t.bg, ls[1..], l);
    }
  }
}
