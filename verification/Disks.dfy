/** AttachDisk and DetachDisk: the host, the environment file and the ISO of one VM. */
module Disks {
  import opened Names
  import opened Lookup
  import opened Host
  import opened Machine
  import opened Traces
  import opened IsoSwap

  predicate DiskCall(c: Call) { c.AttachDisk? || c.DetachDisk? }

  function EditOf(c: Call): Edit
    requires DiskCall(c)
  {
    if c.AttachDisk? then Add(c.disk) else Drop(c.disk)
  }

  /** What the call makes of an environment: it lists or unlists its own disk, and leaves the
      other disks and everything else as they were. */
  predicate Edited(env: Env, now: Env, c: Call)
    requires DiskCall(c)
  {
    && now.agent == env.agent && now.vm == env.vm && now.networks == env.networks
    && now.system == env.system && now.ephemeral == env.ephemeral
    && now.persistent - {c.disk} == env.persistent - {c.disk}
    && (c.AttachDisk? ==> c.disk in now.persistent && now.persistent[c.disk] == Hint("/dev/sdc", "2", "0"))
    && (c.DetachDisk? ==> c.disk !in now.persistent)
  }

  lemma RevisedIsEdited(env: Env, c: Call)
    requires DiskCall(c)
    ensures Edited(env, Revise(env, EditOf(c)), c)
  {
  }

  function DevicesOf(h: Host, vm: string): seq<Device> {
    if vm in h.vms then h.vms[vm].devices else []
  }

  /** How often the disk is linked to the VM. */
  function Links(h: Host, vm: string, disk: string): nat {
    Linked(DevicesOf(h, vm), ParentName(h.ds, DiskFile(disk)))
  }

  /** What the call is to add to the links of `disk`. */
  function Change(c: Call, disk: string): int
    requires DiskCall(c)
  {
    if disk != c.disk then 0 else if c.AttachDisk? then 1 else -1
  }

  /** The device list after the host's part of the call. */
  ghost predicate Relinked(c: Call, ds: string, was: seq<Device>, now: seq<Device>)
    requires DiskCall(c)
  {
    if c.AttachDisk? then
      exists name :: name != "" && (forall d :: d in was ==> d.name != name) &&
        now == was + [Device(name, ParentName(ds, DiskFile(c.disk)))]
    else
      var name := FindDevice(was, DiskId(c.disk));
      (exists d :: d in was && d.name == name) && now == WithoutDevice(was, name)
  }

  /** Where an attach or detach can be, relative to the world it started from. */
  ghost predicate DiskInv(w: World, c: Call, s: State)
    requires DiskCall(c)
  {
    var vm := VmId(c.cid);
    var was, now := DevicesOf(w.host, vm), DevicesOf(s.w.host, vm);
    && s.t.own == vm && s.t.bg == Idle && s.w.host.ds == w.host.ds
    && (vm in w.host.vms <==> vm in s.w.host.vms)
    && (s.t.failed ==> s.t.todo == [])
    && (s.w.cell == w.cell || (w.cell.Some? && s.w.cell in {None, Some(Revise(w.cell.value, EditOf(c)))}))
    && (now == was || Relinked(c, w.host.ds, was, now))
    && (IsoOf(s.w.host, vm) == IsoOf(w.host, vm) ||
          (w.cell.Some? && IsoOf(s.w.host, vm) in {None, Some(Revise(w.cell.value, EditOf(c)))}))
    && (!s.t.failed ==>
          || (now == was && s.w.cell == w.cell && s.t.todo == Program(c))
          || (now == was && s.w.cell == w.cell && c.DetachDisk? &&
                s.t.todo == [Do(DeviceRemove(vm, FindDevice(was, DiskId(c.disk)))), EditEnv(vm, EditOf(c))])
          || (Relinked(c, w.host.ds, was, now) && s.w.cell == w.cell && s.t.todo == [EditEnv(vm, EditOf(c))])
          || (Relinked(c, w.host.ds, was, now) && w.cell.Some? && Publishing(s, vm, Revise(w.cell.value, EditOf(c)))))
  }

  lemma DiskStep(w: World, c: Call, s: State, l: Label)
    requires DiskCall(c) && DiskInv(w, c, s)
    ensures DiskInv(w, c, Step(s, l))
  {
    match l
    case Main(o) =>
      if s.t.todo != [] {
        if w.cell.Some? && Publishing(s, s.t.own, Revise(w.cell.value, EditOf(c))) {
          PublishActions(s.t.own, Revise(w.cell.value, EditOf(c)), 6 - |s.t.todo|);
        }
        if s.t.todo == Program(c) {
          if c.AttachDisk? { AttachFirst(w, c, s, o); } else { DetachFirst(w, c, s, o); }
        } else if s.t.todo == [EditEnv(VmId(c.cid), EditOf(c))] {
          EditStep(w, c, s, o);
        } else if s.t.todo[0].Do? && s.t.todo[0].cmd.DeviceRemove? {
          DetachSecond(w, c, s, o);
        } else {
          PublishPart(w, c, s, o);
        }
      }
    case Background(_) =>
    case Ticking => DiskTick(w, c, s);
  }

  lemma DiskTick(w: World, c: Call, s: State)
    requires DiskCall(c) && DiskInv(w, c, s)
    ensures DiskInv(w, c, Step(s, Ticking))
  {
    if w.cell.Some? && Publishing(s, s.t.own, Revise(w.cell.value, EditOf(c))) {
      PublishElsewhere(s, s.t.own, Revise(w.cell.value, EditOf(c)), Ticking);
    }
  }

  lemma AttachFirst(w: World, c: Call, s: State, o: Outcome)
    requires c.AttachDisk? && DiskInv(w, c, s) && s.t.todo == Program(c) && !s.t.failed
    requires DevicesOf(s.w.host, s.t.own) == DevicesOf(w.host, s.t.own) && s.w.cell == w.cell
    ensures DiskInv(w, c, MainStep(s, o))
  {
    assert [] + Program(c)[1..] == [EditEnv(VmId(c.cid), EditOf(c))];
  }

  lemma DetachFirst(w: World, c: Call, s: State, o: Outcome)
    requires c.DetachDisk? && DiskInv(w, c, s) && s.t.todo == Program(c) && !s.t.failed
    requires DevicesOf(s.w.host, s.t.own) == DevicesOf(w.host, s.t.own) && s.w.cell == w.cell
    ensures DiskInv(w, c, MainStep(s, o))
  {
    var remove := Do(DeviceRemove(VmId(c.cid), FindDevice(DevicesOf(w.host, s.t.own), DiskId(c.disk))));
    assert [remove] + Program(c)[1..] == [remove, EditEnv(VmId(c.cid), EditOf(c))];
  }

  lemma DetachSecond(w: World, c: Call, s: State, o: Outcome)
    requires c.DetachDisk? && DiskInv(w, c, s) && !s.t.failed && s.w.cell == w.cell
    requires DevicesOf(s.w.host, s.t.own) == DevicesOf(w.host, s.t.own)
    requires var name := FindDevice(DevicesOf(w.host, s.t.own), DiskId(c.disk));
             s.t.todo == [Do(DeviceRemove(s.t.own, name)), EditEnv(s.t.own, EditOf(c))]
    ensures DiskInv(w, c, MainStep(s, o))
  {
    assert [] + s.t.todo[1..] == [EditEnv(VmId(c.cid), EditOf(c))];
  }

  lemma EditStep(w: World, c: Call, s: State, o: Outcome)
    requires DiskCall(c) && DiskInv(w, c, s) && !s.t.failed && s.w.cell == w.cell
    requires Relinked(c, w.host.ds, DevicesOf(w.host, s.t.own), DevicesOf(s.w.host, s.t.own))
    requires s.t.todo == [EditEnv(VmId(c.cid), EditOf(c))]
    ensures DiskInv(w, c, MainStep(s, o))
  {
    EditMoves(s, VmId(c.cid), EditOf(c), o);
  }

  lemma EditMoves(s: State, vm: string, edit: Edit, o: Outcome)
    requires s.t.own == vm && s.t.todo == [EditEnv(vm, edit)]
    ensures MainStep(s, o) == s.(t := s.t.(todo := [], failed := true)) ||
              (s.w.cell.Some? && MainStep(s, o) == s.(t := s.t.(todo := PublishEnv(vm, Revise(s.w.cell.value, edit)))))
    ensures s.w.cell.Some? ==> Publishing(s.(t := s.t.(todo := PublishEnv(vm, Revise(s.w.cell.value, edit)))), vm,
                                          Revise(s.w.cell.value, edit))
  {
    if s.w.cell.Some? {
      var env := Revise(s.w.cell.value, edit);
      assert PublishEnv(vm, env) + [] == PublishEnv(vm, env) == PublishEnv(vm, env)[0..];
    }
  }

  lemma PublishPart(w: World, c: Call, s: State, o: Outcome)
    requires DiskCall(c) && DiskInv(w, c, s) && !s.t.failed && s.t.todo != []
    requires Relinked(c, w.host.ds, DevicesOf(w.host, s.t.own), DevicesOf(s.w.host, s.t.own))
    requires w.cell.Some? && Publishing(s, s.t.own, Revise(w.cell.value, EditOf(c)))
    ensures DiskInv(w, c, MainStep(s, o))
  {
    var env := Revise(w.cell.value, EditOf(c));
    PublishMain(s, s.t.own, env, o);
    PublishKeeps(s, s.t.own, env, o);
  }

  /** Publishing an environment changes no device and writes nothing else to the ISO. */
  lemma PublishKeeps(s: State, vm: string, env: Env, o: Outcome)
    requires Publishing(s, vm, env) && s.t.todo != [] && !s.t.failed
    ensures var r := MainStep(s, o);
            && r.w.host.ds == s.w.host.ds && (vm in r.w.host.vms <==> vm in s.w.host.vms)
            && DevicesOf(r.w.host, vm) == DevicesOf(s.w.host, vm)
            && IsoOf(r.w.host, vm) in {IsoOf(s.w.host, vm), None, Some(env)}
            && r.w.cell in {s.w.cell, None, Some(env)}
            && r.t.own == vm && r.t.bg == s.t.bg && (r.t.failed ==> r.t.todo == [])
  {
    PublishMoves(s, vm, env, o);
    PublishActions(vm, env, 6 - |s.t.todo|);
    PublishActKeeps(PublishEnv(vm, env)[6 - |s.t.todo|], s.w, vm, env, o);
  }

  lemma PublishActKeeps(a: Action, w: World, vm: string, env: Env, o: Outcome)
    requires PublishAction(a, vm, env)
    ensures var h := Act(a, w, vm, o).0.host;
            && h.ds == w.host.ds && (vm in h.vms <==> vm in w.host.vms)
            && DevicesOf(h, vm) == DevicesOf(w.host, vm)
            && IsoOf(h, vm) in {IsoOf(w.host, vm), None, Some(env)}
            && Act(a, w, vm, o).0.cell in {w.cell, None, Some(env)}
  {
  }

  lemma {:induction false} DiskRun(w: World, c: Call, s: State, ls: seq<Label>)
    requires DiskCall(c) && DiskInv(w, c, s)
    ensures DiskInv(w, c, Run(s, ls))
    decreases |ls|
  {
    if ls != [] {
      DiskStep(w, c, s, ls[0]);
      DiskRun(w, c, Step(s, ls[0]), ls[1..]);
    }
  }

  /** What the call may put into the environment file or the ISO file. */
  predicate Handed(w: World, c: Call, x: Option<Option<Env>>)
    requires DiskCall(c)
  {
    x.Some? ==> w.cell.Some? && x.value in {None, Some(Revise(w.cell.value, EditOf(c)))}
  }

  lemma HeadHands(w: World, c: Call, s: State)
    requires DiskCall(c) && DiskInv(w, c, s) && s.t.todo != []
    ensures var a := s.t.todo[0];
            && (a.WriteEnv? ==> w.cell.Some? && a.env == Revise(w.cell.value, EditOf(c)))
            && (a.Do? && a.cmd.DatastoreUpload? ==> w.cell.Some? && a.cmd.env == Revise(w.cell.value, EditOf(c)))
  {
    if w.cell.Some? && Publishing(s, s.t.own, Revise(w.cell.value, EditOf(c))) {
      PublishActions(s.t.own, Revise(w.cell.value, EditOf(c)), 6 - |s.t.todo|);
    }
  }

  /** The only environment the call writes or uploads is the one it read, with its own edit. */
  lemma {:induction false} DiskWrites(w: World, c: Call, s: State, ls: seq<Label>)
    requires DiskCall(c) && DiskInv(w, c, s)
    ensures Handed(w, c, LastWrite(s, ls)) && Handed(w, c, LastUpload(s, ls))
    decreases |ls|
  {
    if ls != [] {
      if s.t.todo != [] { HeadHands(w, c, s); }
      DiskStep(w, c, s, ls[0]);
      DiskWrites(w, c, Step(s, ls[0]), ls[1..]);
    }
  }

  /** What a disk call leaves in the environment file and on the ISO, wherever it stops. */
  lemma DiskFiles(w: World, c: Call, ls: seq<Label>)
    requires DiskCall(c)
    ensures var s := Start(w, c);
            var r := Run(s, ls).w;
            && Handed(w, c, LastWrite(s, ls)) && Handed(w, c, LastUpload(s, ls))
            && r.cell == (if LastWrite(s, ls).Some? then LastWrite(s, ls).value else w.cell)
            && IsoOf(r.host, s.t.own) ==
                 if LastUpload(s, ls).Some? then LastUpload(s, ls).value else IsoOf(w.host, s.t.own)
  {
    DiskWrites(w, c, Start(w, c), ls);
    CellIsLastWrite(Start(w, c), ls);
    ProgramOwn(c);
    ProgramKeepsIso(c);
    IsoIsLastUpload(Start(w, c), ls);
  }

  /** What a disk call that read `env` leaves in the files when it succeeds: its edit of it, on the
      ISO if that was whole and in the environment file if it was written. */
  predicate ShowsEdit(env: Env, c: Call, r: World, burned: bool, wrote: bool)
    requires DiskCall(c)
  {
    var iso := IsoOf(r.host, VmId(c.cid));
    && (burned ==> iso.Some? && Edited(env, iso.value, c))
    && (wrote ==> r.cell.Some? && Edited(env, r.cell.value, c))
  }

  /** A disk call that succeeds has read the file, and uploaded. */
  lemma DiskUploads(w: World, c: Call, ls: seq<Label>)
    requires DiskCall(c) && Succeeded(Run(Start(w, c), ls).t)
    ensures w.cell.Some? && LastUpload(Start(w, c), ls).Some? && Connected(Run(Start(w, c), ls).w.host, VmId(c.cid))
    ensures ShowsEdit(w.cell.value, c, Run(Start(w, c), ls).w, Burned(Start(w, c), ls), Wrote(w, c, ls))
  {
    DiskFiles(w, c, ls);
    DiskRun(w, c, Start(w, c), ls);
    assert Program(c)[1] == EditEnv(VmId(c.cid), EditOf(c));
    UploadHappens(Start(w, c), ls);
    if w.cell.Some? {
      RevisedIsEdited(w.cell.value, c);
    }
  }
}
