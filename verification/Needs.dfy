/** What a CreateVM must have found, given that it succeeded. */
module Needs {
  import opened Names
  import opened Host
  import opened Machine
  import opened Create

  /** What the steps taken so far tell about the host the call started on. */
  ghost predicate Gathered(c: Call, h0: Host, h: Host, m: nat)
    requires c.CreateVM?
  {
    var vm, source := VmId(c.cid), StemcellId(c.stemcell);
    && (m == Length(c) ==> h.files == h0.files)
    && (m >= Length(c) - 1 ==> (vm in h.vms <==> vm in h0.vms))
    && (m < Length(c) ==> forall p :: p in h0.files ==> !Under(p, vm))
    && (m < Length(c) - 1 ==>
          vm !in h0.vms && In(source, source + ".vmx") in h0.files && h0.files[In(source, source + ".vmx")].Vmx?)
    && (m == Length(c) - 1 ==> In(vm, source + ".vmx") in h.files && h.files[In(vm, source + ".vmx")].Vmx? ==>
          In(source, source + ".vmx") in h0.files && h0.files[In(source, source + ".vmx")].Vmx?)
    && (10 <= m < Length(c) && In(source, "ephemeral.vmdk") in h0.files ==> In(vm, "ephemeral.vmdk") in h.files)
    && (m < 10 ==> In(source, "ephemeral.vmdk") !in h0.files)
  }

  ghost predicate GatheredInv(c: Call, h0: Host, s: State)
    requires c.CreateVM?
  {
    CreateInv(c, s) && (!s.t.failed ==> Gathered(c, h0, s.w.host, |s.t.todo|))
  }

  lemma GatherMain(c: Call, h0: Host, w: World, bg: Goroutine, m: nat, o: Outcome)
    requires c.CreateVM? && 1 <= m <= Length(c) && Gathered(c, h0, w.host, m) && Stage(c, w.host, bg, m)
    requires Act(StepAt(c, m), w, VmId(c.cid), o).1
    ensures Gathered(c, h0, Act(StepAt(c, m), w, VmId(c.cid), o).0.host, m - 1)
  {
    var vm, source := VmId(c.cid), StemcellId(c.stemcell);
    if m == Length(c) {
      FilesInDir(h0.files, source, source + ".vmx");
      FilesInDir(h0.files, source, "ephemeral.vmdk");
      assert Under(In(vm, source + ".vmx"), vm);
    }
  }

  lemma GatherStep(c: Call, h0: Host, s: State, l: Label)
    requires c.CreateVM? && GatheredInv(c, h0, s)
    ensures GatheredInv(c, h0, Step(s, l))
  {
    var r := Step(s, l);
    CreateStep(c, s, l);
    if !r.t.failed {
      GatherSome(c, h0, s, l);
    }
  }

  lemma GatherSome(c: Call, h0: Host, s: State, l: Label)
    requires c.CreateVM? && GatheredInv(c, h0, s) && !Step(s, l).t.failed
    ensures Gathered(c, h0, Step(s, l).w.host, |Step(s, l).t.todo|)
  {
    if !l.Main? {
      GatherElsewhere(c, h0, s, l);
    } else if s.t.todo != [] {
      GatherMainStep(c, h0, s, l.o);
    }
  }

  lemma GatherMainStep(c: Call, h0: Host, s: State, o: Outcome)
    requires c.CreateVM? && GatheredInv(c, h0, s) && !s.t.failed && s.t.todo != []
    ensures var r := MainStep(s, o);
            !r.t.failed ==> Gathered(c, h0, r.w.host, |r.t.todo|)
  {
    var m := |s.t.todo|;
    ProgramAt(c, m);
    Advance(s, o, Program(c), m);
    StepAtExpands(c, m, s.w);
    if Act(StepAt(c, m), s.w, s.t.own, o).1 {
      GatherMain(c, h0, s.w, s.t.bg, m, o);
    }
  }

  lemma GatherElsewhere(c: Call, h0: Host, s: State, l: Label)
    requires c.CreateVM? && GatheredInv(c, h0, s) && !s.t.failed && !l.Main?
    ensures Gathered(c, h0, Step(s, l).w.host, |s.t.todo|)
  {
  }

  lemma {:induction false} GatherRun(c: Call, h0: Host, s: State, ls: seq<Label>)
    requires c.CreateVM? && GatheredInv(c, h0, s)
    ensures GatheredInv(c, h0, Run(s, ls))
    decreases |ls|
  {
    if ls != [] {
      GatherStep(c, h0, s, ls[0]);
      GatherRun(c, h0, Step(s, ls[0]), ls[1..]);
    }
  }

  /** A CreateVM that succeeds had a fresh id and a usable stemcell. */
  lemma CreateNeeds(w: World, c: Call, ls: seq<Label>)
    requires c.CreateVM? && Succeeded(Run(Start(w, c), ls).t)
    ensures Startable(w, c)
  {
    CreateStarts(w, c);
    ProgramAt(c, 1);
    GatherRun(c, w.host, Start(w, c), ls);
  }

  lemma AGoodRun(c: Call) returns (ls: seq<Label>)
    requires c.CreateVM?
    ensures GoodRun(c, ls)
  {
    var fine := Outcome(NoFault, {}, "disk-1000-1", Cdrom(false, None), Written, true);
    ls := seq(Length(c) + 2, i requires 0 <= i < Length(c) + 2 =>
      if i == Length(c) - 2 then Background(fine) else if i == Length(c) - 1 then Ticking else Main(fine));
    assert fine.device[10] == '1' && ROOT_DISK.name[10] == '0';
  }

  /** CreateVM can succeed exactly when the id is fresh and the stemcell is there. */
  lemma CreateCanSucceed(w: World, c: Call)
    requires c.CreateVM?
    ensures Startable(w, c) <==> exists ls :: Succeeds(w, c, ls)
  {
    if Startable(w, c) {
      var ls := AGoodRun(c);
      CreateSucceeds(w, c, ls);
      assert Succeeds(w, c, ls);
    }
    forall ls | Succeeds(w, c, ls) ensures Startable(w, c) {
      CreateNeeds(w, c, ls);
    }
  }
}
