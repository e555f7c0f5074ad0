/** CloneVM and StartVM, the two parts of CreateVM that change what an operator sees. */
module Parts {
  import opened Names
  import opened Host
  import opened Machine
  import opened StartVM
  import opened Destroy
  import opened Create
  import opened Needs
  import opened Refinement

  // ---------- CloneVM ----------

  /** A CreateVM that begins with the clone. */
  function FromClone(cid: string, stemcell: string): Call { CreateVM(cid, stemcell, "", 0, 0, 0, []) }

  function CloneTask(cid: string, stemcell: string): Task {
    Task(VmId(cid), CloneVm(StemcellId(stemcell), VmId(cid)), Idle, false)
  }

  ghost predicate CloneInv(h0: Host, cid: string, stemcell: string, s: State) {
    var c, plan, k := FromClone(cid, stemcell), CloneVm(StemcellId(stemcell), VmId(cid)), |s.t.todo|;
    && s.t.own == VmId(cid) && (s.t.failed ==> s.t.todo == [])
    && (!s.t.failed ==>
          && k <= 3 && s.t.todo == plan[3 - k..] && s.t.bg == Idle
          && Stage(c, s.w.host, Idle, 11 + k) && Gathered(c, h0, s.w.host, 11 + k))
  }

  lemma CloneStep(h0: Host, cid: string, stemcell: string, s: State, l: Label)
    requires CloneInv(h0, cid, stemcell, s)
    ensures CloneInv(h0, cid, stemcell, Step(s, l))
  {
    if !s.t.failed {
      match l
      case Main(o) => if s.t.todo != [] { CloneMain(h0, cid, stemcell, s, o); }
      case Background(_) =>
      case Ticking => CloneTick(h0, cid, stemcell, s);
    }
  }

  lemma CloneTick(h0: Host, cid: string, stemcell: string, s: State)
    requires CloneInv(h0, cid, stemcell, s) && !s.t.failed
    ensures CloneInv(h0, cid, stemcell, Step(s, Ticking))
  {
    assert Step(s, Ticking) == s.(w := s.w.(host := Tick(s.w.host, VmId(cid))));
    StageTick(FromClone(cid, stemcell), s.w.host, Idle, 11 + |s.t.todo|);
    GatherTick(FromClone(cid, stemcell), h0, s.w.host, 11 + |s.t.todo|);
  }

  lemma CloneMain(h0: Host, cid: string, stemcell: string, s: State, o: Outcome)
    requires CloneInv(h0, cid, stemcell, s) && !s.t.failed && s.t.todo != []
    ensures CloneInv(h0, cid, stemcell, MainStep(s, o))
  {
    var c, plan, k := FromClone(cid, stemcell), CloneVm(StemcellId(stemcell), VmId(cid)), |s.t.todo|;
    CloneAt(cid, stemcell, k);
    Advance(s, o, plan, k);
    if Act(plan[3 - k], s.w, s.t.own, o).1 {
      StageStep(c, s.w, Idle, 11 + k, o);
      GatherMain(c, h0, s.w, Idle, 11 + k, o);
    }
  }

  lemma CloneAt(cid: string, stemcell: string, k: nat)
    requires 1 <= k <= 3
    ensures CloneVm(StemcellId(stemcell), VmId(cid))[3 - k] == StepAt(FromClone(cid, stemcell), 11 + k)
    ensures StepAt(FromClone(cid, stemcell), 11 + k).Do?
  {
  }

  lemma GatherTick(c: Call, h0: Host, h: Host, m: nat)
    requires c.CreateVM? && Gathered(c, h0, h, m)
    ensures Gathered(c, h0, Tick(h, VmId(c.cid)), m)
  {
  }

  lemma {:induction false} CloneRun(h0: Host, cid: string, stemcell: string, s: State, ls: seq<Label>)
    requires CloneInv(h0, cid, stemcell, s)
    ensures CloneInv(h0, cid, stemcell, Run(s, ls))
    decreases |ls|
  {
    if ls != [] {
      CloneStep(h0, cid, stemcell, s, ls[0]);
      CloneRun(h0, cid, stemcell, Step(s, ls[0]), ls[1..]);
    }
  }

  /** A CloneVM that succeeds is one step: where nothing was, there is a VM that is off, has
      nothing linked to it, and will ask about the copy when it is started. */
  lemma CloneSimulates(w: World, cid: string, stemcell: string, ls: seq<Label>)
    requires Succeeded(Run(State(w, CloneTask(cid, stemcell)), ls).t)
    ensures var s := Run(State(w, CloneTask(cid, stemcell)), ls);
            && cid !in Abs(w.host).vms
            && Abs(s.w.host) == Abs(w.host).(vms := Abs(w.host).vms[cid := Whole(false, NoLinks())])
            && VmId(cid) in s.w.host.vms && s.w.host.vms[VmId(cid)].copied && s.w.host.vms[VmId(cid)].nested
  {
    var s := Run(State(w, CloneTask(cid, stemcell)), ls);
    var plan := CloneVm(StemcellId(stemcell), VmId(cid));
    assert plan == plan[0..];
    CloneRun(w.host, cid, stemcell, State(w, CloneTask(cid, stemcell)), ls);
    RunFrame(State(w, CloneTask(cid, stemcell)), ls);
    VmCallFrame(w.host, s.w.host, cid);
    BareShape(s.w.host, cid);
    ButOne(Abs(w.host).vms, Abs(s.w.host).vms, cid);
  }

  // ---------- StartVM ----------

  /** Starting a VM touches its power and nothing else of it. */
  ghost predicate OnlyPower(h: Host, k: Host, own: string) {
    && h.ds == k.ds && h.files == k.files
    && (own in h.vms <==> own in k.vms)
    && (own in h.vms ==> k.vms[own] == h.vms[own].(power := k.vms[own].power, copied := k.vms[own].copied))
  }

  predicate InStart(t: Task) {
    t.todo in {StartVm(t.own), [Poll, Do(VmQuestion(t.own))], [Do(VmQuestion(t.own))], []}
  }

  lemma StartStep(s: State, l: Label)
    requires InStart(s.t)
    ensures InStart(Step(s, l).t) && Step(s, l).t.own == s.t.own
    ensures OnlyPower(s.w.host, Step(s, l).w.host, s.t.own)
  {
    StartKeeps(s, l);
    if s.t.todo == StartVm(s.t.own) {
      assert [] + StartVm(s.t.own)[1..] == [Poll, Do(VmQuestion(s.t.own))];
    } else {
      PollingShapes(s, l);
    }
  }

  lemma StartKeeps(s: State, l: Label)
    requires s.t.todo != [] ==> s.t.todo[0] in {Fork, Poll, Do(VmQuestion(s.t.own))}
    ensures OnlyPower(s.w.host, Step(s, l).w.host, s.t.own)
  {
  }

  lemma {:induction false} StartRunPower(s: State, ls: seq<Label>)
    requires InStart(s.t)
    ensures OnlyPower(s.w.host, Run(s, ls).w.host, s.t.own)
    decreases |ls|
  {
    if ls != [] {
      StartStep(s, ls[0]);
      StartRunPower(Step(s, ls[0]), ls[1..]);
    }
  }

  lemma PowerShape(h: Host, k: Host, cid: string)
    requires OnlyPower(h, k, VmId(cid)) && VmId(cid) in h.vms
    ensures !Gone(h, VmId(cid)) && !Gone(k, VmId(cid))
    ensures Shape(h, cid).Whole? && Shape(k, cid) == Shape(h, cid).(on := k.vms[VmId(cid)].power != Off)
  {
    assert Shape(k, cid).links == Shape(h, cid).links;
  }

  /** StartVM: every run leaves a VM that is there on or off, with everything else as it was,
      and one that succeeds leaves it on; on a VM that is not there nothing happens. */
  lemma StartSimulates(w: World, cid: string, ls: seq<Label>)
    ensures var s := Run(State(w, StartTask(VmId(cid))), ls);
            var a, b := Abs(w.host), Abs(s.w.host);
            if VmId(cid) in w.host.vms then
              && cid in a.vms && a.vms[cid].Whole? && cid in b.vms && b.vms[cid].Whole?
              && b == a.(vms := a.vms[cid := a.vms[cid].(on := b.vms[cid].on)])
              && (Succeeded(s.t) ==> b.vms[cid].on)
            else b == a && !Succeeded(s.t)
  {
    var t := State(w, StartTask(VmId(cid)));
    var s := Run(t, ls);
    StartInvRun(t, ls);
    StartRunPower(t, ls);
    RunFrame(t, ls);
    VmCallFrame(w.host, s.w.host, cid);
    ButOne(Abs(w.host).vms, Abs(s.w.host).vms, cid);
    if VmId(cid) in w.host.vms {
      PowerShape(w.host, s.w.host, cid);
    } else {
      SameButOne(Abs(s.w.host).vms, Abs(w.host).vms, cid);
    }
  }
}
