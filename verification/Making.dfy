/** The calls that make one object with one command: CreateDisk and CreateStemcell. */
module Making {
  import opened Names
  import opened Host
  import opened Machine
  import opened Destroy

  predicate MakingCall(c: Call) { c.CreateDisk? || c.CreateStemcell? }

  /** The object that the call makes, and what is in it. */
  function MadePath(c: Call): Path
    requires MakingCall(c)
  {
    if c.CreateDisk? then Root(DiskFile(c.cid)) else In(StemcellId(c.cid), StemcellId(c.cid) + ".vmx")
  }

  function MadeContent(c: Call): Content
    requires MakingCall(c)
  {
    if c.CreateDisk? then Disk(c.mb) else Vmx(false)
  }

  /** Nothing is in the way of the new object. */
  predicate Vacant(h: Host, c: Call)
    requires MakingCall(c)
  {
    if c.CreateDisk? then MadePath(c) !in h.files
    else StemcellId(c.cid) !in h.vms && FilesIn(h.files, StemcellId(c.cid)) == {}
  }

  /** The host with the new object. A stemcell is registered as well: a VM that is off and no copy. */
  ghost predicate Made(h: Host, c: Call, k: Host)
    requires MakingCall(c)
  {
    && k.files == h.files[MadePath(c) := MadeContent(c)]
    && (c.CreateStemcell? ==>
          && StemcellId(c.cid) in k.vms && k.vms[StemcellId(c.cid)].power == Off && !k.vms[StemcellId(c.cid)].copied)
  }

  /** What the call may come to: nothing, the new object, or (for an import that failed) files
      of a stemcell that had none before. */
  ghost predicate Makes(h: Host, c: Call, k: Host, done: bool)
    requires MakingCall(c)
  {
    || (k.files == h.files && !done)
    || (Vacant(h, c) && Made(h, c, k))
    || (Vacant(h, c) && c.CreateStemcell? && !done)
  }

  /** Not begun, or over. */
  ghost predicate MakingInv(w: World, c: Call, s: State)
    requires MakingCall(c)
  {
    && s.t.own == OwnName(c) && s.t.bg == Idle
    && if s.t.todo == [] then Makes(w.host, c, s.w.host, !s.t.failed)
       else
         && s.t.todo == Program(c) && !s.t.failed && s.w.host.files == w.host.files
         && (s.t.own in s.w.host.vms <==> s.t.own in w.host.vms)
  }

  lemma {:induction false} MakingRun(w: World, c: Call, s: State, ls: seq<Label>)
    requires MakingCall(c) && MakingInv(w, c, s)
    ensures MakingInv(w, c, Run(s, ls))
    decreases |ls|
  {
    if ls != [] {
      assert Program(c)[1..] == [] && [] + Program(c)[1..] == [];
      MakingRun(w, c, Step(s, ls[0]), ls[1..]);
    }
  }

  /** A call that succeeds has made its object, where there was none; one that fails has at
      most left some files of a stemcell behind. */
  lemma MakingResult(w: World, c: Call, ls: seq<Label>)
    requires MakingCall(c)
    ensures var s := Run(Start(w, c), ls);
            && Makes(w.host, c, s.w.host, Succeeded(s.t))
            && (Succeeded(s.t) ==> Vacant(w.host, c) && Made(w.host, c, s.w.host))
  {
    MakingRun(w, c, Start(w, c), ls);
  }

  /** Progress: where nothing is in the way, a call that is left alone succeeds. */
  lemma MakingSucceeds(w: World, c: Call, ls: seq<Label>)
    requires MakingCall(c) && Vacant(w.host, c) && Calm(ls) && ls != []
    ensures Succeeded(Run(Start(w, c), ls).t)
  {
    assert Program(c)[1..] == [] && [] + Program(c)[1..] == [];
    StaysDone(Step(Start(w, c), ls[0]), ls[1..]);
  }

  lemma MakingCanSucceed(w: World, c: Call)
    requires MakingCall(c)
    ensures Vacant(w.host, c) <==> exists ls :: Succeeds(w, c, ls)
  {
    if Vacant(w.host, c) {
      var ls := [Main(Outcome(NoFault, {}, "", Cdrom(false, None), Written, true))];
      MakingSucceeds(w, c, ls);
      assert Succeeds(w, c, ls);
    }
    forall ls | Succeeds(w, c, ls) ensures Vacant(w.host, c) {
      MakingResult(w, c, ls);
    }
  }

  /** CreateDisk can succeed exactly when nothing has the name of its file. When it does, the
      file is there, of the size asked for, and every other file is as it was. */
  lemma CreateDiskCanSucceed(w: World, cid: string, mb: int)
    ensures Root("disk-" + cid + ".vmdk") !in w.host.files <==> exists ls :: Succeeds(w, CreateDisk(cid, mb), ls)
    ensures forall ls :: Succeeds(w, CreateDisk(cid, mb), ls) ==>
              Run(Start(w, CreateDisk(cid, mb)), ls).w.host.files
                == w.host.files[Root("disk-" + cid + ".vmdk") := Disk(mb)]
  {
    MakingCanSucceed(w, CreateDisk(cid, mb));
    forall ls | Succeeds(w, CreateDisk(cid, mb), ls)
      ensures Made(w.host, CreateDisk(cid, mb), Run(Start(w, CreateDisk(cid, mb)), ls).w.host)
    {
      MakingResult(w, CreateDisk(cid, mb), ls);
    }
  }

  /** CreateStemcell can succeed exactly when no VM and no file has the stemcell's name. When it
      does, the image is there and registered, and every other file is as it was. */
  lemma CreateStemcellCanSucceed(w: World, cid: string)
    ensures "cs-" + cid !in w.host.vms && FilesIn(w.host.files, "cs-" + cid) == {} <==>
              exists ls :: Succeeds(w, CreateStemcell(cid), ls)
    ensures forall ls :: Succeeds(w, CreateStemcell(cid), ls) ==>
              var k := Run(Start(w, CreateStemcell(cid)), ls).w.host;
              && k.files == w.host.files[In("cs-" + cid, "cs-" + cid + ".vmx") := Vmx(false)]
              && "cs-" + cid in k.vms && k.vms["cs-" + cid].power == Off && !k.vms["cs-" + cid].copied
  {
    MakingCanSucceed(w, CreateStemcell(cid));
    forall ls | Succeeds(w, CreateStemcell(cid), ls)
      ensures Made(w.host, CreateStemcell(cid), Run(Start(w, CreateStemcell(cid)), ls).w.host)
    {
      MakingResult(w, CreateStemcell(cid), ls);
    }
  }

  /** Progress of the calls that delete: from every host, one that is left alone succeeds. */
  lemma DeletingSucceeds(w: World, c: Call, ls: seq<Label>)
    requires c.DeleteVM? || c.DeleteStemcell? || c.DeleteDisk?
    requires Calm(ls) && |ls| >= 5
    ensures Succeeded(Run(Start(w, c), ls).t)
  {
    if c.DeleteDisk? {
      SweepSucceeds(Start(w, c), OwnName(c), ls);
    } else {
      DestroySucceeds(w, OwnName(c), ls);
    }
  }
}
