/** Names and datastore paths that the CPI derives from cloud ids. */
module Names {

  /** A datastore object: a file or directory at the root, a file inside a
      directory, or the environment ISO of a VM under /env. */
  datatype Path =
    | Root(name: string)
    | In(dir: string, file: string)
    | EnvIso(vm: string)

  function VmId(cid: string): string { "vm-" + cid }

  function StemcellId(cid: string): string { "cs-" + cid }

  function DiskId(cid: string): string { "disk-" + cid }

  function DiskFile(cid: string): string { DiskId(cid) + ".vmdk" }

  /** The root object (or the VM, for its ISO) that a path belongs to. */
  function Owner(p: Path): string {
    match p
    case Root(name) => name
    case In(dir, _) => dir
    case EnvIso(vm) => vm
  }

  /** The entry of the root listing under which a path shows up. */
  function Top(p: Path): string {
    match p
    case Root(name) => name
    case In(dir, _) => dir
    case EnvIso(_) => "env"
  }

  /** A path as the govc command line spells it. */
  function Render(p: Path): string {
    match p
    case Root(name) => name
    case In(dir, file) => dir + "/" + file
    case EnvIso(vm) => "/env/env-" + vm + ".iso"
  }

  /** Everything the CPI names on the host, by the cloud ids it is derived from. */
  datatype Thing =
    | TheVm(cid: string)
    | TheStemcell(cid: string)
    | TheDisk(cid: string)
    | TheEphemeralDisk(cid: string)
    | TheVmx(cid: string, stemcell: string)
    | TheEnvIso(cid: string)

  function PathOf(t: Thing): Path {
    match t
    case TheVm(cid) => Root(VmId(cid))
    case TheStemcell(cid) => Root(StemcellId(cid))
    case TheDisk(cid) => Root(DiskFile(cid))
    case TheEphemeralDisk(cid) => In(VmId(cid), "ephemeral.vmdk")
    case TheVmx(cid, stemcell) => In(VmId(cid), StemcellId(stemcell) + ".vmx")
    case TheEnvIso(cid) => EnvIso(VmId(cid))
  }

  function NameOf(t: Thing): string { Render(PathOf(t)) }

  /** The names as the host sees them. */
  lemma NamesSpelled(cid: string, stemcell: string)
    ensures NameOf(TheVm(cid)) == "vm-" + cid && NameOf(TheStemcell(cid)) == "cs-" + cid
    ensures NameOf(TheDisk(cid)) == "disk-" + cid + ".vmdk"
    ensures NameOf(TheEphemeralDisk(cid)) == "vm-" + cid + "/ephemeral.vmdk"
    ensures NameOf(TheVmx(cid, stemcell)) == "vm-" + cid + "/cs-" + stemcell + ".vmx"
    ensures NameOf(TheEnvIso(cid)) == "/env/env-vm-" + cid + ".iso"
  {
    assert "/" + "ephemeral.vmdk" == "/ephemeral.vmdk" && "/env/env-" + "vm-" == "/env/env-vm-";
    assert "vm-" + cid + "/" + ("cs-" + stemcell + ".vmx") == "vm-" + cid + "/cs-" + stemcell + ".vmx";
  }

  predicate SlashFree(s: string) { '/' !in s }

  predicate PlainThing(t: Thing) {
    SlashFree(t.cid) && (t.TheVmx? ==> SlashFree(t.stemcell))
  }

  predicate PlainPath(p: Path) {
    match p
    case Root(name) => SlashFree(name)
    case In(dir, file) => SlashFree(dir) && SlashFree(file)
    case EnvIso(vm) => SlashFree(vm)
  }

  lemma PrefixCancels(pre: string, a: string, b: string)
    requires pre + a == pre + b
    ensures a == b
  {
    assert (pre + a)[|pre|..] == a && (pre + b)[|pre|..] == b;
  }

  lemma SuffixCancels(a: string, b: string, post: string)
    requires a + post == b + post
    ensures a == b
  {
    assert |a| == |b|;
    assert (a + post)[..|a|] == a && (b + post)[..|b|] == b;
  }

  /** A slash-free directory and file can be read back from their joint spelling. */
  lemma SplitAtSlash(d: string, f: string, e: string, g: string)
    requires SlashFree(d) && SlashFree(e)
    ensures d + "/" + f == e + "/" + g ==> d == e && f == g
  {
    var s, t := d + "/" + f, e + "/" + g;
    assert s[|d|] == '/' && t[|e|] == '/';
    assert |d| < |e| ==> t[|d|] == e[|d|];
    assert |e| < |d| ==> s[|e|] == d[|e|];
    assert s[..|d|] == d && t[..|e|] == e;
    assert s[|d| + 1..] == f && t[|e| + 1..] == g;
  }

  /** Distinct slash-free paths are spelled differently. */
  lemma RenderInjective(p: Path, q: Path)
    requires PlainPath(p) && PlainPath(q)
    ensures Render(p) == Render(q) ==> p == q
  {
    Spelling(p);
    Spelling(q);
    match (p, q)
    case (In(d, f), In(e, g)) => SplitAtSlash(d, f, e, g);
    case (EnvIso(v), EnvIso(w)) =>
      if Render(p) == Render(q) {
        assert "/env/env-" + v + ".iso" == "/env/env-" + (v + ".iso");
        assert "/env/env-" + w + ".iso" == "/env/env-" + (w + ".iso");
        PrefixCancels("/env/env-", v + ".iso", w + ".iso");
        SuffixCancels(v, w, ".iso");
      }
    case _ =>
  }

  /** The slashes in a spelling tell the kinds of path apart. */
  lemma Spelling(p: Path)
    requires PlainPath(p)
    ensures p.Root? <==> '/' !in Render(p)
    ensures p.EnvIso? <==> |Render(p)| > 4 && Render(p)[0] == '/' && Render(p)[4] == '/'
  {
    var s := Render(p);
    match p
    case Root(_) =>
    case In(dir, file) =>
      assert s[|dir|] == '/';
      assert |dir| > 0 ==> s[0] == dir[0];
      assert |dir| == 0 && |s| > 4 ==> s[4] == file[3];
    case EnvIso(_) => assert s[0] == '/';
  }

  /** The derived names of slash-free ids are injective in their ids, and no name of
      one kind is a name of another kind. */
  lemma NamesApart(x: Thing, y: Thing)
    requires PlainThing(x) && PlainThing(y)
    ensures NameOf(x) == NameOf(y) ==> x == y
  {
    assert PlainPath(PathOf(x)) && PlainPath(PathOf(y));
    RenderInjective(PathOf(x), PathOf(y));
    if PathOf(x) == PathOf(y) {
      OwnersApart(x, y);
      VmxFiles(x);
      VmxFiles(y);
      if x.TheVmx? && y.TheVmx? {
        SuffixCancels(StemcellId(x.stemcell), StemcellId(y.stemcell), ".vmx");
        PrefixCancels("cs-", x.stemcell, y.stemcell);
      }
    }
  }

  lemma VmxFiles(t: Thing)
    ensures t.TheVmx? <==> PathOf(t).In? && PathOf(t).file != "ephemeral.vmdk"
  {
    if t.TheVmx? {
      assert PathOf(t).file[0] == 'c';
    }
  }

  datatype Kind = VmKind | StemcellKind | DiskKind

  function KindOf(t: Thing): Kind {
    match t
    case TheStemcell(_) => StemcellKind
    case TheDisk(_) => DiskKind
    case _ => VmKind
  }

  /** Two things share an owner only if they stem from the same id of the same kind:
      this is what keeps calls on distinct ids out of each other's way. */
  lemma OwnersApart(x: Thing, y: Thing)
    requires Owner(PathOf(x)) == Owner(PathOf(y))
    ensures KindOf(x) == KindOf(y) && x.cid == y.cid
  {
    var a, b := Owner(PathOf(x)), Owner(PathOf(y));
    assert KindOf(x) == VmKind ==> a == VmId(x.cid) && a[0] == 'v';
    assert KindOf(y) == VmKind ==> b == VmId(y.cid) && b[0] == 'v';
    assert KindOf(x) == StemcellKind ==> a == StemcellId(x.cid) && a[0] == 'c';
    assert KindOf(y) == StemcellKind ==> b == StemcellId(y.cid) && b[0] == 'c';
    assert KindOf(x) == DiskKind ==> a == DiskFile(x.cid) && a[0] == 'd';
    assert KindOf(y) == DiskKind ==> b == DiskFile(y.cid) && b[0] == 'd';
    match KindOf(x)
    case VmKind => PrefixCancels("vm-", x.cid, y.cid);
    case StemcellKind => PrefixCancels("cs-", x.cid, y.cid);
    case DiskKind =>
      SuffixCancels(DiskId(x.cid), DiskId(y.cid), ".vmdk");
      PrefixCancels("disk-", x.cid, y.cid);
  }

  /** Without the slash-free hypothesis the separation is lost. */
  lemma SlashCollides()
    ensures NameOf(TheVm("a/ephemeral.vmdk")) == NameOf(TheEphemeralDisk("a"))
    ensures TheVm("a/ephemeral.vmdk") != TheEphemeralDisk("a")
  {
    assert VmId("a/ephemeral.vmdk") == VmId("a") + "/" + "ephemeral.vmdk";
  }

  /** The ids of VMs, stemcells and disk files never coincide. */
  lemma IdsApart(a: string, b: string)
    ensures VmId(a) != StemcellId(b) && VmId(a) != DiskFile(b) && StemcellId(a) != DiskFile(b)
    ensures VmId(a) == VmId(b) ==> a == b
    ensures StemcellId(a) == StemcellId(b) ==> a == b
    ensures DiskFile(a) == DiskFile(b) ==> a == b
  {
    assert VmId(a)[0] == 'v' && StemcellId(b)[0] == 'c' && StemcellId(a)[0] == 'c' && DiskFile(b)[0] == 'd';
    if VmId(a) == VmId(b) { OwnersApart(TheVm(a), TheVm(b)); }
    if StemcellId(a) == StemcellId(b) { OwnersApart(TheStemcell(a), TheStemcell(b)); }
    if DiskFile(a) == DiskFile(b) { OwnersApart(TheDisk(a), TheDisk(b)); }
  }
}
