/** The scan by which DetachDisk finds the device of a disk: the last device whose
    parent file name contains the disk id. */
module Lookup {
  import opened Names

  /** A disk device as device.info reports it. `parent` is empty for a device that is
      not linked to another disk. */
  datatype Device = Device(name: string, parent: string)

  predicate OccursAt(s: string, sub: string, i: nat) {
    i + |sub| <= |s| && s[i..i + |sub|] == sub
  }

  predicate Contains(s: string, sub: string) {
    exists i | 0 <= i <= |s| :: OccursAt(s, sub, i)
  }

  function FindDevice(devices: seq<Device>, diskId: string): string {
    if devices == [] then ""
    else
      var last := devices[|devices| - 1];
      if Contains(last.parent, diskId) then last.name
      else FindDevice(devices[..|devices| - 1], diskId)
  }

  /** How a host names the parent of a device linked to a root disk file. */
  function ParentName(ds: string, diskFile: string): string { "[" + ds + "] " + diskFile }

  function Linked(devices: seq<Device>, parent: string): nat {
    if devices == [] then 0
    else Linked(devices[..|devices| - 1], parent) + if devices[|devices| - 1].parent == parent then 1 else 0
  }

  predicate IdChar(c: char) { '0' <= c <= '9' || 'a' <= c <= 'f' || c == '-' }

  /** The shape of a generated id: a fixed number of lower-case hex digits and dashes. */
  predicate GeneratedId(cid: string, n: nat) {
    |cid| == n && forall c :: c in cid ==> IdChar(c)
  }

  /** The names that the lookup relies on: no parent, or the parent of a generated disk
      on a datastore whose own name does not contain "disk-". */
  ghost predicate RegularParent(parent: string, ds: string, n: nat) {
    parent == "" || exists u :: GeneratedId(u, n) && parent == ParentName(ds, DiskFile(u))
  }

  ghost predicate Regular(devices: seq<Device>, ds: string, n: nat) {
    !Contains(ds, "disk-") &&
    forall d :: d in devices ==> RegularParent(d.parent, ds, n)
  }

  /** Device names are not empty and not shared. */
  ghost predicate Named(devices: seq<Device>) {
    && (forall d :: d in devices ==> d.name != "")
    && (forall i, j :: 0 <= i < j < |devices| ==> devices[i].name != devices[j].name)
  }

  /** "disk-" occurs in the parent of a generated disk at one place only. */
  lemma OneOccurrence(ds: string, u: string, n: nat, i: nat)
    requires !Contains(ds, "disk-") && GeneratedId(u, n)
    ensures OccursAt(ParentName(ds, DiskFile(u)), "disk-", i) ==> i == |ds| + 3
  {
    var p := ParentName(ds, DiskFile(u));
    var c := |ds| + 1;
    var e := c + 7 + n;
    assert p[0] == '[' && p[c] == ']' && p[c + 1] == ' ';
    assert p[c + 2..c + 7] == "disk-" && p[c + 6] == '-';
    assert p[c + 7..e] == u;
    assert p[e..] == ".vmdk" && p[e] == '.' && p[e + 1] == 'v' && p[e + 2] == 'm' && p[e + 3] == 'd';
    forall j | c + 7 <= j < e ensures p[j] != 'k' {
      assert p[j] == u[j - c - 7] && u[j - c - 7] in u;
    }
    if OccursAt(p, "disk-", i) {
      var t := p[i..i + 5];
      assert t[0] == p[i] && t[1] == p[i + 1] && t[2] == p[i + 2] && t[3] == p[i + 3] && t[4] == p[i + 4];
      if 1 <= i && i + 5 <= c {
        assert t == ds[i - 1..i + 4];
        assert OccursAt(ds, "disk-", i - 1);
      }
    }
  }

  /** Among regular names, containing the id and being its parent are the same. */
  lemma ContainsIffParent(parent: string, ds: string, u: string, n: nat)
    requires !Contains(ds, "disk-") && GeneratedId(u, n) && RegularParent(parent, ds, n)
    ensures Contains(parent, DiskId(u)) <==> parent == ParentName(ds, DiskFile(u))
  {
    var id := DiskId(u);
    var own := ParentName(ds, DiskFile(u));
    assert own[|ds| + 3..|ds| + 3 + |id|] == id;
    assert OccursAt(own, id, |ds| + 3);
    if Contains(parent, id) {
      var i :| 0 <= i <= |parent| && OccursAt(parent, id, i);
      var w :| GeneratedId(w, n) && parent == ParentName(ds, DiskFile(w));
      assert parent[i..i + 5] == parent[i..i + |id|][..5] == id[..5] == "disk-";
      OneOccurrence(ds, w, n, i);
      assert parent[i + 5..i + 5 + n] == parent[i..i + |id|][5..] == id[5..] == u;
      assert parent[|ds| + 8..|ds| + 8 + n] == w;
    }
  }

  /** Device `i` is linked to `parent`, and no later one is. */
  ghost predicate LastLink(devices: seq<Device>, parent: string, i: nat) {
    i < |devices| && devices[i].parent == parent &&
    forall j :: i < j < |devices| ==> devices[j].parent != parent
  }

  /** Lookup correctness: with regular names the scan returns the name of the last device
      linked to the requested disk, and the empty name exactly when there is none. */
  lemma {:induction false} FindDeviceCorrect(devices: seq<Device>, ds: string, u: string, n: nat)
    requires GeneratedId(u, n) && Regular(devices, ds, n)
    requires forall d :: d in devices ==> d.name != ""
    ensures FindDevice(devices, DiskId(u)) == "" <==> Linked(devices, ParentName(ds, DiskFile(u))) == 0
    ensures FindDevice(devices, DiskId(u)) != "" ==>
              exists i: nat :: LastLink(devices, ParentName(ds, DiskFile(u)), i)
                       && devices[i].name == FindDevice(devices, DiskId(u))
  {
    var parent := ParentName(ds, DiskFile(u));
    if devices != [] {
      var k := |devices| - 1;
      var rest := devices[..k];
      assert devices[k] in devices;
      assert forall d :: d in rest ==> d in devices;
      ContainsIffParent(devices[k].parent, ds, u, n);
      if devices[k].parent == parent {
        assert LastLink(devices, parent, k);
      } else {
        FindDeviceCorrect(rest, ds, u, n);
        if FindDevice(rest, DiskId(u)) != "" {
          var i: nat :| LastLink(rest, parent, i) && rest[i].name == FindDevice(rest, DiskId(u));
          LastLinkExtends(devices, parent, i);
        }
      }
    }
  }

  lemma LastLinkExtends(devices: seq<Device>, parent: string, i: nat)
    requires devices != [] && devices[|devices| - 1].parent != parent
    requires LastLink(devices[..|devices| - 1], parent, i)
    ensures LastLink(devices, parent, i)
  {
    var rest := devices[..|devices| - 1];
    forall j | i < j < |devices| ensures devices[j].parent != parent {
      assert j < |rest| ==> rest[j] == devices[j];
    }
  }

  /** Without ids of one length the scan can settle on another disk's device. */
  lemma ShortIdMisleads()
    ensures var devices := [Device("disk-1000-1", ParentName("ds", DiskFile("1"))),
                            Device("disk-1000-2", ParentName("ds", DiskFile("12")))];
            FindDevice(devices, DiskId("1")) == "disk-1000-2"
  {
    var p := ParentName("ds", DiskFile("12"));
    assert p[5..11] == DiskId("1");
    assert OccursAt(p, DiskId("1"), 5);
  }

  /** What is linked to a parent, once a device has been taken out of the list. */
  lemma {:induction false} LinkedWithout(devices: seq<Device>, i: nat, parent: string)
    requires i < |devices|
    ensures Linked(devices[..i] + devices[i + 1..], parent)
         == Linked(devices, parent) - if devices[i].parent == parent then 1 else 0
  {
    var n := |devices| - 1;
    var cut := devices[..i] + devices[i + 1..];
    if i == n {
      assert cut == devices[..n];
    } else {
      LinkedWithout(devices[..n], i, parent);
      assert cut[..n - 1] == devices[..n][..i] + devices[..n][i + 1..];
      assert cut[n - 1] == devices[n];
    }
  }

  lemma LinkedAppend(devices: seq<Device>, d: Device, parent: string)
    ensures Linked(devices + [d], parent) == Linked(devices, parent) + if d.parent == parent then 1 else 0
  {
    assert (devices + [d])[..|devices|] == devices;
  }
}
