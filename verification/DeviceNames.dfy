/**
  * The names by which the machine builder's three loops refer to the same
  * things: the lines of mounts.cfg, the lines of disks.cfg, and the devices of
  * the domain.
  */
module DeviceNames {
  import opened Options
  import opened Text
  import opened ConfigTypes

  /** (char)('a' + n) */
  function Letter(n: nat): char {
    ((97 + n) % 256) as char
  }

  function BindName(k: nat): string {
    "sandbox:mount" + Decimal(k)
  }

  function VirtioName(k: nat): string {
    "vd" + [Letter(k)]
  }

  datatype Device =
    | Filesys(source: string, target: string, readonly: bool)
    | DiskDevice(file: string, dev: string, format: string)

  /** The name by which the guest finds a device. */
  function NameOf(d: Device): string {
    if d.Filesys? then d.target else "/dev/" + d.dev
  }

  /** A line of mounts.cfg. */
  datatype Entry = Entry(source: string, target: string, fstype: string, options: string)

  function Line(e: Entry): string {
    e.source + "\t" + e.target + "\t" + e.fstype + "\t" + e.options + "\n"
  }

  function DiskLine(tag: string, device: string): string {
    tag + "\t" + device + "\n"
  }

  // What the loops count.

  function Binds(ms: seq<Mount>): nat {
    if ms == [] then 0 else Binds(ms[..|ms| - 1]) + if ms[|ms| - 1].kind.HostBind? then 1 else 0
  }

  function Images(ms: seq<Mount>): nat {
    if ms == [] then 0 else Images(ms[..|ms| - 1]) + if ms[|ms| - 1].kind.HostImage? then 1 else 0
  }

  /** The line of the i-th mount. */
  function EntryOf(c: Config, i: nat): Entry
    requires i < |c.mounts|
  {
    var m := c.mounts[i];
    match m.kind
    case HostBind(_) => Entry(BindName(Binds(c.mounts[..i])), m.target, "9p", "trans=virtio,version=9p2000.u")
    case HostImage(_, _) => Entry("/dev/" + VirtioName(|c.disks| + Images(c.mounts[..i])), m.target, "ext4", "")
    case GuestBind(path) => Entry(path, m.target, "", "")
    case Ram(usage) => Entry("tmpfs", m.target, "tmpfs", "size=" + Decimal(usage / 1024) + "k")
  }

  /** Its device, if it has one. */
  function MountDevice(c: Config, i: nat): Option<Device>
    requires i < |c.mounts|
  {
    match c.mounts[i].kind
    case HostBind(source) => Some(Filesys(source, BindName(Binds(c.mounts[..i])), false))
    case HostImage(image, format) => Some(DiskDevice(image, VirtioName(|c.disks| + Images(c.mounts[..i])), format))
    case _ => None
  }

  function MountCfg(c: Config, n: nat): string
    requires n <= |c.mounts|
  {
    if n == 0 then "" else MountCfg(c, n - 1) + Line(EntryOf(c, n - 1))
  }

  function DiskCfg(c: Config, n: nat): string
    requires n <= |c.disks|
  {
    if n == 0 then "" else DiskCfg(c, n - 1) + DiskLine(c.disks[n - 1].tag, "/dev/" + VirtioName(n - 1))
  }

  function DiskDevices(c: Config, n: nat): (ds: seq<Device>)
    requires n <= |c.disks|
    ensures |ds| == n
  {
    if n == 0 then []
    else DiskDevices(c, n - 1) + [DiskDevice(c.disks[n - 1].source, VirtioName(n - 1), c.disks[n - 1].format)]
  }

  function MountDevices(c: Config, n: nat): seq<Device>
    requires n <= |c.mounts|
  {
    if n == 0 then []
    else
      var front := MountDevices(c, n - 1);
      var d := MountDevice(c, n - 1);
      if d.Some? then front + [d.value] else front
  }

  predicate HasRootMount(c: Config) {
    exists i | 0 <= i < |c.mounts| :: c.mounts[i].target == "/"
  }

  const ROOT_NAME := "sandbox:root"
  const CONFIG_NAME := "sandbox:config"

  function FixedDevices(c: Config, configdir: string): seq<Device> {
    (if HasRootMount(c) then [] else [Filesys(c.root, ROOT_NAME, true)]) + [Filesys(configdir, CONFIG_NAME, true)]
  }

  function Devices(c: Config, configdir: string): seq<Device> {
    FixedDevices(c, configdir) + DiskDevices(c, |c.disks|) + MountDevices(c, |c.mounts|)
  }

  // The loops.

  /** gvir_sandbox_builder_machine_write_mount_cfg */
  method WriteMountCfg(c: Config) returns (text: string)
    ensures text == MountCfg(c, |c.mounts|)
  {
    hide Line;
    text := "";
    var nHostBind, nVirtioDev := 0, |c.disks|;
    var i := 0;
    while i < |c.mounts|
      invariant i <= |c.mounts| && text == MountCfg(c, i)
      invariant nHostBind == Binds(c.mounts[..i]) && nVirtioDev == |c.disks| + Images(c.mounts[..i])
    {
      var m := c.mounts[i];
      assert c.mounts[..i + 1][..i] == c.mounts[..i];
      var source, fstype, options;
      match m.kind {
        case HostBind(_) =>
          source, fstype, options := BindName(nHostBind), "9p", "trans=virtio,version=9p2000.u";
          nHostBind := nHostBind + 1;
        case HostImage(_, _) =>
          source, fstype, options := "/dev/" + VirtioName(nVirtioDev), "ext4", "";
          nVirtioDev := nVirtioDev + 1;
        case GuestBind(path) =>
          source, fstype, options := path, "", "";
        case Ram(usage) =>
          source, fstype, options := "tmpfs", "tmpfs", "size=" + Decimal(usage / 1024) + "k";
      }
      text := text + Line(Entry(source, m.target, fstype, options));
      i := i + 1;
    }
  }

  /** gvir_sandbox_builder_construct_disk_cfg, of the machine builder. */
  method ConstructDiskCfg(c: Config) returns (text: string)
    ensures text == DiskCfg(c, |c.disks|)
  {
    text := "";
    var nVirtioDev := 0;
    while nVirtioDev < |c.disks|
      invariant nVirtioDev <= |c.disks| && text == DiskCfg(c, nVirtioDev)
    {
      text := text + DiskLine(c.disks[nVirtioDev].tag, "/dev/" + VirtioName(nVirtioDev));
      nVirtioDev := nVirtioDev + 1;
    }
  }

  method FindRootMount(c: Config) returns (hasRoot: bool)
    ensures hasRoot == HasRootMount(c)
  {
    hasRoot := false;
    var i := 0;
    while i < |c.mounts| && !hasRoot
      invariant i <= |c.mounts|
      invariant hasRoot ==> HasRootMount(c)
      invariant !hasRoot ==> forall k | 0 <= k < i :: c.mounts[k].target != "/"
    {
      if c.mounts[i].target == "/" {
        hasRoot := true;
      }
      i := i + 1;
    }
  }

  /** gvir_sandbox_builder_machine_construct_devices, up to the networks. */
  method ConstructDevices(c: Config, configdir: string) returns (devices: seq<Device>)
    ensures devices == Devices(c, configdir)
  {
    hide VirtioName, BindName;
    devices := [];
    var hasRoot := FindRootMount(c);
    if !hasRoot {
      devices := devices + [Filesys(c.root, ROOT_NAME, true)];
    }
    devices := devices + [Filesys(configdir, CONFIG_NAME, true)];
    assert devices == FixedDevices(c, configdir);
    var nHostBind, nVirtioDev := 0, 0;
    ghost var fixed := devices;
    assert fixed + DiskDevices(c, 0) == fixed;
    while nVirtioDev < |c.disks|
      invariant nVirtioDev <= |c.disks| && devices == fixed + DiskDevices(c, nVirtioDev)
    {
      var d := c.disks[nVirtioDev];
      devices := devices + [DiskDevice(d.source, VirtioName(nVirtioDev), d.format)];
      nVirtioDev := nVirtioDev + 1;
    }
    ghost var before := devices;
    var i := 0;
    assert before + MountDevices(c, 0) == before;
    while i < |c.mounts|
      invariant i <= |c.mounts| && devices == before + MountDevices(c, i)
      invariant nHostBind == Binds(c.mounts[..i]) && nVirtioDev == |c.disks| + Images(c.mounts[..i])
    {
      var m := c.mounts[i];
      assert c.mounts[..i + 1][..i] == c.mounts[..i];
      match m.kind {
        case HostBind(source) =>
          devices := devices + [Filesys(source, BindName(nHostBind), false)];
          nHostBind := nHostBind + 1;
        case HostImage(image, format) =>
          devices := devices + [DiskDevice(image, VirtioName(nVirtioDev), format)];
          nVirtioDev := nVirtioDev + 1;
        case _ =>
      }
      i := i + 1;
    }
  }

  // Agreement.

  lemma {:induction false} MountDeviceIn(c: Config, i: nat, n: nat)
    requires i < n <= |c.mounts| && MountDevice(c, i).Some?
    ensures MountDevice(c, i).value in MountDevices(c, n)
  {
    hide MountDevice;
    if i < n - 1 {
      MountDeviceIn(c, i, n - 1);
    }
  }

  lemma {:induction false} DiskDeviceIn(c: Config, k: nat, n: nat)
    requires k < n <= |c.disks|
    ensures DiskDevice(c.disks[k].source, VirtioName(k), c.disks[k].format) in DiskDevices(c, n)
  {
    hide VirtioName;
    if k < n - 1 {
      DiskDeviceIn(c, k, n - 1);
    }
  }

  ghost predicate HasFilesys(ds: seq<Device>, name: string, source: string) {
    exists d :: d in ds && d.Filesys? && NameOf(d) == name && d.source == source
  }

  ghost predicate HasDisk(ds: seq<Device>, name: string, file: string, format: string) {
    exists d :: d in ds && d.DiskDevice? && NameOf(d) == name && d.file == file && d.format == format
  }

  /**
    * The line of a mount that needs a device names a device that is built from
    * that mount, and the line of a disk names a device of that disk.
    */
  lemma LinesNameDevices(c: Config, configdir: string)
    ensures forall i | 0 <= i < |c.mounts| :: c.mounts[i].kind.HostBind? ==>
              HasFilesys(Devices(c, configdir), EntryOf(c, i).source, c.mounts[i].kind.source)
    ensures forall i | 0 <= i < |c.mounts| :: c.mounts[i].kind.HostImage? ==>
              HasDisk(Devices(c, configdir), EntryOf(c, i).source, c.mounts[i].kind.image, c.mounts[i].kind.format)
    ensures forall k | 0 <= k < |c.disks| ::
              HasDisk(Devices(c, configdir), "/dev/" + VirtioName(k), c.disks[k].source, c.disks[k].format)
  {
    hide FixedDevices, DiskDevices, MountDevices, BindName, VirtioName, Binds, Images;
    forall i | 0 <= i < |c.mounts|
      ensures c.mounts[i].kind.HostBind? ==>
                HasFilesys(Devices(c, configdir), EntryOf(c, i).source, c.mounts[i].kind.source)
      ensures c.mounts[i].kind.HostImage? ==>
                HasDisk(Devices(c, configdir), EntryOf(c, i).source, c.mounts[i].kind.image, c.mounts[i].kind.format)
    {
      if MountDevice(c, i).Some? {
        MountDeviceIn(c, i, |c.mounts|);
        assert MountDevice(c, i).value in Devices(c, configdir);
      }
    }
    forall k | 0 <= k < |c.disks|
      ensures HasDisk(Devices(c, configdir), "/dev/" + VirtioName(k), c.disks[k].source, c.disks[k].format)
    {
      DiskDeviceIn(c, k, |c.disks|);
      assert DiskDevice(c.disks[k].source, VirtioName(k), c.disks[k].format) in Devices(c, configdir);
    }
  }

  // Distinct names.

  /** The names that the counters have given out. */
  ghost predicate Counted(ds: seq<Device>, binds: nat, from: nat, to: nat) {
    forall a | 0 <= a < |ds| ::
      if ds[a].Filesys? then exists k: nat :: k < binds && ds[a].target == BindName(k)
      else exists k: nat :: from <= k < to && ds[a].dev == VirtioName(k)
  }

  ghost predicate Distinct(ds: seq<Device>) {
    forall a, b | 0 <= a < b < |ds| :: NameOf(ds[a]) != NameOf(ds[b])
  }

  lemma BindNamesDiffer(j: nat, k: nat)
    ensures BindName(j) == BindName(k) ==> j == k
  {
    DecimalInjective(j, k);
    hide Decimal;
    if BindName(j) == BindName(k) {
      assert BindName(j)[13..] == Decimal(j) && BindName(k)[13..] == Decimal(k);
    }
  }

  lemma VirtioNamesDiffer(j: nat, k: nat)
    requires j < 256 && k < 256
    ensures VirtioName(j) == VirtioName(k) ==> j == k
  {
    if VirtioName(j) == VirtioName(k) {
      assert VirtioName(j)[2] == VirtioName(k)[2];
    }
  }

  /** A bind name, a disk name and the two fixed names are never the same. */
  lemma KindsDiffer(j: nat, k: nat)
    ensures BindName(j) != "/dev/" + VirtioName(k)
    ensures BindName(j) != ROOT_NAME && BindName(j) != CONFIG_NAME
    ensures "/dev/" + VirtioName(k) != ROOT_NAME && "/dev/" + VirtioName(k) != CONFIG_NAME
    ensures ROOT_NAME != CONFIG_NAME
  {
    hide Decimal, Letter;
    assert BindName(j)[0] == 's' && BindName(j)[8] == 'm';
    assert ("/dev/" + VirtioName(k))[0] == '/';
  }

  lemma {:induction false} DiskDevicesCounted(c: Config, n: nat)
    requires n <= |c.disks|
    ensures Counted(DiskDevices(c, n), 0, 0, n)
    ensures n <= 256 ==> Distinct(DiskDevices(c, n))
  {
    hide VirtioName;
    if n > 0 {
      DiskDevicesCounted(c, n - 1);
      var front := DiskDevices(c, n - 1);
      var d := DiskDevice(c.disks[n - 1].source, VirtioName(n - 1), c.disks[n - 1].format);
      CountedMore(front, 0, 0, n - 1, d, 0, n);
    }
  }

  /** One more device, with the next number. */
  lemma CountedMore(front: seq<Device>, binds: nat, from: nat, to: nat, d: Device, binds': nat, to': nat)
    requires Counted(front, binds, from, to) && from <= to
    requires if d.Filesys? then d.target == BindName(binds) && binds' == binds + 1 && to' == to
             else d.dev == VirtioName(to) && to' == to + 1 && binds' == binds
    ensures Counted(front + [d], binds', from, to')
    ensures Distinct(front) && to' <= 256 ==> Distinct(front + [d])
  {
    hide BindName, VirtioName;
    var ds := front + [d];
    forall a | 0 <= a < |ds|
      ensures if ds[a].Filesys? then exists k: nat :: k < binds' && ds[a].target == BindName(k)
              else exists k: nat :: from <= k < to' && ds[a].dev == VirtioName(k)
    {
      if a < |front| {
        assert ds[a] == front[a];
      }
    }
    if Distinct(front) && to' <= 256 {
      forall a | 0 <= a < |front| ensures NameOf(front[a]) != NameOf(d) {
        NewName(front[a], binds, from, to, d);
      }
      forall a, b | 0 <= a < b < |ds| ensures NameOf(ds[a]) != NameOf(ds[b]) {
        assert ds[a] == front[a];
      }
    }
  }

  lemma NewName(old': Device, binds: nat, from: nat, to: nat, d: Device)
    requires if old'.Filesys? then exists k: nat :: k < binds && old'.target == BindName(k)
             else exists k: nat :: from <= k < to && old'.dev == VirtioName(k)
    requires if d.Filesys? then d.target == BindName(binds) else d.dev == VirtioName(to)
    requires to <= 256 && (d.DiskDevice? ==> to < 256)
    ensures NameOf(old') != NameOf(d)
  {
    hide BindName, VirtioName;
    if old'.Filesys? {
      var k: nat :| k < binds && old'.target == BindName(k);
      BindNamesDiffer(k, binds);
      KindsDiffer(k, to);
    } else {
      var k: nat :| from <= k < to && old'.dev == VirtioName(k);
      KindsDiffer(binds, k);
      if d.DiskDevice? {
        VirtioNamesDiffer(k, to);
        SameTail(old'.dev, d.dev);
      }
    }
  }

  lemma SameTail(a: string, b: string)
    ensures "/dev/" + a == "/dev/" + b ==> a == b
  {
    if "/dev/" + a == "/dev/" + b {
      assert ("/dev/" + a)[5..] == a && ("/dev/" + b)[5..] == b;
    }
  }

  lemma {:induction false} MountDevicesCounted(c: Config, n: nat)
    requires n <= |c.mounts|
    ensures Counted(MountDevices(c, n), Binds(c.mounts[..n]), |c.disks|, |c.disks| + Images(c.mounts[..n]))
    ensures |c.disks| + Images(c.mounts[..n]) <= 256 ==> Distinct(MountDevices(c, n))
  {
    hide VirtioName, BindName, Distinct, Counted;
    if n > 0 {
      MountDevicesCounted(c, n - 1);
      assert c.mounts[..n][..n - 1] == c.mounts[..n - 1];
      var d := MountDevice(c, n - 1);
      if d.Some? {
        CountedMore(MountDevices(c, n - 1), Binds(c.mounts[..n - 1]), |c.disks|, |c.disks| + Images(c.mounts[..n - 1]),
                    d.value, Binds(c.mounts[..n]), |c.disks| + Images(c.mounts[..n]));
      }
    } else {
      assert Counted([], Binds([]), |c.disks|, |c.disks| + Images([])) && Distinct([]) by { EmptyCounted(|c.disks|); }
    }
  }

  lemma EmptyCounted(n: nat)
    ensures Counted([], 0, n, n) && Distinct([])
  {
  }

  lemma {:induction false} ImageAt(c: Config, n: nat, j: nat) returns (a: nat)
    requires n <= |c.mounts| && j < Images(c.mounts[..n])
    ensures a < |MountDevices(c, n)| && MountDevices(c, n)[a].DiskDevice?
    ensures MountDevices(c, n)[a].dev == VirtioName(|c.disks| + j)
  {
    hide VirtioName, BindName, Binds;
    assert c.mounts[..n][..n - 1] == c.mounts[..n - 1];
    if j < Images(c.mounts[..n - 1]) {
      a := ImageAt(c, n - 1, j);
    } else {
      a := |MountDevices(c, n - 1)|;
    }
  }

  lemma {:induction false} ImagesAt(c: Config, n: nat, j: nat, k: nat) returns (a: nat, b: nat)
    requires n <= |c.mounts| && j < k < Images(c.mounts[..n])
    ensures a < b < |MountDevices(c, n)|
    ensures MountDevices(c, n)[a].DiskDevice? && MountDevices(c, n)[a].dev == VirtioName(|c.disks| + j)
    ensures MountDevices(c, n)[b].DiskDevice? && MountDevices(c, n)[b].dev == VirtioName(|c.disks| + k)
  {
    hide VirtioName, BindName, Binds;
    assert c.mounts[..n][..n - 1] == c.mounts[..n - 1];
    if k < Images(c.mounts[..n - 1]) {
      a, b := ImagesAt(c, n - 1, j, k);
    } else {
      a := ImageAt(c, n - 1, j);
      b := |MountDevices(c, n - 1)|;
    }
  }

  lemma {:induction false} DiskAt(c: Config, n: nat, k: nat)
    requires k < n <= |c.disks|
    ensures DiskDevices(c, n)[k] == DiskDevice(c.disks[k].source, VirtioName(k), c.disks[k].format)
  {
    hide VirtioName;
    if k < n - 1 {
      DiskAt(c, n - 1, k);
    }
  }

  /** How many disks and disk images the domain has. */
  function VirtioDevices(c: Config): nat {
    |c.disks| + Images(c.mounts)
  }

  lemma NamesDistinct(c: Config, configdir: string)
    requires VirtioDevices(c) <= 256
    ensures Distinct(Devices(c, configdir))
  {
    assert c.mounts[..|c.mounts|] == c.mounts;
    DiskDevicesCounted(c, |c.disks|);
    MountDevicesCounted(c, |c.mounts|);
    var fixed, disks, mounts := FixedDevices(c, configdir), DiskDevices(c, |c.disks|), MountDevices(c, |c.mounts|);
    var n, m := |c.disks|, VirtioDevices(c);
    KindsDiffer(0, 0);
    assert Distinct(fixed);
    hide FixedDevices, DiskDevices, MountDevices, BindName, VirtioName, Binds, Images;
    DisksThenMounts(disks, mounts, n, Binds(c.mounts), m);
    FixedThenRest(fixed, disks + mounts, Binds(c.mounts), m);
    assert fixed + disks + mounts == fixed + (disks + mounts);
  }

  lemma DisksThenMounts(disks: seq<Device>, mounts: seq<Device>, n: nat, binds: nat, m: nat)
    requires Counted(disks, 0, 0, n) && Distinct(disks)
    requires Counted(mounts, binds, n, m) && Distinct(mounts) && n <= m <= 256
    ensures Counted(disks + mounts, binds, 0, m) && Distinct(disks + mounts)
  {
    hide BindName, VirtioName, NameOf;
    var ds := disks + mounts;
    forall a | 0 <= a < |ds|
      ensures if ds[a].Filesys? then exists k: nat :: k < binds && ds[a].target == BindName(k)
              else exists k: nat :: 0 <= k < m && ds[a].dev == VirtioName(k)
    {
      if a < |disks| {
        assert ds[a] == disks[a];
      } else {
        assert ds[a] == mounts[a - |disks|];
      }
    }
    forall a, b | 0 <= a < b < |ds| ensures NameOf(ds[a]) != NameOf(ds[b]) {
      if b < |disks| {
        assert ds[a] == disks[a] && ds[b] == disks[b];
      } else if a >= |disks| {
        assert ds[a] == mounts[a - |disks|] && ds[b] == mounts[b - |disks|];
      } else {
        assert ds[a] == disks[a] && ds[b] == mounts[b - |disks|];
        DiskIsNotMount(ds[a], ds[b], n, binds, m);
      }
    }
  }

  lemma DiskIsNotMount(d: Device, e: Device, n: nat, binds: nat, m: nat)
    requires d.DiskDevice? && (exists k: nat :: k < n && d.dev == VirtioName(k)) && n <= m <= 256
    requires if e.Filesys? then exists k: nat :: k < binds && e.target == BindName(k)
             else exists k: nat :: n <= k < m && e.dev == VirtioName(k)
    ensures NameOf(d) != NameOf(e)
  {
    hide BindName, VirtioName;
    var j: nat :| j < n && d.dev == VirtioName(j);
    if e.Filesys? {
      var k: nat :| k < binds && e.target == BindName(k);
      KindsDiffer(k, j);
    } else {
      var k: nat :| n <= k < m && e.dev == VirtioName(k);
      VirtioNamesDiffer(j, k);
      SameTail(d.dev, e.dev);
    }
  }

  lemma FixedThenRest(fixed: seq<Device>, rest: seq<Device>, binds: nat, m: nat)
    requires Distinct(fixed) && Distinct(rest) && Counted(rest, binds, 0, m)
    requires forall a | 0 <= a < |fixed| :: fixed[a].Filesys? && fixed[a].target in {ROOT_NAME, CONFIG_NAME}
    ensures Distinct(fixed + rest)
  {
    hide BindName, VirtioName;
    var ds := fixed + rest;
    forall a, b | 0 <= a < b < |ds| ensures NameOf(ds[a]) != NameOf(ds[b]) {
      if b < |fixed| {
        assert ds[a] == fixed[a] && ds[b] == fixed[b];
      } else if a >= |fixed| {
        assert ds[a] == rest[a - |fixed|] && ds[b] == rest[b - |fixed|];
      } else {
        assert ds[a] == fixed[a] && ds[b] == rest[b - |fixed|];
        FixedIsNotCounted(ds[a], ds[b], binds, m);
      }
    }
  }

  lemma FixedIsNotCounted(d: Device, e: Device, binds: nat, m: nat)
    requires d.Filesys? && d.target in {ROOT_NAME, CONFIG_NAME}
    requires if e.Filesys? then exists k: nat :: k < binds && e.target == BindName(k)
             else exists k: nat :: 0 <= k < m && e.dev == VirtioName(k)
    ensures NameOf(d) != NameOf(e)
  {
    hide BindName, VirtioName;
    if e.Filesys? {
      var k: nat :| k < binds && e.target == BindName(k);
      KindsDiffer(k, 0);
    } else {
      var k: nat :| 0 <= k < m && e.dev == VirtioName(k);
      KindsDiffer(0, k);
    }
  }

  lemma NamesRepeat(c: Config, configdir: string)
    requires VirtioDevices(c) > 256
    ensures !Distinct(Devices(c, configdir))
  {
    assert c.mounts[..|c.mounts|] == c.mounts;
    var ds := Devices(c, configdir);
    var disks, mounts := DiskDevices(c, |c.disks|), MountDevices(c, |c.mounts|);
    var f := |FixedDevices(c, configdir)|;
    var a, b;
    if |c.disks| > 256 {
      DiskAt(c, |c.disks|, 0);
      DiskAt(c, |c.disks|, 256);
      a, b := f, f + 256;
      assert ds[a] == disks[0] && ds[b] == disks[256];
    } else if |c.disks| > 0 {
      DiskAt(c, |c.disks|, 0);
      var k := ImageAt(c, |c.mounts|, 256 - |c.disks|);
      a, b := f, f + |c.disks| + k;
      assert ds[a] == disks[0] && ds[b] == mounts[k];
    } else {
      var j, k := ImagesAt(c, |c.mounts|, 0, 256);
      a, b := f + j, f + k;
      assert ds[a] == mounts[j] && ds[b] == mounts[k];
    }
    assert VirtioName(0) == VirtioName(256);
    assert a < b && NameOf(ds[a]) == NameOf(ds[b]);
  }

  /**
    * All devices have different names if and only if there are at most 256
    * disks and images; with at most 26 the names end in the letters a to z.
    */
  lemma DeviceNamesAgree(c: Config, configdir: string)
    ensures Distinct(Devices(c, configdir)) <==> VirtioDevices(c) <= 256
    ensures VirtioDevices(c) <= 26 ==> forall k: nat | k < VirtioDevices(c) :: 'a' <= Letter(k) <= 'z'
  {
    if VirtioDevices(c) <= 256 {
      NamesDistinct(c, configdir);
    } else {
      NamesRepeat(c, configdir);
    }
  }
}
