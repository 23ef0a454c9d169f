/** The arithmetic of rounded capacities, the agreement of the two system-disk pickers,
    and what syncing the labels leaves alone. */
module DiscoveryProperties {
  import opened Common
  import opened Records
  import opened Discovery

  // ---------- Rounded capacities ----------

  const ROUNDABLE: int := MAX_INT64 - GIB / 2

  /** The first rounding overflows exactly above this bound. */
  lemma {:induction false} OverflowsAbove(v: int)
    requires 0 <= v <= MAX_INT64
    ensures Wrap64(v + GIB / 2) == v + GIB / 2 <==> v <= ROUNDABLE
    ensures v > ROUNDABLE ==> RoundQuantity(v).count < 0
  {
  }

  lemma Rounded(v: int)
    requires 0 <= v <= ROUNDABLE
    ensures var gib := (v + GIB / 2) / GIB;
            RoundQuantity(v) == if gib >= 1024 then Size((gib + 512) / 1024, true) else Size(gib, false)
  {
    OverflowsAbove(v);
    var gib := (v + GIB / 2) / GIB;
    assert 0 <= gib + 512 <= MAX_INT64;
  }

  /** Rounding twice counts the same TiB as rounding once. */
  lemma {:induction false} OneRounding(v: int)
    requires v >= 0
    ensures ((v + GIB / 2) / GIB + 512) / 1024 == (v + TIB / 2 + GIB / 2) / TIB
  {
    var a := v + GIB / 2;
    assert (a / GIB + 512) / 1024 == (a + 512 * GIB) / TIB;
  }

  /** Nothing overflows, the size is within half a unit (plus the half GiB of the first
      rounding), and in T it is the capacity rounded once. */
  lemma {:induction false} RoundingIsClose(v: int)
    requires 0 <= v <= ROUNDABLE
    ensures var s := RoundQuantity(v);
            && s.count >= 0
            && (s.tera <==> v + GIB / 2 >= TIB)
            && (!s.tera ==> v - GIB / 2 < s.Bytes() <= v + GIB / 2)
            && (s.tera ==> v - TIB / 2 < s.Bytes() + GIB / 2 && s.Bytes() <= v + TIB / 2 + GIB / 2)
            && (s.tera ==> s.count == (v + TIB / 2 + GIB / 2) / TIB)
  {
    Rounded(v);
    OneRounding(v);
  }

  /** A larger capacity never gets a smaller label, across the switch from G to T. */
  lemma {:induction false} RoundingIsMonotone(v: int, x: int)
    requires 0 <= v <= x <= ROUNDABLE
    ensures RoundQuantity(v).Bytes() <= RoundQuantity(x).Bytes()
  {
    RoundingIsClose(v);
    RoundingIsClose(x);
  }

  /** Rounding the size a label names gives that label again, whenever that size fits. */
  lemma {:induction false} RoundingIsStable(v: int)
    requires 0 <= v <= ROUNDABLE
    ensures RoundQuantity(v).Bytes() <= ROUNDABLE <==> v + TIB / 2 + GIB / 2 <= MAX_INT64
    ensures RoundQuantity(v).Bytes() <= ROUNDABLE ==> RoundQuantity(RoundQuantity(v).Bytes()) == RoundQuantity(v)
  {
    hide RoundQuantity;
    RoundingIsClose(v);
    Rounded(v);
    var s := RoundQuantity(v);
    if s.Bytes() <= ROUNDABLE {
      Rounded(s.Bytes());
      if s.tera {
        WholeTebi(s.count);
      } else {
        WholeGibi(s.count);
      }
    }
  }

  lemma WholeGibi(n: nat)
    ensures (n * GIB + GIB / 2) / GIB == n
  {
  }

  lemma WholeTebi(n: nat)
    ensures (n * TIB + GIB / 2) / GIB == 1024 * n && (1024 * n + 512) / 1024 == n
  {
  }

  function DigitValue(c: char): nat
    requires '0' <= c <= '9'
  {
    (c as int) - ('0' as int)
  }

  predicate Digits(s: string) {
    s != "" && forall i :: 0 <= i < |s| ==> '0' <= s[i] <= '9'
  }

  function ParseDecimal(s: string): nat
    requires Digits(s)
  {
    if |s| == 1 then DigitValue(s[0]) else 10 * ParseDecimal(s[..|s| - 1]) + DigitValue(Last(s))
  }

  lemma ParseSnoc(s: string, d: nat)
    requires Digits(s) && d < 10
    ensures Digits(s + [Digit(d)]) && ParseDecimal(s + [Digit(d)]) == 10 * ParseDecimal(s) + d
  {
    DigitReadsBack(d);
    assert (s + [Digit(d)])[..|s|] == s;
  }

  lemma DigitReadsBack(d: nat)
    requires d < 10
    ensures '0' <= Digit(d) <= '9' && DigitValue(Digit(d)) == d
  {
  }

  lemma {:induction false} DecimalReadsBack(n: nat)
    ensures Digits(Decimal(n)) && ParseDecimal(Decimal(n)) == n
  {
    hide Digit, DigitValue;
    if n < 10 {
      DigitReadsBack(n);
    } else {
      DecimalReadsBack(n / 10);
      ParseSnoc(Decimal(n / 10), n % 10);
    }
  }

  function ReadSize(text: string): Option<Size> {
    if text != [] && Digits(text[..|text| - 1]) && Last(text) in {'G', 'T'} then
      Some(Size(ParseDecimal(text[..|text| - 1]), Last(text) == 'T'))
    else None
  }

  /** A label names its size: the size reads back from it. */
  lemma {:induction false} LabelNamesSize(v: int)
    requires 0 <= v <= ROUNDABLE
    ensures ReadSize(SizeLabel(RoundQuantity(v))) == Some(RoundQuantity(v))
  {
    RoundingIsClose(v);
    var s := RoundQuantity(v);
    DecimalReadsBack(s.count);
    var text := SizeLabel(s);
    assert text[..|text| - 1] == Decimal(s.count);
  }

  // ---------- The system disk ----------

  /** systemDisk: the first md array among the system disks, else the first system disk. */
  method PickSystemDisk(disks: seq<Disk>) returns (best: Option<Disk>)
    ensures best == SystemDisk(disks)
    ensures best.None? <==> forall d :: d in disks ==> !d.systemDisk
    ensures best.Some? ==> exists i: nat :: Preferred(HostSystems(disks), HostMds(disks), i) && best.value == disks[i]
  {
    SystemDiskIs(disks);
    var fallback: Option<Disk> := None;
    var i := 0;
    while i < |disks|
      invariant 0 <= i <= |disks|
      invariant SystemDisk(disks) == Preferring(fallback, disks[i..])
    {
      var d := disks[i];
      assert disks[i..][0] == d && disks[i..][1..] == disks[i + 1..];
      if d.systemDisk {
        if IsRaidDevice(d.name) {
          return Some(d);
        }
        if fallback.None? {
          fallback := Some(d);
        }
      }
      i := i + 1;
    }
    return fallback;
  }

  /** What the rest of the scan picks when fallback is the first system disk so far. */
  function Preferring(fallback: Option<Disk>, rest: seq<Disk>): Option<Disk> {
    var raid := FirstSystemDisk(rest, true);
    if raid.Some? then raid
    else if fallback.Some? then fallback
    else FirstSystemDisk(rest, false)
  }

  function FirstInstallDisk(disks: seq<TalosDisk>, raid: bool): Option<string> {
    if disks == [] then None
    else if disks[0].systemDisk && (raid ==> IsRaidDevice(DevicePath(disks[0].deviceName))) then
      Some(DevicePath(disks[0].deviceName))
    else FirstInstallDisk(disks[1..], raid)
  }

  function InstallDisk(disks: seq<TalosDisk>): Option<string> {
    var raid := FirstInstallDisk(disks, true);
    if raid.Some? then raid else FirstInstallDisk(disks, false)
  }

  function PreferringName(fallback: string, rest: seq<TalosDisk>): Option<string> {
    var raid := FirstInstallDisk(rest, true);
    if raid.Some? then raid
    else if fallback != "" then Some(fallback)
    else FirstInstallDisk(rest, false)
  }

  /** selectSystemDisk: the name to install on. */
  method SelectSystemDisk(disks: seq<TalosDisk>) returns (name: Option<string>)
    ensures name == InstallDisk(disks)
    ensures name.None? <==> forall d :: d in disks ==> !d.systemDisk
    ensures name.Some? ==> exists i: nat :: Preferred(Systems(disks), MdPaths(disks), i) && name.value == InstallPath(disks[i])
  {
    InstallDiskIs(disks);
    var fallback := "";
    var i := 0;
    while i < |disks|
      invariant 0 <= i <= |disks|
      invariant InstallDisk(disks) == PreferringName(fallback, disks[i..])
    {
      var d := disks[i];
      assert disks[i..][0] == d && disks[i..][1..] == disks[i + 1..];
      if d.systemDisk {
        var path := if DEV <= d.deviceName then d.deviceName else DEV + d.deviceName;
        if IsRaidDevice(path) {
          return Some(path);
        }
        if fallback == "" {
          fallback := path;
        }
      }
      i := i + 1;
    }
    return if fallback != "" then Some(fallback) else None;
  }

  /** i is the first system disk that is an md array or, without any, the first system disk. */
  predicate Preferred(system: seq<bool>, md: seq<bool>, i: nat)
    requires |system| == |md|
  {
    && i < |system| && system[i]
    && (if md[i] then forall j: nat :: j < i ==> !(system[j] && md[j])
        else (forall j: nat :: j < |system| ==> !(system[j] && md[j])) && forall j: nat :: j < i ==> !system[j])
  }

  /** A device name as a path: under /dev, unless it is there already. */
  function InstallPath(d: TalosDisk): string {
    if "/dev/" <= d.deviceName then d.deviceName else "/dev/" + d.deviceName
  }

  function Systems(disks: seq<TalosDisk>): (r: seq<bool>)
    ensures |r| == |disks| && forall i :: 0 <= i < |r| ==> r[i] == disks[i].systemDisk
  {
    seq(|disks|, i requires 0 <= i < |disks| => disks[i].systemDisk)
  }

  function MdPaths(disks: seq<TalosDisk>): (r: seq<bool>)
    ensures |r| == |disks| && forall i :: 0 <= i < |r| ==> r[i] == ("/dev/md" <= InstallPath(disks[i]))
  {
    seq(|disks|, i requires 0 <= i < |disks| => "/dev/md" <= InstallPath(disks[i]))
  }

  /** What the installer is told, read off the disks: the path of the first system disk whose
      path begins with /dev/md or, without any, that of the first system disk. */
  lemma {:induction false} InstallDiskIs(disks: seq<TalosDisk>)
    ensures InstallDisk(disks).None? <==> forall d :: d in disks ==> !d.systemDisk
    ensures InstallDisk(disks).Some? ==>
              exists i: nat :: Preferred(Systems(disks), MdPaths(disks), i) && InstallDisk(disks).value == InstallPath(disks[i])
  {
    hide InstallPath;
    FirstInstallIs(disks, true);
    FirstInstallIs(disks, false);
    if InstallDisk(disks).Some? {
      var raid := FirstInstallDisk(disks, true).Some?;
      var i: nat :| InstallsFirst(disks, raid, i) && FirstInstallDisk(disks, raid).value == InstallPath(disks[i]);
      assert Preferred(Systems(disks), MdPaths(disks), i);
    }
  }

  predicate InstallsFirst(disks: seq<TalosDisk>, raid: bool, i: nat) {
    && i < |disks| && disks[i].systemDisk && (raid ==> "/dev/md" <= InstallPath(disks[i]))
    && forall j: nat :: j < i ==> !(disks[j].systemDisk && (raid ==> "/dev/md" <= InstallPath(disks[j])))
  }

  lemma MdPath(d: TalosDisk)
    ensures DevicePath(d.deviceName) == InstallPath(d)
    ensures IsRaidDevice(InstallPath(d)) <==> "/dev/md" <= InstallPath(d)
  {
    assert "md"[0] == 'm' && "/dev/"[0] == '/';
    assert InstallPath(d)[..5] == "/dev/";
    assert InstallPath(d)[0] == '/';
  }

  lemma {:induction false} FirstInstallIs(disks: seq<TalosDisk>, raid: bool)
    ensures var name := FirstInstallDisk(disks, raid);
            && (name.None? <==> forall d :: d in disks ==> !(d.systemDisk && (raid ==> "/dev/md" <= InstallPath(d))))
            && (name.Some? ==> exists i: nat :: InstallsFirst(disks, raid, i) && name.value == InstallPath(disks[i]))
  {
    hide InstallPath, IsRaidDevice, DevicePath;
    if disks != [] {
      MdPath(disks[0]);
      var rest := disks[1..];
      FirstInstallIs(rest, raid);
      assert disks == [disks[0]] + rest;
      if disks[0].systemDisk && (raid ==> "/dev/md" <= InstallPath(disks[0])) {
        assert InstallsFirst(disks, raid, 0);
      } else if FirstInstallDisk(rest, raid).Some? {
        var i: nat :| InstallsFirst(rest, raid, i) && FirstInstallDisk(rest, raid).value == InstallPath(rest[i]);
        assert InstallsFirst(disks, raid, i + 1);
      }
    }
  }

  function HostSystems(disks: seq<Disk>): (r: seq<bool>)
    ensures |r| == |disks| && forall i :: 0 <= i < |r| ==> r[i] == disks[i].systemDisk
  {
    seq(|disks|, i requires 0 <= i < |disks| => disks[i].systemDisk)
  }

  predicate Md(name: string) {
    "/dev/md" <= name || "md" <= name
  }

  function HostMds(disks: seq<Disk>): (r: seq<bool>)
    ensures |r| == |disks| && forall i :: 0 <= i < |r| ==> r[i] == Md(disks[i].name)
  {
    seq(|disks|, i requires 0 <= i < |disks| => Md(disks[i].name))
  }

  predicate PicksFirst(disks: seq<Disk>, raid: bool, i: nat) {
    && i < |disks| && disks[i].systemDisk && (raid ==> Md(disks[i].name))
    && forall j: nat :: j < i ==> !(disks[j].systemDisk && (raid ==> Md(disks[j].name)))
  }

  lemma {:induction false} FirstPickedIs(disks: seq<Disk>, raid: bool)
    ensures var first := FirstSystemDisk(disks, raid);
            && (first.None? <==> forall d :: d in disks ==> !(d.systemDisk && (raid ==> Md(d.name))))
            && (first.Some? ==> exists i: nat :: PicksFirst(disks, raid, i) && first.value == disks[i])
  {
    if disks != [] {
      var rest := disks[1..];
      FirstPickedIs(rest, raid);
      assert disks == [disks[0]] + rest;
      if disks[0].systemDisk && (raid ==> Md(disks[0].name)) {
        assert PicksFirst(disks, raid, 0);
      } else if FirstSystemDisk(rest, raid).Some? {
        var i: nat :| PicksFirst(rest, raid, i) && FirstSystemDisk(rest, raid).value == rest[i];
        assert PicksFirst(disks, raid, i + 1);
      }
    }
  }

  /** What is advertised, read off the host's disks: the first system disk whose name begins with
      /dev/md or md or, without any, the first system disk. */
  lemma {:induction false} SystemDiskIs(disks: seq<Disk>)
    ensures SystemDisk(disks).None? <==> forall d :: d in disks ==> !d.systemDisk
    ensures SystemDisk(disks).Some? ==>
              exists i: nat :: Preferred(HostSystems(disks), HostMds(disks), i) && SystemDisk(disks).value == disks[i]
  {
    hide Md;
    FirstPickedIs(disks, true);
    FirstPickedIs(disks, false);
    if SystemDisk(disks).Some? {
      var raid := FirstSystemDisk(disks, true).Some?;
      var i: nat :| PicksFirst(disks, raid, i) && FirstSystemDisk(disks, raid).value == disks[i];
      assert Preferred(HostSystems(disks), HostMds(disks), i);
    }
  }

  /** The host's disks are those of the storage API in their order, each under its path or, without
      a device name, under its name. */
  lemma {:induction false} HostDisksAre(disks: seq<TalosDisk>, i: nat)
    requires i < |disks|
    ensures |ToHostDisks(disks)| == |disks|
    ensures var d := disks[i];
            ToHostDisks(disks)[i] == Disk(if d.deviceName == "" then d.name else InstallPath(d), d.size, d.kind, d.systemDisk)
  {
    MdPath(disks[i]);
  }

  /** The disk that systemDisk picks, as the storage API lists it. */
  function AdvertisedFirst(disks: seq<TalosDisk>, raid: bool): (d: Option<TalosDisk>)
    ensures d.Some? ==> d.value in disks && d.value.systemDisk && (raid ==> IsRaidDevice(DiskDeviceName(d.value)))
    ensures d.None? ==> forall x :: x in disks && x.systemDisk ==> raid && !IsRaidDevice(DiskDeviceName(x))
  {
    if disks == [] then None
    else if disks[0].systemDisk && (raid ==> IsRaidDevice(DiskDeviceName(disks[0]))) then Some(disks[0])
    else AdvertisedFirst(disks[1..], raid)
  }

  function Advertised(disks: seq<TalosDisk>): Option<TalosDisk> {
    var raid := AdvertisedFirst(disks, true);
    if raid.Some? then raid else AdvertisedFirst(disks, false)
  }

  lemma {:induction false} AdvertisedIsPicked(disks: seq<TalosDisk>, raid: bool)
    ensures var d := AdvertisedFirst(disks, raid);
            FirstSystemDisk(ToHostDisks(disks), raid) == if d.Some? then Some(ToHostDisk(d.value)) else None
  {
    if disks != [] {
      assert ToHostDisks(disks)[1..] == ToHostDisks(disks[1..]);
      AdvertisedIsPicked(disks[1..], raid);
    }
  }

  /** A disk without a device name is never an md array to the installer. */
  lemma NamelessIsNoRaid()
    ensures !IsRaidDevice(DevicePath(""))
  {
    assert !(DEV <= "");
    assert DevicePath("") == "/dev/";
    assert "md"[0] == 'm' && "/dev/"[0] == '/';
  }

  /** The md disk the installer finds is the advertised one, if that has a device name. */
  lemma {:induction false} SameRaid(disks: seq<TalosDisk>)
    ensures var d := AdvertisedFirst(disks, true);
            && (d.Some? && d.value.deviceName != "" ==> FirstInstallDisk(disks, true) == Some(DiskDeviceName(d.value)))
            && (d.None? ==> FirstInstallDisk(disks, true).None?)
  {
    hide IsRaidDevice, DevicePath;
    if disks != [] {
      NamelessIsNoRaid();
      SameRaid(disks[1..]);
    }
  }

  lemma {:induction false} SameFirst(disks: seq<TalosDisk>)
    ensures var d := AdvertisedFirst(disks, false);
            FirstInstallDisk(disks, false) == if d.Some? then Some(DevicePath(d.value.deviceName)) else None
  {
    if disks != [] {
      SameFirst(disks[1..]);
    }
  }

  /** The installer only ever names paths under /dev. */
  lemma {:induction false} InstallsOnDevices(disks: seq<TalosDisk>, raid: bool)
    ensures var name := FirstInstallDisk(disks, raid); name.Some? ==> DEV <= name.value
  {
    if disks != [] {
      InstallsOnDevices(disks[1..], raid);
    }
  }

  /** The advertised system disk is the one the installer is told to use if it has a device
      name, whatever the other disks lack. The converse needs that a system disk without a
      device name does not happen to be named like a path under /dev. */
  lemma {:induction false} AdvertisedDiskIsInstalled(disks: seq<TalosDisk>)
    ensures var advertised, disk := SystemDisk(ToHostDisks(disks)), Advertised(disks);
            var agree := InstallDisk(disks) == if advertised.Some? then Some(advertised.value.name) else None;
            && (disk.None? || disk.value.deviceName != "" ==> agree)
            && ((forall d :: d in disks && d.systemDisk && d.deviceName == "" ==> !(DEV <= d.name)) ==>
                  (agree <==> disk.None? || disk.value.deviceName != ""))
  {
    hide IsRaidDevice, DevicePath, FirstInstallDisk, FirstSystemDisk;
    AdvertisedIsPicked(disks, true);
    AdvertisedIsPicked(disks, false);
    SameRaid(disks);
    SameFirst(disks);
    InstallsOnDevices(disks, true);
    InstallsOnDevices(disks, false);
  }

  /** Such a disk: advertised under its name, installed on as the empty path. */
  lemma {:induction false} NamelessDiskParts()
    ensures var disks := [TalosDisk("", "md0", 1, "SSD", true)];
            InstallDisk(disks) == Some("/dev/") && SystemDisk(ToHostDisks(disks)) == Some(Disk("md0", 1, "SSD", true))
  {
    var d := TalosDisk("", "md0", 1, "SSD", true);
    assert !(DEV <= "");
    assert DevicePath("") == DEV + "" == "/dev/";
    assert !IsRaidDevice("/dev/") by { assert "/dev/"[0] == '/' && "md"[0] == 'm'; }
    assert FirstInstallDisk([d][1..], true) == None;
    assert IsRaidDevice("md0") by { assert "md0"[..2] == "md"; }
    assert ToHostDisks([d]) == [Disk("md0", 1, "SSD", true)];
  }

  // ---------- Labels ----------

  predicate Ours(key: string) {
    PREFIX <= key
  }

  lemma KeysAreOurs()
    ensures Ours(AVAILABLE) && Ours(CPU_CORES) && Ours(CPU_ARCH) && Ours(MEMORY) && Ours(DISK_TYPE) && Ours(DISK_SIZE)
    ensures Ours(GPU_COUNT) && Ours(GPU_VENDOR) && Ours(GPU_MODEL) && Ours(PLATFORM) && Ours(TALOS_VERSION) && Ours(FAILURE_DOMAIN)
  {
    assert AVAILABLE[..8] == PREFIX && CPU_CORES[..8] == PREFIX && CPU_ARCH[..8] == PREFIX && MEMORY[..8] == PREFIX;
    assert DISK_TYPE[..8] == PREFIX && DISK_SIZE[..8] == PREFIX && PLATFORM[..8] == PREFIX;
    assert GPU_COUNT[..8] == PREFIX && GPU_VENDOR[..8] == PREFIX && GPU_MODEL[..8] == PREFIX;
    assert TALOS_VERSION[..8] == PREFIX && FAILURE_DOMAIN[..8] == PREFIX;
  }

  predicate AllOurs(labels: map<string, string>) {
    forall key :: key in labels ==> Ours(key)
  }

  lemma DiskIsOurs(d: Disk)
    ensures AllOurs(DiskLabels(d))
  {
    hide Ours, DISK_TYPE, DISK_SIZE, SizeLabel, RoundQuantity, DiskTypeLabel;
    KeysAreOurs();
  }

  lemma GpusAreOurs(g: Gpus)
    ensures AllOurs(GpuLabels(g))
  {
    hide Ours, GPU_COUNT, GPU_VENDOR, GPU_MODEL, Decimal;
    KeysAreOurs();
  }

  lemma HardwareIsOurs(hw: Hardware)
    ensures AllOurs(HardwareLabels(hw))
  {
    hide Ours, CPU_CORES, MEMORY, DiskLabels, GpuLabels, Decimal, SizeLabel, RoundQuantity, SystemDisk;
    KeysAreOurs();
    if SystemDisk(hw.disks).Some? {
      DiskIsOurs(SystemDisk(hw.disks).value);
    }
    if hw.gpus.Some? {
      GpusAreOurs(hw.gpus.value);
    }
  }

  lemma FeaturesAreOurs(h: HostRec)
    ensures AllOurs(FeatureLabels(h))
  {
    hide Ours, CPU_ARCH, PLATFORM, TALOS_VERSION, FAILURE_DOMAIN, HardwareLabels;
    KeysAreOurs();
    if h.hardware.Some? {
      HardwareIsOurs(h.hardware.value);
    }
  }

  /** Every label the controller writes carries its prefix. */
  lemma {:induction false} ControllerLabelsAreOurs(h: HostRec)
    ensures AllOurs(ControllerLabels(h))
  {
    hide Ours, AVAILABLE, FeatureLabels;
    KeysAreOurs();
    FeaturesAreOurs(h);
  }

  predicate SameAt(a: map<string, string>, b: map<string, string>, key: string) {
    (key in a <==> key in b) && (key in a ==> a[key] == b[key])
  }

  /** Syncing the labels keeps every operator label, leaves of the controller's own exactly
      the current ones, and changes nothing when done again. */
  lemma {:induction false} SyncingLabels(h: HostRec)
    ensures var labels := DiscoveryLabels(h);
            && (forall key :: SameAt(labels, if Ours(key) then ControllerLabels(h) else h.labels, key))
            && DiscoveryLabels(h.(labels := labels)) == labels
  {
    hide PREFIX, FeatureLabels, AVAILABLE;
    ControllerLabelsAreOurs(h);
    var labels := DiscoveryLabels(h);
    SameController(h, labels);
    assert OperatorLabels(labels) == OperatorLabels(h.labels);
  }

  lemma SameController(h: HostRec, labels: map<string, string>)
    ensures ControllerLabels(h.(labels := labels)) == ControllerLabels(h)
  {
    hide AVAILABLE, CPU_ARCH, PLATFORM, TALOS_VERSION, FAILURE_DOMAIN, HardwareLabels, LabelUnless;
  }

  // ---------- What each label says ----------

  function When(due: bool, value: string): Option<string> {
    if due then Some(value) else None
  }

  lemma AllDistinct()
    ensures AVAILABLE !in {CPU_CORES, CPU_ARCH, MEMORY, DISK_TYPE, DISK_SIZE, GPU_COUNT, GPU_VENDOR, GPU_MODEL}
    ensures AVAILABLE !in {PLATFORM, TALOS_VERSION, FAILURE_DOMAIN}
    ensures CPU_ARCH !in {CPU_CORES, MEMORY, DISK_TYPE, DISK_SIZE, GPU_COUNT, GPU_VENDOR, GPU_MODEL}
    ensures CPU_ARCH !in {PLATFORM, TALOS_VERSION, FAILURE_DOMAIN}
    ensures TALOS_VERSION !in {CPU_CORES, MEMORY, DISK_TYPE, DISK_SIZE, GPU_COUNT, GPU_VENDOR, GPU_MODEL}
    ensures TALOS_VERSION !in {PLATFORM, FAILURE_DOMAIN}
    ensures PLATFORM !in {CPU_CORES, MEMORY, DISK_TYPE, DISK_SIZE, GPU_COUNT, GPU_VENDOR, GPU_MODEL, FAILURE_DOMAIN}
    ensures FAILURE_DOMAIN !in {CPU_CORES, MEMORY, DISK_TYPE, DISK_SIZE, GPU_COUNT, GPU_VENDOR, GPU_MODEL}
    ensures CPU_CORES !in {MEMORY, DISK_TYPE, DISK_SIZE, GPU_COUNT, GPU_VENDOR, GPU_MODEL}
    ensures MEMORY !in {DISK_TYPE, DISK_SIZE, GPU_COUNT, GPU_VENDOR, GPU_MODEL}
    ensures DISK_TYPE !in {DISK_SIZE, GPU_COUNT, GPU_VENDOR, GPU_MODEL}
    ensures DISK_SIZE !in {GPU_COUNT, GPU_VENDOR, GPU_MODEL}
    ensures GPU_COUNT !in {GPU_VENDOR, GPU_MODEL} && GPU_VENDOR != GPU_MODEL
  {
    assert AVAILABLE[8] == 'a' && MEMORY[8] == 'm' && PLATFORM[8] == 'p' && TALOS_VERSION[8] == 't' && FAILURE_DOMAIN[8] == 'f';
    assert CPU_CORES[8] == 'c' && CPU_ARCH[8] == 'c' && CPU_CORES[12] == 'c' && CPU_ARCH[12] == 'a';
    assert DISK_TYPE[8] == 'd' && DISK_SIZE[8] == 'd' && DISK_TYPE[13] == 't' && DISK_SIZE[13] == 's';
    assert GPU_COUNT[8] == 'g' && GPU_VENDOR[8] == 'g' && GPU_MODEL[8] == 'g';
    assert GPU_COUNT[12] == 'c' && GPU_VENDOR[12] == 'v' && GPU_MODEL[12] == 'm';
  }

  lemma Merged(a: map<string, string>, b: map<string, string>, key: string)
    ensures Entry(a + b, key) == if Entry(b, key).Some? then Entry(b, key) else Entry(a, key)
  {
  }

  lemma Alone(absent: bool, name: string, value: string, key: string)
    ensures Entry(LabelUnless(absent, name, value), key) == When(key == name && !absent, value)
  {
  }

  lemma Nothing(key: string)
    ensures Entry(map[], key) == None
  {
  }

  function DiskLabel(d: Disk, key: string): Option<string> {
    if key == DISK_TYPE then When(DiskTypeLabel(d.kind) != "", DiskTypeLabel(d.kind))
    else if key == DISK_SIZE then When(d.size != 0, SizeLabel(RoundQuantity(d.size)))
    else None
  }

  lemma DiskSays(d: Disk, key: string)
    ensures Entry(DiskLabels(d), key) == DiskLabel(d, key)
  {
    hide Entry, LabelUnless, DISK_TYPE, DISK_SIZE, DiskTypeLabel, SizeLabel, RoundQuantity;
    AllDistinct();
    var kind, size := LabelUnless(DiskTypeLabel(d.kind) == "", DISK_TYPE, DiskTypeLabel(d.kind)),
                      LabelUnless(d.size == 0, DISK_SIZE, SizeLabel(RoundQuantity(d.size)));
    Alone(DiskTypeLabel(d.kind) == "", DISK_TYPE, DiskTypeLabel(d.kind), key);
    Alone(d.size == 0, DISK_SIZE, SizeLabel(RoundQuantity(d.size)), key);
    Merged(kind, size, key);
  }

  function GpuLabel(g: Gpus, key: string): Option<string> {
    if key == GPU_COUNT then When(g.count > 0, Decimal(g.count))
    else if key == GPU_VENDOR then When(g.vendor != "", g.vendor)
    else if key == GPU_MODEL then When(g.model != "", g.model)
    else None
  }

  lemma GpusSay(g: Gpus, key: string)
    ensures Entry(GpuLabels(g), key) == GpuLabel(g, key)
  {
    hide Entry, LabelUnless, GPU_COUNT, GPU_VENDOR, GPU_MODEL, Decimal;
    AllDistinct();
    var count, vendor := LabelUnless(g.count <= 0, GPU_COUNT, Decimal(g.count)), LabelUnless(g.vendor == "", GPU_VENDOR, g.vendor);
    Alone(g.count <= 0, GPU_COUNT, Decimal(g.count), key);
    Alone(g.vendor == "", GPU_VENDOR, g.vendor, key);
    Alone(g.model == "", GPU_MODEL, g.model, key);
    Merged(count, vendor, key);
    Merged(count + vendor, LabelUnless(g.model == "", GPU_MODEL, g.model), key);
  }

  function HardwareLabel(hw: Hardware, key: string): Option<string> {
    if key == CPU_CORES then When(hw.cores > 0, Decimal(hw.cores))
    else if key == MEMORY then When(hw.memory != 0, SizeLabel(RoundQuantity(hw.memory)))
    else if key in {DISK_TYPE, DISK_SIZE} then
      (match SystemDisk(hw.disks) case None => None case Some(d) => DiskLabel(d, key))
    else (match hw.gpus case None => None case Some(g) => GpuLabel(g, key))
  }

  lemma HardwareSays(hw: Hardware, key: string)
    ensures Entry(HardwareLabels(hw), key) == HardwareLabel(hw, key)
  {
    hide Entry, LabelUnless, CPU_CORES, MEMORY, DISK_TYPE, DISK_SIZE, GPU_COUNT, GPU_VENDOR, GPU_MODEL, SystemDisk, DiskTypeLabel,
      SizeLabel, RoundQuantity, Decimal, DiskLabels, GpuLabels;
    AllDistinct();
    var cores, memory := LabelUnless(hw.cores <= 0, CPU_CORES, Decimal(hw.cores)),
                         LabelUnless(hw.memory == 0, MEMORY, SizeLabel(RoundQuantity(hw.memory)));
    Alone(hw.cores <= 0, CPU_CORES, Decimal(hw.cores), key);
    Alone(hw.memory == 0, MEMORY, SizeLabel(RoundQuantity(hw.memory)), key);
    Nothing(key);
    if SystemDisk(hw.disks).Some? {
      DiskSays(SystemDisk(hw.disks).value, key);
    }
    if hw.gpus.Some? {
      GpusSay(hw.gpus.value, key);
    }
    var disk := match SystemDisk(hw.disks) case None => map[] case Some(d) => DiskLabels(d);
    var gpus := match hw.gpus case None => map[] case Some(g) => GpuLabels(g);
    Merged(cores, memory, key);
    Merged(cores + memory, disk, key);
    Merged(cores + memory + disk, gpus, key);
  }

  /** The value that stands under each of our keys, if it is due. */
  function LabelOf(h: HostRec, key: string): Option<string> {
    if key == AVAILABLE then When(h.phase == Available, "true")
    else if key == CPU_ARCH then When(h.arch != "", h.arch)
    else if key == TALOS_VERSION then When(h.talosVersion != "", h.talosVersion)
    else if key == PLATFORM then When(h.platform != "", h.platform)
    else if key == FAILURE_DOMAIN then When(h.failureDomain != "", h.failureDomain)
    else (match h.hardware case None => None case Some(hw) => HardwareLabel(hw, key))
  }

  lemma FeaturesSay(h: HostRec, key: string)
    requires key != AVAILABLE
    ensures Entry(FeatureLabels(h), key) == LabelOf(h, key)
  {
    hide Entry, LabelUnless, AVAILABLE, CPU_ARCH, TALOS_VERSION, PLATFORM, FAILURE_DOMAIN, CPU_CORES, MEMORY, DISK_TYPE,
      DISK_SIZE, GPU_COUNT, GPU_VENDOR, GPU_MODEL, HardwareLabels, SystemDisk, Decimal, SizeLabel, RoundQuantity, DiskTypeLabel;
    AllDistinct();
    var arch, version := LabelUnless(h.arch == "", CPU_ARCH, h.arch), LabelUnless(h.talosVersion == "", TALOS_VERSION, h.talosVersion);
    var platform := LabelUnless(h.platform == "", PLATFORM, h.platform);
    var hw := match h.hardware case None => map[] case Some(hw) => HardwareLabels(hw);
    Alone(h.arch == "", CPU_ARCH, h.arch, key);
    Alone(h.talosVersion == "", TALOS_VERSION, h.talosVersion, key);
    Alone(h.platform == "", PLATFORM, h.platform, key);
    Alone(h.failureDomain == "", FAILURE_DOMAIN, h.failureDomain, key);
    Nothing(key);
    if h.hardware.Some? {
      HardwareSays(h.hardware.value, key);
    }
    Merged(arch, version, key);
    Merged(arch + version, platform, key);
    Merged(arch + version + platform, hw, key);
    Merged(arch + version + platform + hw, LabelUnless(h.failureDomain == "", FAILURE_DOMAIN, h.failureDomain), key);
  }

  /** What stands under every key once the labels are synced: under ours what the current status
      and spec say, under any other what the operator put there. */
  lemma {:induction false} LabelsSay(h: HostRec, key: string)
    ensures Entry(DiscoveryLabels(h), key) == if Ours(key) then LabelOf(h, key) else Entry(h.labels, key)
  {
    hide LabelUnless, AVAILABLE, FeatureLabels, Ours, LabelOf;
    KeysAreOurs();
    ControllerLabelsAreOurs(h);
    Merged(OperatorLabels(h.labels), ControllerLabels(h), key);
    Operators(h.labels, key);
    if Ours(key) {
      ControllerSays(h, key);
    }
  }

  lemma Operators(labels: map<string, string>, key: string)
    ensures Entry(OperatorLabels(labels), key) == if Ours(key) then None else Entry(labels, key)
  {
  }

  lemma ControllerSays(h: HostRec, key: string)
    ensures Entry(ControllerLabels(h), key) == LabelOf(h, key)
  {
    hide Entry, LabelUnless, AVAILABLE, CPU_ARCH, TALOS_VERSION, PLATFORM, FAILURE_DOMAIN, FeatureLabels, HardwareLabel;
    Alone(h.phase != Available, AVAILABLE, "true", key);
    Merged(LabelUnless(h.phase != Available, AVAILABLE, "true"), FeatureLabels(h), key);
    if key == AVAILABLE {
      NotAFeature(h);
    } else {
      FeaturesSay(h, key);
    }
  }

  lemma NotAFeature(h: HostRec)
    ensures Entry(FeatureLabels(h), AVAILABLE) == None
  {
    hide AVAILABLE, CPU_ARCH, TALOS_VERSION, PLATFORM, FAILURE_DOMAIN, CPU_CORES, MEMORY, DISK_TYPE, DISK_SIZE, GPU_COUNT,
      GPU_VENDOR, GPU_MODEL, HardwareLabels, SystemDisk, Decimal, SizeLabel, RoundQuantity, DiskTypeLabel;
    AllDistinct();
    if h.hardware.Some? {
      HardwareSays(h.hardware.value, AVAILABLE);
    }
  }

  /** Capacities and counts can be read back from the labels. */
  lemma {:induction false} LabelsReadBack(h: HostRec)
    requires h.hardware.Some?
    ensures var labels, hw := DiscoveryLabels(h), h.hardware.value;
            && (0 < hw.memory <= ROUNDABLE ==>
                  MEMORY in labels && ReadSize(labels[MEMORY]) == Some(RoundQuantity(hw.memory)))
            && (0 < hw.cores ==>
                  CPU_CORES in labels && Digits(labels[CPU_CORES]) && ParseDecimal(labels[CPU_CORES]) == hw.cores)
            && (SystemDisk(hw.disks).Some? && 0 < SystemDisk(hw.disks).value.size <= ROUNDABLE ==>
                  DISK_SIZE in labels && ReadSize(labels[DISK_SIZE]) == Some(RoundQuantity(SystemDisk(hw.disks).value.size)))
  {
    hide DiscoveryLabels, SystemDisk, MEMORY, DISK_SIZE, CPU_CORES, RoundQuantity, SizeLabel, Decimal, AVAILABLE, CPU_ARCH,
      TALOS_VERSION, PLATFORM, FAILURE_DOMAIN, DISK_TYPE, ReadSize, Ours, Digits, ParseDecimal;
    AllDistinct();
    KeysAreOurs();
    var hw := h.hardware.value;
    LabelsSay(h, MEMORY);
    LabelsSay(h, CPU_CORES);
    LabelsSay(h, DISK_SIZE);
    if 0 < hw.memory <= ROUNDABLE {
      LabelNamesSize(hw.memory);
    }
    if SystemDisk(hw.disks).Some? && 0 < SystemDisk(hw.disks).value.size <= ROUNDABLE {
      LabelNamesSize(SystemDisk(hw.disks).value.size);
    }
    if 0 < hw.cores {
      DecimalReadsBack(hw.cores);
    }
  }

  /** The same letters, but for the case of those in kind. */
  predicate SameLetters(kind: string, name: string) {
    |kind| == |name| && forall i :: 0 <= i < |kind| ==>
      kind[i] == name[i] || ('A' <= kind[i] <= 'Z' && kind[i] as int + 32 == name[i] as int)
  }

  /** The disk types that get a label, in whatever case they are given. */
  lemma {:induction false} KindIsLowered(kind: string)
    ensures forall name :: name in {"nvme", "ssd", "hdd", "sd"} ==> (DiskTypeLabel(kind) == name <==> SameLetters(kind, name))
    ensures DiskTypeLabel(kind) in {"", "nvme", "ssd", "hdd", "sd"}
  {
    var lower := seq(|kind|, i requires 0 <= i < |kind| => LowerChar(kind[i]));
    forall name | name in {"nvme", "ssd", "hdd", "sd"}
      ensures lower == name <==> SameLetters(kind, name)
    {
      SameLowered(kind, lower, name);
    }
  }

  lemma SameLowered(kind: string, lower: string, name: string)
    requires |lower| == |kind| && forall i :: 0 <= i < |kind| ==> lower[i] == LowerChar(kind[i])
    requires forall i :: 0 <= i < |name| ==> !('A' <= name[i] <= 'Z')
    ensures lower == name <==> SameLetters(kind, name)
  {
    forall i | 0 <= i < |kind|
      ensures lower[i] == kind[i] || ('A' <= kind[i] <= 'Z' && kind[i] as int + 32 == lower[i] as int)
      ensures 'A' <= kind[i] <= 'Z' ==> kind[i] as int + 32 == lower[i] as int
    {
    }
  }
}
