/** What discovery advertises about a host: rounded capacities, the system disk,
    and the controller-managed labels. */
module Discovery {
  import opened Common
  import opened Records

  const GIB: int := 0x4000_0000
  const TIB: int := 0x100_0000_0000
  const MAX_INT64: int := 0x7fff_ffff_ffff_ffff

  /** Two's complement wrap-around of a 64-bit sum. */
  function Wrap64(x: int): int {
    (x + MAX_INT64 + 1) % (2 * (MAX_INT64 + 1)) - (MAX_INT64 + 1)
  }

  /** Division truncated toward zero. */
  function Quotient(x: int, d: int): int
    requires d > 0
  {
    if x >= 0 then x / d else -((-x) / d)
  }

  /** A rounded capacity: a count of GiB, or of TiB. */
  datatype Size = Size(count: int, tera: bool) {
    function Bytes(): int {
      count * (if tera then TIB else GIB)
    }
  }

  function RoundQuantity(value: int): Size {
    var gibCount := Quotient(Wrap64(value + GIB / 2), GIB);
    if gibCount >= TIB / GIB then
      Size(Quotient(Wrap64(gibCount + TIB / GIB / 2), TIB / GIB), true)
    else
      Size(gibCount, false)
  }

  function Digit(d: nat): char
    requires d < 10
  {
    ['0', '1', '2', '3', '4', '5', '6', '7', '8', '9'][d]
  }

  function Decimal(n: int): string
    decreases n < 0, if n < 0 then -n else n
  {
    if n < 0 then "-" + Decimal(-n)
    else if n < 10 then [Digit(n)]
    else Decimal(n / 10) + [Digit(n % 10)]
  }

  function SizeLabel(s: Size): string {
    Decimal(s.count) + (if s.tera then "T" else "G")
  }

  /** A disk as the Talos storage API lists it. */
  datatype TalosDisk = TalosDisk(deviceName: string, name: string, size: int, kind: string, systemDisk: bool)

  const DEV := "/dev/"

  function DevicePath(deviceName: string): string {
    if DEV <= deviceName then deviceName else DEV + deviceName
  }

  function DiskDeviceName(d: TalosDisk): string {
    if d.deviceName != "" then DevicePath(d.deviceName) else d.name
  }

  function ToHostDisk(d: TalosDisk): Disk {
    Disk(DiskDeviceName(d), d.size, d.kind, d.systemDisk)
  }

  function ToHostDisks(disks: seq<TalosDisk>): (r: seq<Disk>)
    ensures |r| == |disks| && forall i :: 0 <= i < |r| ==> r[i] == ToHostDisk(disks[i])
  {
    seq(|disks|, i requires 0 <= i < |disks| => ToHostDisk(disks[i]))
  }

  predicate IsRaidDevice(name: string) {
    "/dev/md" <= name || "md" <= name
  }

  /** The first system disk, or the first that is also an md array. */
  function FirstSystemDisk(disks: seq<Disk>, raid: bool): Option<Disk> {
    if disks == [] then None
    else if disks[0].systemDisk && (raid ==> IsRaidDevice(disks[0].name)) then Some(disks[0])
    else FirstSystemDisk(disks[1..], raid)
  }

  function SystemDisk(disks: seq<Disk>): Option<Disk> {
    var raid := FirstSystemDisk(disks, true);
    if raid.Some? then raid else FirstSystemDisk(disks, false)
  }

  function LowerChar(c: char): char {
    if 'A' <= c <= 'Z' then c - 'A' + 'a' else c
  }

  function DiskTypeLabel(kind: string): string {
    var lower := seq(|kind|, i requires 0 <= i < |kind| => LowerChar(kind[i]));
    if lower in {"nvme", "ssd", "hdd", "sd"} then lower else ""
  }

  const PREFIX := "byot.io/"
  const AVAILABLE := "byot.io/available"
  const CPU_CORES := "byot.io/cpu-cores"
  const CPU_ARCH := "byot.io/cpu-arch"
  const MEMORY := "byot.io/memory"
  const DISK_TYPE := "byot.io/disk-type"
  const DISK_SIZE := "byot.io/disk-size"
  const GPU_COUNT := "byot.io/gpu-count"
  const GPU_VENDOR := "byot.io/gpu-vendor"
  const GPU_MODEL := "byot.io/gpu-model"
  const PLATFORM := "byot.io/platform"
  const TALOS_VERSION := "byot.io/talos-version"
  const FAILURE_DOMAIN := "byot.io/failure-domain"

  function OperatorLabels(labels: map<string, string>): map<string, string> {
    map key | key in labels && !(PREFIX <= key) :: labels[key]
  }

  function LabelUnless(absent: bool, key: string, value: string): map<string, string> {
    if absent then map[] else map[key := value]
  }

  function DiskLabels(d: Disk): map<string, string> {
    LabelUnless(DiskTypeLabel(d.kind) == "", DISK_TYPE, DiskTypeLabel(d.kind)) +
    LabelUnless(d.size == 0, DISK_SIZE, SizeLabel(RoundQuantity(d.size)))
  }

  function GpuLabels(g: Gpus): map<string, string> {
    LabelUnless(g.count <= 0, GPU_COUNT, Decimal(g.count)) +
    LabelUnless(g.vendor == "", GPU_VENDOR, g.vendor) +
    LabelUnless(g.model == "", GPU_MODEL, g.model)
  }

  function HardwareLabels(h: Hardware): map<string, string> {
    var disk := SystemDisk(h.disks);
    LabelUnless(h.cores <= 0, CPU_CORES, Decimal(h.cores)) +
    LabelUnless(h.memory == 0, MEMORY, SizeLabel(RoundQuantity(h.memory))) +
    (match disk case None => map[] case Some(d) => DiskLabels(d)) +
    (match h.gpus case None => map[] case Some(g) => GpuLabels(g))
  }

  function FeatureLabels(h: HostRec): map<string, string> {
    LabelUnless(h.arch == "", CPU_ARCH, h.arch) +
    LabelUnless(h.talosVersion == "", TALOS_VERSION, h.talosVersion) +
    LabelUnless(h.platform == "", PLATFORM, h.platform) +
    (match h.hardware case None => map[] case Some(hw) => HardwareLabels(hw)) +
    LabelUnless(h.failureDomain == "", FAILURE_DOMAIN, h.failureDomain)
  }

  function ControllerLabels(h: HostRec): map<string, string> {
    LabelUnless(h.phase != Available, AVAILABLE, "true") + FeatureLabels(h)
  }

  function DiscoveryLabels(h: HostRec): map<string, string> {
    OperatorLabels(h.labels) + ControllerLabels(h)
  }
}
