/**
 * The usage report of one project (lxd/project/state.go): the all-"0"
 * default report, the storage accounting over volumes, instance root disks
 * and images, the instance-kind counts, and the assembly of the report
 * through the limit printers. Allocations is the specification as a
 * function of the inputs; GetCurrentAllocations is the step-by-step
 * computation, proved equal to it.
 */
module ProjectState {
  import opened ProjectTypes
  import opened FailFirst
  import opened DecimalFormat

  type Report = map<string, string>

  /** The seven keys every report carries. */
  const ReportKeys: set<string> :=
    {"disk", "memory", "containers", "virtual-machines", "cpu", "processes", "networks"}

  /** The limits whose totals across the project's instances are requested. */
  const LimitKeys: seq<string> := ["limits.memory", "limits.cpu", "limits.processes"]

  /** The report before anything is computed: every key present, every value "0". */
  function DefaultReport(): (r: Report)
    ensures r.Keys == ReportKeys
    ensures forall k :: k in r ==> r[k] == "0"
  {
    map["disk" := "0", "memory" := "0", "containers" := "0", "virtual-machines" := "0",
        "cpu" := "0", "processes" := "0", "networks" := "0"]
  }

  /** What a call returns: the report (None for a nil map) and the error, if any. */
  datatype Answer = Answer(report: Option<Report>, err: Option<Error>)

  /** An error return after the project was loaded: the untouched default report with the error. */
  function Failed(e: Error): Answer {
    Answer(Some(DefaultReport()), Some(e))
  }

  /** The snapshot with its instances replaced by their profile-expanded form. */
  function ExpandedInfo(info: ProjectInfo, env: Env): ProjectInfo {
    info.(instances := env.expand(info.instances, info.profiles))
  }

  /** A missing key of the totals map reads as 0, as a Go map lookup does. */
  function TotalOf(totals: map<string, int>, key: string): int {
    if key in totals then totals[key] else 0
  }

  /** The size of one volume: its "size" config key, parsed. */
  function VolumeSize(v: Volume, parse: string -> Option<int>): Result<int, Error> {
    if "size" !in v.config then Err(MissingVolumeSize)
    else
      match parse(v.config["size"])
      case None => Err(VolumeSizeInvalid(v.config["size"]))
      case Some(n) => Ok(n)
  }

  function VolumeStep(parse: string -> Option<int>): Volume -> Result<int, Error> {
    v => VolumeSize(v, parse)
  }

  /**
   * The unparsed "size" attribute of an instance's "root" device. A missing
   * root device reads as an empty attribute map, as a nil Go map does.
   */
  function RootSize(inst: Instance, project: string): Result<string, Error> {
    var root := if "root" in inst.devices then inst.devices["root"] else map[];
    if "size" in root then Ok(root["size"]) else Err(MissingRootSize(inst.name, project))
  }

  function RootStep(project: string): Instance -> Result<string, Error> {
    inst => RootSize(inst, project)
  }

  /** One root-disk size string, parsed. */
  function RootDiskBytes(s: string, parse: string -> Option<int>, project: string): Result<int, Error> {
    match parse(s)
    case None => Err(RootSizeInvalid(project, s))
    case Some(n) => Ok(n)
  }

  function RootParseStep(parse: string -> Option<int>, project: string): string -> Result<int, Error> {
    s => RootDiskBytes(s, parse, project)
  }

  /** The kind check of the instance-type switch: only containers and VMs pass. */
  function Classify(inst: Instance): Result<InstanceType, Error> {
    match inst.kind
    case Container => Ok(Container)
    case VM => Ok(VM)
    case OtherType(name) => Err(UnexpectedType(name))
  }

  /** The number of instances of kind k. */
  function CountOfKind(insts: seq<Instance>, k: InstanceType): nat
    decreases |insts|
  {
    if |insts| == 0 then 0
    else CountOfKind(insts[..|insts| - 1], k) + (if insts[|insts| - 1].kind == k then 1 else 0)
  }

  /** The default report with the computed fields written over it; "disk" is appended to its "0". */
  function AssembledReport(p: Printers, totals: map<string, int>, containers: nat, vms: nat, disk: int): Report {
    var r := DefaultReport();
    r["cpu" := p.cpu(TotalOf(totals, "limits.cpu"))]
     ["memory" := p.memory(TotalOf(totals, "limits.memory"))]
     ["processes" := p.processes(TotalOf(totals, "limits.processes"))]
     ["containers" := Decimal(containers)]
     ["virtual-machines" := Decimal(vms)]
     ["disk" := r["disk"] + p.disk(disk)]
  }

  /** Total bytes of the volumes, or the first volume error. */
  function VolumesBytes(volumes: seq<Volume>, parse: string -> Option<int>): Result<int, Error> {
    Total(MapFirstError(volumes, VolumeStep(parse)))
  }

  /**
   * Total bytes of the instances' root disks: every instance must have a root
   * size string before any of them is parsed.
   */
  function RootDisksBytes(instances: seq<Instance>, parse: string -> Option<int>, project: string): Result<int, Error> {
    match MapFirstError(instances, RootStep(project))
    case Err(e) => Err(e)
    case Ok(rootDisks) => Total(MapFirstError(rootDisks, RootParseStep(parse, project)))
  }

  /** The numbers of containers and of VMs, or the error for the first instance of another kind. */
  function KindCounts(instances: seq<Instance>): Result<(nat, nat), Error> {
    match MapFirstError(instances, Classify)
    case Err(e) => Err(e)
    case Ok(_) => Ok((CountOfKind(instances, Container), CountOfKind(instances, VM)))
  }

  /**
   * The specification of a call: the loader's outcome decides the first two
   * cases; after a load, the checks run in the order totals, volumes, root-disk
   * presence, root-disk parsing, images, instance kinds, and the first failing
   * one gives the error.
   */
  function Allocations(project: string, load: LoadResult, images: Result<seq<int>, string>, env: Env): Answer {
    match load
    case LoadFailed(cause) => Answer(None, Some(FetchFailed(cause)))
    case NotFound => Answer(Some(DefaultReport()), None)
    case Loaded(info) => AllocationsOf(project, ExpandedInfo(info, env), images, env)
  }

  /**
   * The storage accountant: volume bytes, then root-disk bytes, then image
   * bytes (the image listing is only consulted once both others succeeded).
   */
  function StorageBytes(info: ProjectInfo, images: Result<seq<int>, string>, parse: string -> Option<int>, project: string)
    : Result<int, Error>
  {
    match VolumesBytes(info.volumes, parse)
    case Err(e) => Err(e)
    case Ok(volumeBytes) =>
      match RootDisksBytes(info.instances, parse, project)
      case Err(e) => Err(e)
      case Ok(rootBytes) =>
        match images
        case Err(cause) => Err(ImagesFailed(cause))
        case Ok(imageSizes) => Ok(volumeBytes + rootBytes + Sum(imageSizes))
  }

  /** The part of the specification after the snapshot was loaded and expanded. */
  function AllocationsOf(project: string, info: ProjectInfo, images: Result<seq<int>, string>, env: Env): Answer {
    match env.totals(info, LimitKeys)
    case Err(cause) => Failed(TotalsFailed(cause))
    case Ok(totals) =>
      match StorageBytes(info, images, env.parse, project)
      case Err(e) => Failed(e)
      case Ok(disk) =>
        match KindCounts(info.instances)
        case Err(e) => Failed(e)
        case Ok((containers, vms)) =>
          Answer(Some(AssembledReport(env.printers, totals, containers, vms, disk)), None)
  }

  /** The volume loop: parses each volume's size in order and stops at the first bad one. */
  method SumVolumeSizes(volumes: seq<Volume>, parse: string -> Option<int>) returns (r: Result<int, Error>)
    ensures r == VolumesBytes(volumes, parse)
  {
    var totalVolumeSize := 0;
    ghost var volumeSizes: seq<int> := [];
    for i := 0 to |volumes|
      invariant MapFirstError(volumes[..i], VolumeStep(parse)) == Ok(volumeSizes)
      invariant totalVolumeSize == Sum(volumeSizes)
    {
      var volume := volumes[i];
      MapFirstErrorSnoc(volumes, VolumeStep(parse), i, volumeSizes);
      if "size" !in volume.config {
        MapFirstErrorPrefixFails(volumes, VolumeStep(parse), i + 1);
        return Err(MissingVolumeSize);
      }
      var sizeString := volume.config["size"];
      var size := parse(sizeString);
      if size.None? {
        MapFirstErrorPrefixFails(volumes, VolumeStep(parse), i + 1);
        return Err(VolumeSizeInvalid(sizeString));
      }
      SumSnoc(volumeSizes, size.value);
      totalVolumeSize := totalVolumeSize + size.value;
      volumeSizes := volumeSizes + [size.value];
    }
    assert volumes[..|volumes|] == volumes;
    return Ok(totalVolumeSize);
  }

  /**
   * The two root-disk loops: the first fills rootDisks with every instance's
   * root size string, the second parses and sums them.
   */
  method SumRootDiskSizes(instances: seq<Instance>, parse: string -> Option<int>, project: string)
    returns (r: Result<int, Error>)
    ensures r == RootDisksBytes(instances, parse, project)
  {
    var rootDisks := new string[|instances|];
    var err := CollectRootSizes(instances, project, rootDisks);
    if err.Some? {
      return Err(err.value);
    }
    r := SumParsedRootSizes(rootDisks, parse, project);
  }

  /** The first root-disk loop: stores each instance's root size string, stopping at the first one missing. */
  method CollectRootSizes(instances: seq<Instance>, project: string, rootDisks: array<string>)
    returns (err: Option<Error>)
    requires rootDisks.Length == |instances|
    modifies rootDisks
    ensures match MapFirstError(instances, RootStep(project))
      case Err(e) => err == Some(e)
      case Ok(strs) => err.None? && rootDisks[..] == strs
  {
    for i := 0 to |instances|
      invariant MapFirstError(instances[..i], RootStep(project)) == Ok(rootDisks[..i])
    {
      var instance := instances[i];
      MapFirstErrorSnoc(instances, RootStep(project), i, rootDisks[..i]);
      var root := if "root" in instance.devices then instance.devices["root"] else map[];
      if "size" !in root {
        MapFirstErrorPrefixFails(instances, RootStep(project), i + 1);
        return Some(MissingRootSize(instance.name, project));
      }
      ghost var filled := rootDisks[..i];
      rootDisks[i] := root["size"];
      assert rootDisks[..i + 1] == filled + [root["size"]];
    }
    assert instances[..|instances|] == instances;
    assert rootDisks[..] == rootDisks[..rootDisks.Length];
    return None;
  }

  /** The second root-disk loop: parses and sums the stored strings, stopping at the first that does not parse. */
  method SumParsedRootSizes(rootDisks: array<string>, parse: string -> Option<int>, project: string)
    returns (r: Result<int, Error>)
    ensures r == Total(MapFirstError(rootDisks[..], RootParseStep(parse, project)))
  {
    var calculatedRootDiskSize := 0;
    ghost var rootSizes: seq<int> := [];
    for j := 0 to rootDisks.Length
      invariant MapFirstError(rootDisks[..j], RootParseStep(parse, project)) == Ok(rootSizes)
      invariant calculatedRootDiskSize == Sum(rootSizes)
    {
      var rootDisk := rootDisks[j];
      MapFirstErrorSnoc(rootDisks[..], RootParseStep(parse, project), j, rootSizes);
      assert rootDisks[..][..j] == rootDisks[..j];
      var size := parse(rootDisk);
      if size.None? {
        MapFirstErrorPrefixFails(rootDisks[..], RootParseStep(parse, project), j + 1);
        return Err(RootSizeInvalid(project, rootDisk));
      }
      SumSnoc(rootSizes, size.value);
      calculatedRootDiskSize := calculatedRootDiskSize + size.value;
      rootSizes := rootSizes + [size.value];
    }
    assert rootDisks[..rootDisks.Length] == rootDisks[..];
    return Ok(calculatedRootDiskSize);
  }

  /** The image loop: image sizes are already bytes and are summed as they are. */
  method SumImageSizes(imageSizes: seq<int>) returns (imageSize: int)
    ensures imageSize == Sum(imageSizes)
  {
    imageSize := 0;
    for k := 0 to |imageSizes|
      invariant imageSize == Sum(imageSizes[..k])
    {
      assert imageSizes[..k + 1][..k] == imageSizes[..k];
      imageSize := imageSize + imageSizes[k];
    }
    assert imageSizes[..|imageSizes|] == imageSizes;
  }

  /** The instance-type switch: counts containers and VMs, fails on any other kind. */
  method CountInstanceTypes(instances: seq<Instance>) returns (r: Result<(nat, nat), Error>)
    ensures r == KindCounts(instances)
  {
    var containerCount: nat := 0;
    var vmCount: nat := 0;
    for i := 0 to |instances|
      invariant MapFirstError(instances[..i], Classify).Ok?
      invariant containerCount == CountOfKind(instances[..i], Container)
      invariant vmCount == CountOfKind(instances[..i], VM)
    {
      var inst := instances[i];
      MapFirstErrorSnoc(instances, Classify, i, MapFirstError(instances[..i], Classify).value);
      assert instances[..i + 1][..i] == instances[..i];
      match inst.kind {
        case Container =>
          containerCount := containerCount + 1;
        case VM =>
          vmCount := vmCount + 1;
        case OtherType(name) =>
          MapFirstErrorPrefixFails(instances, Classify, i + 1);
          return Err(UnexpectedType(name));
      }
    }
    assert instances[..|instances|] == instances;
    return Ok((containerCount, vmCount));
  }

  /** The storage loops in order: volumes, then root disks, then the image listing. */
  method SumStorage(info: ProjectInfo, images: Result<seq<int>, string>, parse: string -> Option<int>, project: string)
    returns (r: Result<int, Error>)
    ensures r == StorageBytes(info, images, parse, project)
  {
    var volumeResult := SumVolumeSizes(info.volumes, parse);
    if volumeResult.Err? {
      return Err(volumeResult.error);
    }
    var totalVolumeSize := volumeResult.value;

    var rootResult := SumRootDiskSizes(info.instances, parse, project);
    if rootResult.Err? {
      return Err(rootResult.error);
    }
    var calculatedRootDiskSize := rootResult.value;

    if images.Err? {
      return Err(ImagesFailed(images.error));
    }
    var imageSize := SumImageSizes(images.value);
    return Ok(totalVolumeSize + calculatedRootDiskSize + imageSize);
  }

  /**
   * The report of current allocations of a project. The loader's result and
   * the image sizes are inputs; the remaining collaborators come in env.
   */
  method GetCurrentAllocations(project: string, load: LoadResult, images: Result<seq<int>, string>, env: Env)
    returns (report: Option<Report>, err: Option<Error>)
    ensures Answer(report, err) == Allocations(project, load, images, env)
  {
    var result := DefaultReport();

    if load.LoadFailed? {
      return None, Some(FetchFailed(load.cause));
    }
    if load.NotFound? {
      return Some(result), None;
    }

    var info := load.info;
    info := info.(instances := env.expand(info.instances, info.profiles));
    assert info == ExpandedInfo(load.info, env);
    var totalsResult := env.totals(info, LimitKeys);
    if totalsResult.Err? {
      return Some(result), Some(TotalsFailed(totalsResult.error));
    }
    var totals := totalsResult.value;

    var storageResult := SumStorage(info, images, env.parse, project);
    if storageResult.Err? {
      return Some(result), Some(storageResult.error);
    }
    var diskBytes := storageResult.value;

    var kindResult := CountInstanceTypes(info.instances);
    if kindResult.Err? {
      return Some(result), Some(kindResult.error);
    }
    var (containerCount, vmCount) := kindResult.value;

    // the computed values are written only now
    result := result["cpu" := env.printers.cpu(TotalOf(totals, "limits.cpu"))];
    result := result["memory" := env.printers.memory(TotalOf(totals, "limits.memory"))];
    result := result["processes" := env.printers.processes(TotalOf(totals, "limits.processes"))];
    result := result["containers" := Decimal(containerCount)];
    result := result["virtual-machines" := Decimal(vmCount)];
    result := result["disk" := result["disk"] + env.printers.disk(diskBytes)];
    assert result == AssembledReport(env.printers, totals, containerCount, vmCount, diskBytes);
    return Some(result), None;
  }
}
