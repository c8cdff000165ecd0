/**
 * Properties of the allocation report of one project: the default report,
 * the all-or-nothing error contract and the order of the checks, the disk
 * summation identity, and the conservation of the instance counts.
 */
module StateProperties {
  import opened ProjectTypes
  import opened FailFirst
  import opened DecimalFormat
  import opened ProjectState

  /** The instances after profile expansion, as every later step sees them. */
  function Expanded(info: ProjectInfo, env: Env): seq<Instance> {
    ExpandedInfo(info, env).instances
  }

  ghost predicate TotalsOk(info: ProjectInfo, env: Env) {
    env.totals(ExpandedInfo(info, env), LimitKeys).Ok?
  }

  /** A volume passes when it has a "size" key that parses. */
  ghost predicate VolumeOk(v: Volume, parse: string -> Option<int>) {
    "size" in v.config && parse(v.config["size"]).Some?
  }

  ghost predicate AllVolumesOk(vols: seq<Volume>, parse: string -> Option<int>) {
    forall i :: 0 <= i < |vols| ==> VolumeOk(vols[i], parse)
  }

  predicate HasRootSize(inst: Instance) {
    "root" in inst.devices && "size" in inst.devices["root"]
  }

  function RootSizeString(inst: Instance): string
    requires HasRootSize(inst)
  {
    inst.devices["root"]["size"]
  }

  ghost predicate AllRootSizesPresent(insts: seq<Instance>) {
    forall i :: 0 <= i < |insts| ==> HasRootSize(insts[i])
  }

  ghost predicate AllRootSizesParse(insts: seq<Instance>, parse: string -> Option<int>)
    requires AllRootSizesPresent(insts)
  {
    forall i :: 0 <= i < |insts| ==> parse(RootSizeString(insts[i])).Some?
  }

  predicate KnownKind(inst: Instance) {
    inst.kind.Container? || inst.kind.VM?
  }

  ghost predicate AllKindsKnown(insts: seq<Instance>) {
    forall i :: 0 <= i < |insts| ==> KnownKind(insts[i])
  }

  /** The sum of the parsed sizes of all volumes. */
  ghost function VolumeBytesTotal(vols: seq<Volume>, parse: string -> Option<int>): int
    requires AllVolumesOk(vols, parse)
    decreases |vols|
  {
    if |vols| == 0 then 0
    else
      VolumeBytesTotal(vols[..|vols| - 1], parse) + parse(vols[|vols| - 1].config["size"]).value
  }

  /** The sum of the parsed root-disk sizes of all instances. */
  ghost function RootBytesTotal(insts: seq<Instance>, parse: string -> Option<int>): int
    requires AllRootSizesPresent(insts) && AllRootSizesParse(insts, parse)
    decreases |insts|
  {
    if |insts| == 0 then 0
    else
      RootBytesTotal(insts[..|insts| - 1], parse) + parse(RootSizeString(insts[|insts| - 1])).value
  }

  /** The kinds of the instances, in order. */
  function Kinds(insts: seq<Instance>): seq<InstanceType> {
    seq(|insts|, i requires 0 <= i < |insts| => insts[i].kind)
  }

  // ---- facts about the individual stages ----

  /** The volume stage succeeds exactly when every volume has a size that parses. */
  lemma {:induction false} VolumesBytesOk(vols: seq<Volume>, parse: string -> Option<int>)
    ensures VolumesBytes(vols, parse).Ok? <==> AllVolumesOk(vols, parse)
  {
    MapFirstErrorOk(vols, VolumeStep(parse));
    assert forall i :: 0 <= i < |vols| ==> (VolumeStep(parse)(vols[i]).Ok? <==> VolumeOk(vols[i], parse));
  }

  /** When it succeeds, the volume stage gives the sum of the parsed volume sizes. */
  lemma {:induction false} VolumesBytesTotal(vols: seq<Volume>, parse: string -> Option<int>)
    requires AllVolumesOk(vols, parse)
    ensures VolumesBytes(vols, parse) == Ok(VolumeBytesTotal(vols, parse))
    decreases |vols|
  {
    if |vols| > 0 {
      var n := |vols| - 1;
      var init := vols[..n];
      assert forall i :: 0 <= i < |init| ==> init[i] == vols[i];
      VolumesBytesTotal(init, parse);
      var last := parse(vols[n].config["size"]).value;
      assert VolumeStep(parse)(vols[n]) == Ok(last);
      TotalAppend(init, vols[n], VolumeStep(parse), VolumeBytesTotal(init, parse));
      assert init + [vols[n]] == vols;
      assert VolumeBytesTotal(vols, parse) == VolumeBytesTotal(init, parse) + last;
    }
  }

  /** The root-disk stage succeeds exactly when every instance has a root size and every one parses. */
  lemma {:induction false} RootDisksBytesOk(insts: seq<Instance>, parse: string -> Option<int>, project: string)
    ensures RootDisksBytes(insts, parse, project).Ok? <==>
      AllRootSizesPresent(insts) && AllRootSizesParse(insts, parse)
  {
    MapFirstErrorOk(insts, RootStep(project));
    assert forall i :: 0 <= i < |insts| ==> (RootStep(project)(insts[i]).Ok? <==> HasRootSize(insts[i]));
    if AllRootSizesPresent(insts) {
      var strs := MapFirstError(insts, RootStep(project)).value;
      MapFirstErrorOk(strs, RootParseStep(parse, project));
      assert forall i :: 0 <= i < |insts| ==> strs[i] == RootSizeString(insts[i]);
      if !AllRootSizesParse(insts, parse) {
        var i :| 0 <= i < |insts| && parse(RootSizeString(insts[i])).None?;
        assert RootParseStep(parse, project)(strs[i]).Err?;
      }
    }
  }

  /** When it succeeds, the root-disk stage gives the sum of the parsed root sizes. */
  lemma {:induction false} RootDisksBytesTotal(insts: seq<Instance>, parse: string -> Option<int>, project: string)
    requires AllRootSizesPresent(insts) && AllRootSizesParse(insts, parse)
    ensures RootDisksBytes(insts, parse, project) == Ok(RootBytesTotal(insts, parse))
    decreases |insts|
  {
    if |insts| > 0 {
      var init := insts[..|insts| - 1];
      RootSizesPrefix(insts, parse);
      RootDisksBytesTotal(init, parse, project);
      RootDisksLast(insts, parse, project);
    }
  }

  /** The root-size facts carry over to every prefix but the last element. */
  lemma RootSizesPrefix(insts: seq<Instance>, parse: string -> Option<int>)
    requires |insts| > 0
    requires AllRootSizesPresent(insts) && AllRootSizesParse(insts, parse)
    ensures AllRootSizesPresent(insts[..|insts| - 1]) && AllRootSizesParse(insts[..|insts| - 1], parse)
  {
    var init := insts[..|insts| - 1];
    assert forall i :: 0 <= i < |init| ==> init[i] == insts[i];
  }

  /** One step of the induction: the stage on the prefix gives the stage on the whole. */
  lemma RootDisksLast(insts: seq<Instance>, parse: string -> Option<int>, project: string)
    requires |insts| > 0
    requires AllRootSizesPresent(insts) && AllRootSizesParse(insts, parse)
    requires AllRootSizesPresent(insts[..|insts| - 1]) && AllRootSizesParse(insts[..|insts| - 1], parse)
    requires RootDisksBytes(insts[..|insts| - 1], parse, project) == Ok(RootBytesTotal(insts[..|insts| - 1], parse))
    ensures RootDisksBytes(insts, parse, project) == Ok(RootBytesTotal(insts, parse))
  {
    var n := |insts| - 1;
    var init := insts[..n];
    var last := insts[n];
    assert HasRootSize(last) && parse(RootSizeString(last)).Some?;
    var t := RootBytesTotal(init, parse);
    var v := parse(RootSizeString(last)).value;
    assert RootBytesTotal(insts, parse) == t + v;
    RootDisksAppend(init, last, parse, project, t);
    PrefixSnoc(insts);
  }

  /** The root-disk stage extended by one instance whose root size is present and parses. */
  lemma RootDisksAppend(init: seq<Instance>, last: Instance, parse: string -> Option<int>, project: string, t: int)
    requires RootDisksBytes(init, parse, project) == Ok(t)
    requires HasRootSize(last) && parse(RootSizeString(last)).Some?
    ensures RootDisksBytes(init + [last], parse, project) == Ok(t + parse(RootSizeString(last)).value)
  {
    var rs := RootSizeString(last);
    assert RootStep(project)(last) == Ok(rs);
    MapFirstErrorAppend(init, last, RootStep(project));
    var strsInit := MapFirstError(init, RootStep(project)).value;
    assert MapFirstError(init + [last], RootStep(project)) == Ok(strsInit + [rs]);
    assert RootParseStep(parse, project)(rs) == Ok(parse(rs).value);
    TotalAppend(strsInit, rs, RootParseStep(parse, project), t);
  }

  /** Counting by kind agrees with the multiplicity of that kind among the instances' kinds. */
  lemma {:induction false} CountOfKindIsMultiplicity(insts: seq<Instance>, k: InstanceType)
    ensures CountOfKind(insts, k) == multiset(Kinds(insts))[k]
    decreases |insts|
  {
    if |insts| > 0 {
      var init := insts[..|insts| - 1];
      CountOfKindIsMultiplicity(init, k);
      assert Kinds(insts) == Kinds(init) + [insts[|insts| - 1].kind];
    }
  }

  /** When every instance is a container or a VM, the two counts add up to the number of instances. */
  lemma {:induction false} KindCountsCoverInstances(insts: seq<Instance>)
    requires AllKindsKnown(insts)
    ensures CountOfKind(insts, Container) + CountOfKind(insts, VM) == |insts|
    decreases |insts|
  {
    if |insts| > 0 {
      var init := insts[..|insts| - 1];
      assert AllKindsKnown(init) by {
        forall i | 0 <= i < |init| ensures KnownKind(init[i]) {
          assert init[i] == insts[i];
        }
      }
      KindCountsCoverInstances(init);
      assert KnownKind(insts[|insts| - 1]);
    }
  }

  lemma {:induction false} KindCountsOk(insts: seq<Instance>)
    ensures KindCounts(insts).Ok? <==> AllKindsKnown(insts)
    ensures AllKindsKnown(insts) ==> KindCounts(insts) == Ok((CountOfKind(insts, Container), CountOfKind(insts, VM)))
  {
    MapFirstErrorOk(insts, Classify);
  }

  // ---- the report ----

  /** A project that does not exist has no allocations: the seven keys, all "0", and no error. */
  lemma {:induction false} NotFoundReportsZero(project: string, images: Result<seq<int>, string>, env: Env)
    ensures Allocations(project, NotFound, images, env) == Answer(Some(DefaultReport()), None)
    ensures DefaultReport() == map["disk" := "0", "memory" := "0", "containers" := "0",
      "virtual-machines" := "0", "cpu" := "0", "processes" := "0", "networks" := "0"]
  {
  }

  /** A loader failure is returned as it is, with no report (a nil map). */
  lemma {:induction false} FetchFailureReportsNothing(project: string, cause: string, images: Result<seq<int>, string>, env: Env)
    ensures Allocations(project, LoadFailed(cause), images, env) == Answer(None, Some(FetchFailed(cause)))
  {
  }

  /**
   * After a load, a call returns either a full report and no error, or the
   * untouched default report and an error: a partial report is never returned.
   */
  lemma {:induction false} ErrorsLeaveDefault(project: string, info: ProjectInfo, images: Result<seq<int>, string>, env: Env)
    ensures var a := Allocations(project, Loaded(info), images, env);
      a.report.Some? &&
      (a.err.Some? ==> a.report == Some(DefaultReport())) &&
      (a.err.None? ==> a.report.value.Keys == ReportKeys)
  {
  }

  /** A failure of the limit totaller is returned before any storage is looked at. */
  lemma {:induction false} TotalsFailureFirst(project: string, info: ProjectInfo, images: Result<seq<int>, string>, env: Env)
    requires !TotalsOk(info, env)
    ensures Allocations(project, Loaded(info), images, env) ==
      Failed(TotalsFailed(env.totals(ExpandedInfo(info, env), LimitKeys).error))
  {
  }

  /**
   * The first volume without a size, or with a size that does not parse,
   * decides the error, whatever the instances and images are.
   */
  lemma {:induction false} VolumeErrorFirst(project: string, info: ProjectInfo, images: Result<seq<int>, string>, env: Env, i: int)
    requires TotalsOk(info, env)
    requires 0 <= i < |info.volumes| && !VolumeOk(info.volumes[i], env.parse)
    requires forall j :: 0 <= j < i ==> VolumeOk(info.volumes[j], env.parse)
    ensures Allocations(project, Loaded(info), images, env) ==
      Failed(if "size" in info.volumes[i].config
             then VolumeSizeInvalid(info.volumes[i].config["size"])
             else MissingVolumeSize)
  {
    var vols := ExpandedInfo(info, env).volumes;
    assert forall j :: 0 <= j < |vols| ==> (VolumeStep(env.parse)(vols[j]).Ok? <==> VolumeOk(vols[j], env.parse));
    MapFirstErrorFails(vols, VolumeStep(env.parse), i);
  }

  /**
   * With the volumes in order, the first instance without a root size decides the
   * error, even when the root size of an earlier instance does not parse: presence
   * is checked for all instances before any root size is parsed.
   */
  lemma {:induction false} MissingRootSizeFirst(project: string, info: ProjectInfo, images: Result<seq<int>, string>, env: Env, i: int)
    requires TotalsOk(info, env) && AllVolumesOk(info.volumes, env.parse)
    requires 0 <= i < |Expanded(info, env)| && !HasRootSize(Expanded(info, env)[i])
    requires forall j :: 0 <= j < i ==> HasRootSize(Expanded(info, env)[j])
    ensures Allocations(project, Loaded(info), images, env) ==
      Failed(MissingRootSize(Expanded(info, env)[i].name, project))
  {
    var insts := Expanded(info, env);
    VolumesBytesOk(info.volumes, env.parse);
    assert forall j :: 0 <= j < |insts| ==> (RootStep(project)(insts[j]).Ok? <==> HasRootSize(insts[j]));
    MapFirstErrorFails(insts, RootStep(project), i);
  }

  /** With every root size present, the first one that does not parse decides the error. */
  lemma {:induction false} RootSizeInvalidFirst(project: string, info: ProjectInfo, images: Result<seq<int>, string>, env: Env, i: int)
    requires TotalsOk(info, env) && AllVolumesOk(info.volumes, env.parse)
    requires AllRootSizesPresent(Expanded(info, env))
    requires 0 <= i < |Expanded(info, env)| && env.parse(RootSizeString(Expanded(info, env)[i])).None?
    requires forall j :: 0 <= j < i ==> env.parse(RootSizeString(Expanded(info, env)[j])).Some?
    ensures Allocations(project, Loaded(info), images, env) ==
      Failed(RootSizeInvalid(project, RootSizeString(Expanded(info, env)[i])))
  {
    var insts := Expanded(info, env);
    VolumesBytesOk(info.volumes, env.parse);
    MapFirstErrorOk(insts, RootStep(project));
    var strs := MapFirstError(insts, RootStep(project)).value;
    assert forall j :: 0 <= j < |insts| ==> strs[j] == RootSizeString(insts[j]);
    MapFirstErrorFails(strs, RootParseStep(env.parse, project), i);
  }

  /** With all storage accounted, a failure to list the images is returned. */
  lemma {:induction false} ImagesFailureAfterStorage(project: string, info: ProjectInfo, cause: string, env: Env)
    requires TotalsOk(info, env) && AllVolumesOk(info.volumes, env.parse)
    requires AllRootSizesPresent(Expanded(info, env)) && AllRootSizesParse(Expanded(info, env), env.parse)
    ensures Allocations(project, Loaded(info), Err(cause), env) == Failed(ImagesFailed(cause))
  {
    VolumesBytesOk(info.volumes, env.parse);
    RootDisksBytesOk(Expanded(info, env), env.parse, project);
  }

  /**
   * Only once every storage check has passed, the first instance of a kind
   * other than container or VM decides the error, naming that kind.
   */
  lemma {:induction false} UnexpectedTypeFirst(project: string, info: ProjectInfo, imageSizes: seq<int>, env: Env, i: int)
    requires TotalsOk(info, env) && AllVolumesOk(info.volumes, env.parse)
    requires AllRootSizesPresent(Expanded(info, env)) && AllRootSizesParse(Expanded(info, env), env.parse)
    requires 0 <= i < |Expanded(info, env)| && Expanded(info, env)[i].kind.OtherType?
    requires forall j :: 0 <= j < i ==> KnownKind(Expanded(info, env)[j])
    ensures Allocations(project, Loaded(info), Ok(imageSizes), env) ==
      Failed(UnexpectedType(Expanded(info, env)[i].kind.name))
  {
    var insts := Expanded(info, env);
    VolumesBytesOk(info.volumes, env.parse);
    RootDisksBytesOk(insts, env.parse, project);
    assert forall j :: 0 <= j < |insts| ==> (Classify(insts[j]).Ok? <==> KnownKind(insts[j]));
    MapFirstErrorFails(insts, Classify, i);
  }

  /** After a load, a call succeeds exactly when every check passes. */
  lemma {:induction false} SucceedsIffAllChecksPass(project: string, info: ProjectInfo, images: Result<seq<int>, string>, env: Env)
    ensures Allocations(project, Loaded(info), images, env).err.None? <==>
      && TotalsOk(info, env)
      && AllVolumesOk(info.volumes, env.parse)
      && AllRootSizesPresent(Expanded(info, env))
      && AllRootSizesParse(Expanded(info, env), env.parse)
      && images.Ok?
      && AllKindsKnown(Expanded(info, env))
  {
    VolumesBytesOk(info.volumes, env.parse);
    RootDisksBytesOk(Expanded(info, env), env.parse, project);
    KindCountsOk(Expanded(info, env));
  }

  /** Every field of an assembled report; "disk" is the disk printer's output appended to "0". */
  lemma {:induction false} AssembledReportFields(p: Printers, totals: map<string, int>, containers: nat, vms: nat, disk: int)
    ensures var r := AssembledReport(p, totals, containers, vms, disk);
      && r.Keys == ReportKeys
      && r["disk"] == "0" + p.disk(disk)
      && r["cpu"] == p.cpu(TotalOf(totals, "limits.cpu"))
      && r["memory"] == p.memory(TotalOf(totals, "limits.memory"))
      && r["processes"] == p.processes(TotalOf(totals, "limits.processes"))
      && r["networks"] == "0"
      && r["containers"] == Decimal(containers)
      && r["virtual-machines"] == Decimal(vms)
  {
  }

  /** Expansion keeps the volumes. */
  lemma ExpandedKeepsVolumes(info: ProjectInfo, env: Env)
    ensures ExpandedInfo(info, env).volumes == info.volumes
  {
  }

  /** A loaded project is reported on in its expanded form. */
  lemma {:induction false} AllocationsLoaded(project: string, info: ProjectInfo, images: Result<seq<int>, string>, env: Env)
    ensures Allocations(project, Loaded(info), images, env) ==
      AllocationsOf(project, ExpandedInfo(info, env), images, env)
  {
  }

  /** With every stage successful, the answer is the assembled report. */
  lemma {:induction false} AllocationsOfOk(project: string, xi: ProjectInfo, images: Result<seq<int>, string>, env: Env,
                        totals: map<string, int>, disk: int, containers: nat, vms: nat)
    requires env.totals(xi, LimitKeys) == Ok(totals)
    requires StorageBytes(xi, images, env.parse, project) == Ok(disk)
    requires KindCounts(xi.instances) == Ok((containers, vms))
    ensures AllocationsOf(project, xi, images, env) ==
      Answer(Some(AssembledReport(env.printers, totals, containers, vms, disk)), None)
  {
  }

  /** With every volume and root size present and parsing, storage is the sum of all three parts. */
  lemma {:induction false} StorageBytesOk(xi: ProjectInfo, imageSizes: seq<int>, parse: string -> Option<int>, project: string)
    requires AllVolumesOk(xi.volumes, parse)
    requires AllRootSizesPresent(xi.instances) && AllRootSizesParse(xi.instances, parse)
    ensures StorageBytes(xi, Ok(imageSizes), parse, project) ==
      Ok(VolumeBytesTotal(xi.volumes, parse) + RootBytesTotal(xi.instances, parse) + Sum(imageSizes))
  {
    VolumesBytesTotal(xi.volumes, parse);
    RootDisksBytesTotal(xi.instances, parse, project);
  }

  /** When every stage succeeds, the answer is the report assembled from the stages' results. */
  lemma {:induction false} SuccessfulAnswer(project: string, info: ProjectInfo, imageSizes: seq<int>, env: Env)
    requires TotalsOk(info, env)
    requires StorageBytes(ExpandedInfo(info, env), Ok(imageSizes), env.parse, project).Ok?
    requires KindCounts(ExpandedInfo(info, env).instances).Ok?
    ensures Allocations(project, Loaded(info), Ok(imageSizes), env) ==
      Answer(Some(AssembledReport(env.printers, env.totals(ExpandedInfo(info, env), LimitKeys).value,
        KindCounts(ExpandedInfo(info, env).instances).value.0, KindCounts(ExpandedInfo(info, env).instances).value.1,
        StorageBytes(ExpandedInfo(info, env), Ok(imageSizes), env.parse, project).value)), None)
  {
    var xi := ExpandedInfo(info, env);
    AllocationsLoaded(project, info, Ok(imageSizes), env);
    AllocationsOfOk(project, xi, Ok(imageSizes), env, env.totals(xi, LimitKeys).value,
      StorageBytes(xi, Ok(imageSizes), env.parse, project).value,
      KindCounts(xi.instances).value.0, KindCounts(xi.instances).value.1);
  }

  /**
   * On success the disk printer sees the parsed size of every volume, plus the
   * parsed root size of every instance, plus every image size, and "disk" is the
   * printer's output appended to the default "0".
   */
  lemma {:induction false} SuccessfulDisk(project: string, info: ProjectInfo, imageSizes: seq<int>, env: Env)
    requires TotalsOk(info, env) && AllVolumesOk(info.volumes, env.parse)
    requires AllRootSizesPresent(Expanded(info, env)) && AllRootSizesParse(Expanded(info, env), env.parse)
    requires AllKindsKnown(Expanded(info, env))
    ensures Allocations(project, Loaded(info), Ok(imageSizes), env).report.Some?
    ensures Allocations(project, Loaded(info), Ok(imageSizes), env).report.value["disk"] ==
      "0" + env.printers.disk(
        VolumeBytesTotal(info.volumes, env.parse) + RootBytesTotal(Expanded(info, env), env.parse) + Sum(imageSizes))
  {
    LoadedStorageOk(project, info, imageSizes, env);
    KindCountsOk(Expanded(info, env));
    DiskOfLoaded(project, info, imageSizes, env,
      VolumeBytesTotal(info.volumes, env.parse) + RootBytesTotal(Expanded(info, env), env.parse) + Sum(imageSizes));
  }

  /** With valid volumes and root sizes, storage of the expanded snapshot is the sum of all three stages. */
  lemma LoadedStorageOk(project: string, info: ProjectInfo, imageSizes: seq<int>, env: Env)
    requires AllVolumesOk(info.volumes, env.parse)
    requires AllRootSizesPresent(Expanded(info, env)) && AllRootSizesParse(Expanded(info, env), env.parse)
    ensures StorageBytes(ExpandedInfo(info, env), Ok(imageSizes), env.parse, project) ==
      Ok(VolumeBytesTotal(info.volumes, env.parse) + RootBytesTotal(Expanded(info, env), env.parse) + Sum(imageSizes))
  {
    ExpandedKeepsVolumes(info, env);
    StorageBytesOk(ExpandedInfo(info, env), imageSizes, env.parse, project);
  }

  /** On success, "disk" is "0" followed by the disk printer applied to the storage total. */
  lemma {:induction false} DiskOfLoaded(project: string, info: ProjectInfo, imageSizes: seq<int>, env: Env, bytes: int)
    requires TotalsOk(info, env)
    requires StorageBytes(ExpandedInfo(info, env), Ok(imageSizes), env.parse, project) == Ok(bytes)
    requires KindCounts(Expanded(info, env)).Ok?
    ensures Allocations(project, Loaded(info), Ok(imageSizes), env).report.Some?
    ensures Allocations(project, Loaded(info), Ok(imageSizes), env).report.value["disk"] == "0" + env.printers.disk(bytes)
  {
    var xi := ExpandedInfo(info, env);
    SuccessfulAnswer(project, info, imageSizes, env);
    AssembledReportFields(env.printers, env.totals(xi, LimitKeys).value,
      KindCounts(xi.instances).value.0, KindCounts(xi.instances).value.1, bytes);
  }

  /**
   * On success the report has no error and exactly the seven keys; cpu, memory
   * and processes are their printers applied to the limit totals (a missing
   * total reads as 0), and networks keeps its default "0".
   */
  lemma {:induction false} SuccessfulLimits(project: string, info: ProjectInfo, imageSizes: seq<int>, env: Env)
    requires TotalsOk(info, env) && AllVolumesOk(info.volumes, env.parse)
    requires AllRootSizesPresent(Expanded(info, env)) && AllRootSizesParse(Expanded(info, env), env.parse)
    requires AllKindsKnown(Expanded(info, env))
    ensures var a := Allocations(project, Loaded(info), Ok(imageSizes), env);
      var totals := env.totals(ExpandedInfo(info, env), LimitKeys).value;
      && a.err.None? && a.report.Some?
      && a.report.value.Keys == ReportKeys
      && a.report.value["cpu"] == env.printers.cpu(TotalOf(totals, "limits.cpu"))
      && a.report.value["memory"] == env.printers.memory(TotalOf(totals, "limits.memory"))
      && a.report.value["processes"] == env.printers.processes(TotalOf(totals, "limits.processes"))
      && a.report.value["networks"] == "0"
  {
    var xi := ExpandedInfo(info, env);
    StorageBytesOk(xi, imageSizes, env.parse, project);
    KindCountsOk(xi.instances);
    SuccessfulAnswer(project, info, imageSizes, env);
    AssembledReportFields(env.printers, env.totals(xi, LimitKeys).value,
      KindCounts(xi.instances).value.0, KindCounts(xi.instances).value.1,
      StorageBytes(xi, Ok(imageSizes), env.parse, project).value);
  }

  /**
   * On success, containers and virtual-machines are the decimal renderings of
   * the numbers of container and VM instances, and those two numbers add up to
   * the number of instances.
   */
  lemma {:induction false} SuccessfulCounts(project: string, info: ProjectInfo, imageSizes: seq<int>, env: Env)
    requires TotalsOk(info, env) && AllVolumesOk(info.volumes, env.parse)
    requires AllRootSizesPresent(Expanded(info, env)) && AllRootSizesParse(Expanded(info, env), env.parse)
    requires AllKindsKnown(Expanded(info, env))
    ensures var a := Allocations(project, Loaded(info), Ok(imageSizes), env);
      var kinds := multiset(Kinds(Expanded(info, env)));
      && a.report.Some?
      && AllDigits(a.report.value["containers"])
      && DecimalValue(a.report.value["containers"]) == kinds[Container]
      && AllDigits(a.report.value["virtual-machines"])
      && DecimalValue(a.report.value["virtual-machines"]) == kinds[VM]
      && kinds[Container] + kinds[VM] == |Expanded(info, env)|
  {
    var xi := ExpandedInfo(info, env);
    var insts := xi.instances;
    var c, v := CountOfKind(insts, Container), CountOfKind(insts, VM);
    StorageBytesOk(xi, imageSizes, env.parse, project);
    KindCountsOk(insts);
    SuccessfulAnswer(project, info, imageSizes, env);
    AssembledReportFields(env.printers, env.totals(xi, LimitKeys).value, c, v,
      StorageBytes(xi, Ok(imageSizes), env.parse, project).value);
    KindCountsCoverInstances(insts);
    CountOfKindIsMultiplicity(insts, Container);
    CountOfKindIsMultiplicity(insts, VM);
    DecimalRoundTrip(c);
    DecimalRoundTrip(v);
  }
}
