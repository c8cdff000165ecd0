# LXD project resource usage — a Dafny model

This project models `GetCurrentAllocations` from LXD's project package. The
function reports how much of each limited resource a project uses. It builds a
seven-key report (`disk`, `memory`, `containers`, `virtual-machines`, `cpu`,
`processes`, `networks`) from a loaded snapshot of the project:

- the instances (expanded with their profiles);
- the storage volumes;
- the image listing;
- the per-limit totals computed by a collaborator.

The model follows the Go code step by step:

- `ProjectState.GetCurrentAllocations` is an imperative method. It creates the
  default report, checks the load outcome, expands the instances and asks for
  the totals. It then runs the storage loops, counts the instance kinds, and
  writes the computed fields into the report one key at a time.
- The storage loops are separate methods: the volume loop, the two root-disk
  loops, and the image loop. The two root-disk loops fill a `string` array by
  index and then parse it.
- The instance-kind loop is also a method, with early returns on error.
- Every method is proved equal to a specification function (`Allocations`,
  `StorageBytes`, `VolumesBytes`, `RootDisksBytes`, `KindCounts`).
- `StateProperties` proves, about those functions, what the code promises:
  - which error wins;
  - that errors return the untouched default report;
  - the summation identity behind `disk`;
  - the conservation of the instance counts.

The collaborators are inputs, never calls into unseen code:

- The loader result (`fetchProject`) is the `LoadResult` input: load failed,
  not found, or loaded.
- The image listing (`GetImages`) is the `images` input: either an error or the
  image sizes in bytes. The method looks at it only once both storage loops have
  passed, as the code does.
- Instance expansion, the limit totaller, the byte-size parser and the four
  printers are function-valued fields of `Env`. They are left uninterpreted.

Files:

- `types.dfy`: the records and the error tags.
- `fail_first.dfy`: a generic map that stops at the first failure, and sums.
- `decimal.dfy`: base-10 rendering of a count and its inverse.
- `state.dfy`: the specification functions and the methods.
- `state_properties.dfy`: the lemmas.

## Model

| member | source | states |
|---|---|---|
| ProjectState.DefaultReport | lxd/project/state.go:16-24 | The initial report has exactly the seven keys, and all of them are "0". |
| ProjectState.GetCurrentAllocations | lxd/project/state.go:15-128 | The returned report and error are, for every input, the ones given by the specification `Allocations`. |
| ProjectState.SumVolumeSizes | lxd/project/state.go:45-58 | The volume loop returns the first volume's missing-size or parse error in order. Otherwise it returns the sum of the parsed sizes (the same value as `VolumesBytes`). |
| ProjectState.CollectRootSizes | lxd/project/state.go:61-70 | The slice-filling loop stores every instance's root size string by index. It stops with the missing-root-size error of the first instance that has no root device or no size. |
| ProjectState.SumParsedRootSizes | lxd/project/state.go:72-80 | The parse loop returns the sum of the parsed strings, or the error of the first string that does not parse. |
| ProjectState.SumRootDiskSizes | lxd/project/state.go:60-80 | The two root-disk loops together give `RootDisksBytes`: presence for all instances first, then parsing. |
| ProjectState.SumImageSizes | lxd/project/state.go:92-96 | The image loop returns the sum of the image sizes. |
| ProjectState.CountInstanceTypes | lxd/project/state.go:98-111 | The kind loop returns the numbers of containers and VMs, or the error naming the first other kind. |
| ProjectState.SumStorage | lxd/project/state.go:44-96 | The storage passes run in order: volumes, root disks, then images. The first failure is returned; otherwise the sum of the three totals. |
| DecimalFormat.Decimal | lxd/project/state.go:123-124 | A count is rendered as a non-empty string of decimal digits with no leading zero, and 0 is rendered as "0". |
| DecimalFormat.DecimalRoundTrip | lxd/project/state.go:123-124 | Reading the decimal rendering of a count gives back the count. |
| DecimalFormat.DecimalInjective | lxd/project/state.go:123-124 | Different counts have different renderings. |
| FailFirst.MapFirstErrorOk | lxd/project/state.go:45-58 | A fail-fast pass succeeds exactly when every element passes, and it then holds each element's result in order. |
| FailFirst.MapFirstErrorFails | lxd/project/state.go:45-58 | When element i is the first that fails, the pass returns that element's error. |
| FailFirst.MapFirstErrorHasFirstFailure | lxd/project/state.go:45-58 | A pass that fails has a first failing element. |
| FailFirst.MapFirstErrorPrefixFails | lxd/project/state.go:45-58 | Once a prefix fails, the elements after it do not change the outcome (the early return). |
| StateProperties.VolumesBytesOk | lxd/project/state.go:45-58 | The volume pass succeeds exactly when every volume has a "size" key that parses. |
| StateProperties.VolumesBytesTotal | lxd/project/state.go:45-58 | On success the volume total is the sum of every volume's parsed size. |
| StateProperties.RootDisksBytesOk | lxd/project/state.go:60-80 | The root-disk passes succeed exactly when every instance has a root size and every root size parses. |
| StateProperties.RootDisksBytesTotal | lxd/project/state.go:60-80 | On success the root-disk total is the sum of every instance's parsed root size. |
| StateProperties.CountOfKindIsMultiplicity | lxd/project/state.go:99-106 | The count for a kind is the number of instances of that kind. |
| StateProperties.KindCountsCoverInstances | lxd/project/state.go:99-111 | When every kind is container or VM, the two counts add up to the number of instances. |
| StateProperties.KindCountsOk | lxd/project/state.go:99-111 | The kind pass succeeds exactly when every instance is a container or a VM. It then gives the numbers of container and VM instances. |
| StateProperties.NotFoundReportsZero | lxd/project/state.go:16-34 | A project that is not found yields the seven keys, all "0", and no error. |
| StateProperties.FetchFailureReportsNothing | lxd/project/state.go:26-29 | A loader failure yields no report (a nil map) and that failure. |
| StateProperties.ErrorsLeaveDefault | lxd/project/state.go:36-127 | After a load there is always a report. With an error it is exactly the default. Without one it has exactly the seven keys. |
| StateProperties.TotalsFailureFirst | lxd/project/state.go:36-42 | A failure of the totaller is returned with the default report, whatever the storage and instances are. |
| StateProperties.VolumeErrorFirst | lxd/project/state.go:46-55 | The first volume without a size, or with one that does not parse, decides the error, whatever the instances and images are. |
| StateProperties.MissingRootSizeFirst | lxd/project/state.go:61-70 | The volumes pass and instance i is the first without a root size. Then the call fails with the missing-root-size error for that instance, even if an earlier root size does not parse. |
| StateProperties.RootSizeInvalidFirst | lxd/project/state.go:72-80 | With every root size present, the first one that does not parse decides the error. |
| StateProperties.ImagesFailureAfterStorage | lxd/project/state.go:83-90 | With volumes and root sizes all valid, a failure of the image listing is the error returned. |
| StateProperties.UnexpectedTypeFirst | lxd/project/state.go:101-111 | Only once storage passes does the first instance of another kind decide the error, naming that kind. |
| StateProperties.SucceedsIffAllChecksPass | lxd/project/state.go:26-127 | After a load, a call succeeds exactly when every check passes: the totals, every volume, the presence and parsing of every root size, the image listing, and every kind. |
| StateProperties.AssembledReportFields | lxd/project/state.go:113-125 | The final report has the seven keys. cpu, memory and processes are their printers applied to the totals. containers and virtual-machines are decimal counts. networks stays "0". disk is "0" followed by the disk printer's output. |
| StateProperties.StorageBytesOk | lxd/project/state.go:44-96 | With valid volumes and root sizes, storage is the sum of the volume sizes, the root sizes and the image sizes. |
| StateProperties.SuccessfulDisk | lxd/project/state.go:44-125 | On success, the value given to the disk printer is the sum of every parsed volume size, every parsed root size and every image size, and disk is "0" followed by the printer's output. |
| StateProperties.SuccessfulLimits | lxd/project/state.go:119-122 | On success there is no error and exactly the seven keys. cpu, memory and processes are their printers applied to the totals, a missing total reading as 0. networks is "0". |
| StateProperties.SuccessfulCounts | lxd/project/state.go:98-124 | On success, containers and virtual-machines are decimal strings. They read back as the numbers of container and VM instances, and those add up to the number of instances. |

## Left out

- Database access (`db.ClusterTx`, `fetchProject`, `tx.GetImages`) is not modelled. Its outcomes are the `load` and `images` inputs.
- `expandInstancesConfigAndDevices` and `getTotalsAcrossProjectEntities` are defined in files that are not part of this model. They are uninterpreted `Env.expand` and `Env.totals`. The totaller is given the expanded snapshot and the three limit keys.
- `units.ParseByteSizeString` is the uninterpreted partial function `Env.parse`. Byte-size syntax is not modelled.
- The printers of `aggregateLimitConfigValuePrinters` are the uninterpreted `Env.printers`. A key missing from that table would give a nil function and a panic in Go. This is not modelled: the four printers are always present.
- Error messages are tags only (`Error` in `types.dfy`). Their text is not modelled, including the `:q` verb and the `%q` rendering of a whole instance. `MissingRootSize` carries the instance name and the project name.
- The volume error for a missing size does not say which volume it is, because the code's message names none. A parse failure keeps the size string in place of the parser's own error.
- `GetCurrentAllocations`: the int64 accumulators are mathematical integers, so 64-bit overflow in the size sums and counts is not modelled.
- `strconv.FormatInt` is replaced by `DecimalFormat.Decimal`, a base-10 rendering of a non-negative count.
- The `networks` key is never computed by the code. The model only proves that it stays "0".
