/**
 * The data model of the allocation report: the loaded project snapshot,
 * the error variants the report builder can return, and the collaborators
 * it is handed (expansion, limit totals, byte-size parsing, printers).
 */
module ProjectTypes {

  datatype Option<+T> = None | Some(value: T)

  datatype Result<+T, +E> = Ok(value: T) | Err(error: E)

  /** The kind of an instance; any kind other than the two known ones is carried by name. */
  datatype InstanceType = Container | VM | OtherType(name: string)

  /** An instance after profile expansion: its effective devices, device name to attributes. */
  datatype Instance = Instance(
    name: string,
    kind: InstanceType,
    config: map<string, string>,
    devices: map<string, map<string, string>>)

  /** A profile (configuration template); only the expander looks inside it. */
  datatype Profile = Profile(
    name: string,
    config: map<string, string>,
    devices: map<string, map<string, string>>)

  /** A custom storage volume; its size lives in config["size"] as a byte-size string. */
  datatype Volume = Volume(name: string, config: map<string, string>)

  /** What the project loader returns for one project. */
  datatype ProjectInfo = ProjectInfo(
    instances: seq<Instance>,
    profiles: seq<Profile>,
    volumes: seq<Volume>)

  /** The loader's three outcomes: a failure, "no such project", or the snapshot. */
  datatype LoadResult = LoadFailed(cause: string) | NotFound | Loaded(info: ProjectInfo)

  /** The errors the report builder can return, one variant per failing check or collaborator. */
  datatype Error =
    | FetchFailed(cause: string)
    | TotalsFailed(cause: string)
    | MissingVolumeSize
    | VolumeSizeInvalid(value: string)
    | MissingRootSize(instance: string, project: string)
    | RootSizeInvalid(project: string, value: string)
    | ImagesFailed(cause: string)
    | UnexpectedType(kind: string)

  /** The four printers the report uses, one per aggregated limit. */
  datatype Printers = Printers(
    cpu: int -> string,
    processes: int -> string,
    memory: int -> string,
    disk: int -> string)

  /**
   * The collaborators of the report builder: profile expansion, the limit
   * totaller, the byte-size parser (None for a malformed string) and the printers.
   */
  datatype Env = Env(
    expand: (seq<Instance>, seq<Profile>) -> seq<Instance>,
    totals: (ProjectInfo, seq<string>) -> Result<map<string, int>, string>,
    parse: string -> Option<int>,
    printers: Printers)
}
