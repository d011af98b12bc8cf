/**
 * The manifest's data model: one application entry, its optional docker block
 * and its per-process overrides, and how an application is written to and read
 * back from a YAML document under its field tags.
 *
 * A YAML document is modelled as a tree of `Node`s whose mappings are keyed by
 * `Key`, one constructor per field tag; `Tag` gives the tag's text.
 */
module ManifestModel {
  import opened Wrappers

  type Bytes = seq<bv8>

  /** The process type that the per-process overrides target. */
  const WebProcessType: string := "web"

  datatype ProcessModel = ProcessModel(
    startCommand: string,
    diskQuota: string,
    healthCheckEndpoint: string,
    healthCheckType: string,
    healthCheckTimeout: int,
    instances: int,
    memory: string,
    processType: string)

  datatype Docker = Docker(image: string, username: string)

  datatype ApplicationModel = ApplicationModel(
    startCommand: string,
    name: string,
    buildpacks: seq<string>,
    diskQuota: string,
    docker: Option<Docker>,
    healthCheckType: string,
    healthCheckEndpoint: string,
    healthCheckTimeout: int,
    instances: int,
    path: string,
    processes: seq<ProcessModel>,
    memory: string,
    noRoute: bool,
    randomRoute: bool,
    stack: string)

  /** An application entry; it embeds its model and nothing else. */
  datatype Application = Application(model: ApplicationModel)

  /** The zero application, `Application{}`. */
  const EmptyApplication: Application :=
    Application(ApplicationModel("", "", [], "", None, "", "", 0, 0, "", [], "", false, false, ""))

  // ---------------------------------------------------------------------------
  // YAML documents

  datatype Key =
    | Command | Name | Buildpacks | DiskQuota | DockerBlock | HealthCheckType
    | HealthCheckEndpoint | HealthCheckTimeout | Instances | Path | Processes
    | Memory | NoRoute | RandomRoute | Stack | Image | Username | Type

  /** The YAML tag of each key. */
  function Tag(k: Key): string {
    match k
    case Command => "command"
    case Name => "name"
    case Buildpacks => "buildpacks"
    case DiskQuota => "disk_quota"
    case DockerBlock => "docker"
    case HealthCheckType => "health-check-type"
    case HealthCheckEndpoint => "health-check-http-endpoint"
    case HealthCheckTimeout => "health-check-invocation-timeout"
    case Instances => "instances"
    case Path => "path"
    case Processes => "processes"
    case Memory => "memory"
    case NoRoute => "no-route"
    case RandomRoute => "random-route"
    case Stack => "stack"
    case Image => "image"
    case Username => "username"
    case Type => "type"
  }

  datatype Node =
    | Str(s: string)
    | Int(i: int)
    | Bool(b: bool)
    | List(items: seq<Node>)
    | Mapping(fields: map<Key, Node>)

  /** The keys an application mapping can hold, and those a process mapping can hold. */
  const ApplicationKeys: set<Key> := {
    Command, Name, Buildpacks, DiskQuota, DockerBlock, HealthCheckType, HealthCheckEndpoint,
    HealthCheckTimeout, Instances, Path, Processes, Memory, NoRoute, RandomRoute, Stack}
  const ProcessKeys: set<Key> := {
    Command, DiskQuota, HealthCheckEndpoint, HealthCheckType, HealthCheckTimeout, Instances,
    Memory, Type}

  // `omitempty`: a field holding its zero value is not written.

  function TextField(v: string): Option<Node> {
    if v == "" then None else Some(Str(v))
  }

  function IntField(v: int): Option<Node> {
    if v == 0 then None else Some(Int(v))
  }

  function BoolField(v: bool): Option<Node> {
    if v then Some(Bool(true)) else None
  }

  function TextList(xs: seq<string>): (r: seq<Node>)
    ensures |r| == |xs| && forall i :: 0 <= i < |xs| ==> r[i] == Str(xs[i])
  {
    seq(|xs|, i requires 0 <= i < |xs| => Str(xs[i]))
  }

  function DockerField(d: Docker, k: Key): Option<Node> {
    match k
    case Image => TextField(d.image)
    case Username => TextField(d.username)
    case _ => None
  }

  function MarshalDocker(d: Docker): Node {
    Mapping(map k | k in {Image, Username} && DockerField(d, k).Some? :: DockerField(d, k).value)
  }

  /** What a process writes under each key; `type` is written even when empty. */
  function ProcessField(p: ProcessModel, k: Key): Option<Node> {
    match k
    case Command => TextField(p.startCommand)
    case DiskQuota => TextField(p.diskQuota)
    case HealthCheckEndpoint => TextField(p.healthCheckEndpoint)
    case HealthCheckType => TextField(p.healthCheckType)
    case HealthCheckTimeout => IntField(p.healthCheckTimeout)
    case Instances => IntField(p.instances)
    case Memory => TextField(p.memory)
    case Type => Some(Str(p.processType))
    case _ => None
  }

  function MarshalProcess(p: ProcessModel): (r: Node)
    ensures r.Mapping? && Type in r.fields && r.fields[Type] == Str(p.processType)
    ensures Command in r.fields <==> p.startCommand != ""
    ensures DiskQuota in r.fields <==> p.diskQuota != ""
    ensures HealthCheckEndpoint in r.fields <==> p.healthCheckEndpoint != ""
    ensures HealthCheckType in r.fields <==> p.healthCheckType != ""
    ensures HealthCheckTimeout in r.fields <==> p.healthCheckTimeout != 0
    ensures Instances in r.fields <==> p.instances != 0
    ensures Memory in r.fields <==> p.memory != ""
    ensures r.fields.Keys <= ProcessKeys
  {
    Mapping(map k | k in ProcessKeys && ProcessField(p, k).Some? :: ProcessField(p, k).value)
  }

  function MarshalProcesses(ps: seq<ProcessModel>): (r: seq<Node>)
    ensures |r| == |ps| && forall i :: 0 <= i < |ps| ==> r[i] == MarshalProcess(ps[i])
  {
    seq(|ps|, i requires 0 <= i < |ps| => MarshalProcess(ps[i]))
  }

  /** What an application model writes under each key; `name` is written even when empty. */
  function ModelField(a: ApplicationModel, k: Key): Option<Node> {
    match k
    case Command => TextField(a.startCommand)
    case Name => Some(Str(a.name))
    case Buildpacks => if |a.buildpacks| == 0 then None else Some(List(TextList(a.buildpacks)))
    case DiskQuota => TextField(a.diskQuota)
    case DockerBlock => if a.docker.None? then None else Some(MarshalDocker(a.docker.value))
    case HealthCheckType => TextField(a.healthCheckType)
    case HealthCheckEndpoint => TextField(a.healthCheckEndpoint)
    case HealthCheckTimeout => IntField(a.healthCheckTimeout)
    case Instances => IntField(a.instances)
    case Path => TextField(a.path)
    case Processes => if |a.processes| == 0 then None else Some(List(MarshalProcesses(a.processes)))
    case Memory => TextField(a.memory)
    case NoRoute => BoolField(a.noRoute)
    case RandomRoute => BoolField(a.randomRoute)
    case Stack => TextField(a.stack)
    case _ => None
  }

  function MarshalModel(a: ApplicationModel): (r: Node)
    ensures r.Mapping? && Name in r.fields && r.fields[Name] == Str(a.name)
    ensures Stack in r.fields <==> a.stack != ""
    ensures Processes in r.fields <==> |a.processes| > 0
    ensures DockerBlock in r.fields <==> a.docker.Some?
    ensures NoRoute in r.fields <==> a.noRoute
    ensures RandomRoute in r.fields <==> a.randomRoute
    ensures Type !in r.fields
    ensures r.fields.Keys <= ApplicationKeys
  {
    Mapping(map k | k in ApplicationKeys && ModelField(a, k).Some? :: ModelField(a, k).value)
  }

  /** `omitempty` on the remaining application fields: each is written exactly when it is not its zero value. */
  lemma MarshalModelOmitsEmpty(a: ApplicationModel)
    ensures var f := MarshalModel(a).fields;
            (Command in f <==> a.startCommand != "")
            && (Buildpacks in f <==> |a.buildpacks| > 0)
            && (DiskQuota in f <==> a.diskQuota != "")
            && (HealthCheckType in f <==> a.healthCheckType != "")
            && (HealthCheckEndpoint in f <==> a.healthCheckEndpoint != "")
            && (HealthCheckTimeout in f <==> a.healthCheckTimeout != 0)
            && (Instances in f <==> a.instances != 0)
            && (Path in f <==> a.path != "")
            && (Memory in f <==> a.memory != "")
  {
  }

  /** Application.MarshalYAML: an application is written as its model. */
  function MarshalYAML(app: Application): (r: Node)
    ensures r.Mapping? && Name in r.fields && r.fields[Name] == Str(app.model.name)
  {
    MarshalModel(app.model)
  }

  // Reading: an absent field reads as its zero value; a field of the wrong kind
  // is an error.

  function GetText(f: map<Key, Node>, k: Key): Option<string> {
    if k !in f then Some("")
    else match f[k]
      case Str(s) => Some(s)
      case _ => None
  }

  function GetInt(f: map<Key, Node>, k: Key): Option<int> {
    if k !in f then Some(0)
    else match f[k]
      case Int(i) => Some(i)
      case _ => None
  }

  function GetBool(f: map<Key, Node>, k: Key): Option<bool> {
    if k !in f then Some(false)
    else match f[k]
      case Bool(b) => Some(b)
      case _ => None
  }

  function UnmarshalTexts(items: seq<Node>): Option<seq<string>> {
    if items == [] then Some([])
    else if !items[0].Str? then None
    else
      var rest :- UnmarshalTexts(items[1..]);
      Some([items[0].s] + rest)
  }

  function GetTexts(f: map<Key, Node>, k: Key): Option<seq<string>> {
    if k !in f then Some([])
    else match f[k]
      case List(items) => UnmarshalTexts(items)
      case _ => None
  }

  function UnmarshalDocker(n: Node): Option<Docker> {
    if !n.Mapping? then None
    else
      var image :- GetText(n.fields, Image);
      var username :- GetText(n.fields, Username);
      Some(Docker(image, username))
  }

  function GetDocker(f: map<Key, Node>): Option<Option<Docker>> {
    if DockerBlock !in f then Some(None)
    else
      var d :- UnmarshalDocker(f[DockerBlock]);
      Some(Some(d))
  }

  function UnmarshalProcess(n: Node): Option<ProcessModel> {
    if !n.Mapping? then None
    else
      var f := n.fields;
      var command :- GetText(f, Command);
      var disk :- GetText(f, DiskQuota);
      var endpoint :- GetText(f, HealthCheckEndpoint);
      var checkType :- GetText(f, HealthCheckType);
      var timeout :- GetInt(f, HealthCheckTimeout);
      var instances :- GetInt(f, Instances);
      var memory :- GetText(f, Memory);
      var processType :- GetText(f, Type);
      Some(ProcessModel(command, disk, endpoint, checkType, timeout, instances, memory, processType))
  }

  function UnmarshalProcesses(items: seq<Node>): Option<seq<ProcessModel>> {
    if items == [] then Some([])
    else
      var first :- UnmarshalProcess(items[0]);
      var rest :- UnmarshalProcesses(items[1..]);
      Some([first] + rest)
  }

  function GetProcesses(f: map<Key, Node>): Option<seq<ProcessModel>> {
    if Processes !in f then Some([])
    else match f[Processes]
      case List(items) => UnmarshalProcesses(items)
      case _ => None
  }

  function UnmarshalModel(n: Node): Option<ApplicationModel> {
    if !n.Mapping? then None
    else
      var f := n.fields;
      var command :- GetText(f, Command);
      var name :- GetText(f, Name);
      var buildpacks :- GetTexts(f, Buildpacks);
      var disk :- GetText(f, DiskQuota);
      var docker :- GetDocker(f);
      var checkType :- GetText(f, HealthCheckType);
      var endpoint :- GetText(f, HealthCheckEndpoint);
      var timeout :- GetInt(f, HealthCheckTimeout);
      var instances :- GetInt(f, Instances);
      var path :- GetText(f, Path);
      var processes :- GetProcesses(f);
      var memory :- GetText(f, Memory);
      var noRoute :- GetBool(f, NoRoute);
      var randomRoute :- GetBool(f, RandomRoute);
      var stack :- GetText(f, Stack);
      Some(ApplicationModel(command, name, buildpacks, disk, docker, checkType, endpoint, timeout,
                            instances, path, processes, memory, noRoute, randomRoute, stack))
  }

  /** Application.UnmarshalYAML: only the model's fields are read. */
  function UnmarshalYAML(n: Node): (r: Option<Application>)
    ensures r.Some? <==> UnmarshalModel(n).Some?
    ensures r.Some? ==> r.value.model == UnmarshalModel(n).value
  {
    var m :- UnmarshalModel(n);
    Some(Application(m))
  }

  // ---------------------------------------------------------------------------
  // Round trips

  /** Every tag is distinct, so a mapping keyed by `Key` is one keyed by tag text. */
  lemma TagInjective(k1: Key, k2: Key)
    requires Tag(k1) == Tag(k2)
    ensures k1 == k2
  {
  }

  lemma {:induction false} TextsRoundTrip(xs: seq<string>)
    ensures UnmarshalTexts(TextList(xs)) == Some(xs)
  {
    if xs != [] {
      assert TextList(xs)[1..] == TextList(xs[1..]);
      TextsRoundTrip(xs[1..]);
      assert [xs[0]] + xs[1..] == xs;
    }
  }

  lemma ProcessRoundTrip(p: ProcessModel)
    ensures UnmarshalProcess(MarshalProcess(p)) == Some(p)
  {
  }

  lemma {:induction false} ProcessesRoundTrip(ps: seq<ProcessModel>)
    ensures UnmarshalProcesses(MarshalProcesses(ps)) == Some(ps)
  {
    if ps != [] {
      ProcessRoundTrip(ps[0]);
      assert MarshalProcesses(ps)[1..] == MarshalProcesses(ps[1..]);
      ProcessesRoundTrip(ps[1..]);
      assert [ps[0]] + ps[1..] == ps;
    }
  }

  /** Reading one key of a written application. */
  lemma ModelFieldAt(a: ApplicationModel, k: Key)
    ensures var f := MarshalModel(a).fields;
      && (k in f <==> k in ApplicationKeys && ModelField(a, k).Some?)
      && (k in f ==> f[k] == ModelField(a, k).value)
  {
  }

  lemma TextRead(a: ApplicationModel, k: Key, v: string)
    requires k in ApplicationKeys && ModelField(a, k) == TextField(v)
    ensures GetText(MarshalModel(a).fields, k) == Some(v)
  {
    ModelFieldAt(a, k);
  }

  lemma IntRead(a: ApplicationModel, k: Key, v: int)
    requires k in ApplicationKeys && ModelField(a, k) == IntField(v)
    ensures GetInt(MarshalModel(a).fields, k) == Some(v)
  {
    ModelFieldAt(a, k);
  }

  lemma BoolRead(a: ApplicationModel, k: Key, v: bool)
    requires k in ApplicationKeys && ModelField(a, k) == BoolField(v)
    ensures GetBool(MarshalModel(a).fields, k) == Some(v)
  {
    ModelFieldAt(a, k);
  }

  lemma LeadingFieldsRead(a: ApplicationModel, f: map<Key, Node>)
    requires f == MarshalModel(a).fields
    ensures GetText(f, Command) == Some(a.startCommand) && GetText(f, Name) == Some(a.name)
    ensures GetTexts(f, Buildpacks) == Some(a.buildpacks) && GetText(f, DiskQuota) == Some(a.diskQuota)
    ensures GetDocker(f) == Some(a.docker)
  {
    TextRead(a, Command, a.startCommand);
    ModelFieldAt(a, Name);
    TextsRoundTrip(a.buildpacks);
    ModelFieldAt(a, Buildpacks);
    TextRead(a, DiskQuota, a.diskQuota);
    ModelFieldAt(a, DockerBlock);
  }

  lemma HealthFieldsRead(a: ApplicationModel, f: map<Key, Node>)
    requires f == MarshalModel(a).fields
    ensures GetText(f, HealthCheckType) == Some(a.healthCheckType)
    ensures GetText(f, HealthCheckEndpoint) == Some(a.healthCheckEndpoint)
    ensures GetInt(f, HealthCheckTimeout) == Some(a.healthCheckTimeout)
    ensures GetInt(f, Instances) == Some(a.instances) && GetText(f, Path) == Some(a.path)
  {
    TextRead(a, HealthCheckType, a.healthCheckType);
    TextRead(a, HealthCheckEndpoint, a.healthCheckEndpoint);
    IntRead(a, HealthCheckTimeout, a.healthCheckTimeout);
    IntRead(a, Instances, a.instances);
    TextRead(a, Path, a.path);
  }

  lemma ProcessesRead(a: ApplicationModel, f: map<Key, Node>)
    requires f == MarshalModel(a).fields
    ensures GetProcesses(f) == Some(a.processes)
  {
    ProcessesRoundTrip(a.processes);
    ModelFieldAt(a, Processes);
  }

  lemma TrailingFieldsRead(a: ApplicationModel, f: map<Key, Node>)
    requires f == MarshalModel(a).fields
    ensures GetText(f, Memory) == Some(a.memory)
    ensures GetBool(f, NoRoute) == Some(a.noRoute) && GetBool(f, RandomRoute) == Some(a.randomRoute)
    ensures GetText(f, Stack) == Some(a.stack)
  {
    TextRead(a, Memory, a.memory);
    BoolRead(a, NoRoute, a.noRoute);
    BoolRead(a, RandomRoute, a.randomRoute);
    TextRead(a, Stack, a.stack);
  }

  /** Reading back what was written gives the same application model. */
  lemma ModelRoundTrip(a: ApplicationModel)
    ensures UnmarshalModel(MarshalModel(a)) == Some(a)
  {
    var f := MarshalModel(a).fields;
    LeadingFieldsRead(a, f);
    HealthFieldsRead(a, f);
    ProcessesRead(a, f);
    TrailingFieldsRead(a, f);
  }

  /** Writing an application and reading the document back gives the same application. */
  lemma ApplicationRoundTrip(app: Application)
    ensures UnmarshalYAML(MarshalYAML(app)) == Some(app)
  {
    ModelRoundTrip(app.model);
  }
}
