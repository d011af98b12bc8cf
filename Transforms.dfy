/**
 * The override transforms of `cf push`: each folds one command-line flag into
 * a parsed manifest. They share one recipe: a flag left at its "unset" value
 * changes nothing; a set flag on a manifest with several applications is
 * refused with CommandLineArgsWithMultipleAppsError; otherwise the value is
 * written into application 0 (for the per-process fields: into its first `web`
 * process, or into the application itself when it has none).
 *
 * Each transform appears twice. The function (`DiskFlagTransform`, ...) is the
 * value that a transform sequence holds, and carries the contract; a Go panic
 * (application 0 of an empty manifest, the fields of an absent docker block)
 * is its `Panicked` outcome. The method of the source's name
 * (`TransformManifestWithDiskFlag`, ...) is the step-by-step write of the
 * source, callable only where the source does not panic, and is proved to
 * produce what the function produces.
 */
module Transforms {
  import opened Wrappers
  import opened Errors
  import opened ManifestModel
  import opened ManifestParser
  import opened PushPlan

  /** What calling a transform comes to: a manifest and an error, or a runtime panic. */
  datatype Outcome = Returned(manifest: ParsedManifest, err: Option<Error>) | Panicked

  type TransformManifestFunc = (ParsedManifest, FlagOverrides) -> Outcome

  // ---------------------------------------------------------------------------
  // Fields written by the overrides

  /** A per-process field and the value an override writes into it. */
  datatype ProcessOverride =
    | DiskQuotaTo(text: string)
    | MemoryTo(text: string)
    | InstancesTo(count: int)
    | StartCommandTo(text: string)
    | HealthCheckTypeTo(text: string)
    | HealthCheckEndpointTo(text: string)
    | HealthCheckTimeoutTo(count: int)

  function SetOnProcess(p: ProcessModel, ov: ProcessOverride): ProcessModel {
    match ov
    case DiskQuotaTo(s) => p.(diskQuota := s)
    case MemoryTo(s) => p.(memory := s)
    case InstancesTo(n) => p.(instances := n)
    case StartCommandTo(s) => p.(startCommand := s)
    case HealthCheckTypeTo(s) => p.(healthCheckType := s)
    case HealthCheckEndpointTo(s) => p.(healthCheckEndpoint := s)
    case HealthCheckTimeoutTo(n) => p.(healthCheckTimeout := n)
  }

  function SetProcessFieldOnApp(a: ApplicationModel, ov: ProcessOverride): ApplicationModel {
    match ov
    case DiskQuotaTo(s) => a.(diskQuota := s)
    case MemoryTo(s) => a.(memory := s)
    case InstancesTo(n) => a.(instances := n)
    case StartCommandTo(s) => a.(startCommand := s)
    case HealthCheckTypeTo(s) => a.(healthCheckType := s)
    case HealthCheckEndpointTo(s) => a.(healthCheckEndpoint := s)
    case HealthCheckTimeoutTo(n) => a.(healthCheckTimeout := n)
  }

  /** The process's field named by `ov` holds `ov`'s value. */
  predicate ProcessHolds(p: ProcessModel, ov: ProcessOverride) {
    match ov
    case DiskQuotaTo(s) => p.diskQuota == s
    case MemoryTo(s) => p.memory == s
    case InstancesTo(n) => p.instances == n
    case StartCommandTo(s) => p.startCommand == s
    case HealthCheckTypeTo(s) => p.healthCheckType == s
    case HealthCheckEndpointTo(s) => p.healthCheckEndpoint == s
    case HealthCheckTimeoutTo(n) => p.healthCheckTimeout == n
  }

  /** The application's field named by `ov` holds `ov`'s value. */
  predicate AppHoldsProcessField(a: ApplicationModel, ov: ProcessOverride) {
    match ov
    case DiskQuotaTo(s) => a.diskQuota == s
    case MemoryTo(s) => a.memory == s
    case InstancesTo(n) => a.instances == n
    case StartCommandTo(s) => a.startCommand == s
    case HealthCheckTypeTo(s) => a.healthCheckType == s
    case HealthCheckEndpointTo(s) => a.healthCheckEndpoint == s
    case HealthCheckTimeoutTo(n) => a.healthCheckTimeout == n
  }

  /** An application-level field and the value an override writes into it. */
  datatype AppOverride =
    | BuildpacksTo(list: seq<string>)
    | StackTo(text: string)
    | DockerImageTo(text: string)
    | DockerUsernameTo(text: string)
    | NoRouteTo(flag: bool)

  /** The docker overrides write through the docker block without checking that there is one. */
  predicate DereferencesDocker(ov: AppOverride) {
    ov.DockerImageTo? || ov.DockerUsernameTo?
  }

  function SetOnApp(a: ApplicationModel, ov: AppOverride): ApplicationModel {
    match ov
    case BuildpacksTo(bs) => a.(buildpacks := bs)
    case StackTo(s) => a.(stack := s)
    case DockerImageTo(s) =>
      a.(docker := Some(if a.docker.Some? then a.docker.value.(image := s) else Docker(s, "")))
    case DockerUsernameTo(s) =>
      a.(docker := Some(if a.docker.Some? then a.docker.value.(username := s) else Docker("", s)))
    case NoRouteTo(b) => a.(noRoute := b)
  }

  predicate AppHolds(a: ApplicationModel, ov: AppOverride) {
    match ov
    case BuildpacksTo(bs) => a.buildpacks == bs
    case StackTo(s) => a.stack == s
    case DockerImageTo(s) => a.docker.Some? && a.docker.value.image == s
    case DockerUsernameTo(s) => a.docker.Some? && a.docker.value.username == s
    case NoRouteTo(b) => a.noRoute == b
  }

  function WithFirstApp(m: ParsedManifest, a: ApplicationModel): (r: ParsedManifest)
    requires |m.applications| >= 1
  {
    m.(applications := m.applications[0 := Application(a)])
  }

  // ---------------------------------------------------------------------------
  // What a transform promises

  /**
   * `m'` is `m` with only the override written: into the first `web` process
   * of application 0 when it has one (every other process, and the
   * application's own fields, unchanged), else into application 0 itself (its
   * processes unchanged). Two values agree outside a field when overwriting
   * that field in both makes them equal.
   */
  ghost predicate PlacedOnWebOrApp(m: ParsedManifest, m': ParsedManifest, ov: ProcessOverride)
    requires |m.applications| >= 1
  {
    |m'.applications| == |m.applications|
    && m'.(applications := m.applications) == m
    && (forall k :: 1 <= k < |m.applications| ==> m'.applications[k] == m.applications[k])
    && var a := m.applications[0].model;
       var a' := m'.applications[0].model;
       match FirstWebIndex(a.processes)
       case Some(i) =>
         |a'.processes| == |a.processes|
         && ProcessHolds(a'.processes[i], ov)
         && SetOnProcess(a'.processes[i], ov) == SetOnProcess(a.processes[i], ov)
         && (forall j :: 0 <= j < |a.processes| && j != i ==> a'.processes[j] == a.processes[j])
         && a'.(processes := a.processes) == a
       case None =>
         AppHoldsProcessField(a', ov)
         && SetProcessFieldOnApp(a', ov) == SetProcessFieldOnApp(a, ov)
  }

  /** `m'` is `m` with only application 0's field written. */
  ghost predicate PlacedOnApp(m: ParsedManifest, m': ParsedManifest, ov: AppOverride)
    requires |m.applications| >= 1
  {
    |m'.applications| == |m.applications|
    && m'.(applications := m.applications) == m
    && (forall k :: 1 <= k < |m.applications| ==> m'.applications[k] == m.applications[k])
    && AppHolds(m'.applications[0].model, ov)
    && SetOnApp(m'.applications[0].model, ov) == SetOnApp(m.applications[0].model, ov)
  }

  /** The recipe, for a per-process override. */
  ghost predicate ProcessTransformContract(m: ParsedManifest, isSet: bool, ov: ProcessOverride, r: Outcome) {
    (!isSet ==> r == Returned(m, None))
    && (isSet && m.ContainsMultipleApps() ==> r == Returned(m, Some(CommandLineArgsWithMultipleAppsError)))
    && (isSet && |m.applications| == 0 ==> r == Panicked)
    && (isSet && |m.applications| == 1 ==> r.Returned? && r.err.None? && PlacedOnWebOrApp(m, r.manifest, ov))
  }

  /** The recipe, for an application-level override. */
  ghost predicate AppTransformContract(m: ParsedManifest, isSet: bool, ov: AppOverride, r: Outcome) {
    (!isSet ==> r == Returned(m, None))
    && (isSet && m.ContainsMultipleApps() ==> r == Returned(m, Some(CommandLineArgsWithMultipleAppsError)))
    && (isSet && |m.applications| == 0 ==> r == Panicked)
    && (isSet && |m.applications| == 1 && DereferencesDocker(ov) && m.applications[0].model.docker.None?
        ==> r == Panicked)
    && (isSet && |m.applications| == 1 && !(DereferencesDocker(ov) && m.applications[0].model.docker.None?)
        ==> r.Returned? && r.err.None? && PlacedOnApp(m, r.manifest, ov))
  }

  // ---------------------------------------------------------------------------
  // The recipe

  /** Write a per-process override into the first web process of application 0, or into the application. */
  function OverrideWebOrApp(m: ParsedManifest, ov: ProcessOverride): (r: ParsedManifest)
    requires |m.applications| >= 1
    ensures PlacedOnWebOrApp(m, r, ov)
  {
    var a := m.applications[0].model;
    match FirstWebIndex(a.processes)
    case Some(i) => WithProcess(m, i, SetOnProcess(a.processes[i], ov))
    case None => WithFirstApp(m, SetProcessFieldOnApp(a, ov))
  }

  function ProcessFieldTransform(m: ParsedManifest, isSet: bool, ov: ProcessOverride): (r: Outcome)
    ensures ProcessTransformContract(m, isSet, ov, r)
  {
    if !isSet then Returned(m, None)
    else if m.ContainsMultipleApps() then Returned(m, Some(CommandLineArgsWithMultipleAppsError))
    else if |m.applications| == 0 then Panicked
    else Returned(OverrideWebOrApp(m, ov), None)
  }

  function AppFieldTransform(m: ParsedManifest, isSet: bool, ov: AppOverride): (r: Outcome)
    ensures AppTransformContract(m, isSet, ov, r)
  {
    if !isSet then Returned(m, None)
    else if m.ContainsMultipleApps() then Returned(m, Some(CommandLineArgsWithMultipleAppsError))
    else if |m.applications| == 0 then Panicked
    else if DereferencesDocker(ov) && m.applications[0].model.docker.None? then Panicked
    else Returned(WithFirstApp(m, SetOnApp(m.applications[0].model, ov)), None)
  }

  // ---------------------------------------------------------------------------
  // The transforms as values

  function DiskFlagTransform(m: ParsedManifest, o: FlagOverrides): (r: Outcome)
    ensures ProcessTransformContract(m, o.disk != "", DiskQuotaTo(o.disk), r)
  {
    ProcessFieldTransform(m, o.disk != "", DiskQuotaTo(o.disk))
  }

  function MemoryFlagTransform(m: ParsedManifest, o: FlagOverrides): (r: Outcome)
    ensures ProcessTransformContract(m, o.memory != "", MemoryTo(o.memory), r)
  {
    ProcessFieldTransform(m, o.memory != "", MemoryTo(o.memory))
  }

  function InstancesFlagTransform(m: ParsedManifest, o: FlagOverrides): (r: Outcome)
    ensures ProcessTransformContract(m, o.instances.isSet, InstancesTo(o.instances.value), r)
  {
    ProcessFieldTransform(m, o.instances.isSet, InstancesTo(o.instances.value))
  }

  function StartCommandFlagTransform(m: ParsedManifest, o: FlagOverrides): (r: Outcome)
    ensures ProcessTransformContract(m, o.startCommand.isSet, StartCommandTo(o.startCommand.value), r)
  {
    ProcessFieldTransform(m, o.startCommand.isSet, StartCommandTo(o.startCommand.value))
  }

  function HealthCheckTypeFlagTransform(m: ParsedManifest, o: FlagOverrides): (r: Outcome)
    ensures ProcessTransformContract(m, o.healthCheckType != "", HealthCheckTypeTo(o.healthCheckType), r)
  {
    ProcessFieldTransform(m, o.healthCheckType != "", HealthCheckTypeTo(o.healthCheckType))
  }

  function HealthCheckEndpointFlagTransform(m: ParsedManifest, o: FlagOverrides): (r: Outcome)
    ensures ProcessTransformContract(m, o.healthCheckEndpoint != "", HealthCheckEndpointTo(o.healthCheckEndpoint), r)
  {
    ProcessFieldTransform(m, o.healthCheckEndpoint != "", HealthCheckEndpointTo(o.healthCheckEndpoint))
  }

  function HealthCheckTimeoutFlagTransform(m: ParsedManifest, o: FlagOverrides): (r: Outcome)
    ensures ProcessTransformContract(m, o.healthCheckTimeout != 0, HealthCheckTimeoutTo(o.healthCheckTimeout), r)
  {
    ProcessFieldTransform(m, o.healthCheckTimeout != 0, HealthCheckTimeoutTo(o.healthCheckTimeout))
  }

  function BuildpacksFlagTransform(m: ParsedManifest, o: FlagOverrides): (r: Outcome)
    ensures AppTransformContract(m, |o.buildpacks| > 0, BuildpacksTo(o.buildpacks), r)
  {
    AppFieldTransform(m, |o.buildpacks| > 0, BuildpacksTo(o.buildpacks))
  }

  function DockerImageFlagTransform(m: ParsedManifest, o: FlagOverrides): (r: Outcome)
    ensures AppTransformContract(m, o.dockerImage != "", DockerImageTo(o.dockerImage), r)
  {
    AppFieldTransform(m, o.dockerImage != "", DockerImageTo(o.dockerImage))
  }

  function DockerUsernameFlagTransform(m: ParsedManifest, o: FlagOverrides): (r: Outcome)
    ensures AppTransformContract(m, o.dockerUsername != "", DockerUsernameTo(o.dockerUsername), r)
  {
    AppFieldTransform(m, o.dockerUsername != "", DockerUsernameTo(o.dockerUsername))
  }

  /** Only `NoRoute` is written; `RandomRoute` keeps whatever the manifest had. */
  function NoRouteFlagTransform(m: ParsedManifest, o: FlagOverrides): (r: Outcome)
    ensures AppTransformContract(m, o.noRoute, NoRouteTo(true), r)
    ensures r.Returned? ==> forall k :: 0 <= k < |m.applications| ==>
              r.manifest.applications[k].model.randomRoute == m.applications[k].model.randomRoute
  {
    AppFieldTransform(m, o.noRoute, NoRouteTo(true))
  }

  /**
   * The stack transform as the source has it: the multiple-applications check
   * sits under the guard, but the write does not, so application 0's stack is
   * overwritten on every call, with `""` when no `--stack` was given, and an
   * empty manifest panics whatever the flag.
   */
  function StackFlagTransformAsWritten(m: ParsedManifest, o: FlagOverrides): (r: Outcome)
    ensures o.stack != "" && m.ContainsMultipleApps() ==> r == Returned(m, Some(CommandLineArgsWithMultipleAppsError))
    ensures |m.applications| == 0 ==> r == Panicked
    ensures |m.applications| >= 1 && !(o.stack != "" && m.ContainsMultipleApps()) ==>
              r.Returned? && r.err.None? && PlacedOnApp(m, r.manifest, StackTo(o.stack))
  {
    if o.stack != "" && m.ContainsMultipleApps() then Returned(m, Some(CommandLineArgsWithMultipleAppsError))
    else if |m.applications| == 0 then Panicked
    else Returned(WithFirstApp(m, m.applications[0].model.(stack := o.stack)), None)
  }

  /** The stack transform with its write under the guard, like every other application-level transform. */
  function StackFlagTransform(m: ParsedManifest, o: FlagOverrides): (r: Outcome)
    ensures AppTransformContract(m, o.stack != "", StackTo(o.stack), r)
  {
    AppFieldTransform(m, o.stack != "", StackTo(o.stack))
  }

  // ---------------------------------------------------------------------------
  // The transforms as the source writes them

  method TransformManifestWithDiskFlag(manifest: ParsedManifest, overrides: FlagOverrides)
    returns (m: ParsedManifest, err: Option<Error>)
    requires overrides.disk != "" ==> |manifest.applications| != 0
    ensures Returned(m, err) == DiskFlagTransform(manifest, overrides)
  {
    m := manifest;
    if overrides.disk != "" {
      if m.ContainsMultipleApps() {
        return m, Some(CommandLineArgsWithMultipleAppsError);
      }
      var webProcess := GetFirstAppWebProcess(m);
      if webProcess.Some? {
        var p := m.applications[0].model.processes[webProcess.value];
        m := WithProcess(m, webProcess.value, p.(diskQuota := overrides.disk));
      } else {
        var app := m.applications[0].model;
        m := WithFirstApp(m, app.(diskQuota := overrides.disk));
      }
    }
    return m, None;
  }

  method TransformManifestWithMemoryFlag(manifest: ParsedManifest, overrides: FlagOverrides)
    returns (m: ParsedManifest, err: Option<Error>)
    requires overrides.memory != "" ==> |manifest.applications| != 0
    ensures Returned(m, err) == MemoryFlagTransform(manifest, overrides)
  {
    m := manifest;
    if overrides.memory != "" {
      if m.ContainsMultipleApps() {
        return m, Some(CommandLineArgsWithMultipleAppsError);
      }
      var webProcess := GetFirstAppWebProcess(m);
      if webProcess.Some? {
        var p := m.applications[0].model.processes[webProcess.value];
        m := WithProcess(m, webProcess.value, p.(memory := overrides.memory));
      } else {
        var app := m.applications[0].model;
        m := WithFirstApp(m, app.(memory := overrides.memory));
      }
    }
    return m, None;
  }

  method TransformManifestWithInstancesFlag(manifest: ParsedManifest, overrides: FlagOverrides)
    returns (m: ParsedManifest, err: Option<Error>)
    requires overrides.instances.isSet ==> |manifest.applications| != 0
    ensures Returned(m, err) == InstancesFlagTransform(manifest, overrides)
  {
    m := manifest;
    if overrides.instances.isSet {
      if m.ContainsMultipleApps() {
        return m, Some(CommandLineArgsWithMultipleAppsError);
      }
      var webProcess := GetFirstAppWebProcess(m);
      if webProcess.Some? {
        var p := m.applications[0].model.processes[webProcess.value];
        m := WithProcess(m, webProcess.value, p.(instances := overrides.instances.value));
      } else {
        var app := m.applications[0].model;
        m := WithFirstApp(m, app.(instances := overrides.instances.value));
      }
    }
    return m, None;
  }

  method TransformManifestWithStartCommandFlag(manifest: ParsedManifest, overrides: FlagOverrides)
    returns (m: ParsedManifest, err: Option<Error>)
    requires overrides.startCommand.isSet ==> |manifest.applications| != 0
    ensures Returned(m, err) == StartCommandFlagTransform(manifest, overrides)
  {
    m := manifest;
    if overrides.startCommand.isSet {
      if m.ContainsMultipleApps() {
        return m, Some(CommandLineArgsWithMultipleAppsError);
      }
      var webProcess := GetFirstAppWebProcess(m);
      if webProcess.Some? {
        var p := m.applications[0].model.processes[webProcess.value];
        m := WithProcess(m, webProcess.value, p.(startCommand := overrides.startCommand.value));
      } else {
        var app := m.applications[0].model;
        m := WithFirstApp(m, app.(startCommand := overrides.startCommand.value));
      }
    }
    return m, None;
  }

  method TransformManifestWithHealthCheckTypeFlag(manifest: ParsedManifest, overrides: FlagOverrides)
    returns (m: ParsedManifest, err: Option<Error>)
    requires overrides.healthCheckType != "" ==> |manifest.applications| != 0
    ensures Returned(m, err) == HealthCheckTypeFlagTransform(manifest, overrides)
  {
    m := manifest;
    if overrides.healthCheckType != "" {
      if m.ContainsMultipleApps() {
        return m, Some(CommandLineArgsWithMultipleAppsError);
      }
      var webProcess := GetFirstAppWebProcess(m);
      if webProcess.Some? {
        var p := m.applications[0].model.processes[webProcess.value];
        m := WithProcess(m, webProcess.value, p.(healthCheckType := overrides.healthCheckType));
      } else {
        var app := m.applications[0].model;
        m := WithFirstApp(m, app.(healthCheckType := overrides.healthCheckType));
      }
    }
    return m, None;
  }

  method TransformManifestWithHealthCheckEndpointFlag(manifest: ParsedManifest, overrides: FlagOverrides)
    returns (m: ParsedManifest, err: Option<Error>)
    requires overrides.healthCheckEndpoint != "" ==> |manifest.applications| != 0
    ensures Returned(m, err) == HealthCheckEndpointFlagTransform(manifest, overrides)
  {
    m := manifest;
    if overrides.healthCheckEndpoint != "" {
      if m.ContainsMultipleApps() {
        return m, Some(CommandLineArgsWithMultipleAppsError);
      }
      var webProcess := GetFirstAppWebProcess(m);
      if webProcess.Some? {
        var p := m.applications[0].model.processes[webProcess.value];
        m := WithProcess(m, webProcess.value, p.(healthCheckEndpoint := overrides.healthCheckEndpoint));
      } else {
        var app := m.applications[0].model;
        m := WithFirstApp(m, app.(healthCheckEndpoint := overrides.healthCheckEndpoint));
      }
    }
    return m, None;
  }

  method TransformManifestWithHealthCheckTimeoutFlag(manifest: ParsedManifest, overrides: FlagOverrides)
    returns (m: ParsedManifest, err: Option<Error>)
    requires overrides.healthCheckTimeout != 0 ==> |manifest.applications| != 0
    ensures Returned(m, err) == HealthCheckTimeoutFlagTransform(manifest, overrides)
  {
    m := manifest;
    if overrides.healthCheckTimeout != 0 {
      if m.ContainsMultipleApps() {
        return m, Some(CommandLineArgsWithMultipleAppsError);
      }
      var webProcess := GetFirstAppWebProcess(m);
      if webProcess.Some? {
        var p := m.applications[0].model.processes[webProcess.value];
        m := WithProcess(m, webProcess.value, p.(healthCheckTimeout := overrides.healthCheckTimeout));
      } else {
        var app := m.applications[0].model;
        m := WithFirstApp(m, app.(healthCheckTimeout := overrides.healthCheckTimeout));
      }
    }
    return m, None;
  }

  method TransformManifestWithBuildpacksFlag(manifest: ParsedManifest, overrides: FlagOverrides)
    returns (m: ParsedManifest, err: Option<Error>)
    requires |overrides.buildpacks| > 0 ==> |manifest.applications| != 0
    ensures Returned(m, err) == BuildpacksFlagTransform(manifest, overrides)
  {
    m := manifest;
    if |overrides.buildpacks| > 0 {
      if m.ContainsMultipleApps() {
        return m, Some(CommandLineArgsWithMultipleAppsError);
      }
      m := WithFirstApp(m, m.applications[0].model.(buildpacks := overrides.buildpacks));
    }
    return m, None;
  }

  method TransformManifestWithDockerImageFlag(manifest: ParsedManifest, overrides: FlagOverrides)
    returns (m: ParsedManifest, err: Option<Error>)
    requires overrides.dockerImage != "" && |manifest.applications| <= 1 ==>
               |manifest.applications| == 1 && manifest.applications[0].model.docker.Some?
    ensures Returned(m, err) == DockerImageFlagTransform(manifest, overrides)
  {
    m := manifest;
    if overrides.dockerImage != "" {
      if m.ContainsMultipleApps() {
        return m, Some(CommandLineArgsWithMultipleAppsError);
      }
      var app := m.applications[0].model;
      m := WithFirstApp(m, app.(docker := Some(app.docker.value.(image := overrides.dockerImage))));
    }
    return m, None;
  }

  method TransformManifestWithDockerUsernameFlag(manifest: ParsedManifest, overrides: FlagOverrides)
    returns (m: ParsedManifest, err: Option<Error>)
    requires overrides.dockerUsername != "" && |manifest.applications| <= 1 ==>
               |manifest.applications| == 1 && manifest.applications[0].model.docker.Some?
    ensures Returned(m, err) == DockerUsernameFlagTransform(manifest, overrides)
  {
    m := manifest;
    if overrides.dockerUsername != "" {
      if m.ContainsMultipleApps() {
        return m, Some(CommandLineArgsWithMultipleAppsError);
      }
      var app := m.applications[0].model;
      m := WithFirstApp(m, app.(docker := Some(app.docker.value.(username := overrides.dockerUsername))));
    }
    return m, None;
  }

  method TransformManifestWithNoRouteFlag(manifest: ParsedManifest, overrides: FlagOverrides)
    returns (m: ParsedManifest, err: Option<Error>)
    requires overrides.noRoute ==> |manifest.applications| != 0
    ensures Returned(m, err) == NoRouteFlagTransform(manifest, overrides)
  {
    m := manifest;
    if overrides.noRoute {
      if m.ContainsMultipleApps() {
        return m, Some(CommandLineArgsWithMultipleAppsError);
      }
      var app := m.applications[0].model;
      m := WithFirstApp(m, app.(noRoute := overrides.noRoute));
    }
    return m, None;
  }

  method TransformManifestWithStackFlag(manifest: ParsedManifest, overrides: FlagOverrides)
    returns (m: ParsedManifest, err: Option<Error>)
    requires |manifest.applications| != 0
    ensures Returned(m, err) == StackFlagTransformAsWritten(manifest, overrides)
  {
    m := manifest;
    if overrides.stack != "" {
      if m.ContainsMultipleApps() {
        return m, Some(CommandLineArgsWithMultipleAppsError);
      }
    }
    m := WithFirstApp(m, m.applications[0].model.(stack := overrides.stack));
    return m, None;
  }

  // ---------------------------------------------------------------------------
  // Properties across calls

  /** Rewriting a process field leaves the process type, so the first web process stays where it was. */
  lemma {:induction false} FirstWebIndexAfterWrite(ps: seq<ProcessModel>, i: nat, p: ProcessModel)
    requires i < |ps| && p.processType == ps[i].processType
    ensures FirstWebIndex(ps[i := p]) == FirstWebIndex(ps)
    decreases |ps|
  {
    if i > 0 {
      assert ps[i := p][1..] == ps[1..][i - 1 := p];
      FirstWebIndexAfterWrite(ps[1..], i - 1, p);
    }
  }

  /** A per-process transform applied to its own output changes nothing more. */
  lemma ProcessFieldTransformIdempotent(m: ParsedManifest, isSet: bool, ov: ProcessOverride)
    requires ProcessFieldTransform(m, isSet, ov).Returned?
    requires ProcessFieldTransform(m, isSet, ov).err.None?
    ensures ProcessFieldTransform(ProcessFieldTransform(m, isSet, ov).manifest, isSet, ov)
            == ProcessFieldTransform(m, isSet, ov)
  {
    if isSet {
      var a := m.applications[0].model;
      match FirstWebIndex(a.processes)
      case Some(i) =>
        var p := SetOnProcess(a.processes[i], ov);
        FirstWebIndexAfterWrite(a.processes, i, p);
        var m1 := WithProcess(m, i, p);
        assert m1.applications[0].model.processes == a.processes[i := p];
        assert SetOnProcess(p, ov) == p;
        var a1 := m1.applications[0].model;
        assert a1.processes[i := p] == a1.processes;
        assert a1.(processes := a1.processes) == a1;
        assert m1.applications[0 := Application(a1)] == m1.applications;
        assert WithProcess(m1, i, p) == m1;
      case None =>
    }
  }

  /** An application-level transform applied to its own output changes nothing more. */
  lemma AppFieldTransformIdempotent(m: ParsedManifest, isSet: bool, ov: AppOverride)
    requires AppFieldTransform(m, isSet, ov).Returned?
    requires AppFieldTransform(m, isSet, ov).err.None?
    ensures AppFieldTransform(AppFieldTransform(m, isSet, ov).manifest, isSet, ov)
            == AppFieldTransform(m, isSet, ov)
  {
  }

  /** Every transform except the stack one is the identity while its flag is unset. */
  lemma UnsetFlagsChangeNothing(m: ParsedManifest)
    ensures DiskFlagTransform(m, NoOverrides) == Returned(m, None)
    ensures MemoryFlagTransform(m, NoOverrides) == Returned(m, None)
    ensures InstancesFlagTransform(m, NoOverrides) == Returned(m, None)
    ensures StartCommandFlagTransform(m, NoOverrides) == Returned(m, None)
    ensures HealthCheckTypeFlagTransform(m, NoOverrides) == Returned(m, None)
    ensures HealthCheckEndpointFlagTransform(m, NoOverrides) == Returned(m, None)
    ensures HealthCheckTimeoutFlagTransform(m, NoOverrides) == Returned(m, None)
    ensures BuildpacksFlagTransform(m, NoOverrides) == Returned(m, None)
    ensures DockerImageFlagTransform(m, NoOverrides) == Returned(m, None)
    ensures DockerUsernameFlagTransform(m, NoOverrides) == Returned(m, None)
    ensures NoRouteFlagTransform(m, NoOverrides) == Returned(m, None)
    ensures StackFlagTransform(m, NoOverrides) == Returned(m, None)
  {
  }

  /** An application carrying a stack of its own. */
  const StackedApp: Application := Application(EmptyApplication.model.(stack := "cflinuxfs3"))

  /**
   * The stack transform as written is not the identity without `--stack`: on a
   * one-application manifest whose stack is "cflinuxfs3" it returns the stack
   * cleared, where the guarded transform returns the manifest unchanged.
   */
  lemma StackFlagClearsStack()
    ensures var m := EmptyManifest.(applications := [StackedApp]);
            StackFlagTransformAsWritten(m, NoOverrides).Returned?
            && StackFlagTransformAsWritten(m, NoOverrides).manifest.applications[0].model.stack == ""
            && StackFlagTransformAsWritten(m, NoOverrides) != Returned(m, None)
            && StackFlagTransform(m, NoOverrides) == Returned(m, None)
  {
    var m := EmptyManifest.(applications := [StackedApp]);
    assert m.applications[0].model.stack == "cflinuxfs3";
  }

  /** With `--stack` given, the transform as written and the guarded one agree. */
  lemma StackFlagAgreesWhenSet(m: ParsedManifest, o: FlagOverrides)
    requires o.stack != ""
    ensures StackFlagTransformAsWritten(m, o) == StackFlagTransform(m, o)
  {
  }
}
