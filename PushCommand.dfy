/**
 * The decisions `cf push` takes on its flags before pushing: which flag
 * combinations are refused, which flags are refused for a manifest with several
 * applications, how the flags become the overrides, and how the errors of a
 * failed start are shown.
 */
module PushCommand {
  import opened Wrappers
  import opened Errors
  import opened Interpolation
  import opened PushPlan

  const HTTP: string := "http"
  const DeploymentStrategyRolling: string := "rolling"

  /**
   * The flags of `cf push`. `buildpacks` is None when `-b` was not given (a nil
   * slice), which `ValidateFlags` tells apart from an empty list.
   */
  datatype PushCommand = PushCommand(
    appName: string,
    healthCheckTimeout: int,
    buildpacks: Option<seq<string>>,
    disk: string,
    dockerImage: string,
    dockerUsername: string,
    dropletPath: string,
    healthCheckHTTPEndpoint: string,
    healthCheckType: string,
    instances: NullInt,
    pathToManifest: string,
    memory: string,
    noManifest: bool,
    noRoute: bool,
    noStart: bool,
    noWait: bool,
    appPath: string,
    randomRoute: bool,
    stack: string,
    startCommand: FilteredString,
    strategy: string,
    vars: seq<VarKV>,
    pathsToVarsFiles: seq<string>)

  // ---------------------------------------------------------------------------
  // ValidateFlags

  /** One refused combination: whether the command line has it, and the error that reports it. */
  datatype Rule = Rule(violated: bool, error: Error)

  /** The refused combinations of `ValidateFlags`, in the order they are checked. */
  function Rules(c: PushCommand): seq<Rule> {
    [ Rule(c.dockerUsername != "" && c.dockerImage == "",
           RequiredFlagsError("--docker-image, -o", "--docker-username")),
      Rule(c.dockerImage != "" && c.buildpacks.Some?,
           ArgumentCombinationError(["--buildpack, -b", "--docker-image, -o"])),
      Rule(c.dockerImage != "" && c.appPath != "",
           ArgumentCombinationError(["--docker-image, -o", "--path, -p"])),
      Rule(c.dockerImage != "" && c.stack != "",
           ArgumentCombinationError(["--stack, -s", "--docker-image, -o"])),
      Rule(c.noManifest && c.pathToManifest != "",
           ArgumentCombinationError(["--no-manifest", "--manifest, -f"])),
      Rule(c.noManifest && |c.pathsToVarsFiles| > 0,
           ArgumentCombinationError(["--no-manifest", "--vars-file"])),
      Rule(c.noManifest && |c.vars| > 0,
           ArgumentCombinationError(["--no-manifest", "--vars"])),
      Rule(c.healthCheckType == HTTP && c.healthCheckHTTPEndpoint == "",
           RequiredFlagsError("--endpoint", "--health-check-type=http, -u=http")),
      Rule(0 < |c.healthCheckHTTPEndpoint| && c.healthCheckType != HTTP,
           RequiredFlagsError("--health-check-type=http, -u=http", "--endpoint")),
      Rule(c.dropletPath != "" && (c.dockerImage != "" || c.dockerUsername != "" || c.appPath != ""),
           ArgumentCombinationError(["--droplet", "--docker-image, -o", "--docker-username", "-p"])),
      Rule(c.noStart && c.strategy == DeploymentStrategyRolling,
           ArgumentCombinationError(["--no-start", "--strategy=rolling"])),
      Rule(c.noStart && c.noWait,
           ArgumentCombinationError(["--no-start", "--no-wait"])),
      Rule(c.noRoute && c.randomRoute,
           ArgumentCombinationError(["--no-route", "--random-route"])) ]
  }

  /** The error of the first violated rule, as a `switch` of `case`s picks it. */
  function FirstViolated(rules: seq<Rule>): (r: Option<Error>)
    ensures r.None? <==> forall i :: 0 <= i < |rules| ==> !rules[i].violated
    ensures r.Some? ==> exists i :: 0 <= i < |rules| && rules[i].violated && r.value == rules[i].error
                                    && forall j :: 0 <= j < i ==> !rules[j].violated
    decreases |rules|
  {
    if rules == [] then None
    else if rules[0].violated then Some(rules[0].error)
    else
      var r := FirstViolated(rules[1..]);
      assert forall i :: 1 <= i < |rules| ==> rules[i] == rules[1..][i - 1];
      r
  }

  /**
   * `ValidateFlags`: nil exactly when no refused combination is present;
   * otherwise the error of the first one in checking order.
   */
  function ValidateFlags(c: PushCommand): (r: Option<Error>)
    ensures r.None? <==> forall i :: 0 <= i < |Rules(c)| ==> !Rules(c)[i].violated
    ensures r.Some? ==> exists i :: 0 <= i < |Rules(c)| && Rules(c)[i].violated && r.value == Rules(c)[i].error
                                    && forall j :: 0 <= j < i ==> !Rules(c)[j].violated
  {
    FirstViolated(Rules(c))
  }

  /**
   * `ValidateAllowedFlagsForMultipleApps`: with an application named on the
   * command line anything goes; otherwise a manifest with several applications
   * refuses `--droplet`, `--path` and `--strategy`.
   */
  function ValidateAllowedFlagsForMultipleApps(c: PushCommand, containsMultipleApps: bool): (r: Option<Error>)
    ensures c.appName != "" ==> r.None?
    ensures r.Some? <==> c.appName == "" && containsMultipleApps
                         && (c.dropletPath != "" || c.appPath != "" || c.strategy != "")
    ensures r.Some? ==> r.value == CommandLineArgsWithMultipleAppsError
  {
    if c.appName != "" then None
    else
      var allowedFlagsMultipleApps := !(c.dropletPath != "" || c.appPath != "" || c.strategy != "");
      if containsMultipleApps && !allowedFlagsMultipleApps then Some(CommandLineArgsWithMultipleAppsError)
      else None
  }

  // ---------------------------------------------------------------------------
  // From flags to overrides

  /** `GetFlagOverrides`: each override is the flag of the same name; a nil buildpack list is empty. */
  function GetFlagOverrides(c: PushCommand): (o: FlagOverrides)
    ensures o.noRoute == c.noRoute && o.randomRoute == c.randomRoute
    ensures |o.buildpacks| > 0 ==> c.buildpacks == Some(o.buildpacks)
    ensures c.buildpacks.Some? ==> o.buildpacks == c.buildpacks.value
    ensures c.buildpacks.None? ==> o.buildpacks == []
    ensures o.appName == c.appName && o.disk == c.disk && o.memory == c.memory && o.instances == c.instances
    ensures o.startCommand == c.startCommand && o.noStart == c.noStart && o.noWait == c.noWait
    ensures o.healthCheckType == c.healthCheckType && o.healthCheckEndpoint == c.healthCheckHTTPEndpoint
            && o.healthCheckTimeout == c.healthCheckTimeout
    ensures o.dockerPassword == ""
    ensures o.dockerImage == c.dockerImage && o.dockerUsername == c.dockerUsername && o.stack == c.stack
    ensures o.providedAppPath == c.appPath && o.dropletPath == c.dropletPath && o.strategy == c.strategy
  {
    FlagOverrides(
      c.appName, c.buildpacks.GetOr([]), c.stack, c.disk, c.dropletPath, c.dockerImage, "", c.dockerUsername,
      c.healthCheckHTTPEndpoint, c.healthCheckTimeout, c.healthCheckType, c.instances, c.memory, c.noStart,
      c.noWait, c.appPath, c.noRoute, c.randomRoute, c.startCommand, c.strategy)
  }

  /**
   * Flags that passed `ValidateFlags` never ask the transforms for both a
   * docker image and buildpacks or a stack, nor for both no route and a
   * random route, and a docker username only comes with a docker image.
   */
  lemma ValidatedOverridesConsistent(c: PushCommand)
    requires ValidateFlags(c).None?
    ensures var o := GetFlagOverrides(c);
            !(o.noRoute && o.randomRoute)
            && (o.dockerImage != "" ==> |o.buildpacks| == 0 && o.stack == "" && o.providedAppPath == "")
            && (o.dockerUsername != "" ==> o.dockerImage != "")
            && (o.dropletPath != "" ==> o.dockerImage == "" && o.dockerUsername == "" && o.providedAppPath == "")
  {
    var rules := Rules(c);
    assert !rules[0].violated && !rules[1].violated && !rules[2].violated && !rules[3].violated;
    assert !rules[9].violated && !rules[12].violated;
  }

  // ---------------------------------------------------------------------------
  // Reporting a failed start

  /** `shouldDisplaySummary`: after success, and after a start in which every instance crashed. */
  function ShouldDisplaySummary(err: Option<Error>): (b: bool)
    ensures b <==> err.None? || err == Some(AllInstancesCrashedError)
  {
    if err.None? then true else err.value.AllInstancesCrashedError?
  }

  /**
   * `mapErr`: the two start failures become their user-facing errors, naming
   * the application and the binary; every other error passes through.
   */
  function MapErr(appName: string, binaryName: string, err: Error): (r: Error)
    ensures err == AllInstancesCrashedError ==> r == ApplicationUnableToStartError(appName, binaryName)
    ensures err == StartupTimeoutError ==> r == TranslatedStartupTimeoutError(appName, binaryName)
    ensures !(err.AllInstancesCrashedError? || err.StartupTimeoutError?) ==> r == err
  {
    match err
    case AllInstancesCrashedError => ApplicationUnableToStartError(appName, binaryName)
    case StartupTimeoutError => TranslatedStartupTimeoutError(appName, binaryName)
    case _ => err
  }

  /** Mapping twice is mapping once, and a summary is shown for exactly one kind of mapped failure. */
  lemma MapErrSettles(appName: string, binaryName: string, err: Error)
    ensures MapErr(appName, binaryName, MapErr(appName, binaryName, err)) == MapErr(appName, binaryName, err)
    ensures ShouldDisplaySummary(Some(err)) <==> MapErr(appName, binaryName, err) == ApplicationUnableToStartError(appName, binaryName)
                                                 && !err.ApplicationUnableToStartError?
  {
  }
}
