/**
 * The records `cf push` passes between its command layer and its actor: the
 * command-line overrides and the per-application push plan.
 */
module PushPlan {
  import opened ManifestModel

  /** `types.NullInt`: a number that may be absent. */
  datatype NullInt = NullInt(isSet: bool, value: int)

  /** `types.FilteredString`: a string that may be absent, or set to "" explicitly. */
  datatype FilteredString = FilteredString(isSet: bool, value: string)

  /**
   * `FlagOverrides`. Disk and memory are the strings the command line gave,
   * `""` when the flag is absent; the health-check type and the deployment
   * strategy are their string constants (`""` when absent).
   */
  datatype FlagOverrides = FlagOverrides(
    appName: string,
    buildpacks: seq<string>,
    stack: string,
    disk: string,
    dropletPath: string,
    dockerImage: string,
    dockerPassword: string,
    dockerUsername: string,
    healthCheckEndpoint: string,
    healthCheckTimeout: int,
    healthCheckType: string,
    instances: NullInt,
    memory: string,
    noStart: bool,
    noWait: bool,
    providedAppPath: string,
    noRoute: bool,
    randomRoute: bool,
    startCommand: FilteredString,
    strategy: string)

  /** No override flag given at all. */
  const NoOverrides: FlagOverrides :=
    FlagOverrides("", [], "", "", "", "", "", "", "", 0, "", NullInt(false, 0), "", false, false, "", false, false,
                  FilteredString(false, ""), "")

  /** The scalar part of `PushPlan`: what the apply-manifest step reads and reports. */
  datatype PushPlan = PushPlan(
    spaceGUID: string,
    orgGUID: string,
    applicationNeedsUpdate: bool,
    noStart: bool,
    noWait: bool,
    noRouteFlag: bool,
    randomRoute: bool,
    skipRouteCreation: bool,
    strategy: string,
    dockerImageCredentialsNeedsUpdate: bool,
    scaleWebProcessNeedsUpdate: bool,
    updateWebProcessNeedsUpdate: bool,
    manifest: Bytes,
    archive: bool,
    bitsPath: string,
    dropletPath: string,
    packageGUID: string,
    dropletGUID: string)

  /** `PushPlan{}`. */
  const ZeroPlan: PushPlan :=
    PushPlan("", "", false, false, false, false, false, false, "", false, false, false, [], false, "", "", "", "")
}
