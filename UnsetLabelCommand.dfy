/**
 * `cf unset-label RESOURCE RESOURCE_NAME KEY...`: check the flags, build the
 * label map that removes every given key, pick the resource kind from its name
 * (in any letter case), check the target that kind needs, and ask the platform
 * to update that resource's labels.
 */
module UnsetLabelCommand {
  import opened Wrappers
  import opened Errors

  /** `types.NullString`; `NewNullString()` is the null value, which removes a label. */
  datatype NullString = NullString(value: string, isSet: bool)

  const NullValue: NullString := NullString("", false)

  datatype ResourceType = App | Buildpack | Org | Space | Stack

  function ResourceTypeName(t: ResourceType): string {
    match t
    case App => "app"
    case Buildpack => "buildpack"
    case Org => "org"
    case Space => "space"
    case Stack => "stack"
  }

  datatype UnsetLabelArgs = UnsetLabelArgs(resourceType: string, resourceName: string, labelKeys: seq<string>)

  datatype UnsetLabelCommand = UnsetLabelCommand(requiredArgs: UnsetLabelArgs, buildpackStack: string)

  // ---------------------------------------------------------------------------
  // Letter case

  function ToLowerChar(c: char): char {
    if 'A' <= c <= 'Z' then (c as int + 32) as char else c
  }

  /** `strings.ToLower`, on the ASCII letters. */
  function ToLower(s: string): (r: string)
    ensures |r| == |s|
    ensures forall i :: 0 <= i < |s| ==> r[i] == ToLowerChar(s[i])
    ensures forall i :: 0 <= i < |r| ==> !('A' <= r[i] <= 'Z')
    decreases |s|
  {
    if s == [] then [] else [ToLowerChar(s[0])] + ToLower(s[1..])
  }

  /** Lowering is idempotent: a lower-case name is its own lower case. */
  lemma ToLowerIdempotent(s: string)
    ensures ToLower(ToLower(s)) == ToLower(s)
  {
    var t := ToLower(s);
    assert forall i :: 0 <= i < |t| ==> ToLower(t)[i] == t[i];
  }

  /** The resource kind a name stands for, whatever its letter case. */
  function ParseResourceType(s: string): (r: Option<ResourceType>)
    ensures r.Some? ==> ResourceTypeName(r.value) == ToLower(s)
    ensures r.None? ==> forall t: ResourceType :: ResourceTypeName(t) != ToLower(s)
  {
    var lower := ToLower(s);
    if lower == "app" then Some(App)
    else if lower == "buildpack" then Some(Buildpack)
    else if lower == "org" then Some(Org)
    else if lower == "space" then Some(Space)
    else if lower == "stack" then Some(Stack)
    else None
  }

  // ---------------------------------------------------------------------------
  // The decisions

  /** `validateFlags`: `--stack` is refused for anything but a buildpack, naming the resource as it was typed. */
  function ValidateFlags(cmd: UnsetLabelCommand): (r: Option<Error>)
    ensures r.Some? <==> cmd.buildpackStack != "" && ParseResourceType(cmd.requiredArgs.resourceType) != Some(Buildpack)
    ensures r.Some? ==> r.value == ArgumentCombinationError([cmd.requiredArgs.resourceType, "--stack, -s"])
  {
    var resourceTypeString := ToLower(cmd.requiredArgs.resourceType);
    if cmd.buildpackStack != "" && resourceTypeString != "buildpack" then
      Some(ArgumentCombinationError([cmd.requiredArgs.resourceType, "--stack, -s"]))
    else None
  }

  /** The arguments of `CheckTarget(checkOrg, checkSpace)`. */
  datatype TargetCheck = TargetCheck(checkOrg: bool, checkSpace: bool)

  /** An application needs a targeted org and space, a space a targeted org, the rest nothing. */
  function TargetCheckFor(t: ResourceType): (r: TargetCheck)
    ensures r.checkSpace ==> r.checkOrg
    ensures r.checkOrg <==> t == App || t == Space
    ensures r.checkSpace <==> t == App
  {
    match t
    case App => TargetCheck(true, true)
    case Buildpack => TargetCheck(false, false)
    case Org => TargetCheck(false, false)
    case Space => TargetCheck(true, false)
    case Stack => TargetCheck(false, false)
  }

  /** The platform request that updates one resource's labels. */
  datatype UpdateRequest =
    | UpdateApplicationLabels(appName: string, spaceGUID: string, labels: map<string, NullString>)
    | UpdateBuildpackLabels(buildpackName: string, stack: string, labels: map<string, NullString>)
    | UpdateOrganizationLabels(orgName: string, labels: map<string, NullString>)
    | UpdateSpaceLabels(spaceName: string, orgGUID: string, labels: map<string, NullString>)
    | UpdateStackLabels(stackName: string, labels: map<string, NullString>)

  /** What the command sees of its surroundings. */
  datatype Environment = Environment(
    currentUser: Result<string, Error>,
    targetedSpaceGUID: string,
    targetedOrgGUID: string,
    checkTarget: TargetCheck -> Option<Error>,
    update: UpdateRequest -> Option<Error>)

  /**
   * The update each kind asks for: the resource by the name given, an application
   * within the targeted space, a space within the targeted org, a buildpack with
   * the `--stack` given, and always the label map given.
   */
  function RequestFor(t: ResourceType, cmd: UnsetLabelCommand, env: Environment, labels: map<string, NullString>)
    : (r: UpdateRequest)
    ensures r.labels == labels
    ensures t == App <==> r.UpdateApplicationLabels?
    ensures t == Buildpack <==> r.UpdateBuildpackLabels?
    ensures t == Org <==> r.UpdateOrganizationLabels?
    ensures t == Space <==> r.UpdateSpaceLabels?
    ensures t == Stack <==> r.UpdateStackLabels?
    ensures r.UpdateApplicationLabels? ==>
              r.appName == cmd.requiredArgs.resourceName && r.spaceGUID == env.targetedSpaceGUID
    ensures r.UpdateBuildpackLabels? ==>
              r.buildpackName == cmd.requiredArgs.resourceName && r.stack == cmd.buildpackStack
    ensures r.UpdateOrganizationLabels? ==> r.orgName == cmd.requiredArgs.resourceName
    ensures r.UpdateSpaceLabels? ==>
              r.spaceName == cmd.requiredArgs.resourceName && r.orgGUID == env.targetedOrgGUID
    ensures r.UpdateStackLabels? ==> r.stackName == cmd.requiredArgs.resourceName
  {
    var name := cmd.requiredArgs.resourceName;
    match t
    case App => UpdateApplicationLabels(name, env.targetedSpaceGUID, labels)
    case Buildpack => UpdateBuildpackLabels(name, cmd.buildpackStack, labels)
    case Org => UpdateOrganizationLabels(name, labels)
    case Space => UpdateSpaceLabels(name, env.targetedOrgGUID, labels)
    case Stack => UpdateStackLabels(name, labels)
  }

  function UnsupportedResourceType(resourceType: string): Error {
    Message("Unsupported resource type of '" + resourceType + "'")
  }

  /** The label map that removes exactly the given keys. */
  function NullLabels(keys: seq<string>): map<string, NullString> {
    map k | k in keys :: NullValue
  }

  /** How a run of `Execute` ends: the error it returns and the update it asked for, if it got that far. */
  datatype Run = Run(err: Option<Error>, request: Option<UpdateRequest>)

  /**
   * `Execute`: the current user first, then the flags, then the resource kind,
   * its target check and the update; each failure ends the run with its error.
   */
  function ExecuteSpec(cmd: UnsetLabelCommand, env: Environment): (r: Run)
    ensures env.currentUser.Failure? ==> r == Run(Some(env.currentUser.error), None)
    ensures env.currentUser.Success? && ValidateFlags(cmd).Some? ==> r == Run(ValidateFlags(cmd), None)
    ensures r.request.Some? ==>
              env.currentUser.Success? && ValidateFlags(cmd).None?
              && ParseResourceType(cmd.requiredArgs.resourceType).Some?
              && env.checkTarget(TargetCheckFor(ParseResourceType(cmd.requiredArgs.resourceType).value)).None?
              && r.err == env.update(r.request.value)
              && r.request.value.labels == NullLabels(cmd.requiredArgs.labelKeys)
    ensures env.currentUser.Success? && ValidateFlags(cmd).None? && ParseResourceType(cmd.requiredArgs.resourceType).None?
            ==> r == Run(Some(UnsupportedResourceType(cmd.requiredArgs.resourceType)), None)
    ensures env.currentUser.Success? && ValidateFlags(cmd).None? && ParseResourceType(cmd.requiredArgs.resourceType).Some?
            ==> var t := ParseResourceType(cmd.requiredArgs.resourceType).value;
                var checked := env.checkTarget(TargetCheckFor(t));
                (checked.Some? ==> r == Run(checked, None))
                && (checked.None? ==>
                      r.request == Some(RequestFor(t, cmd, env, NullLabels(cmd.requiredArgs.labelKeys)))
                      && r.err == env.update(r.request.value))
  {
    if env.currentUser.Failure? then Run(Some(env.currentUser.error), None)
    else if ValidateFlags(cmd).Some? then Run(ValidateFlags(cmd), None)
    else match ParseResourceType(cmd.requiredArgs.resourceType)
      case None => Run(Some(UnsupportedResourceType(cmd.requiredArgs.resourceType)), None)
      case Some(t) =>
        var checked := env.checkTarget(TargetCheckFor(t));
        if checked.Some? then Run(checked, None)
        else
          var request := RequestFor(t, cmd, env, NullLabels(cmd.requiredArgs.labelKeys));
          Run(env.update(request), Some(request))
  }

  /** The loop that fills `labels`: one null entry per given key, and nothing else. */
  method BuildLabels(keys: seq<string>) returns (labels: map<string, NullString>)
    ensures labels.Keys == set k | k in keys
    ensures forall k :: k in labels ==> labels[k] == NullValue
  {
    labels := map[];
    var i := 0;
    while i < |keys|
      invariant 0 <= i <= |keys|
      invariant labels.Keys == set k | k in keys[..i]
      invariant forall k :: k in labels ==> labels[k] == NullValue
    {
      assert keys[..i + 1] == keys[..i] + [keys[i]];
      labels := labels[keys[i] := NullValue];
      i := i + 1;
    }
    assert keys[..i] == keys;
  }

  /** `Execute`; `displayedOK` is whether "OK" was shown. */
  method Execute(cmd: UnsetLabelCommand, env: Environment)
    returns (err: Option<Error>, displayedOK: bool, ghost request: Option<UpdateRequest>)
    ensures Run(err, request) == ExecuteSpec(cmd, env)
    ensures displayedOK <==> err.None?
  {
    request := None;
    displayedOK := false;
    var user := env.currentUser;
    if user.Failure? {
      return Some(user.error), false, None;
    }
    err := ValidateFlags(cmd);
    if err.Some? {
      return err, false, None;
    }
    var labels := BuildLabels(cmd.requiredArgs.labelKeys);
    assert labels == NullLabels(cmd.requiredArgs.labelKeys);
    var resourceType := ParseResourceType(cmd.requiredArgs.resourceType);
    if resourceType.None? {
      err := Some(UnsupportedResourceType(cmd.requiredArgs.resourceType));
    } else {
      err := env.checkTarget(TargetCheckFor(resourceType.value));
      if err.None? {
        var update := RequestFor(resourceType.value, cmd, env, labels);
        request := Some(update);
        err := env.update(update);
      }
    }
    if err.Some? {
      return err, false, request;
    }
    displayedOK := true;
  }

  /**
   * The resource kind is read without regard to letter case: two spellings of
   * the same kind lead to the same checks, the same update and the same outcome;
   * only the text of a refused `--stack` names the spelling that was typed.
   */
  lemma DispatchIgnoresCase(cmd: UnsetLabelCommand, env: Environment, other: string)
    requires ToLower(other) == ToLower(cmd.requiredArgs.resourceType)
    ensures var respelled := ExecuteSpec(cmd.(requiredArgs := cmd.requiredArgs.(resourceType := other)), env);
            var run := ExecuteSpec(cmd, env);
            respelled.request == run.request && (respelled.err.None? <==> run.err.None?)
            && (ParseResourceType(other).Some? && ValidateFlags(cmd).None? ==> respelled == run)
  {
  }

  /** A stack reaches the platform only in a buildpack update, and exactly as given. */
  lemma StackOnlyForBuildpacks(cmd: UnsetLabelCommand, env: Environment)
    requires cmd.buildpackStack != ""
    requires ExecuteSpec(cmd, env).request.Some?
    ensures ExecuteSpec(cmd, env).request.value.UpdateBuildpackLabels?
    ensures ExecuteSpec(cmd, env).request.value.stack == cmd.buildpackStack
  {
  }
}
