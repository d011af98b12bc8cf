# The `cf push` manifest override pipeline, in Dafny

This project models the core of the Cloud Foundry CLI's `push` command. That core:

- reads a manifest and interpolates its variables from vars files and `--var` pairs;
- parses the manifest into its applications;
- folds the command-line overrides into the parsed manifest, one transform per flag, stopping at the first error;
- checks the flag combinations first;
- applies the resulting manifest to the space as a stream of push events.

It also models the decisions of `cf unset-label`:

- the `--stack` rule;
- the label map that removes the given keys;
- the resource kind dispatch, which ignores letter case;
- the target check for each kind.

Modules, one per source file or group of files:

- `ManifestModel` (application.go): the `Application`, `ApplicationModel`, `Docker` and `ProcessModel` entities, and writing an application to a YAML tree and reading it back under its field tags.
- `Interpolation` (the variable merge of `InterpolateAndParse`): vars files merged in order, then the inline variables.
- `ManifestParser` (parser.go, validation.go): the `ParsedManifest` value and its queries, web-process lookup and update, selecting one application, the validator fold, and `parse` with its path resolution. The object `NewParser` returns is the class `Parser`, whose methods update its fields.
- `PushPlan`: the `FlagOverrides` record and the fields of `PushPlan` this part reads.
- `Transforms`: the thirteen override transforms. Each has two forms:
  - a function value that a transform sequence can hold. A Go panic is its `Panicked` outcome;
  - a method with the source's name that writes step by step, proved equal to the function.
- `TransformPipeline`: `Actor.TransformManifest`, the fold over a transform sequence.
- `PushManifestParser`: the push actor's own parser. Without a manifest it gives one empty application. Otherwise it interpolates and decodes, with no minimum application count.
- `ApplySpaceManifest`: the worker of `Actor.ApplySpaceManifest`, as the events it sends and the remote call it makes.
- `PushCommand`: `ValidateFlags`, `ValidateAllowedFlagsForMultipleApps`, `GetFlagOverrides`, `shouldDisplaySummary` and `mapErr`.
- `UnsetLabelCommand`: `Execute`, `validateFlags` and the `execute*` helpers of `cf unset-label`.

Several collaborators become function-typed parameters: reading files, the byte-level YAML decoding and encoding of the parsers, `template.Evaluate`, `filepath.IsAbs`/`Join`/`EvalSymlinks`, `SetSpaceManifest`, `CheckTarget`, the label update calls and the current user.

## Model

| member | source | states |
|---|---|---|
| ManifestModel.MarshalModel | util/manifestparser/application.go:10-26 | `name` is always written; `stack`, `processes`, `docker`, `no-route` and `random-route` are written exactly when set (omitempty); an application carries no `type` field and no key outside its own |
| ManifestModel.MarshalModelOmitsEmpty | util/manifestparser/application.go:10-26 | `command`, `buildpacks`, `disk_quota`, the three health-check fields, `instances`, `path` and `memory` are each written exactly when not their zero value (omitempty) |
| ManifestModel.MarshalProcess | util/manifestparser/application.go:33-42 | `type` is always written, as given; every other process field is written exactly when not its zero value; no key outside the process's own |
| ManifestModel.MarshalYAML | util/manifestparser/application.go:49-51 | an application is written as its embedded model, name included |
| ManifestModel.UnmarshalYAML | util/manifestparser/application.go:53-59 | reading an application succeeds exactly when reading its model does, and fills only the model |
| ManifestModel.TagInjective | util/manifestparser/application.go:11-41 | no two fields share a YAML tag |
| ManifestModel.ProcessRoundTrip | util/manifestparser/application.go:33-42 | a process written and read back is the same process, `type` included |
| ManifestModel.ModelRoundTrip | util/manifestparser/application.go:10-26 | an application model written and read back is the same model: omitted fields read back as their zero values |
| ManifestModel.ApplicationRoundTrip | util/manifestparser/application.go:44-59 | reading back a written application gives the same application |
| Interpolation.MergeFilesKeys | util/manifestparser/parser.go:93-109 | a variable is in the merged file table exactly when some vars file defines it |
| Interpolation.MergeFilesLastWins | util/manifestparser/parser.go:106-108 | a variable takes its value from the last vars file that defines it |
| Interpolation.ApplyInlineKeeps | util/manifestparser/parser.go:111-113 | a variable no `--var` names keeps its presence and value from the files |
| Interpolation.ApplyInlineLastWins | util/manifestparser/parser.go:111-113 | a `--var` pair sets its variable unless a later pair names it again |
| Interpolation.VariableTableKeys | util/manifestparser/parser.go:93-113 | without a `--var` for it, a variable is in the table exactly when some file defines it |
| Interpolation.VariableTableInlineWins | util/manifestparser/parser.go:93-113 | the last `--var` for a name wins over every vars file |
| Interpolation.VariableTableFileWins | util/manifestparser/parser.go:93-113 | without a `--var` for it, a variable has the value of the last file defining it |
| Interpolation.MergeVarsFile | util/manifestparser/parser.go:106-108 | the copy loop gives the table overridden key by key by the file's variables |
| Interpolation.ApplyVarKVs | util/manifestparser/parser.go:111-113 | the `--var` loop gives the table with the inline pairs applied in order |
| Interpolation.Interpolate | util/manifestparser/parser.go:85-118 | equals the read, load-all-files, evaluate sequence; a manifest read error is returned as it is; a vars-file failure is returned as the loader gives it, before evaluation; a failure after every file was read is an `InterpolationError` |
| Interpolation.LoadVarsFile | util/manifestparser/parser.go:93-104 | a vars-file read error is returned as it is; an undecodable vars file gives `InvalidYAMLError` wrapping the decoder's error; otherwise the decoded variables |
| Interpolation.LoadVarsFiles | util/manifestparser/parser.go:93-109 | on success one table per file, in order, each as `LoadVarsFile` gives it; on failure the error of the first file that cannot be loaded, every earlier file having loaded |
| Interpolation.InterpolateSpec | util/manifestparser/parser.go:85-118 | a manifest read error as it is; then a vars-file error as `LoadVarsFiles` gives it; then the evaluation of the manifest against the variable table, a failure wrapped as `InterpolationError` |
| ManifestParser.AppNames | util/manifestparser/parser.go:27-33 | one name per application, in manifest order |
| ManifestParser.ContainsPrivateDockerImages | util/manifestparser/parser.go:47-54 | true exactly when some application has a docker block with a non-empty username |
| ManifestParser.HasAppWithNoName | util/manifestparser/parser.go:68-75 | true exactly when some application's name is empty |
| ManifestParser.FirstWebIndex | util/manifestparser/parser.go:186-194 | the first process whose type is `web`; none exactly when no process is `web` |
| ManifestParser.GetFirstAppWebProcess | util/manifestparser/parser.go:186-194 | the search loop finds the first `web` process of application 0, or none |
| ManifestParser.UpdateFirstAppWebProcess | util/manifestparser/parser.go:200-207 | the update reaches only the first `web` process of application 0; without one the manifest is unchanged |
| ManifestParser.UpdateFirstWebOnly | util/manifestparser/parser.go:200-207 | rewriting that process changes no other process, no other application and no application-level field |
| ManifestParser.RawAppManifest | util/manifestparser/parser.go:124-133 | the first application with the name is encoded as a one-application manifest; with no match the result is empty plus `AppNotInManifestError` naming it |
| ManifestParser.Validate | util/manifestparser/validation.go:5-16 | nil exactly when every validator passes; otherwise the error of the first failing validator, and none after it runs |
| ManifestParser.ResolveAppPath | util/manifestparser/parser.go:155-173 | an empty path is kept; otherwise the path, made absolute against the manifest's directory unless already absolute, is resolved: a path that does not exist gives `InvalidManifestApplicationPathError` with the path as written, any other resolution error is returned as is, and a resolved path replaces the application's path and nothing else |
| ManifestParser.ResolvePathsMeaning | util/manifestparser/parser.go:155-174 | resolution keeps the applications one for one, and fails exactly when some application's path fails, with the error of the first that fails |
| ManifestParser.ParseSpec | util/manifestparser/parser.go:139-184 | a decoding error is returned as it is; a manifest with no applications is refused with "must have at least one application"; otherwise a path-resolution error is returned as it is, and success stores exactly the resolved applications and their re-encoding; success keeps the count (at least one) and the names |
| ManifestParser.ResolveApplicationPaths | util/manifestparser/parser.go:155-174 | the path loop of `parse` computes the resolution, stopping at the first failure |
| ManifestParser.Parser.constructor | util/manifestparser/parser.go:23-25 | a new parser is the zero value |
| ManifestParser.Parser.Parse | util/manifestparser/parser.go:139-184 | the bytes are stored first; after a failure before the applications are stored, the applications and `hasParsed` are unchanged; success stores the resolved applications and their encoding; without an error the parser then `ContainsManifest` with at least one application |
| ManifestParser.Parser.InterpolateAndParse | util/manifestparser/parser.go:84-122 | an interpolation failure leaves the parser unchanged; otherwise the path is recorded and the interpolated bytes parsed, with the same applications, raw bytes and `hasParsed` as `Parse` leaves; without an error the parser `ContainsManifest` with at least one application |
| Transforms.OverrideWebOrApp | actor/v7pushaction/transform_manifest_with_disk_flag.go:14-20 | the value goes into the first `web` process of application 0 when there is one, else into the application; nothing else changes |
| Transforms.ProcessFieldTransform | actor/v7pushaction/transform_manifest_with_disk_flag.go:8-24 | the per-process recipe: unset changes nothing; several applications give `CommandLineArgsWithMultipleAppsError` with the manifest unchanged; no application panics; one application gets the web-or-app write |
| Transforms.AppFieldTransform | actor/v7pushaction/transform_manifest_with_buildpacks_flag.go:8-17 | the application-level recipe: as above, writing only application 0's field; a docker write without a docker block panics |
| Transforms.DiskFlagTransform | actor/v7pushaction/transform_manifest_with_disk_flag.go:8-24 | the per-process recipe for `DiskQuota`, with `""` unset |
| Transforms.MemoryFlagTransform | actor/v7pushaction/transform_manifest_with_memory_flag.go:9-25 | the per-process recipe for `Memory`, with `""` unset |
| Transforms.InstancesFlagTransform | actor/v7pushaction/transform_manifest_with_instances_flag.go:8-24 | the per-process recipe for `Instances`, gated by `IsSet` alone, so a set 0 is written |
| Transforms.StartCommandFlagTransform | actor/v7pushaction/transform_manifest_with_start_command_flag.go:8-24 | the per-process recipe for `StartCommand`, gated by `IsSet`, so a set empty command is written |
| Transforms.HealthCheckTypeFlagTransform | actor/v7pushaction/transform_manifest_with_health_check_type_flag.go:8-24 | the per-process recipe for `HealthCheckType`, with `""` unset |
| Transforms.HealthCheckEndpointFlagTransform | actor/v7pushaction/transform_manifest_with_health_check_endpoint_flag.go:8-24 | the per-process recipe for `HealthCheckEndpoint`, with `""` unset |
| Transforms.HealthCheckTimeoutFlagTransform | actor/v7pushaction/transform_manifest_with_health_check_timeout_flag.go:8-24 | the per-process recipe for `HealthCheckTimeout`, with 0 unset |
| Transforms.BuildpacksFlagTransform | actor/v7pushaction/transform_manifest_with_buildpacks_flag.go:8-17 | an empty list changes nothing; otherwise application 0's buildpacks are replaced wholesale, after the multiple-applications check |
| Transforms.DockerImageFlagTransform | actor/v7pushaction/transform_manifest_with_docker_image_flag.go:8-17 | application 0's docker image is set and nothing else changes; without a docker block it panics |
| Transforms.DockerUsernameFlagTransform | actor/v7pushaction/transform_manifest_with_docker_username_flag.go:8-17 | application 0's docker username is set and nothing else changes; without a docker block it panics |
| Transforms.NoRouteFlagTransform | actor/v7pushaction/transform_manifest_with_no_route_flag.go:8-19 | `--no-route` sets application 0's `NoRoute`; `RandomRoute` keeps its value in every application |
| Transforms.StackFlagTransformAsWritten | actor/v7pushaction/transform_manifest_with_stack_flag.go:8-17 | a set stack with several applications is refused; otherwise application 0's stack is overwritten, with `""` when the flag is unset; an empty manifest panics |
| Transforms.StackFlagTransform | actor/v7pushaction/transform_manifest_with_stack_flag.go:9-14 | the stack transform with its write under the guard: the application-level recipe for `Stack` |
| Transforms.TransformManifestWithDiskFlag | actor/v7pushaction/transform_manifest_with_disk_flag.go:8-24 | the step-by-step write gives what `DiskFlagTransform` gives |
| Transforms.TransformManifestWithMemoryFlag | actor/v7pushaction/transform_manifest_with_memory_flag.go:9-25 | the step-by-step write gives what `MemoryFlagTransform` gives |
| Transforms.TransformManifestWithInstancesFlag | actor/v7pushaction/transform_manifest_with_instances_flag.go:8-24 | the step-by-step write gives what `InstancesFlagTransform` gives |
| Transforms.TransformManifestWithStartCommandFlag | actor/v7pushaction/transform_manifest_with_start_command_flag.go:8-24 | the step-by-step write gives what `StartCommandFlagTransform` gives |
| Transforms.TransformManifestWithHealthCheckTypeFlag | actor/v7pushaction/transform_manifest_with_health_check_type_flag.go:8-24 | the step-by-step write gives what `HealthCheckTypeFlagTransform` gives |
| Transforms.TransformManifestWithHealthCheckEndpointFlag | actor/v7pushaction/transform_manifest_with_health_check_endpoint_flag.go:8-24 | the step-by-step write gives what `HealthCheckEndpointFlagTransform` gives |
| Transforms.TransformManifestWithHealthCheckTimeoutFlag | actor/v7pushaction/transform_manifest_with_health_check_timeout_flag.go:8-24 | the step-by-step write gives what `HealthCheckTimeoutFlagTransform` gives |
| Transforms.TransformManifestWithBuildpacksFlag | actor/v7pushaction/transform_manifest_with_buildpacks_flag.go:8-17 | the in-place write gives what `BuildpacksFlagTransform` gives |
| Transforms.TransformManifestWithDockerImageFlag | actor/v7pushaction/transform_manifest_with_docker_image_flag.go:8-17 | the write through the docker block gives what `DockerImageFlagTransform` gives |
| Transforms.TransformManifestWithDockerUsernameFlag | actor/v7pushaction/transform_manifest_with_docker_username_flag.go:8-17 | the write through the docker block gives what `DockerUsernameFlagTransform` gives |
| Transforms.TransformManifestWithNoRouteFlag | actor/v7pushaction/transform_manifest_with_no_route_flag.go:8-19 | the write through `GetFirstApp` gives what `NoRouteFlagTransform` gives |
| Transforms.TransformManifestWithStackFlag | actor/v7pushaction/transform_manifest_with_stack_flag.go:8-17 | the unconditional write gives what `StackFlagTransformAsWritten` gives |
| Transforms.FirstWebIndexAfterWrite | util/manifestparser/parser.go:186-194 | rewriting a field other than the type leaves the first `web` process where it was |
| Transforms.ProcessFieldTransformIdempotent | actor/v7pushaction/transform_manifest_with_disk_flag.go:9-23 | a per-process transform applied to its own output changes nothing more |
| Transforms.AppFieldTransformIdempotent | actor/v7pushaction/transform_manifest_with_buildpacks_flag.go:9-16 | an application-level transform applied to its own output changes nothing more |
| Transforms.UnsetFlagsChangeNothing | actor/v7pushaction/transform_manifest_with_disk_flag.go:9-23 | with no flag set, every transform returns the manifest unchanged; for the stack this holds of the corrected transform only |
| Transforms.StackFlagClearsStack | actor/v7pushaction/transform_manifest_with_stack_flag.go:9-14 | without `--stack`, a one-application manifest with stack "cflinuxfs3" comes back with its stack cleared, where the guarded transform returns it unchanged |
| Transforms.StackFlagAgreesWhenSet | actor/v7pushaction/transform_manifest_with_stack_flag.go:9-14 | with `--stack` given, the transform as written and the corrected one agree |
| TransformPipeline.RunSequenceAppend | actor/v7pushaction/transform_manifest.go:13-19 | running two sequences back to back is running the first, then the second on its result if it went through |
| TransformPipeline.FirstErrorStops | actor/v7pushaction/transform_manifest.go:16-18 | the first failing transform decides the result: the empty manifest and its error, whatever follows |
| TransformPipeline.IdentityTransforms | actor/v7pushaction/transform_manifest.go:11-21 | transforms that change nothing give back the base manifest with no error |
| TransformPipeline.TransformManifest | actor/v7pushaction/transform_manifest.go:7-22 | the loop computes the fold; an error comes with the empty manifest; success calls every transform; an early stop happens at a failing transform after all earlier ones went through |
| PushManifestParser.DecodeManifestData | actor/v7pushaction/manifest_parser.go:92-98 | the decoded manifest holds exactly the decoder's applications; the decoder's error is returned as it is |
| PushManifestParser.GetManifestSpec | actor/v7pushaction/manifest_parser.go:103-111 | without a manifest: one empty application and no error, whatever the files say; a read failure returns the held manifest and that error; an interpolation or decoding failure returns the held manifest and exactly that error; no error exactly when interpolation and decoding succeed |
| PushManifestParser.NoMinimumApplicationCount | actor/v7pushaction/manifest_parser.go:89-101 | a document with no applications decodes to an empty manifest here, where the manifest parser refuses it |
| PushManifestParser.Parser.constructor | actor/v7pushaction/manifest_parser.go:19-24 | a new parser is the zero value |
| PushManifestParser.Parser.Parse | actor/v7pushaction/manifest_parser.go:89-101 | the bytes are stored first; a decoding error leaves the manifest and `hasParsed` unchanged; success stores the manifest and sets `hasParsed` |
| PushManifestParser.Parser.InterpolateAndParse | actor/v7pushaction/manifest_parser.go:49-87 | an interpolation failure leaves the parser unchanged; otherwise the path is recorded and the bytes parsed |
| PushManifestParser.Parser.GetManifest | actor/v7pushaction/manifest_parser.go:103-111 | equals `GetManifestSpec`; without a manifest the parser is left untouched |
| ApplySpaceManifest.SpaceManifestClient.SetSpaceManifest | actor/v7pushaction/apply_space_manifest.go:20 | each call is recorded, and its answer is the remote side's answer |
| ApplySpaceManifest.PushEventStream.Send | actor/v7pushaction/apply_space_manifest.go:19-28 | an open stream gains the event at its end |
| ApplySpaceManifest.PushEventStream.Close | actor/v7pushaction/apply_space_manifest.go:13 | closing keeps the events sent |
| ApplySpaceManifest.ApplyManifestEvents | actor/v7pushaction/apply_space_manifest.go:19-28 | two events: first the bare `ApplyManifest` event, then one carrying the plan, the warnings and the error; that one is `ApplyManifestComplete` exactly on success, untagged on error |
| ApplySpaceManifest.EventsDetermineAnswer | actor/v7pushaction/apply_space_manifest.go:23-28 | the events tell the call's warnings and error apart |
| ApplySpaceManifest.ApplySpaceManifest | actor/v7pushaction/apply_space_manifest.go:8-32 | one `SetSpaceManifest` call, with the first plan's space, the raw manifest and the first plan's no-route flag; the stream holds the two events of that answer and is closed |
| PushCommand.FirstViolated | command/v7/push_command.go:511-614 | a `switch` of cases: nil exactly when no case holds, else the error of the first case that holds |
| PushCommand.ValidateFlags | command/v7/push_command.go:510-615 | nil exactly when none of the thirteen refused combinations is present, else the error of the first in source order |
| PushCommand.ValidateAllowedFlagsForMultipleApps | command/v7/push_command.go:493-508 | nil whenever an application is named; otherwise an error exactly for a multi-app manifest with droplet, path or strategy, and that error is `CommandLineArgsWithMultipleAppsError` |
| PushCommand.GetFlagOverrides | command/v7/push_command.go:468-491 | every override is the flag of the same name (the health-check endpoint from `--endpoint`); buildpacks are the given list, empty when none was given; the docker password is left empty |
| PushCommand.ValidatedOverridesConsistent | command/v7/push_command.go:510-615 | overrides from validated flags never combine no-route with random-route, docker image with buildpacks, stack or path, docker username without image, or droplet with docker or path |
| PushCommand.ShouldDisplaySummary | command/v7/push_command.go:263-269 | true exactly for no error or `AllInstancesCrashedError` |
| PushCommand.MapErr | command/v7/push_command.go:271-285 | the crashed and startup-timeout errors become their user-facing errors naming the application and binary; every other error passes through |
| PushCommand.MapErrSettles | command/v7/push_command.go:263-285 | mapping twice is mapping once; a summary is shown for exactly the errors that map to `ApplicationUnableToStartError` from elsewhere |
| UnsetLabelCommand.ToLower | command/v7/unset_label_command.go:65 | same length, each letter lowered, no upper-case letter left |
| UnsetLabelCommand.ParseResourceType | command/v7/unset_label_command.go:65-79 | the kind whose name is the lowered text, or none exactly when no kind has that name |
| UnsetLabelCommand.ValidateFlags | command/v7/unset_label_command.go:189-199 | an error exactly when a stack is given for something other than a buildpack (in any letter case); it names the resource type as typed and "--stack, -s" |
| UnsetLabelCommand.TargetCheckFor | command/v7/unset_label_command.go:89-172 | an application checks org and space, a space its org, the others nothing |
| UnsetLabelCommand.ExecuteSpec | command/v7/unset_label_command.go:49-87 | a current-user failure comes first, then the flag check; an unknown kind gives "Unsupported resource type" naming it as typed; for a known kind a failed target check ends the run with its error, and otherwise exactly that kind's update is asked, with the null labels of the keys, and its error is returned |
| UnsetLabelCommand.RequestFor | command/v7/unset_label_command.go:89-186 | each kind asks for its own update, naming the resource as given: an application within the targeted space, a space within the targeted org, a buildpack with the `--stack` given; the label map is passed unchanged |
| UnsetLabelCommand.BuildLabels | command/v7/unset_label_command.go:60-63 | the label map has exactly the given keys, each mapped to the null value |
| UnsetLabelCommand.Execute | command/v7/unset_label_command.go:49-87 | equals `ExecuteSpec`; OK is shown exactly when no error is returned |
| UnsetLabelCommand.DispatchIgnoresCase | command/v7/unset_label_command.go:65-76 | two spellings of a kind that differ only in case give the same update and the same success; beyond the flag check, the same outcome |
| UnsetLabelCommand.StackOnlyForBuildpacks | command/v7/unset_label_command.go:109-127 | a given stack reaches the platform only in a buildpack update, and as it was given |

## Left out

- Reading files, byte-level YAML decoding and encoding, `template.Evaluate` and the `filepath` calls are parameters. They are foreign-library and file-system calls. Only what the code does with their answers is modelled.
- The struct-tag mapping of applications and processes is modelled separately in `ManifestModel`, as trees of keys. It is not connected to the parsers' decoding and encoding parameters, which may be any functions.
- The goroutine and channel of `ApplySpaceManifest`: the worker runs to completion, and the stream is the list of events plus a closed flag.
- `SetSpaceManifest`, `CheckTarget`, the `Update*Labels*` calls and the current user are remote or configuration answers, given as inputs. Their warnings and all UI text are not modelled.
- Go slice aliasing: the transforms write through `Applications[0]` and process pointers, which also changes the caller's copy. The model gives each transform's effect on the manifest it returns only.
- `GetFirstApp` is modelled as the write to application 0; its pointer is not modelled.
- The contents and order of `Actor.TransformManifestSequence` are not shown, so `TransformManifest` is modelled over any given sequence.
- The random-route and app-name transforms are not part of this model: their source is not shown.
- The `validators` field of the manifest parser is passed to `Validate` as a parameter. Nothing in the modelled code sets it.
- The `appName` parameter of `parse` is unused by the code, so the doc comment's promise of an app-name override and filter is not modelled.
- The debug `fmt.Printf` in `parse`, logging, `PushPlan.String` and the `PushCommand` flow (`Setup`, `Execute`, `GetBaseManifest`, `ReadManifest`, the event handler, the log reader and summary display) are left out. They are UI, logging, remote clients or concurrency.
- `FlagOverrides.Disk` and `Memory` are strings with `""` meaning unset, as the transforms and `GetFlagOverrides` use them.
- `PushPlan` keeps only the fields this part reads or copies. The `v7action` application, space and organization records it embeds are left out.
- `RawAppManifest` returns the encoder's output and error together, as `yaml.Marshal` gives them.
- `GetFlagOverrides` always returns a nil error in the code, so the model returns only the overrides.
- UnsetLabelCommand.ToLower: lowers ASCII letters only; `strings.ToLower`'s Unicode case mapping is not modelled.
- The `ResourceType` constants are not part of this model. Their values are taken as "app", "buildpack", "org", "space" and "stack", as the command's tests spell them.
- The translated text of the "Unsupported resource type" error is modelled as its English template.
- Interpolation.Vars: variable values are strings. The code's static variables hold values of any type (`interface{}`). Which source wins for a name does not depend on the value's type, and rendering a value into the template is part of the `template.Evaluate` parameter.
- Integer widths (`int64` timeouts, `int` instances) are unbounded integers. No arithmetic is done on them.
- Transforms.NoRouteFlagTransform: the system's design description has `--no-route` also setting `RandomRoute`. The code writes only `NoRoute`, and the model follows the code.

## Findings

| source | as written | input that shows it | evidently intended | confidence | as-written member | corrected member |
|---|---|---|---|---|---|---|
| actor/v7pushaction/transform_manifest_with_stack_flag.go:9-14 | the write of `Stack` sits outside the `if overrides.Stack != ""` guard, so the transform runs on every push | a manifest with one application whose stack is "cflinuxfs3", pushed without `--stack`: the stack comes back `""` | like every other transform, an unset `--stack` leaves the manifest unchanged | not executed | Transforms.StackFlagTransformAsWritten, Transforms.StackFlagClearsStack | Transforms.StackFlagTransform, Transforms.UnsetFlagsChangeNothing |

Two more consequences of the same placement follow:

- with several applications and no `--stack`, no error is raised and application 0's stack is cleared;
- an empty manifest panics even without the flag.

`Transforms.StackFlagAgreesWhenSet` proves that the two versions agree whenever `--stack` is given.
