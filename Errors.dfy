/**
 * The errors the modelled core returns. Each constructor stands for one Go error
 * type (translatableerror, actionerror or manifestparser); `Message` is an error
 * built from text with errors.New, and `External` an error that comes back from a
 * collaborator the model does not see (the filesystem, the YAML library, the
 * template engine, the remote platform).
 */
module Errors {

  datatype Error =
    | CommandLineArgsWithMultipleAppsError
    | AppNotInManifestError(name: string)
    | InvalidYAMLError(cause: Error)
    | InterpolationError(cause: Error)
    | InvalidManifestApplicationPathError(path: string)
    | RequiredFlagsError(arg1: string, arg2: string)
    | ArgumentCombinationError(args: seq<string>)
    | AllInstancesCrashedError
    | StartupTimeoutError
    | ApplicationUnableToStartError(appName: string, binaryName: string)
    | TranslatedStartupTimeoutError(appName: string, binaryName: string)
    | Message(text: string)
    | External(description: string)

  /** The text of util/manifestparser/parser.go's zero-application error. */
  const NoApplicationsMessage: string := "must have at least one application"
}
