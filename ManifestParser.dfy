/**
 * The parsed manifest of `cf push` and its queries. A `ParsedManifest` is a
 * value: the transforms take one and give back another. The object that
 * `NewParser` returns, whose `InterpolateAndParse` and `parse` fill it in place,
 * is the class `Parser`.
 */
module ManifestParser {
  import opened Wrappers
  import opened Errors
  import opened ManifestModel
  import opened Interpolation

  datatype ParsedManifest = ParsedManifest(
    applications: seq<Application>,
    pathToManifest: string,
    rawManifest: Bytes,
    hasParsed: bool)
  {
    predicate ContainsManifest() { hasParsed }

    predicate ContainsMultipleApps() { |applications| > 1 }
  }

  /** `ParsedManifest{}`: no applications, nothing parsed. */
  const EmptyManifest: ParsedManifest := ParsedManifest([], "", [], false)

  /** What `yaml.Marshal` gives back: the bytes and an error, both assigned by the caller. */
  datatype MarshalResult = MarshalResult(out: Bytes, err: Option<Error>)

  // ---------------------------------------------------------------------------
  // Queries over the applications

  /** `AppNames`: one name per application, in manifest order. */
  method AppNames(m: ParsedManifest) returns (names: seq<string>)
    ensures |names| == |m.applications|
    ensures forall i :: 0 <= i < |names| ==> names[i] == m.applications[i].model.name
  {
    names := [];
    var i := 0;
    while i < |m.applications|
      invariant 0 <= i <= |m.applications|
      invariant |names| == i
      invariant forall j :: 0 <= j < i ==> names[j] == m.applications[j].model.name
    {
      names := names + [m.applications[i].model.name];
      i := i + 1;
    }
  }

  predicate IsPrivateDockerImage(app: Application) {
    app.model.docker.Some? && app.model.docker.value.username != ""
  }

  /** `ContainsPrivateDockerImages`: some application has a docker block with a username. */
  method ContainsPrivateDockerImages(m: ParsedManifest) returns (b: bool)
    ensures b <==> exists i :: 0 <= i < |m.applications| && IsPrivateDockerImage(m.applications[i])
  {
    var i := 0;
    while i < |m.applications|
      invariant 0 <= i <= |m.applications|
      invariant forall j :: 0 <= j < i ==> !IsPrivateDockerImage(m.applications[j])
    {
      var app := m.applications[i];
      if app.model.docker.Some? && app.model.docker.value.username != "" {
        return true;
      }
      i := i + 1;
    }
    return false;
  }

  /** `HasAppWithNoName`: some application has the empty name. */
  method HasAppWithNoName(m: ParsedManifest) returns (b: bool)
    ensures b <==> exists i :: 0 <= i < |m.applications| && m.applications[i].model.name == ""
  {
    var i := 0;
    while i < |m.applications|
      invariant 0 <= i <= |m.applications|
      invariant forall j :: 0 <= j < i ==> m.applications[j].model.name != ""
    {
      if m.applications[i].model.name == "" {
        return true;
      }
      i := i + 1;
    }
    return false;
  }

  // ---------------------------------------------------------------------------
  // The first web process of the first application

  /** The index of the first process whose type is `web`, if any. */
  function FirstWebIndex(ps: seq<ProcessModel>): (r: Option<nat>)
    ensures r.Some? ==> r.value < |ps| && ps[r.value].processType == WebProcessType
    ensures r.Some? ==> forall j :: 0 <= j < r.value ==> ps[j].processType != WebProcessType
    ensures r.None? <==> forall j :: 0 <= j < |ps| ==> ps[j].processType != WebProcessType
    decreases |ps|
  {
    if ps == [] then None
    else if ps[0].processType == WebProcessType then Some(0)
    else match FirstWebIndex(ps[1..])
      case None => None
      case Some(i) => Some(i + 1)
  }

  /**
   * `GetFirstAppWebProcess`: the position of the process it points at, or None
   * for the nil pointer. Indexing application 0 of an empty manifest panics, so
   * at least one application is required.
   */
  method GetFirstAppWebProcess(m: ParsedManifest) returns (r: Option<nat>)
    requires |m.applications| >= 1
    ensures r == FirstWebIndex(m.applications[0].model.processes)
  {
    var ps := m.applications[0].model.processes;
    var i := 0;
    while i < |ps|
      invariant 0 <= i <= |ps|
      invariant forall j :: 0 <= j < i ==> ps[j].processType != WebProcessType
    {
      if ps[i].processType == WebProcessType {
        return Some(i);
      }
      i := i + 1;
    }
    return None;
  }

  /** Application 0 with its process `i` replaced by `p`. */
  function WithProcess(m: ParsedManifest, i: nat, p: ProcessModel): ParsedManifest
    requires |m.applications| >= 1 && i < |m.applications[0].model.processes|
  {
    var a := m.applications[0].model;
    m.(applications := m.applications[0 := Application(a.(processes := a.processes[i := p]))])
  }

  /**
   * `UpdateFirstAppWebProcess`: the update is applied to the first web process
   * of application 0 and to nothing else; without a web process nothing changes.
   */
  method UpdateFirstAppWebProcess(m: ParsedManifest, update: ProcessModel -> ProcessModel)
    returns (m': ParsedManifest)
    requires |m.applications| >= 1
    ensures FirstWebIndex(m.applications[0].model.processes).None? ==> m' == m
    ensures FirstWebIndex(m.applications[0].model.processes).Some? ==>
              var i := FirstWebIndex(m.applications[0].model.processes).value;
              m' == WithProcess(m, i, update(m.applications[0].model.processes[i]))
  {
    m' := m;
    var ps := m.applications[0].model.processes;
    var i := 0;
    while i < |ps|
      invariant 0 <= i <= |ps|
      invariant forall j :: 0 <= j < i ==> ps[j].processType != WebProcessType
    {
      if ps[i].processType == WebProcessType {
        m' := WithProcess(m, i, update(ps[i]));
        break;
      }
      i := i + 1;
    }
  }

  /** Updating the first web process leaves every other process and application as it was. */
  lemma UpdateFirstWebOnly(m: ParsedManifest, i: nat, p: ProcessModel)
    requires |m.applications| >= 1 && FirstWebIndex(m.applications[0].model.processes) == Some(i)
    ensures var m' := WithProcess(m, i, p);
            |m'.applications| == |m.applications|
            && (forall k :: 1 <= k < |m.applications| ==> m'.applications[k] == m.applications[k])
            && |m'.applications[0].model.processes| == |m.applications[0].model.processes|
            && m'.applications[0].model.processes[i] == p
            && (forall j :: 0 <= j < |m.applications[0].model.processes| && j != i ==>
                  m'.applications[0].model.processes[j] == m.applications[0].model.processes[j])
            && m'.applications[0].model.(processes := []) == m.applications[0].model.(processes := [])
  {
  }

  // ---------------------------------------------------------------------------
  // Selecting one application

  /**
   * `RawAppManifest`: the first application with the given name, as a manifest
   * of its own; without one, AppNotInManifestError naming it.
   */
  method RawAppManifest(m: ParsedManifest, appName: string, marshal: seq<Application> -> MarshalResult)
    returns (out: Bytes, err: Option<Error>)
    ensures (forall i :: 0 <= i < |m.applications| ==> m.applications[i].model.name != appName)
            ==> out == [] && err == Some(AppNotInManifestError(appName))
    ensures forall i :: 0 <= i < |m.applications| && m.applications[i].model.name == appName
                        && (forall j :: 0 <= j < i ==> m.applications[j].model.name != appName)
                        ==> MarshalResult(out, err) == marshal([m.applications[i]])
  {
    var i := 0;
    while i < |m.applications|
      invariant 0 <= i <= |m.applications|
      invariant forall j :: 0 <= j < i ==> m.applications[j].model.name != appName
    {
      if m.applications[i].model.name == appName {
        var r := marshal([m.applications[i]]);
        return r.out, r.err;
      }
      i := i + 1;
    }
    return [], Some(AppNotInManifestError(appName));
  }

  // ---------------------------------------------------------------------------
  // Validation

  /**
   * `Validate`: the validators run in order and the first error stops the run;
   * `ran` counts the validators that were called.
   */
  method Validate(m: ParsedManifest, validators: seq<ParsedManifest -> Option<Error>>)
    returns (err: Option<Error>, ghost ran: nat)
    ensures err.None? <==> forall i :: 0 <= i < |validators| ==> validators[i](m).None?
    ensures err.None? ==> ran == |validators|
    ensures err.Some? ==> 1 <= ran <= |validators| && err == validators[ran - 1](m)
                          && forall i :: 0 <= i < ran - 1 ==> validators[i](m).None?
  {
    ran := 0;
    var i := 0;
    while i < |validators|
      invariant 0 <= i <= |validators| && ran == i
      invariant forall j :: 0 <= j < i ==> validators[j](m).None?
    {
      err := validators[i](m);
      ran := ran + 1;
      if err.Some? {
        return;
      }
      i := i + 1;
    }
    return None, ran;
  }

  // ---------------------------------------------------------------------------
  // Parsing

  /** What `filepath.EvalSymlinks` reports for a path. */
  datatype PathResolution = Resolved(path: string) | NotExist | Failed(cause: Error)

  /**
   * The collaborators of `parse`: YAML decoding and encoding of a manifest's
   * application list, and the file-system path operations.
   */
  datatype Decoding = Decoding(
    unmarshal: Bytes -> Result<seq<Application>, Error>,
    marshal: seq<Application> -> MarshalResult,
    isAbs: string -> bool,
    joinToDirOf: (string, string) -> string,
    evalSymlinks: string -> PathResolution)

  /** One application's path: empty stays empty, otherwise made absolute against the manifest's directory and resolved. */
  function ResolveAppPath(app: Application, pathToManifest: string, d: Decoding): (r: Result<Application, Error>)
    ensures app.model.path == "" ==> r == Success(app)
    ensures r.Success? ==> r.value.model == app.model.(path := r.value.model.path)
    ensures app.model.path != "" ==>
              var finalPath := if d.isAbs(app.model.path) then app.model.path
                               else d.joinToDirOf(pathToManifest, app.model.path);
              match d.evalSymlinks(finalPath)
              case NotExist => r == Failure(InvalidManifestApplicationPathError(app.model.path))
              case Failed(e) => r == Failure(e)
              case Resolved(q) => r.Success? && r.value.model.path == q
  {
    var original := app.model.path;
    if original == "" then Success(app)
    else
      var finalPath := if d.isAbs(original) then original else d.joinToDirOf(pathToManifest, original);
      match d.evalSymlinks(finalPath)
      case NotExist => Failure(InvalidManifestApplicationPathError(original))
      case Failed(e) => Failure(e)
      case Resolved(p) => Success(Application(app.model.(path := p)))
  }

  /** Every application's path resolved in order; the first failure stops. */
  function ResolvePaths(apps: seq<Application>, pathToManifest: string, d: Decoding): Result<seq<Application>, Error>
    decreases |apps|
  {
    if apps == [] then Success([])
    else
      var first :- ResolveAppPath(apps[0], pathToManifest, d);
      var rest :- ResolvePaths(apps[1..], pathToManifest, d);
      Success([first] + rest)
  }

  /**
   * Resolution keeps the applications, one for one, changing at most their
   * paths, and fails exactly when some application's path cannot be resolved,
   * with the error of the first such application.
   */
  lemma {:induction false} ResolvePathsMeaning(apps: seq<Application>, pathToManifest: string, d: Decoding)
    ensures var r := ResolvePaths(apps, pathToManifest, d);
            (r.Success? ==> |r.value| == |apps|
                            && forall i :: 0 <= i < |apps| ==> ResolveAppPath(apps[i], pathToManifest, d) == Success(r.value[i]))
            && (r.Failure? <==> exists i :: 0 <= i < |apps| && ResolveAppPath(apps[i], pathToManifest, d).Failure?)
            && (r.Failure? ==> exists k :: 0 <= k < |apps| && ResolveAppPath(apps[k], pathToManifest, d) == Failure(r.error)
                                           && forall j :: 0 <= j < k ==> ResolveAppPath(apps[j], pathToManifest, d).Success?)
    decreases |apps|
  {
    if apps != [] {
      ResolvePathsMeaning(apps[1..], pathToManifest, d);
      assert forall i :: 1 <= i < |apps| ==> apps[i] == apps[1..][i - 1];
      var r := ResolvePaths(apps, pathToManifest, d);
      if r.Failure? && ResolveAppPath(apps[0], pathToManifest, d).Success? {
        var j :| 0 <= j < |apps[1..]| && ResolveAppPath(apps[1..][j], pathToManifest, d).Failure?;
        assert ResolveAppPath(apps[j + 1], pathToManifest, d).Failure?;
        var k :| 0 <= k < |apps[1..]| && ResolveAppPath(apps[1..][k], pathToManifest, d) == Failure(r.error)
                 && forall j :: 0 <= j < k ==> ResolveAppPath(apps[1..][j], pathToManifest, d).Success?;
        assert ResolveAppPath(apps[k + 1], pathToManifest, d) == Failure(r.error);
      }
    }
  }

  /** What a successful `parse` stores: the resolved applications and their re-encoding. */
  datatype Parsed = Parsed(applications: seq<Application>, encoded: MarshalResult)

  /**
   * `parse` in `util/manifestparser`: a decoding error as it is, no application
   * at all rejected, then the path of every application resolved and the result
   * re-encoded.
   */
  function ParseSpec(manifestBytes: Bytes, pathToManifest: string, d: Decoding): (r: Result<Parsed, Error>)
    ensures d.unmarshal(manifestBytes).Success? && d.unmarshal(manifestBytes).value == []
            ==> r == Failure(Message(NoApplicationsMessage))
    ensures r.Success? ==> d.unmarshal(manifestBytes).Success?
                           && |r.value.applications| == |d.unmarshal(manifestBytes).value| >= 1
                           && r.value.encoded == d.marshal(r.value.applications)
    ensures r.Success? ==> forall i :: 0 <= i < |r.value.applications| ==>
                             r.value.applications[i].model.name == d.unmarshal(manifestBytes).value[i].model.name
    ensures d.unmarshal(manifestBytes).Failure? ==> r == Failure(d.unmarshal(manifestBytes).error)
    ensures d.unmarshal(manifestBytes).Success? && |d.unmarshal(manifestBytes).value| > 0 ==>
              var resolved := ResolvePaths(d.unmarshal(manifestBytes).value, pathToManifest, d);
              (resolved.Failure? ==> r == Failure(resolved.error))
              && (resolved.Success? ==> r == Success(Parsed(resolved.value, d.marshal(resolved.value))))
  {
    var raw :- d.unmarshal(manifestBytes);
    if |raw| == 0 then Failure(Message(NoApplicationsMessage))
    else
      var resolved :- ResolvePaths(raw, pathToManifest, d);
      ResolvePathsMeaning(raw, pathToManifest, d);
      Success(Parsed(resolved, d.marshal(resolved)))
  }

  function PrependApps(done: seq<Application>, r: Result<seq<Application>, Error>): Result<seq<Application>, Error> {
    match r
    case Failure(e) => Failure(e)
    case Success(rest) => Success(done + rest)
  }

  lemma ResolvePathsUnfold(apps: seq<Application>, i: nat, pathToManifest: string, d: Decoding)
    requires i < |apps|
    ensures ResolvePaths(apps[i..], pathToManifest, d) ==
            match ResolveAppPath(apps[i], pathToManifest, d)
            case Failure(e) => Failure(e)
            case Success(a) => PrependApps([a], ResolvePaths(apps[i + 1..], pathToManifest, d))
  {
    assert apps[i..][0] == apps[i];
    assert apps[i..][1..] == apps[i + 1..];
  }

  lemma PrependAppsStep(done: seq<Application>, a: Application, r: Result<seq<Application>, Error>)
    ensures PrependApps(done, PrependApps([a], r)) == PrependApps(done + [a], r)
  {
    if r.Success? {
      assert done + ([a] + r.value) == (done + [a]) + r.value;
    }
  }

  /** The loop of `parse` over the applications' paths. */
  method ResolveApplicationPaths(apps: seq<Application>, pathToManifest: string, d: Decoding)
    returns (r: Result<seq<Application>, Error>)
    ensures r == ResolvePaths(apps, pathToManifest, d)
  {
    var resolved := apps;
    var i := 0;
    assert apps[0..] == apps;
    assert PrependApps([], ResolvePaths(apps, pathToManifest, d)) == ResolvePaths(apps, pathToManifest, d) by {
      var x := ResolvePaths(apps, pathToManifest, d);
      if x.Success? { assert [] + x.value == x.value; }
    }
    while i < |apps|
      invariant 0 <= i <= |apps| && |resolved| == |apps|
      invariant forall j :: i <= j < |apps| ==> resolved[j] == apps[j]
      invariant ResolvePaths(apps, pathToManifest, d)
                == PrependApps(resolved[..i], ResolvePaths(apps[i..], pathToManifest, d))
    {
      ResolvePathsUnfold(apps, i, pathToManifest, d);
      var original := apps[i].model.path;
      if original != "" {
        var finalPath := original;
        if !d.isAbs(finalPath) {
          finalPath := d.joinToDirOf(pathToManifest, finalPath);
        }
        var resolution := d.evalSymlinks(finalPath);
        if resolution.NotExist? {
          return Failure(InvalidManifestApplicationPathError(original));
        } else if resolution.Failed? {
          return Failure(resolution.cause);
        }
        resolved := resolved[i := Application(apps[i].model.(path := resolution.path))];
      }
      assert ResolveAppPath(apps[i], pathToManifest, d) == Success(resolved[i]);
      PrependAppsStep(resolved[..i], resolved[i], ResolvePaths(apps[i + 1..], pathToManifest, d));
      assert resolved[..i + 1] == resolved[..i] + [resolved[i]];
      i := i + 1;
    }
    assert apps[i..] == [] && resolved[..i] + [] == resolved;
    return Success(resolved);
  }

  /** The object `NewParser` returns, filled in by `InterpolateAndParse`. */
  class Parser {
    var applications: seq<Application>
    var pathToManifest: string
    var rawManifest: Bytes
    var hasParsed: bool

    /** `NewParser`: the zero value. */
    constructor()
      ensures applications == [] && pathToManifest == "" && rawManifest == [] && !hasParsed
    {
      applications := [];
      pathToManifest := "";
      rawManifest := [];
      hasParsed := false;
    }

    function GetParsedManifest(): ParsedManifest
      reads this
    {
      ParsedManifest(applications, pathToManifest, rawManifest, hasParsed)
    }

    /**
     * `parse`: the bytes are stored first; on success the resolved applications
     * and their re-encoding replace them and the parser records that a
     * manifest was parsed. Before the applications are stored a failure leaves
     * them and the flag as they were.
     */
    method Parse(manifestBytes: Bytes, d: Decoding) returns (err: Option<Error>)
      modifies this
      ensures pathToManifest == old(pathToManifest)
      ensures var spec := ParseSpec(manifestBytes, old(pathToManifest), d);
              (spec.Success? ==> err == spec.value.encoded.err && applications == spec.value.applications
                                 && rawManifest == spec.value.encoded.out && hasParsed == (err.None? || old(hasParsed)))
              && (spec.Failure? ==> err == Some(spec.error) && applications == old(applications)
                                    && rawManifest == manifestBytes && hasParsed == old(hasParsed))
      ensures err.None? ==> GetParsedManifest().ContainsManifest() && |applications| >= 1
    {
      rawManifest := manifestBytes;
      var raw := d.unmarshal(manifestBytes);
      if raw.Failure? {
        return Some(raw.error);
      }
      if |raw.value| == 0 {
        return Some(Message(NoApplicationsMessage));
      }
      var resolved := ResolveApplicationPaths(raw.value, pathToManifest, d);
      if resolved.Failure? {
        return Some(resolved.error);
      }
      applications := resolved.value;
      var encoded := d.marshal(resolved.value);
      rawManifest := encoded.out;
      if encoded.err.Some? {
        return encoded.err;
      }
      hasParsed := true;
      return None;
    }

    /**
     * `InterpolateAndParse`: an interpolation failure leaves the parser as it
     * was; otherwise the manifest path is recorded and the interpolated bytes
     * parsed.
     */
    method InterpolateAndParse(path: string, pathsToVarsFiles: seq<string>, vars: seq<VarKV>,
                               t: Templating, d: Decoding) returns (err: Option<Error>)
      modifies this
      ensures var interpolated := InterpolateSpec(path, pathsToVarsFiles, vars, t);
              (interpolated.Failure? ==> err == Some(interpolated.error)
                                         && GetParsedManifest() == old(GetParsedManifest()))
              && (interpolated.Success? ==>
                    var spec := ParseSpec(interpolated.value, path, d);
                    pathToManifest == path
                    && (spec.Success? ==> err == spec.value.encoded.err && applications == spec.value.applications
                                          && rawManifest == spec.value.encoded.out
                                          && hasParsed == (err.None? || old(hasParsed)))
                    && (spec.Failure? ==> err == Some(spec.error) && applications == old(applications)
                                          && rawManifest == interpolated.value && hasParsed == old(hasParsed)))
      ensures err.None? ==> GetParsedManifest().ContainsManifest() && |applications| >= 1
    {
      var interpolated := Interpolate(path, pathsToVarsFiles, vars, t);
      if interpolated.Failure? {
        return Some(interpolated.error);
      }
      pathToManifest := path;
      err := Parse(interpolated.value, d);
    }
  }
}
