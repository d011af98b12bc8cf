/**
 * The push actor's own manifest parser: it interpolates the manifest file like
 * the manifest parser does, but decodes the result straight into its list of
 * applications, with no minimum count and no path resolution. Without a
 * manifest it answers a manifest of one empty application.
 */
module PushManifestParser {
  import opened Wrappers
  import opened Errors
  import opened ManifestModel
  import opened Interpolation
  import ManifestParser

  /** `ManifestData`: the applications of a manifest. */
  datatype ManifestData = ManifestData(applications: seq<Application>)

  /** What `GetManifest` answers when there is no manifest to read. */
  const SingleEmptyApplication: ManifestData := ManifestData([EmptyApplication])

  /** Decoding the interpolated bytes: the applications as the decoder reads them, or its error. */
  function DecodeManifestData(manifestBytes: Bytes, unmarshal: Bytes -> Result<seq<Application>, Error>)
    : (r: Result<ManifestData, Error>)
    ensures r.Success? <==> unmarshal(manifestBytes).Success?
    ensures r.Success? ==> r.value.applications == unmarshal(manifestBytes).value
    ensures r.Failure? ==> r.error == unmarshal(manifestBytes).error
  {
    var applications :- unmarshal(manifestBytes);
    Success(ManifestData(applications))
  }

  /** Whether `GetManifest` skips the manifest: `--no-manifest`, or no manifest path. */
  predicate SkipsManifest(noManifest: bool, pathToManifest: string) {
    noManifest || pathToManifest == ""
  }

  /**
   * `GetManifest`, as the manifest it returns and its error, given the manifest
   * the parser held before. Without a manifest: one empty application and no
   * error, whatever the files say. Otherwise: on a failed interpolation or
   * decoding the manifest held before and that error; on success the decoded one.
   */
  function GetManifestSpec(noManifest: bool, pathToManifest: string, pathsToVarsFiles: seq<string>,
                           vars: seq<VarKV>, t: Templating, unmarshal: Bytes -> Result<seq<Application>, Error>,
                           held: ManifestData): (r: (ManifestData, Option<Error>))
    ensures SkipsManifest(noManifest, pathToManifest) ==> r == (SingleEmptyApplication, None)
    ensures !SkipsManifest(noManifest, pathToManifest) && t.readFile(pathToManifest).Failure?
            ==> r == (held, Some(t.readFile(pathToManifest).error))
    ensures !SkipsManifest(noManifest, pathToManifest) ==>
              (r.1.None? <==> InterpolateSpec(pathToManifest, pathsToVarsFiles, vars, t).Success?
                              && DecodeManifestData(InterpolateSpec(pathToManifest, pathsToVarsFiles, vars, t).value,
                                                    unmarshal).Success?)
    ensures !SkipsManifest(noManifest, pathToManifest) && r.1.None?
            ==> r.0.applications == unmarshal(InterpolateSpec(pathToManifest, pathsToVarsFiles, vars, t).value).value
    ensures r.1.Some? ==> r.0 == held
    ensures !SkipsManifest(noManifest, pathToManifest) && InterpolateSpec(pathToManifest, pathsToVarsFiles, vars, t).Failure?
            ==> r == (held, Some(InterpolateSpec(pathToManifest, pathsToVarsFiles, vars, t).error))
    ensures !SkipsManifest(noManifest, pathToManifest) && InterpolateSpec(pathToManifest, pathsToVarsFiles, vars, t).Success?
            && DecodeManifestData(InterpolateSpec(pathToManifest, pathsToVarsFiles, vars, t).value, unmarshal).Failure?
            ==> r == (held, Some(DecodeManifestData(InterpolateSpec(pathToManifest, pathsToVarsFiles, vars, t).value,
                                                    unmarshal).error))
  {
    if SkipsManifest(noManifest, pathToManifest) then (SingleEmptyApplication, None)
    else match InterpolateSpec(pathToManifest, pathsToVarsFiles, vars, t)
      case Failure(e) => (held, Some(e))
      case Success(raw) =>
        match DecodeManifestData(raw, unmarshal)
        case Failure(e) => (held, Some(e))
        case Success(data) => (data, None)
  }

  /**
   * Unlike the manifest parser, the actor's parser takes a manifest without
   * applications: the same decoded bytes that the manifest parser refuses
   * decode here to an empty list.
   */
  lemma NoMinimumApplicationCount(manifestBytes: Bytes, pathToManifest: string, d: ManifestParser.Decoding)
    requires d.unmarshal(manifestBytes) == Success([])
    ensures DecodeManifestData(manifestBytes, d.unmarshal) == Success(ManifestData([]))
    ensures ManifestParser.ParseSpec(manifestBytes, pathToManifest, d)
            == Failure(Message(NoApplicationsMessage))
  {
  }

  /** The actor's `Parser`. */
  class Parser {
    var manifest: ManifestData
    var pathToManifest: string
    var rawManifest: Bytes
    var hasParsed: bool

    /** The zero value. */
    constructor()
      ensures manifest == ManifestData([]) && pathToManifest == "" && rawManifest == [] && !hasParsed
    {
      manifest := ManifestData([]);
      pathToManifest := "";
      rawManifest := [];
      hasParsed := false;
    }

    /**
     * `parse`: the bytes are stored first; a decoding failure stops there,
     * otherwise the decoded manifest is stored and the parser records that it
     * parsed one.
     */
    method Parse(manifestBytes: Bytes, unmarshal: Bytes -> Result<seq<Application>, Error>)
      returns (err: Option<Error>)
      modifies this
      ensures rawManifest == manifestBytes && pathToManifest == old(pathToManifest)
      ensures var decoded := DecodeManifestData(manifestBytes, unmarshal);
              (decoded.Success? ==> err.None? && manifest == decoded.value && hasParsed)
              && (decoded.Failure? ==> err == Some(decoded.error) && manifest == old(manifest)
                                       && hasParsed == old(hasParsed))
    {
      rawManifest := manifestBytes;
      var raw := unmarshal(manifestBytes);
      if raw.Failure? {
        return Some(raw.error);
      }
      manifest := ManifestData(raw.value);
      hasParsed := true;
      return None;
    }

    /**
     * `InterpolateAndParse`: an interpolation failure leaves the parser as it
     * was; otherwise the path is recorded and the interpolated bytes parsed.
     */
    method InterpolateAndParse(path: string, pathsToVarsFiles: seq<string>, vars: seq<VarKV>, t: Templating,
                               unmarshal: Bytes -> Result<seq<Application>, Error>)
      returns (err: Option<Error>)
      modifies this
      ensures var interpolated := InterpolateSpec(path, pathsToVarsFiles, vars, t);
              (interpolated.Failure? ==> err == Some(interpolated.error) && manifest == old(manifest)
                                         && pathToManifest == old(pathToManifest)
                                         && rawManifest == old(rawManifest) && hasParsed == old(hasParsed))
              && (interpolated.Success? ==>
                    var decoded := DecodeManifestData(interpolated.value, unmarshal);
                    pathToManifest == path && rawManifest == interpolated.value
                    && (decoded.Success? ==> err.None? && manifest == decoded.value && hasParsed)
                    && (decoded.Failure? ==> err == Some(decoded.error) && manifest == old(manifest)
                                             && hasParsed == old(hasParsed)))
    {
      var interpolated := Interpolate(path, pathsToVarsFiles, vars, t);
      if interpolated.Failure? {
        return Some(interpolated.error);
      }
      pathToManifest := path;
      err := Parse(interpolated.value, unmarshal);
    }

    /**
     * `GetManifest`: without a manifest nothing is read and the parser is left
     * alone; otherwise the manifest is interpolated and parsed, and the
     * manifest the parser then holds is returned with the error.
     */
    method GetManifest(noManifest: bool, path: string, pathsToVarsFiles: seq<string>, vars: seq<VarKV>,
                       t: Templating, unmarshal: Bytes -> Result<seq<Application>, Error>)
      returns (parsed: ManifestData, err: Option<Error>)
      modifies this
      ensures (parsed, err) == GetManifestSpec(noManifest, path, pathsToVarsFiles, vars, t, unmarshal, old(manifest))
      ensures SkipsManifest(noManifest, path) ==> unchanged(this)
      ensures !SkipsManifest(noManifest, path) ==> parsed == manifest
    {
      if noManifest || path == "" {
        return SingleEmptyApplication, None;
      }
      err := InterpolateAndParse(path, pathsToVarsFiles, vars, t, unmarshal);
      return manifest, err;
    }
  }
}
