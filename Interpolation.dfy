/**
 * Reading a manifest and interpolating its `((variables))`: the part that both
 * manifest parsers share. The variable table is built from the vars files, in
 * order, each overriding the earlier ones key by key, and then from the inline
 * `--var` pairs, which override every file.
 *
 * Reading a file, decoding a vars file and evaluating the template are done by
 * collaborators the model does not see; they are the fields of `Templating`.
 */
module Interpolation {
  import opened Wrappers
  import opened Errors
  import opened ManifestModel

  type Vars = map<string, string>

  /** One inline `--var name=value` pair. */
  datatype VarKV = VarKV(name: string, value: string)

  datatype Templating = Templating(
    readFile: string -> Result<Bytes, Error>,
    unmarshalVars: Bytes -> Result<Vars, Error>,
    evaluate: (Bytes, Vars) -> Result<Bytes, Error>)

  // ---------------------------------------------------------------------------
  // The variable table

  /** The vars files merged in order; a later file wins on a shared key. */
  function MergeFiles(files: seq<Vars>): Vars
    decreases |files|
  {
    if files == [] then map[] else MergeFiles(files[..|files| - 1]) + files[|files| - 1]
  }

  /** The inline pairs applied in order on top of `base`. */
  function ApplyInline(base: Vars, vars: seq<VarKV>): Vars
    decreases |vars|
  {
    if vars == [] then base else ApplyInline(base[vars[0].name := vars[0].value], vars[1..])
  }

  function VariableTable(files: seq<Vars>, vars: seq<VarKV>): Vars {
    ApplyInline(MergeFiles(files), vars)
  }

  /** A key is in the merged files exactly when some file defines it. */
  lemma {:induction false} MergeFilesKeys(files: seq<Vars>, k: string)
    ensures k in MergeFiles(files) <==> exists j :: 0 <= j < |files| && k in files[j]
    decreases |files|
  {
    if files != [] {
      var front := files[..|files| - 1];
      MergeFilesKeys(front, k);
      if k in MergeFiles(files) && k !in files[|files| - 1] {
        var j :| 0 <= j < |front| && k in front[j];
        assert files[j] == front[j];
      }
      if j :| 0 <= j < |files| && k in files[j] {
        if j < |files| - 1 {
          assert front[j] == files[j];
        }
      }
    }
  }

  /** The last file that defines a key gives its value. */
  lemma {:induction false} MergeFilesLastWins(files: seq<Vars>, k: string, j: int)
    requires 0 <= j < |files| && k in files[j]
    requires forall j' :: j < j' < |files| ==> k !in files[j']
    ensures k in MergeFiles(files) && MergeFiles(files)[k] == files[j][k]
    decreases |files|
  {
    if j < |files| - 1 {
      var front := files[..|files| - 1];
      assert front[j] == files[j];
      MergeFilesLastWins(front, k, j);
    }
  }

  /** A key no inline pair names keeps its value from `base`. */
  lemma {:induction false} ApplyInlineKeeps(base: Vars, vars: seq<VarKV>, k: string)
    requires forall i :: 0 <= i < |vars| ==> vars[i].name != k
    ensures k in ApplyInline(base, vars) <==> k in base
    ensures k in base ==> ApplyInline(base, vars)[k] == base[k]
    decreases |vars|
  {
    if vars != [] {
      ApplyInlineKeeps(base[vars[0].name := vars[0].value], vars[1..], k);
    }
  }

  /** The last inline pair naming a key gives its value, whatever `base` holds. */
  lemma {:induction false} ApplyInlineLastWins(base: Vars, vars: seq<VarKV>, i: int)
    requires 0 <= i < |vars|
    requires forall i' :: i < i' < |vars| ==> vars[i'].name != vars[i].name
    ensures vars[i].name in ApplyInline(base, vars)
    ensures ApplyInline(base, vars)[vars[i].name] == vars[i].value
    decreases |vars|
  {
    var next := base[vars[0].name := vars[0].value];
    if i == 0 {
      ApplyInlineKeeps(next, vars[1..], vars[0].name);
    } else {
      ApplyInlineLastWins(next, vars[1..], i - 1);
    }
  }

  /** Without an inline pair for it, a key is in the table exactly when some vars file defines it. */
  lemma VariableTableKeys(files: seq<Vars>, vars: seq<VarKV>, k: string)
    requires forall i :: 0 <= i < |vars| ==> vars[i].name != k
    ensures k in VariableTable(files, vars) <==> exists j :: 0 <= j < |files| && k in files[j]
  {
    MergeFilesKeys(files, k);
    ApplyInlineKeeps(MergeFiles(files), vars, k);
  }

  /** The last inline pair for a key beats every vars file. */
  lemma VariableTableInlineWins(files: seq<Vars>, vars: seq<VarKV>, i: int)
    requires 0 <= i < |vars|
    requires forall i' :: i < i' < |vars| ==> vars[i'].name != vars[i].name
    ensures vars[i].name in VariableTable(files, vars)
    ensures VariableTable(files, vars)[vars[i].name] == vars[i].value
  {
    ApplyInlineLastWins(MergeFiles(files), vars, i);
  }

  /** Without an inline pair for it, the last vars file that defines a key gives its value. */
  lemma VariableTableFileWins(files: seq<Vars>, vars: seq<VarKV>, k: string, j: int)
    requires 0 <= j < |files| && k in files[j]
    requires forall j' :: j < j' < |files| ==> k !in files[j']
    requires forall i :: 0 <= i < |vars| ==> vars[i].name != k
    ensures k in VariableTable(files, vars) && VariableTable(files, vars)[k] == files[j][k]
  {
    MergeFilesLastWins(files, k, j);
    ApplyInlineKeeps(MergeFiles(files), vars, k);
  }

  /** The loop `for k, v := range sv { fileVars[k] = v }`. */
  method MergeVarsFile(fileVars: Vars, sv: Vars) returns (r: Vars)
    ensures r == fileVars + sv
  {
    r := fileVars;
    var remaining := sv.Keys;
    while remaining != {}
      invariant remaining <= sv.Keys
      invariant forall k :: k in r <==> k in fileVars || (k in sv && k !in remaining)
      invariant forall k :: k in r ==> r[k] == if k in sv && k !in remaining then sv[k] else fileVars[k]
      decreases remaining
    {
      var k :| k in remaining;
      r := r[k := sv[k]];
      remaining := remaining - {k};
    }
  }

  /** The loop `for _, kv := range vars { fileVars[kv.Name] = kv.Value }`. */
  method ApplyVarKVs(fileVars: Vars, vars: seq<VarKV>) returns (r: Vars)
    ensures r == ApplyInline(fileVars, vars)
  {
    r := fileVars;
    var i := 0;
    while i < |vars|
      invariant 0 <= i <= |vars|
      invariant ApplyInline(r, vars[i..]) == ApplyInline(fileVars, vars)
    {
      assert vars[i..][1..] == vars[i + 1..];
      r := r[vars[i].name := vars[i].value];
      i := i + 1;
    }
  }

  // ---------------------------------------------------------------------------
  // Reading and interpolating

  /** One vars file: a read failure as it is, a decoding failure as InvalidYAMLError. */
  function LoadVarsFile(path: string, t: Templating): (r: Result<Vars, Error>)
    ensures t.readFile(path).Failure? ==> r == Failure(t.readFile(path).error)
    ensures t.readFile(path).Success? && t.unmarshalVars(t.readFile(path).value).Failure?
            ==> r == Failure(InvalidYAMLError(t.unmarshalVars(t.readFile(path).value).error))
    ensures r.Success? <==> t.readFile(path).Success? && t.unmarshalVars(t.readFile(path).value).Success?
    ensures r.Success? ==> r.value == t.unmarshalVars(t.readFile(path).value).value
  {
    match t.readFile(path)
    case Failure(e) => Failure(e)
    case Success(raw) =>
      match t.unmarshalVars(raw)
      case Failure(e) => Failure(InvalidYAMLError(e))
      case Success(sv) => Success(sv)
  }

  /** The vars files in order, stopping at the first that cannot be loaded. */
  function LoadVarsFiles(paths: seq<string>, t: Templating): (r: Result<seq<Vars>, Error>)
    ensures r.Success? ==> |r.value| == |paths|
                           && forall i :: 0 <= i < |paths| ==> LoadVarsFile(paths[i], t) == Success(r.value[i])
    ensures r.Failure? ==> exists k :: 0 <= k < |paths| && LoadVarsFile(paths[k], t) == Failure(r.error)
                                       && forall j :: 0 <= j < k ==> LoadVarsFile(paths[j], t).Success?
    decreases |paths|
  {
    if paths == [] then Success([])
    else
      var first :- LoadVarsFile(paths[0], t);
      var rest :- LoadVarsFiles(paths[1..], t);
      Success([first] + rest)
  }

  /**
   * The interpolated manifest: a read failure of the manifest or of a vars file
   * comes back before anything is evaluated, and a failed (strict) evaluation
   * comes back as InterpolationError.
   */
  function InterpolateSpec(pathToManifest: string, pathsToVarsFiles: seq<string>, vars: seq<VarKV>,
                           t: Templating): (r: Result<Bytes, Error>)
    ensures t.readFile(pathToManifest).Failure? ==> r == Failure(t.readFile(pathToManifest).error)
    ensures t.readFile(pathToManifest).Success? && LoadVarsFiles(pathsToVarsFiles, t).Failure?
            ==> r == Failure(LoadVarsFiles(pathsToVarsFiles, t).error)
    ensures t.readFile(pathToManifest).Success? && LoadVarsFiles(pathsToVarsFiles, t).Success?
            ==> var evaluated := t.evaluate(t.readFile(pathToManifest).value,
                                            VariableTable(LoadVarsFiles(pathsToVarsFiles, t).value, vars));
                (evaluated.Failure? ==> r == Failure(InterpolationError(evaluated.error)))
                && (evaluated.Success? ==> r == Success(evaluated.value))
  {
    var raw :- t.readFile(pathToManifest);
    var files :- LoadVarsFiles(pathsToVarsFiles, t);
    match t.evaluate(raw, VariableTable(files, vars))
    case Failure(e) => Failure(InterpolationError(e))
    case Success(out) => Success(out)
  }

  function Prepend(loaded: seq<Vars>, rest: Result<seq<Vars>, Error>): Result<seq<Vars>, Error> {
    match rest
    case Failure(e) => Failure(e)
    case Success(files) => Success(loaded + files)
  }

  lemma PrependPrepend(a: seq<Vars>, b: seq<Vars>, rest: Result<seq<Vars>, Error>)
    ensures Prepend(a, Prepend(b, rest)) == Prepend(a + b, rest)
  {
    if rest.Success? {
      assert a + (b + rest.value) == (a + b) + rest.value;
    }
  }

  /**
   * The shared body of InterpolateAndParse up to parsing: read the manifest,
   * build the variable table file by file, then evaluate the template.
   */
  method Interpolate(pathToManifest: string, pathsToVarsFiles: seq<string>, vars: seq<VarKV>,
                     t: Templating) returns (r: Result<Bytes, Error>)
    ensures r == InterpolateSpec(pathToManifest, pathsToVarsFiles, vars, t)
    ensures t.readFile(pathToManifest).Failure? ==> r == Failure(t.readFile(pathToManifest).error)
    ensures r.Failure? && t.readFile(pathToManifest).Success? && LoadVarsFiles(pathsToVarsFiles, t).Success?
            ==> r.error.InterpolationError?
    ensures t.readFile(pathToManifest).Success? && LoadVarsFiles(pathsToVarsFiles, t).Failure?
            ==> r == Failure(LoadVarsFiles(pathsToVarsFiles, t).error)
  {
    var rawManifest := t.readFile(pathToManifest);
    if rawManifest.Failure? {
      return Failure(rawManifest.error);
    }
    var fileVars: Vars := map[];
    ghost var loaded: seq<Vars> := [];
    assert pathsToVarsFiles[0..] == pathsToVarsFiles;
    assert Prepend([], LoadVarsFiles(pathsToVarsFiles, t)) == LoadVarsFiles(pathsToVarsFiles, t) by {
      var x := LoadVarsFiles(pathsToVarsFiles, t);
      if x.Success? { assert [] + x.value == x.value; }
    }
    var i := 0;
    while i < |pathsToVarsFiles|
      invariant 0 <= i <= |pathsToVarsFiles|
      invariant LoadVarsFiles(pathsToVarsFiles, t) == Prepend(loaded, LoadVarsFiles(pathsToVarsFiles[i..], t))
      invariant fileVars == MergeFiles(loaded)
    {
      var rest := pathsToVarsFiles[i..];
      assert rest[0] == pathsToVarsFiles[i];
      assert rest[1..] == pathsToVarsFiles[i + 1..];
      var rawVarsFile := t.readFile(pathsToVarsFiles[i]);
      if rawVarsFile.Failure? {
        return Failure(rawVarsFile.error);
      }
      var sv := t.unmarshalVars(rawVarsFile.value);
      if sv.Failure? {
        return Failure(InvalidYAMLError(sv.error));
      }
      assert LoadVarsFile(rest[0], t) == Success(sv.value);
      assert LoadVarsFiles(rest, t) == Prepend([sv.value], LoadVarsFiles(rest[1..], t));
      PrependPrepend(loaded, [sv.value], LoadVarsFiles(rest[1..], t));
      fileVars := MergeVarsFile(fileVars, sv.value);
      assert (loaded + [sv.value])[..|loaded|] == loaded;
      loaded := loaded + [sv.value];
      i := i + 1;
    }
    assert pathsToVarsFiles[i..] == [];
    assert loaded + [] == loaded;
    fileVars := ApplyVarKVs(fileVars, vars);
    var evaluated := t.evaluate(rawManifest.value, fileVars);
    if evaluated.Failure? {
      return Failure(InterpolationError(evaluated.error));
    }
    return Success(evaluated.value);
  }
}
