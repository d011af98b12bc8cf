/**
 * `Actor.TransformManifest`: the overrides are folded into the base manifest by
 * running the actor's transforms in order, each on the previous one's output;
 * the first error ends the run with the empty manifest.
 */
module TransformPipeline {
  import opened Wrappers
  import opened Errors
  import opened ManifestParser
  import opened PushPlan
  import opened Transforms

  /** The fold, from the left. */
  function RunSequence(m: ParsedManifest, o: FlagOverrides, ts: seq<TransformManifestFunc>): Outcome
    decreases |ts|
  {
    if ts == [] then Returned(m, None)
    else match ts[0](m, o)
      case Panicked => Panicked
      case Returned(next, err) =>
        if err.Some? then Returned(EmptyManifest, err) else RunSequence(next, o, ts[1..])
  }

  /** Continue a run with more transforms, unless it already stopped. */
  function Then(r: Outcome, o: FlagOverrides, ts: seq<TransformManifestFunc>): Outcome {
    if r.Returned? && r.err.None? then RunSequence(r.manifest, o, ts) else r
  }

  /** Running `a + b` is running `a` and then, if it went through, `b` on its result. */
  lemma {:induction false} RunSequenceAppend(m: ParsedManifest, o: FlagOverrides, a: seq<TransformManifestFunc>,
                                             b: seq<TransformManifestFunc>)
    ensures RunSequence(m, o, a + b) == Then(RunSequence(m, o, a), o, b)
    decreases |a|
  {
    if a == [] {
      assert a + b == b;
    } else {
      assert (a + b)[0] == a[0];
      assert (a + b)[1..] == a[1..] + b;
      var first := a[0](m, o);
      if first.Returned? && first.err.None? {
        RunSequenceAppend(first.manifest, o, a[1..], b);
      }
    }
  }

  /**
   * The first failing transform decides the run: the result is the empty
   * manifest and that transform's error, whatever the later transforms do.
   */
  lemma FirstErrorStops(m: ParsedManifest, o: FlagOverrides, ts: seq<TransformManifestFunc>, k: nat,
                        reached: ParsedManifest)
    requires k < |ts|
    requires RunSequence(m, o, ts[..k]) == Returned(reached, None)
    requires ts[k](reached, o).Returned? && ts[k](reached, o).err.Some?
    ensures RunSequence(m, o, ts) == Returned(EmptyManifest, ts[k](reached, o).err)
  {
    assert ts[..k] + ts[k..] == ts;
    RunSequenceAppend(m, o, ts[..k], ts[k..]);
    assert ts[k..][0] == ts[k];
  }

  /** Transforms that change nothing leave the base manifest as the result. */
  lemma {:induction false} IdentityTransforms(m: ParsedManifest, o: FlagOverrides, ts: seq<TransformManifestFunc>)
    requires forall i, m' :: 0 <= i < |ts| ==> ts[i](m', o) == Returned(m', None)
    ensures RunSequence(m, o, ts) == Returned(m, None)
    decreases |ts|
  {
    if ts != [] {
      assert ts[0](m, o) == Returned(m, None);
      assert forall i, m' :: 0 <= i < |ts[1..]| ==> ts[1..][i](m', o) == ts[i + 1](m', o);
      IdentityTransforms(m, o, ts[1..]);
    }
  }

  /**
   * `TransformManifest` over the actor's transform sequence; `invoked` counts
   * the transforms that were called. A run that ends early ends at transform
   * number `invoked`, every transform before it having gone through.
   */
  method TransformManifest(baseManifest: ParsedManifest, flagOverrides: FlagOverrides,
                           sequence: seq<TransformManifestFunc>)
    returns (r: Outcome, ghost invoked: nat)
    ensures r == RunSequence(baseManifest, flagOverrides, sequence)
    ensures r.Returned? && r.err.Some? ==> r.manifest == EmptyManifest
    ensures r.Returned? && r.err.None? ==> invoked == |sequence|
    ensures !(r.Returned? && r.err.None?) ==>
              1 <= invoked <= |sequence|
              && var before := RunSequence(baseManifest, flagOverrides, sequence[..invoked - 1]);
                 before.Returned? && before.err.None?
                 && var last := sequence[invoked - 1](before.manifest, flagOverrides);
                    last.Panicked? || last.err.Some?
  {
    var newManifest := baseManifest;
    invoked := 0;
    var i := 0;
    assert sequence[..0] == [];
    while i < |sequence|
      invariant 0 <= i <= |sequence| && invoked == i
      invariant RunSequence(baseManifest, flagOverrides, sequence[..i]) == Returned(newManifest, None)
    {
      RunSequenceAppend(baseManifest, flagOverrides, sequence[..i], sequence[i..]);
      assert sequence[..i] + sequence[i..] == sequence;
      assert sequence[i..][0] == sequence[i] && sequence[i..][1..] == sequence[i + 1..];
      var out := sequence[i](newManifest, flagOverrides);
      invoked := invoked + 1;
      if out.Panicked? {
        return Panicked, invoked;
      }
      if out.err.Some? {
        return Returned(EmptyManifest, out.err), invoked;
      }
      RunSequenceAppend(baseManifest, flagOverrides, sequence[..i], [sequence[i]]);
      assert sequence[..i + 1] == sequence[..i] + [sequence[i]];
      assert [sequence[i]][0] == sequence[i] && [sequence[i]][1..] == [];
      assert RunSequence(newManifest, flagOverrides, [sequence[i]]) == Returned(out.manifest, None);
      newManifest := out.manifest;
      i := i + 1;
    }
    assert sequence[..i] == sequence;
    return Returned(newManifest, None), invoked;
  }
}
