/**
 * The key renaming of convert_model.py: a checkpoint trained with timm-style
 * names (`stem`, `stages.N`, `head`) is renamed to the torchvision ConvNeXt
 * names (`features.0`, `features.N+1`, `classifier`) before its weights are
 * loaded and the network is exported.
 */
module ConvertModel {
  import opened Wrappers
  import opened Text
  import opened Dicts
  import opened Checkpoints

  const STEM := "stem."
  const STAGES := "stages."
  const HEAD := "head."

  /** `stages.N.rest` to `features.(N+1).rest`, through `split('.')`, `int()` and `'.'.join`. */
  function RenameStage(key: string): Result<string, string>
    requires StartsWith(key, STAGES)
  {
    assert key == "stages" + ['.'] + key[7..];
    SplitAtFirst("stages", key[7..], '.');
    var parts := Split(key, '.');
    match ParseInt(parts[1])
    case None => Err("ValueError")
    case Some(stageNum) => Ok("features." + IntToString(stageNum + 1) + "." + Join('.', parts[2..]))
  }

  /** `head.` to `classifier.`, then `fc.` to `2.`, then `norm.` to `0.`, each everywhere in the key. */
  function RenameHead(key: string): string {
    var newKey := ReplaceAll(key, HEAD, "classifier.");
    var newKey := ReplaceAll(newKey, "fc.", "2.");
    ReplaceAll(newKey, "norm.", "0.")
  }

  /**
   * The new name of one key. A `stages.` key whose second dot-separated part is
   * not an integer raises ValueError; no other key fails.
   */
  function RemapKey(key: string): (r: Result<string, string>)
    ensures r.Err? ==> StartsWith(key, STAGES)
    ensures !StartsWith(key, STEM) && !StartsWith(key, STAGES) && !StartsWith(key, HEAD) ==> r == Ok(key)
  {
    if StartsWith(key, STEM) then Ok(ReplaceAll(key, STEM, "features.0."))
    else if StartsWith(key, STAGES) then RenameStage(key)
    else if StartsWith(key, HEAD) then Ok(RenameHead(key))
    else Ok(key)
  }

  /** Every occurrence of the pattern is rewritten from the start of a key that begins with it. */
  lemma ReplaceLeading(pat: string, rep: string, rest: string)
    requires pat != ""
    ensures ReplaceAll(pat + rest, pat, rep) == rep + ReplaceAll(rest, pat, rep)
  {
    assert (pat + rest)[..|pat|] == pat;
    assert (pat + rest)[|pat|..] == rest;
  }

  /** A prefix holding no start of the pattern, followed by a text without it, is left alone. */
  lemma ReplaceNowhere(p: string, rest: string, pat: string, rep: string)
    requires |pat| >= 2 && NoPairStartFrom(p, pat, 0) && !Contains(rest, pat)
    ensures ReplaceAll(p + rest, pat, rep) == p + rest
  {
    NoStartInPrefix(p, rest, pat, 0);
    ReplaceAllSkip(p, rest, pat, rep);
    ReplaceAllAbsent(rest, pat, rep);
  }

  /** Only the one occurrence of the pattern right after such a prefix is rewritten. */
  lemma ReplaceOnlyAfter(p: string, rest: string, pat: string, rep: string)
    requires |pat| >= 2 && NoPairStartFrom(p, pat, 0) && !Contains(rest, pat)
    ensures ReplaceAll(p + pat + rest, pat, rep) == p + rep + rest
  {
    NoStartInPrefix(p, pat + rest, pat, 0);
    ReplaceAllSkip(p, pat + rest, pat, rep);
    ReplaceLeading(pat, rep, rest);
    ReplaceAllAbsent(rest, pat, rep);
    assert p + pat + rest == p + (pat + rest);
  }

  /** `stem.rest` becomes `features.0.rest` when `rest` holds no further `stem.`. */
  lemma RemapStem(rest: string)
    requires !Contains(rest, STEM)
    ensures RemapKey(STEM + rest) == Ok("features.0." + rest)
  {
    ReplaceLeading(STEM, "features.0.", rest);
    ReplaceAllAbsent(rest, STEM, "features.0.");
  }

  lemma NoDotInInt(n: int)
    ensures '.' !in IntToString(n)
  {
    var s := IntToString(n);
    if n < 0 {
      assert s == "-" + NatToString(-n);
      assert forall i :: 0 <= i < |s| ==> s[i] != '.' by {
        forall i | 0 <= i < |s| ensures s[i] != '.' {
          if i > 0 { assert s[i] == NatToString(-n)[i - 1]; }
        }
      }
    }
  }

  /** `stages.N.rest` becomes `features.M.rest` with M = N + 1, whatever `rest` is. */
  lemma {:induction false} RemapStage(n: int, rest: string)
    ensures RemapKey(STAGES + IntToString(n) + "." + rest) == Ok("features." + IntToString(n + 1) + "." + rest)
  {
    var num := IntToString(n);
    var key := STAGES + num + "." + rest;
    assert key[..|STAGES|] == STAGES;
    assert key[..|STEM|] != STEM by { assert key[2] != STEM[2]; }
    assert key[7..] == num + ['.'] + rest;
    assert key == "stages" + ['.'] + key[7..];
    SplitAtFirst("stages", key[7..], '.');
    NoDotInInt(n);
    SplitAtFirst(num, rest, '.');
    var parts := Split(key, '.');
    assert parts == ["stages", num] + Split(rest, '.');
    assert parts[2..] == Split(rest, '.');
    JoinSplit(rest, '.');
    IntRoundTrip(n);
  }

  /** The first dot-separated part of `part.tail` is `part`. */
  lemma FirstPart(part: string, tail: string)
    requires '.' !in part
    requires tail == "" || tail[0] == '.'
    ensures Split(part + tail, '.')[0] == part
  {
    if tail == "" {
      assert part + tail == part;
    } else {
      assert part + tail == part + ['.'] + tail[1..];
      SplitAtFirst(part, tail[1..], '.');
    }
  }

  /** The second dot-separated part of `stages.part.tail` is `part`. */
  lemma {:induction false} StagePart(part: string, tail: string)
    requires '.' !in part
    requires tail == "" || tail[0] == '.'
    ensures |Split(STAGES + part + tail, '.')| >= 2 && Split(STAGES + part + tail, '.')[1] == part
  {
    var key := STAGES + part + tail;
    assert Split(key, '.') == ["stages"] + Split(part + tail, '.') by {
      assert key == "stages" + ['.'] + (part + tail);
      SplitAtFirst("stages", part + tail, '.');
    }
    FirstPart(part, tail);
  }

  /** A `stages.` key whose stage part is not an integer makes the conversion fail. */
  lemma {:induction false} RemapStageNotInteger(part: string, tail: string)
    requires '.' !in part && ParseInt(part).None?
    requires tail == "" || tail[0] == '.'
    ensures RemapKey(STAGES + part + tail).Err?
  {
    var key := STAGES + part + tail;
    assert key[..|STAGES|] == STAGES;
    assert key[..|STEM|] != STEM by { assert key[2] != STEM[2]; }
    StagePart(part, tail);
    assert RemapKey(key) == RenameStage(key);
  }

  /** A prefix holding no start of the pattern, followed by a text without it, does not contain it. */
  lemma {:induction false} AbsentAfterPrefix(p: string, rest: string, pat: string, from: nat)
    requires |pat| >= 2 && NoPairStartFrom(p, pat, from) && !Contains(rest, pat)
    requires from <= |p|
    ensures !Contains(p[from..] + rest, pat)
    decreases |p| - from
  {
    if from == |p| {
      assert p[from..] + rest == rest;
    } else {
      NoStartInPrefix(p, rest, pat, from);
      AbsentAfterPrefix(p, rest, pat, from + 1);
      assert (p[from..] + rest)[1..] == p[from + 1..] + rest;
    }
  }

  /** A leading occurrence of the pattern is the only one when what follows holds none. */
  lemma ReplaceOnlyLeading(pat: string, rep: string, p: string, rest: string)
    requires |pat| >= 2 && NoPairStartFrom(p, pat, 0) && !Contains(rest, pat)
    ensures ReplaceAll(pat + p + rest, pat, rep) == rep + (p + rest)
  {
    var tail := p + rest;
    assert pat + p + rest == pat + tail;
    assert !Contains(tail, pat) by {
      AbsentAfterPrefix(p, rest, pat, 0);
      assert p[0..] == p;
    }
    ReplaceLeading(pat, rep, tail);
    ReplaceAllAbsent(tail, pat, rep);
  }

  /** `head.` leads a key `head.p.rest` whose `p` and `rest` hold no `head.`: only it becomes `classifier.`. */
  lemma HeadOnlyLeading(p: string, rest: string)
    requires p == "fc." || p == "norm."
    requires !Contains(rest, HEAD)
    ensures ReplaceAll(HEAD + p + rest, HEAD, "classifier.") == "classifier." + (p + rest)
  {
    assert NoPairStartFrom(p, HEAD, 0) by {
      if p == "fc." {
        assert NoPairStartFrom("fc.", HEAD, 0);
      } else {
        assert NoPairStartFrom("norm.", HEAD, 0);
      }
    }
    ReplaceOnlyLeading(HEAD, "classifier.", p, rest);
  }

  /** In `classifier.p.rest`, for `p` one of the head patterns, only the `p` after the prefix is rewritten. */
  lemma AfterClassifier(pat: string, rep: string, rest: string)
    requires pat == "fc." || pat == "norm."
    requires !Contains(rest, pat)
    ensures ReplaceAll("classifier." + (pat + rest), pat, rep) == "classifier." + rep + rest
  {
    assert NoPairStartFrom("classifier.", pat, 0) by {
      if pat == "fc." {
        assert NoPairStartFrom("classifier.", "fc.", 0);
      } else {
        assert NoPairStartFrom("classifier.", "norm.", 0);
      }
    }
    ReplaceOnlyAfter("classifier.", rest, pat, rep);
    assert "classifier." + pat + rest == "classifier." + (pat + rest);
  }

  /** `classifier.2.rest` holds no `norm.`. */
  lemma NoNormAfterFc(rest: string)
    requires !Contains(rest, "norm.")
    ensures ReplaceAll("classifier.2." + rest, "norm.", "0.") == "classifier.2." + rest
  {
    assert NoPairStartFrom("classifier.2.", "norm.", 0);
    ReplaceNowhere("classifier.2.", rest, "norm.", "0.");
  }

  /** `classifier.norm.rest` holds no `fc.`. */
  lemma NoFcAfterNorm(rest: string)
    requires !Contains(rest, "fc.")
    ensures ReplaceAll("classifier." + ("norm." + rest), "fc.", "2.") == "classifier." + ("norm." + rest)
  {
    assert NoPairStartFrom("norm.", "fc.", 0);
    AbsentAfterPrefix("norm.", rest, "fc.", 0);
    assert "norm."[0..] == "norm.";
    assert NoPairStartFrom("classifier.", "fc.", 0);
    ReplaceNowhere("classifier.", "norm." + rest, "fc.", "2.");
  }

  /** The head rewrite of `head.fc.rest`, for a `rest` holding none of the rewritten patterns. */
  lemma RenameHeadFc(rest: string)
    requires !Contains(rest, HEAD) && !Contains(rest, "fc.") && !Contains(rest, "norm.")
    ensures RenameHead(HEAD + "fc." + rest) == "classifier.2." + rest
  {
    HeadOnlyLeading("fc.", rest);
    AfterClassifier("fc.", "2.", rest);
    assert "classifier." + "2." + rest == "classifier.2." + rest;
    NoNormAfterFc(rest);
  }

  /** The head rewrite of `head.norm.rest`, for a `rest` holding none of the rewritten patterns. */
  lemma RenameHeadNorm(rest: string)
    requires !Contains(rest, HEAD) && !Contains(rest, "fc.") && !Contains(rest, "norm.")
    ensures RenameHead(HEAD + "norm." + rest) == "classifier.0." + rest
  {
    HeadOnlyLeading("norm.", rest);
    NoFcAfterNorm(rest);
    AfterClassifier("norm.", "0.", rest);
    assert "classifier." + "0." + rest == "classifier.0." + rest;
  }

  /** `head.fc.rest` becomes `classifier.2.rest` and `head.norm.rest` becomes `classifier.0.rest`. */
  lemma RemapHead(rest: string)
    requires !Contains(rest, HEAD) && !Contains(rest, "fc.") && !Contains(rest, "norm.")
    ensures RemapKey(HEAD + "fc." + rest) == Ok("classifier.2." + rest)
    ensures RemapKey(HEAD + "norm." + rest) == Ok("classifier.0." + rest)
  {
    RenameHeadFc(rest);
    RenameHeadNorm(rest);
    var k1, k2 := HEAD + "fc." + rest, HEAD + "norm." + rest;
    assert k1[..|HEAD|] == HEAD && k2[..|HEAD|] == HEAD;
    assert k1[..|STEM|] != STEM && k1[..|STAGES|] != STAGES by { assert k1[0] != STEM[0]; }
    assert k2[..|STEM|] != STEM && k2[..|STAGES|] != STAGES by { assert k2[0] != STEM[0]; }
  }

  /** The renaming loop of `convert_to_onnx`: stops at the first key that cannot be renamed. */
  method RemapStateDict<V>(stateDict: Dict<string, V>) returns (r: Result<Dict<string, V>, string>)
    ensures r == Rekey(stateDict, RemapKey)
  {
    var finalStateDict: Dict<string, V> := [];
    for i := 0 to |stateDict|
      invariant Rekey(stateDict[..i], RemapKey) == Ok(finalStateDict)
    {
      var (key, value) := stateDict[i];
      assert stateDict[..i + 1][..i] == stateDict[..i];
      match RemapKey(key)
      case Err(e) =>
        RekeyPrefixErr(stateDict, RemapKey, i + 1);
        return Err(e);
      case Ok(newKey) =>
        finalStateDict := Put(finalStateDict, newKey, value);
    }
    assert stateDict[..|stateDict|] == stateDict;
    r := Ok(finalStateDict);
  }

  /** The state dict `convert_to_onnx` hands to `load_state_dict`, or the exception it raises first. */
  function ConvertedStateDict(checkpoint: Obj): Result<Dict<string, Obj>, string> {
    match Items(SelectStateDict(checkpoint))
    case Err(e) => Err(e)
    case Ok(items) =>
      match Rekey(items, StripModulePrefixKey)
      case Err(e) => Err(e)
      case Ok(stripped) => Rekey(stripped, RemapKey)
  }

  /** Conversion fails only on a state dict that is not a dict or on a `stages.` key without an integer stage. */
  lemma ConvertedStateDictFails(checkpoint: Obj)
    ensures SelectStateDict(checkpoint).Dict? ==> Rekey(SelectStateDict(checkpoint).items, StripModulePrefixKey).Ok?
    ensures ConvertedStateDict(checkpoint).Err? <==>
      || SelectStateDict(checkpoint).Tensor?
      || (var stripped := Rekey(SelectStateDict(checkpoint).items, StripModulePrefixKey);
          stripped.Ok? && exists i :: 0 <= i < |stripped.value| && RemapKey(stripped.value[i].0).Err?)
  {
    var sd := SelectStateDict(checkpoint);
    if sd.Dict? {
      RekeyFailsAtFirstBadKey(sd.items, StripModulePrefixKey);
      RekeyFailsAtFirstBadKey(Rekey(sd.items, StripModulePrefixKey).value, RemapKey);
    }
  }

  /** The two loops of `convert_to_onnx` (lines 47-80) after the state dict is selected. */
  method ConvertStateDict(checkpoint: Obj) returns (r: Result<Dict<string, Obj>, string>)
    ensures r == ConvertedStateDict(checkpoint)
  {
    var stateDict := SelectStateDict(checkpoint);
    match Items(stateDict)
    case Err(e) =>
      return Err(e);
    case Ok(items) =>
      var newStateDict := StripModulePrefix(items);
      r := RemapStateDict(newStateDict);
  }
}
