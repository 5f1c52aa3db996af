/**
 * What both loaders do with a checkpoint before its weights reach a network:
 * pick the state dict out of the loaded object (convert_model.py:36-44 and
 * src/ai/model_handler.py:88-96 are the same code) and rewrite its keys one
 * item at a time into a fresh dict (the `module.` stripping loop in both files,
 * and the renaming loop of convert_model.py).
 */
module Checkpoints {
  import opened Wrappers
  import opened Text
  import opened Dicts

  /** A loaded object: a tensor (its values are never inspected) or a dict of named objects. */
  datatype Obj = Tensor(data: seq<real>) | Dict(items: seq<(string, Obj)>)

  const MODEL_STATE_DICT := "model_state_dict"
  const STATE_DICT := "state_dict"
  const MODULE_PREFIX := "module."

  /**
   * The state dict of a checkpoint: the `model_state_dict` entry of a dict if it
   * has one, else its `state_dict` entry, else the checkpoint itself.
   */
  function SelectStateDict(checkpoint: Obj): (sd: Obj)
    ensures checkpoint.Tensor? ==> sd == checkpoint
    ensures checkpoint.Dict? && MODEL_STATE_DICT in Keys(checkpoint.items) ==>
              Get(checkpoint.items, MODEL_STATE_DICT) == Some(sd)
    ensures checkpoint.Dict? && MODEL_STATE_DICT !in Keys(checkpoint.items) && STATE_DICT in Keys(checkpoint.items) ==>
              Get(checkpoint.items, STATE_DICT) == Some(sd)
    ensures checkpoint.Dict? && MODEL_STATE_DICT !in Keys(checkpoint.items) && STATE_DICT !in Keys(checkpoint.items) ==>
              sd == checkpoint
  {
    match checkpoint
    case Tensor(_) => checkpoint
    case Dict(items) =>
      GetSome(items, MODEL_STATE_DICT);
      GetSome(items, STATE_DICT);
      match Get(items, MODEL_STATE_DICT)
      case Some(m) => m
      case None =>
        match Get(items, STATE_DICT)
        case Some(s) => s
        case None => checkpoint
  }

  /** `state_dict.items()`: an object that is not a dict raises AttributeError. */
  function Items(sd: Obj): (r: Result<Dict<string, Obj>, string>)
    ensures r.Ok? <==> sd.Dict?
    ensures r.Ok? ==> r.value == sd.items
  {
    match sd
    case Dict(items) => Ok(items)
    case Tensor(_) => Err("AttributeError")
  }

  /**
   * The dict the rewriting loops build: items are visited in order, each value is
   * stored under the rewritten key (a later item overwrites an earlier one with
   * the same new key), and the first key the rewrite fails on raises.
   */
  function Rekey<V>(d: Dict<string, V>, f: string -> Result<string, string>): Result<Dict<string, V>, string> {
    if d == [] then Ok([])
    else
      match Rekey(d[..|d| - 1], f)
      case Err(e) => Err(e)
      case Ok(r) =>
        match f(d[|d| - 1].0)
        case Err(e) => Err(e)
        case Ok(k) => Ok(Put(r, k, d[|d| - 1].1))
  }

  /** The last item decides, with the rewrite of the others, whether rewriting succeeds. */
  lemma RekeyStep<V>(d: Dict<string, V>, f: string -> Result<string, string>)
    requires d != []
    ensures Rekey(d, f).Ok? <==> Rekey(d[..|d| - 1], f).Ok? && f(d[|d| - 1].0).Ok?
  {
  }

  /** Every key of `d` rewrites when every key but the last does and the last does too. */
  lemma AllKeysOkSplit<V>(d: Dict<string, V>, init: Dict<string, V>, f: string -> Result<string, string>)
    requires d != [] && init == d[..|d| - 1]
    ensures (forall i :: 0 <= i < |d| ==> f(d[i].0).Ok?) <==>
            (forall j :: 0 <= j < |init| ==> f(init[j].0).Ok?) && f(d[|d| - 1].0).Ok?
  {
    assert forall j :: 0 <= j < |init| ==> init[j] == d[j];
  }

  /** Rewriting succeeds exactly when the rewrite of every key succeeds. */
  lemma {:induction false} RekeyOkIff<V>(d: Dict<string, V>, f: string -> Result<string, string>)
    ensures Rekey(d, f).Ok? <==> forall i :: 0 <= i < |d| ==> f(d[i].0).Ok?
  {
    if d != [] {
      var init, last := d[..|d| - 1], d[|d| - 1];
      RekeyOkIff(init, f);
      RekeyStep(d, f);
      AllKeysOkSplit(d, init, f);
    }
  }

  /** A failing rewrite fails with the error of the first key whose rewrite fails. */
  lemma {:induction false} RekeyFirstError<V>(d: Dict<string, V>, f: string -> Result<string, string>) returns (i: nat)
    requires Rekey(d, f).Err?
    ensures i < |d| && f(d[i].0) == Err(Rekey(d, f).error)
    ensures forall j :: 0 <= j < i ==> f(d[j].0).Ok?
  {
    var init := d[..|d| - 1];
    if Rekey(init, f).Err? {
      i := RekeyFirstError(init, f);
      assert d[i] == init[i];
      assert forall j :: 0 <= j < i ==> d[j] == init[j];
    } else {
      RekeyOkIff(init, f);
      i := |d| - 1;
      assert forall j :: 0 <= j < i ==> d[j] == init[j];
    }
  }

  /** Rewriting fails exactly when the rewrite of some key fails, and then with the first such failure. */
  lemma RekeyFailsAtFirstBadKey<V>(d: Dict<string, V>, f: string -> Result<string, string>)
    ensures Rekey(d, f).Ok? <==> forall i :: 0 <= i < |d| ==> f(d[i].0).Ok?
    ensures Rekey(d, f).Err? ==> exists i :: 0 <= i < |d| && f(d[i].0) == Err(Rekey(d, f).error)
                                    && forall j :: 0 <= j < i ==> f(d[j].0).Ok?
  {
    RekeyOkIff(d, f);
    if Rekey(d, f).Err? {
      var i := RekeyFirstError(d, f);
    }
  }

  /** Each rewritten prefix that fails makes the whole rewrite fail the same way. */
  lemma {:induction false} RekeyPrefixErr<V>(d: Dict<string, V>, f: string -> Result<string, string>, n: nat)
    requires n <= |d| && Rekey(d[..n], f).Err?
    ensures Rekey(d, f) == Rekey(d[..n], f)
    decreases |d| - n
  {
    if n < |d| {
      assert d[..n + 1][..n] == d[..n];
      RekeyPrefixErr(d, f, n + 1);
    } else {
      assert d[..n] == d;
    }
  }

  /** Rewriting never alters a value: whatever the new dict holds, some item of the old one held under a key rewritten to it. */
  lemma {:induction false} RekeyKeepsValues<V>(d: Dict<string, V>, f: string -> Result<string, string>, k: string)
    requires Rekey(d, f).Ok? && Get(Rekey(d, f).value, k).Some?
    ensures exists i :: 0 <= i < |d| && f(d[i].0) == Ok(k) && d[i].1 == Get(Rekey(d, f).value, k).value
  {
    var init := d[..|d| - 1];
    var last := d[|d| - 1];
    var r := Rekey(init, f).value;
    GetPut(r, f(last.0).value, last.1, k);
    if k != f(last.0).value {
      RekeyKeepsValues(init, f, k);
      var i :| 0 <= i < |init| && f(init[i].0) == Ok(k) && init[i].1 == Get(r, k).value;
      assert d[i] == init[i];
    }
  }

  /**
   * When no two items are rewritten to the same key, the new dict has one item
   * per old item, in the same order, with the same value under the rewritten key.
   */
  lemma {:induction false} RekeyWithoutCollisions<V>(d: Dict<string, V>, f: string -> Result<string, string>)
    requires forall i :: 0 <= i < |d| ==> f(d[i].0).Ok?
    requires forall i, j :: 0 <= i < j < |d| ==> f(d[i].0) != f(d[j].0)
    ensures Rekey(d, f).Ok?
    ensures |Rekey(d, f).value| == |d|
    ensures forall i :: 0 <= i < |d| ==> Rekey(d, f).value[i] == (f(d[i].0).value, d[i].1)
  {
    if d != [] {
      var init := d[..|d| - 1];
      DistinctKeysInit(d, init, f);
      RekeyWithoutCollisions(init, f);
      var r := Rekey(init, f).value;
      var k := f(d[|d| - 1].0).value;
      NewKeyAbsent(d, init, r, f);
      PutNew(r, k, d[|d| - 1].1);
      RekeyLast(d, f, r, k);
      RekeyedAppend(d, init, r, f);
    }
  }

  /** The conditions of a collision-free rewrite hold for every item but the last. */
  lemma DistinctKeysInit<V>(d: Dict<string, V>, init: Dict<string, V>, f: string -> Result<string, string>)
    requires d != [] && init == d[..|d| - 1]
    requires forall i :: 0 <= i < |d| ==> f(d[i].0).Ok?
    requires forall i, j :: 0 <= i < j < |d| ==> f(d[i].0) != f(d[j].0)
    ensures forall i :: 0 <= i < |init| ==> f(init[i].0).Ok?
    ensures forall i, j :: 0 <= i < j < |init| ==> f(init[i].0) != f(init[j].0)
  {
    assert forall i :: 0 <= i < |init| ==> init[i] == d[i];
  }

  /** The last key's rewrite differs from every key of the rewrite of the others. */
  lemma NewKeyAbsent<V>(d: Dict<string, V>, init: Dict<string, V>, r: Dict<string, V>, f: string -> Result<string, string>)
    requires d != [] && init == d[..|d| - 1] && |r| == |init|
    requires forall i :: 0 <= i < |d| ==> f(d[i].0).Ok?
    requires forall i, j :: 0 <= i < j < |d| ==> f(d[i].0) != f(d[j].0)
    requires forall i :: 0 <= i < |init| ==> r[i] == (f(init[i].0).value, init[i].1)
    ensures f(d[|d| - 1].0).value !in Keys(r)
  {
    forall i | 0 <= i < |r| ensures Keys(r)[i] != f(d[|d| - 1].0).value {
      assert init[i] == d[i];
      assert f(d[i].0) != f(d[|d| - 1].0);
    }
  }

  /** Rewriting `d` stores the last item's rewritten key into the rewrite of the others. */
  lemma RekeyLast<V>(d: Dict<string, V>, f: string -> Result<string, string>, r: Dict<string, V>, k: string)
    requires d != [] && Rekey(d[..|d| - 1], f) == Ok(r) && f(d[|d| - 1].0) == Ok(k)
    ensures Rekey(d, f) == Ok(Put(r, k, d[|d| - 1].1))
  {
  }

  /** Appending the last item, rewritten, to the rewrite of the others rewrites `d` item by item. */
  lemma RekeyedAppend<V>(d: Dict<string, V>, init: Dict<string, V>, r: Dict<string, V>, f: string -> Result<string, string>)
    requires d != [] && init == d[..|d| - 1] && |r| == |init|
    requires forall i :: 0 <= i < |d| ==> f(d[i].0).Ok?
    requires forall i :: 0 <= i < |init| ==> r[i] == (f(init[i].0).value, init[i].1)
    ensures forall i :: 0 <= i < |d| ==> (r + [(f(d[|d| - 1].0).value, d[|d| - 1].1)])[i] == (f(d[i].0).value, d[i].1)
  {
    assert forall i :: 0 <= i < |init| ==> init[i] == d[i];
  }

  /** A key loses the `module.` prefix of a model saved from DataParallel; other keys stay. */
  function StripModulePrefixKey(key: string): (r: Result<string, string>)
    ensures r.Ok?
    ensures StartsWith(key, MODULE_PREFIX) ==> MODULE_PREFIX + r.value == key
    ensures !StartsWith(key, MODULE_PREFIX) ==> r.value == key
  {
    if StartsWith(key, MODULE_PREFIX) then
      assert key == key[..7] + key[7..];
      Ok(key[7..])
    else Ok(key)
  }

  /** The `module.` stripping loop of `_load_model` and `convert_to_onnx`. */
  method StripModulePrefix<V>(stateDict: Dict<string, V>) returns (newStateDict: Dict<string, V>)
    ensures Rekey(stateDict, StripModulePrefixKey) == Ok(newStateDict)
  {
    newStateDict := [];
    for i := 0 to |stateDict|
      invariant Rekey(stateDict[..i], StripModulePrefixKey) == Ok(newStateDict)
    {
      var (key, value) := stateDict[i];
      assert stateDict[..i + 1][..i] == stateDict[..i];
      if StartsWith(key, MODULE_PREFIX) {
        newStateDict := Put(newStateDict, key[7..], value);
      } else {
        newStateDict := Put(newStateDict, key, value);
      }
    }
    assert stateDict[..|stateDict|] == stateDict;
  }

  /**
   * Stripping never fails, and when no two keys strip to the same key every
   * value stays in place under its stripped key.
   */
  lemma StripModulePrefixPointwise<V>(stateDict: Dict<string, V>)
    requires forall i, j :: 0 <= i < j < |stateDict| ==>
               StripModulePrefixKey(stateDict[i].0) != StripModulePrefixKey(stateDict[j].0)
    ensures Rekey(stateDict, StripModulePrefixKey).Ok?
    ensures var r := Rekey(stateDict, StripModulePrefixKey).value;
      |r| == |stateDict| &&
      forall i :: 0 <= i < |r| ==>
        r[i].1 == stateDict[i].1 &&
        (if StartsWith(stateDict[i].0, MODULE_PREFIX) then MODULE_PREFIX + r[i].0 else r[i].0) == stateDict[i].0
  {
    RekeyWithoutCollisions(stateDict, StripModulePrefixKey);
  }
}
