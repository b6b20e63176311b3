/**
 * The integer- and dictionary-level logic of the mixed-input gradient
 * prediction network: the names of the deterministic removal placeholders,
 * the feed dictionary that binds them, the wiring of the dense hidden layers
 * and the temporal binning arithmetic. Tensors are opaque values here; the
 * TensorFlow graph itself is not modelled.
 *
 * The hidden-layer sizes are a hyperparameter (`N_DENSE` in the source);
 * every operation takes them as `nDense`, and `N_DENSE` below is the value
 * the source uses.
 */
module MixedInputModel {
  import opened Wrappers
  import Text

  const N_CONV_LAYERS: nat := 40
  const N_DENSE: seq<nat> := [512, 512, 512]
  const N_HIDDEN: nat := |N_DENSE|
  const KEEP_TRAIN: real := 0.5

  /** The exceptions the modelled code can raise. */
  datatype Error = ValueError | IndexError | ZeroDivisionError | AssertionError

  // ---------------------------------------------------------------------------
  // Placeholder names

  /** The name of the deterministic removal placeholder of hidden layer `index`. */
  function NameDetRemove(index: nat): (name: string)
    ensures |name| > 7 && name[..7] == "remove_"
    ensures name[7..] == Text.Decimal(index)
  {
    "remove_" + Text.Decimal(index)
  }

  /** Distinct hidden layers get distinct removal placeholder names. */
  lemma NameDetRemoveInjective(i: nat, j: nat)
    ensures NameDetRemove(i) == NameDetRemove(j) <==> i == j
  {
    Text.SamePrefix("remove_", Text.Decimal(i), Text.Decimal(j));
    Text.DecimalInjective(i, j);
  }

  /** The keys of a feed dictionary: the graph's placeholders. */
  datatype Key = XIn | KeepProb | YTrue | Remove(index: nat)

  /** The graph name of each placeholder. */
  function PlaceholderName(k: Key): string {
    match k
    case XIn => "x_in"
    case KeepProb => "keep_prob"
    case YTrue => "y_"
    case Remove(i) => NameDetRemove(i)
  }

  /** No two placeholders share a graph name. */
  lemma PlaceholderNamesDistinct(k1: Key, k2: Key)
    ensures PlaceholderName(k1) == PlaceholderName(k2) <==> k1 == k2
  {
    if k1.Remove? && k2.Remove? {
      NameDetRemoveInjective(k1.index, k2.index);
    } else if k1.Remove? || k2.Remove? {
      var r := if k1.Remove? then PlaceholderName(k1) else PlaceholderName(k2);
      assert r[0] == 'r';
    }
  }

  // ---------------------------------------------------------------------------
  // Removal vectors and the rescale factor

  /** A per-unit multiplier vector: 1 keeps a unit, 0 removes it. */
  type Multipliers = seq<real>

  /** `np.ones(n)`. */
  function Ones(n: nat): (v: Multipliers)
    ensures |v| == n && forall j :: 0 <= j < n ==> v[j] == 1.0
  {
    seq(n, j => 1.0)
  }

  function Sum(v: seq<real>): real
    decreases |v|
  {
    if |v| == 0 then 0.0 else Sum(v[..|v| - 1]) + v[|v| - 1]
  }

  lemma {:induction false} SumOnes(n: nat)
    ensures Sum(Ones(n)) == n as real
  {
    if n > 0 {
      assert Ones(n)[..n - 1] == Ones(n - 1);
      SumOnes(n - 1);
    }
  }

  /**
   * A hidden layer scales its masked output by `n_units / sum(mask)`; under
   * the default all-ones mask that factor is exactly 1.
   */
  lemma DefaultRescaleIsOne(nUnits: nat)
    requires nUnits > 0
    ensures Sum(Ones(nUnits)) == nUnits as real && (nUnits as real) / Sum(Ones(nUnits)) == 1.0
  {
    SumOnes(nUnits);
  }

  /** The vector fed for layer `i`: `values[i]`, or all ones when no values are given. */
  function LayerMultipliers(nDense: seq<nat>, values: Option<seq<Multipliers>>, i: nat): Multipliers
    requires i < |nDense|
    requires values.Some? ==> |values.value| == |nDense|
  {
    match values
    case None => Ones(nDense[i])
    case Some(v) => v[i]
  }

  // ---------------------------------------------------------------------------
  // Feed dictionaries

  /** The values a feed dictionary binds: input batches, a probability, a removal vector. */
  datatype FeedValue = Batch(rows: seq<seq<real>>) | Probability(p: real) | Vector(v: Multipliers)

  /** Removal entries for the layers 0 .. n-1. */
  function RemovalEntries(nDense: seq<nat>, values: Option<seq<Multipliers>>, n: nat): map<Key, FeedValue>
    requires n <= |nDense|
    requires values.Some? ==> |values.value| == |nDense|
    decreases n
  {
    if n == 0 then map[]
    else RemovalEntries(nDense, values, n - 1)[Remove(n - 1) := Vector(LayerMultipliers(nDense, values, n - 1))]
  }

  /** The removal entries bind exactly the layers below `n`, each to its vector. */
  lemma {:induction false} RemovalEntriesShape(nDense: seq<nat>, values: Option<seq<Multipliers>>, n: nat)
    requires n <= |nDense|
    requires values.Some? ==> |values.value| == |nDense|
    ensures forall k :: k in RemovalEntries(nDense, values, n) <==> k.Remove? && k.index < n
    ensures forall i :: 0 <= i < n ==> RemovalEntries(nDense, values, n)[Remove(i)] == Vector(LayerMultipliers(nDense, values, i))
    decreases n
  {
    if n > 0 {
      RemovalEntriesShape(nDense, values, n - 1);
    }
  }

  /**
   * What `feed_det_remove` makes of a dictionary: a `ValueError` when values
   * are given for the wrong number of layers, otherwise the dictionary with
   * one removal entry per hidden layer (ones by default).
   */
  function DetRemoveFeed(entries: map<Key, FeedValue>, nDense: seq<nat>, values: Option<seq<Multipliers>>)
    : (r: Result<map<Key, FeedValue>, Error>)
    ensures r.Err? <==> values.Some? && |values.value| != |nDense|
    ensures r.Err? ==> r.error == ValueError
    ensures r.Ok? && values.None? ==>
              forall i :: 0 <= i < |nDense| ==> Remove(i) in r.value && r.value[Remove(i)] == Vector(Ones(nDense[i]))
    ensures r.Ok? && values.Some? ==>
              forall i :: 0 <= i < |nDense| ==> Remove(i) in r.value && r.value[Remove(i)] == Vector(values.value[i])
    ensures r.Ok? ==> forall k :: k in r.value <==> k in entries || (k.Remove? && k.index < |nDense|)
    ensures r.Ok? ==> forall k :: k in entries && !(k.Remove? && k.index < |nDense|) ==> r.value[k] == entries[k]
  {
    if values.Some? && |values.value| != |nDense| then Err(ValueError)
    else
      RemovalEntriesShape(nDense, values, |nDense|);
      Ok(entries + RemovalEntries(nDense, values, |nDense|))
  }

  /** A feed dictionary, an object the functions below fill in place. */
  class FeedDict {
    var entries: map<Key, FeedValue>

    constructor (initial: map<Key, FeedValue>)
      ensures entries == initial
    {
      entries := initial;
    }
  }

  lemma UpdateAfterUnion<K, V>(a: map<K, V>, b: map<K, V>, k: K, v: V)
    ensures (a + b)[k := v] == a + b[k := v]
  {
  }

  /** `feed_det_remove`: fills `fd` in place and returns the same object. */
  method FeedDetRemove(fd: FeedDict, nDense: seq<nat>, values: Option<seq<Multipliers>>)
    returns (r: Result<FeedDict, Error>)
    modifies fd
    ensures DetRemoveFeed(old(fd.entries), nDense, values).Err? ==>
              r == Err(ValueError) && fd.entries == old(fd.entries)
    ensures DetRemoveFeed(old(fd.entries), nDense, values).Ok? ==>
              r == Ok(fd) && fd.entries == DetRemoveFeed(old(fd.entries), nDense, values).value
  {
    if values.Some? && |values.value| != |nDense| {
      return Err(ValueError);
    }
    ghost var start := fd.entries;
    if values.None? {
      for i := 0 to |nDense|
        invariant fd.entries == start + RemovalEntries(nDense, values, i)
      {
        UpdateAfterUnion(start, RemovalEntries(nDense, values, i), Remove(i), Vector(Ones(nDense[i])));
        fd.entries := fd.entries[Remove(i) := Vector(Ones(nDense[i]))];
      }
    } else {
      for i := 0 to |nDense|
        invariant fd.entries == start + RemovalEntries(nDense, values, i)
      {
        UpdateAfterUnion(start, RemovalEntries(nDense, values, i), Remove(i), Vector(values.value[i]));
        fd.entries := fd.entries[Remove(i) := Vector(values.value[i])];
      }
    }
    r := Ok(fd);
  }

  /** The dictionary `create_feed_dict` starts from: the input, the keep probability and, if given, the targets. */
  function BaseFeed(xVals: seq<seq<real>>, yVals: Option<seq<seq<real>>>, keep: real): map<Key, FeedValue> {
    var f := map[XIn := Batch(xVals), KeepProb := Probability(keep)];
    if yVals.Some? then f[YTrue := Batch(yVals.value)] else f
  }

  /** What `create_feed_dict` produces. */
  function FeedEntries(xVals: seq<seq<real>>, yVals: Option<seq<seq<real>>>, keep: real,
                       nDense: seq<nat>, removal: Option<seq<Multipliers>>)
    : (r: Result<map<Key, FeedValue>, Error>)
    ensures r.Err? <==> removal.Some? && |removal.value| != |nDense|
    ensures r.Ok? ==> XIn in r.value && r.value[XIn] == Batch(xVals)
    ensures r.Ok? ==> KeepProb in r.value && r.value[KeepProb] == Probability(keep)
    ensures r.Ok? ==> (YTrue in r.value <==> yVals.Some?)
    ensures r.Ok? && yVals.Some? ==> r.value[YTrue] == Batch(yVals.value)
    ensures r.Ok? ==> forall i :: 0 <= i < |nDense| ==> Remove(i) in r.value
    ensures r.Ok? ==> forall k :: k in r.value ==>
                        k == XIn || k == KeepProb || k == YTrue || (k.Remove? && k.index < |nDense|)
  {
    DetRemoveFeed(BaseFeed(xVals, yVals, keep), nDense, removal)
  }

  /** `create_feed_dict`: a new dictionary, completed by `FeedDetRemove`. */
  method CreateFeedDict(xVals: seq<seq<real>>, yVals: Option<seq<seq<real>>>, keep: real,
                        nDense: seq<nat>, removal: Option<seq<Multipliers>>)
    returns (r: Result<FeedDict, Error>)
    ensures FeedEntries(xVals, yVals, keep, nDense, removal).Err? ==> r == Err(ValueError)
    ensures FeedEntries(xVals, yVals, keep, nDense, removal).Ok? ==>
              r.Ok? && fresh(r.value) && r.value.entries == FeedEntries(xVals, yVals, keep, nDense, removal).value
  {
    var f := new FeedDict(map[XIn := Batch(xVals), KeepProb := Probability(keep)]);
    if yVals.Some? {
      f.entries := f.entries[YTrue := Batch(yVals.value)];
    }
    r := FeedDetRemove(f, nDense, removal);
  }

  // ---------------------------------------------------------------------------
  // Dense hidden layers

  /**
   * One hidden layer as `create_hidden_layer` builds it: variables named
   * `W_h_<suffix>` and `B_h_<suffix>`, input `input`, `units` units, and the
   * removal placeholder `det_remove[removeIndex]` that masks its output.
   */
  datatype Layer = Layer(suffix: string, input: string, units: nat, removeIndex: nat)

  /** An intermediate layer together with the name of its dropout output. */
  datatype Intermediate = Intermediate(layer: Layer, dropout: string)

  /** What `create_dense_layers` returns: the last layer and the intermediate ones. */
  datatype DenseStack = DenseStack(last: Layer, intermediate: seq<Intermediate>)

  /** Layer `l` of a stack, counting the intermediate layers first. */
  function LayerAt(d: DenseStack, l: nat): Layer
    requires l <= |d.intermediate|
  {
    if l < |d.intermediate| then d.intermediate[l].layer else d.last
  }

  function DropoutName(l: nat): string {
    "h_drop_" + Text.Decimal(l)
  }

  /** Layer `l` of the chain: it reads the network input or the previous layer's dropout output. */
  function ChainLayer(nDense: seq<nat>, prevOut: string, l: nat): Layer
    requires l < |nDense|
  {
    Layer(Text.Decimal(l), if l == 0 then prevOut else DropoutName(l - 1), nDense[l], l)
  }

  /** Reads the properties of a stack off its description as a chain. */
  lemma ChainShape(nDense: seq<nat>, prevOut: string, d: DenseStack)
    requires |nDense| >= 1 && |d.intermediate| == |nDense| - 1
    requires forall l :: 0 <= l < |nDense| ==> LayerAt(d, l) == ChainLayer(nDense, prevOut, l)
    requires forall l :: 0 <= l < |d.intermediate| ==> d.intermediate[l].dropout == DropoutName(l)
    ensures forall l :: 0 <= l < |nDense| ==>
              LayerAt(d, l).units == nDense[l] && LayerAt(d, l).removeIndex == l &&
              LayerAt(d, l).suffix == Text.Decimal(l)
    ensures LayerAt(d, 0).input == prevOut
    ensures forall l :: 0 <= l < |d.intermediate| ==>
              d.intermediate[l].dropout == DropoutName(l) && LayerAt(d, l + 1).input == DropoutName(l)
  {
    assert LayerAt(d, 0) == ChainLayer(nDense, prevOut, 0);
    forall l | 0 <= l < |d.intermediate|
      ensures LayerAt(d, l + 1).input == DropoutName(l)
    {
      assert LayerAt(d, l + 1) == ChainLayer(nDense, prevOut, l + 1);
    }
  }

  /** The loop of `create_dense_layers`: every layer but the last, each followed by its dropout. */
  method IntermediateLayers(nDense: seq<nat>, prevOut: string) returns (intermediate: seq<Intermediate>, drop: string)
    requires |nDense| >= 2
    ensures |intermediate| == |nDense| - 1
    ensures forall k :: 0 <= k < |intermediate| ==> intermediate[k] == Intermediate(ChainLayer(nDense, prevOut, k), DropoutName(k))
    ensures drop == DropoutName(|nDense| - 2)
  {
    intermediate := [];
    drop := prevOut;
    for l := 0 to |nDense| - 1
      invariant |intermediate| == l
      invariant forall k :: 0 <= k < l ==> intermediate[k] == Intermediate(ChainLayer(nDense, prevOut, k), DropoutName(k))
      invariant drop == if l == 0 then prevOut else DropoutName(l - 1)
    {
      var h := Layer(Text.Decimal(l), drop, nDense[l], l);
      drop := DropoutName(l);
      ghost var before := intermediate;
      intermediate := intermediate + [Intermediate(h, drop)];
      assert intermediate[l] == Intermediate(ChainLayer(nDense, prevOut, l), DropoutName(l));
      assert forall k :: 0 <= k < l ==> intermediate[k] == before[k];
    }
  }

  /**
   * `create_dense_layers`: a single layer when there are fewer than two,
   * otherwise a chain in which each layer reads the dropout output of the
   * previous one. An empty size list fails at `N_DENSE[0]`. Each layer's
   * default removal vector, all ones, has as many entries as the layer has units.
   */
  method CreateDenseLayers(nDense: seq<nat>, prevOut: string) returns (r: Result<DenseStack, Error>)
    ensures r.Err? <==> |nDense| == 0
    ensures r.Err? ==> r.error == IndexError
    ensures r.Ok? ==> |r.value.intermediate| == |nDense| - 1
    ensures r.Ok? ==> forall l :: 0 <= l < |nDense| ==>
                        LayerAt(r.value, l).units == nDense[l] && LayerAt(r.value, l).removeIndex == l &&
                        LayerAt(r.value, l).suffix == Text.Decimal(l)
    ensures r.Ok? ==> LayerAt(r.value, 0).input == prevOut
    ensures r.Ok? ==> forall l :: 0 <= l < |r.value.intermediate| ==>
                        r.value.intermediate[l].dropout == DropoutName(l) &&
                        LayerAt(r.value, l + 1).input == DropoutName(l)
    ensures r.Ok? ==> forall l :: 0 <= l < |nDense| ==>
                        |LayerMultipliers(nDense, None, LayerAt(r.value, l).removeIndex)| == LayerAt(r.value, l).units
  {
    if |nDense| < 2 {
      if |nDense| == 0 {
        return Err(IndexError);
      }
      var d := DenseStack(Layer("0", prevOut, nDense[0], 0), []);
      assert LayerAt(d, 0) == ChainLayer(nDense, prevOut, 0);
      ChainShape(nDense, prevOut, d);
      return Ok(d);
    }
    var intermediate, drop := IntermediateLayers(nDense, prevOut);
    var n := |nDense| - 1;
    var d := DenseStack(Layer(Text.Decimal(n), drop, nDense[n], n), intermediate);
    forall l | 0 <= l < |nDense|
      ensures LayerAt(d, l) == ChainLayer(nDense, prevOut, l)
    {
      if l < n {
        assert LayerAt(d, l) == intermediate[l].layer;
        assert intermediate[l] == Intermediate(ChainLayer(nDense, prevOut, l), DropoutName(l));
      } else {
        assert l == n && LayerAt(d, l) == d.last;
        assert ChainLayer(nDense, prevOut, n) == Layer(Text.Decimal(n), DropoutName(n - 1), nDense[n], n);
      }
    }
    ChainShape(nDense, prevOut, d);
    r := Ok(d);
  }


  // ---------------------------------------------------------------------------
  // Temporal binning

  /**
   * `t_bin` and `binned_size`: the source asserts that the frame rate is a
   * multiple of the model rate, then bins the history down to the model rate.
   * A zero model rate fails the first division; a zero frame rate gives
   * `t_bin == 0`, which fails the second.
   */
  function Binning(frameRate: nat, modelRate: nat, histSeconds: nat): (r: Result<(nat, nat), Error>)
    ensures modelRate == 0 ==> r == Err(ZeroDivisionError)
    ensures modelRate > 0 && frameRate % modelRate != 0 ==> r == Err(AssertionError)
    ensures modelRate > 0 && frameRate == 0 ==> r == Err(ZeroDivisionError)
    ensures r.Ok? <==> modelRate > 0 && frameRate > 0 && frameRate % modelRate == 0
    ensures r.Ok? ==> r.value.0 >= 1 && r.value.0 * modelRate == frameRate
    ensures r.Ok? ==> r.value.1 == modelRate * histSeconds
  {
    if modelRate == 0 then Err(ZeroDivisionError)
    else if frameRate % modelRate != 0 then Err(AssertionError)
    else
      var tBin := frameRate / modelRate;
      if tBin == 0 then Err(ZeroDivisionError)
      else
        BinnedSizeExact(tBin, modelRate, histSeconds);
        Ok((tBin, frameRate * histSeconds / tBin))
  }

  lemma BinnedSizeExact(tBin: nat, modelRate: nat, histSeconds: nat)
    requires tBin > 0
    ensures (tBin * modelRate) * histSeconds / tBin == modelRate * histSeconds
  {
    var q := modelRate * histSeconds;
    assert (tBin * modelRate) * histSeconds == q * tBin;
    DivCancel(q, tBin);
  }

  lemma MulAtLeast(d: int, k: int)
    requires d > 0 && k >= 1
    ensures d * k >= d
  {
  }

  /** Exact division: `(q * d) / d` is `q`. */
  lemma DivCancel(q: nat, d: nat)
    requires d > 0
    ensures (q * d) / d == q
  {
    var x := q * d;
    var r := x / d;
    var m := x % d;
    assert x == d * r + m;
    assert d * (q - r) == m by {
      assert d * (q - r) == d * q - d * r;
    }
    if q - r >= 1 {
      MulAtLeast(d, q - r);
    } else if r - q >= 1 {
      MulAtLeast(d, r - q);
    }
  }
}
