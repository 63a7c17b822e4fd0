/** Payout weights: the built-in weight functions of the three games and
    the weight table the calculator edits (an explicit weight per display
    value over a default weight). */
module Weights {
  import opened Transform

  datatype Game = Reme | Jeme | Leme

  datatype Option<T> = None | Some(value: T)

  // ---------------------------------------------------------------------
  // Built-in weight functions, keyed on the xemmify of the raw value

  function RemeWeight(num: int, base: int): int
    requires base >= 1
  {
    if Xemmify(num, base) == 0 then 3 else 2
  }

  function JemeWeight(num: int): int
  {
    var xem := Xemmify(num, BASE);
    if xem == 0 then 5 else if xem == 1 then 4 else 2
  }

  function LemeWeight(num: int): int
  {
    var xem := Xemmify(num, BASE);
    if xem == 0 then 4 else if xem == 1 then 3 else 2
  }

  /** The weight function of a game preset. */
  function PresetWeight(game: Game, num: int): int
  {
    match game
    case Reme => RemeWeight(num, BASE)
    case Jeme => JemeWeight(num)
    case Leme => LemeWeight(num)
  }

  /** The explicit weights a preset installs over the default weight 2. */
  function PresetWeights(game: Game): map<int, real>
  {
    match game
    case Reme => map[0 := 3.0]
    case Jeme => map[0 := 5.0, 1 := 4.0]
    case Leme => map[0 := 4.0, 1 := 3.0]
  }

  const PresetDefaultWeight: real := 2.0

  // ---------------------------------------------------------------------
  // The weight table as values

  /** Weight lookup with JavaScript's `||`: a missing entry and an explicit
      weight of 0 both fall back to the default. */
  function Lookup(weights: map<int, real>, defaultWeight: real, key: int): real
  {
    if key in weights && weights[key] != 0.0 then weights[key] else defaultWeight
  }

  /** The table with every entry equal to `w` removed. */
  function Prune(weights: map<int, real>, w: real): (r: map<int, real>)
    ensures w !in r.Values
    ensures r.Keys <= weights.Keys
    ensures forall k :: k in weights ==> (k in r <==> weights[k] != w)
    ensures forall k :: k in r ==> r[k] == weights[k]
  {
    map k | k in weights && weights[k] != w :: weights[k]
  }

  /** No explicit entry repeats the default weight. */
  ghost predicate Canonical(weights: map<int, real>, defaultWeight: real)
  {
    defaultWeight !in weights.Values
  }

  /** The weight part of a configuration; either field may be absent. */
  datatype WeightConfig = WeightConfig(defaultWeight: Option<real>, weights: Option<map<int, real>>)

  /** The default weight a configuration loads (`config.defaultWeight || 2`). */
  function ConfigDefault(config: WeightConfig): real
  {
    match config.defaultWeight
    case Some(d) => if d != 0.0 then d else 2.0
    case None => 2.0
  }

  /** The explicit weights a configuration loads. */
  function ConfigWeights(config: WeightConfig): map<int, real>
  {
    match config.weights
    case Some(m) => m
    case None => map[]
  }

  // ---------------------------------------------------------------------
  // Properties of the weight table

  /** After a preset is loaded, looking a raw value up through the xeme
      transform gives the game's own weight function. */
  lemma PresetLookupAgrees(game: Game, num: int)
    ensures Lookup(PresetWeights(game), PresetDefaultWeight, TransformValue(num, Xeme)) == PresetWeight(game, num) as real
  {
  }

  /** Presets keep every explicit entry distinct from the default. */
  lemma PresetCanonical(game: Game)
    ensures Canonical(PresetWeights(game), PresetDefaultWeight)
    ensures forall k :: k in PresetWeights(game) ==> 0 <= k < BASE
  {
    var m := PresetWeights(game);
    assert forall k :: k in m ==> m[k] != PresetDefaultWeight;
  }

  /** Pruning the entries equal to the new default changes no lookup made
      with that default: the pruned keys now fall back to the same value. */
  lemma {:induction false} PruneInvisible(weights: map<int, real>, w: real, key: int)
    ensures Lookup(Prune(weights, w), w, key) == Lookup(weights, w, key)
  {
    var p := Prune(weights, w);
    if key in weights && weights[key] == w {
      assert key !in p;
    }
  }

  lemma PruneIdempotent(weights: map<int, real>, w: real)
    ensures Prune(Prune(weights, w), w) == Prune(weights, w)
  {
  }

  /** Storing the default weight explicitly, as `setWeight` does, leaves
      an entry equal to the default in the table. */
  lemma StoredDefaultNotCanonical(weights: map<int, real>, defaultWeight: real, key: int)
    ensures !Canonical(weights[key := defaultWeight], defaultWeight)
  {
    assert weights[key := defaultWeight][key] == defaultWeight;
  }

  /** A configuration taken from a table loads back the same table, and
      the same default unless that default was 0. */
  lemma ConfigRoundTrip(weights: map<int, real>, defaultWeight: real)
    ensures ConfigWeights(WeightConfig(Some(defaultWeight), Some(weights))) == weights
    ensures defaultWeight != 0.0 ==> ConfigDefault(WeightConfig(Some(defaultWeight), Some(weights))) == defaultWeight
    ensures defaultWeight == 0.0 ==> ConfigDefault(WeightConfig(Some(defaultWeight), Some(weights))) == 2.0
  {
  }

  /** Two tables with the same keys and the same weight at every key are
      the same table. */
  lemma SameTable(p: map<int, real>, q: map<int, real>)
    requires forall k :: k in p <==> k in q
    requires forall k :: k in p ==> p[k] == q[k]
    ensures p == q
  {
    forall k | k in p ensures k in q && p[k] == q[k] { }
    forall k | k in q ensures k in p { }
  }

  /** A subset of a finite set with as many elements is the whole set. */
  lemma SameSizeSubset(a: set<int>, b: set<int>)
    requires a <= b && |a| == |b|
    ensures a == b
  {
    assert a + b == b;
    assert a * b == a;
    assert |b - a| == 0;
  }

  // ---------------------------------------------------------------------
  // The weight manager of calculator.js (the part that does not touch the page)

  class WeightManager {
    var weights: map<int, real>
    var defaultWeight: real

    constructor ()
      ensures weights == map[] && defaultWeight == PresetDefaultWeight
    {
      weights := map[];
      defaultWeight := PresetDefaultWeight;
    }

    method SetDefaultWeights()
      modifies this
      ensures weights == map[] && defaultWeight == PresetDefaultWeight
    {
      weights := map[];
      defaultWeight := PresetDefaultWeight;
    }

    /** The weight of a raw value under a transform. */
    function GetWeight(rawValue: int, t: TransformType): (w: real)
      reads this
      ensures w == Lookup(weights, defaultWeight, TransformValue(rawValue, t))
      ensures w == defaultWeight || w in weights.Values
    {
      var transformed := TransformValue(rawValue, t);
      if transformed in weights && weights[transformed] != 0.0 then weights[transformed] else defaultWeight
    }

    /** Stores the weight even when it equals the default. */
    method SetWeight(transformed: int, weight: real)
      modifies this
      ensures weights == old(weights)[transformed := weight]
      ensures defaultWeight == old(defaultWeight)
    {
      weights := weights[transformed := weight];
    }

    /** Sets the default and deletes every entry that now equals it. */
    method SetDefaultWeight(weight: real)
      modifies this
      ensures defaultWeight == weight
      ensures weights == Prune(old(weights), weight)
      ensures Canonical(weights, defaultWeight)
      ensures forall k :: k in old(weights) && old(weights)[k] != weight ==> k in weights && weights[k] == old(weights)[k]
    {
      defaultWeight := weight;
      var pending := weights.Keys;
      while exists key :: key in pending
        invariant pending <= weights.Keys <= old(weights).Keys
        invariant forall k :: k in weights ==> weights[k] == old(weights)[k]
        invariant forall k :: k in old(weights) && k !in pending ==> (k in weights <==> old(weights)[k] != weight)
        invariant defaultWeight == weight
        decreases pending
      {
        var key :| key in pending;
        if weights[key] == weight {
          weights := weights - {key};
        }
        pending := pending - {key};
      }
      SameTable(weights, Prune(old(weights), weight));
    }

    method LoadPreset(game: Game)
      modifies this
      ensures defaultWeight == PresetDefaultWeight
      ensures weights == PresetWeights(game)
    {
      SetDefaultWeights();
      match game
      case Reme =>
        weights := weights[0 := 3.0];
      case Jeme =>
        weights := weights[0 := 5.0];
        weights := weights[1 := 4.0];
      case Leme =>
        weights := weights[0 := 4.0];
        weights := weights[1 := 3.0];
    }

    /** Same size, and every key of the first table has the same weight in
        the second. */
    static function AreWeightsEqual(weights1: map<int, real>, weights2: map<int, real>): (r: bool)
      ensures r <==> weights1 == weights2
    {
      var r := |weights1| == |weights2| && forall k :: k in weights1 ==> k in weights2 && weights1[k] == weights2[k];
      if r then
        assert weights1.Keys <= weights2.Keys by {
          forall k | k in weights1 ensures k in weights2 { }
        }
        SameSizeSubset(weights1.Keys, weights2.Keys);
        SameTable(weights1, weights2);
        r
      else
        r
    }

    function GetConfiguration(): (config: WeightConfig)
      reads this
      ensures ConfigWeights(config) == weights
      ensures defaultWeight != 0.0 ==> ConfigDefault(config) == defaultWeight
    {
      WeightConfig(Some(defaultWeight), Some(weights))
    }

    method LoadConfiguration(config: WeightConfig)
      modifies this
      ensures defaultWeight == ConfigDefault(config)
      ensures weights == ConfigWeights(config)
    {
      weights := map[];
      defaultWeight := match config.defaultWeight
        case Some(d) => if d != 0.0 then d else 2.0
        case None => 2.0;
      if config.weights.Some? {
        var entries := config.weights.value;
        var pending := entries.Keys;
        while exists key :: key in pending
          invariant pending <= entries.Keys
          invariant weights.Keys == entries.Keys - pending
          invariant forall k :: k in weights ==> weights[k] == entries[k]
          invariant defaultWeight == ConfigDefault(config)
          decreases pending
        {
          var key :| key in pending;
          weights := weights[key := entries[key]];
          pending := pending - {key};
        }
        SameTable(weights, entries);
      }
    }
  }
}
