/** Recognising a built-in game from the current weight table and orders.

    After every change to the weight table calculator.js compares the
    table and the two orders on screen with the three built-in games, in
    the order reme, jeme, leme, and shows the first that matches, or
    "Custom". Only the comparison is modelled here; the orders are passed
    in, since calculator.js reads them from another object of the page. */
module Presets {
  import opened Transform
  import opened Orders
  import opened Weights

  /** The display groupings of a game's player order. */
  function PlayerGroups(game: Game): seq<seq<int>>
  {
    match game
    case Reme => RemePlayerGroups(BASE)
    case Jeme => JemePlayerGroups
    case Leme => LemePlayerGroups
  }

  /** The display groupings of a game's host order: the player groupings
      below an empty tier, except for leme, whose host order is its own. */
  function HostGroups(game: Game): seq<seq<int>>
  {
    match game
    case Reme => [[]] + RemePlayerGroups(BASE)
    case Jeme => [[]] + JemePlayerGroups
    case Leme => LemeHostGroups
  }

  /** The orders calculator.js builds for a game at its fixed bound. */
  function PresetPlayerOrder(game: Game): Order
  {
    Expand(PlayerGroups(game), BOUND, BASE)
  }

  function PresetHostOrder(game: Game): Order
  {
    Expand(HostGroups(game), BOUND, BASE)
  }

  /** Two orders are equivalent when they have the same tiers, counted
      with repetition, in any order. This is the comparison calculator.js
      means to make by sorting the tiers of both orders. */
  predicate OrdersEquivalent(order1: Order, order2: Order)
  {
    |order1| == |order2| && multiset(order1) == multiset(order2)
  }

  /** The table, player order and host order are those of `game`. */
  predicate MatchesGame(game: Game, weights: map<int, real>, player: Order, host: Order)
  {
    && WeightManager.AreWeightsEqual(weights, PresetWeights(game))
    && OrdersEquivalent(player, PresetPlayerOrder(game))
    && OrdersEquivalent(host, PresetHostOrder(game))
  }

  /** The status shows `game`: default weight 2, both orders present, the
      game's own table, and orders equivalent to the game's. */
  ghost predicate ShowsGame(game: Game, defaultWeight: real, weights: map<int, real>, player: Option<Order>, host: Option<Order>)
  {
    && defaultWeight == PresetDefaultWeight
    && player.Some? && host.Some?
    && weights == PresetWeights(game)
    && OrdersEquivalent(player.value, PresetPlayerOrder(game))
    && OrdersEquivalent(host.value, PresetHostOrder(game))
  }

  /** The preset status: the first game among reme, jeme, leme whose table
      and orders match, or `None` ("Custom"). A default weight other than 2
      or a missing order means "Custom" at once. */
  function MatchPreset(defaultWeight: real, weights: map<int, real>, player: Option<Order>, host: Option<Order>): (r: Option<Game>)
    ensures r.Some? ==> ShowsGame(r.value, defaultWeight, weights, player, host)
  {
    if defaultWeight != 2.0 || player.None? || host.None? then None
    else if MatchesGame(Reme, weights, player.value, host.value) then Some(Reme)
    else if MatchesGame(Jeme, weights, player.value, host.value) then Some(Jeme)
    else if MatchesGame(Leme, weights, player.value, host.value) then Some(Leme)
    else None
  }

  /** The status shows a game exactly when the table and orders are that
      game's: checking the games in order loses nothing, since no two
      preset tables are equal. */
  lemma MatchPresetExact(defaultWeight: real, weights: map<int, real>, player: Option<Order>, host: Option<Order>, game: Game)
    ensures MatchPreset(defaultWeight, weights, player, host) == Some(game) <==> ShowsGame(game, defaultWeight, weights, player, host)
  {
    if ShowsGame(game, defaultWeight, weights, player, host) {
      var r := MatchPreset(defaultWeight, weights, player, host);
      assert MatchesGame(game, weights, player.value, host.value);
      assert r.Some?;
      if r.value != game {
        PresetWeightsDistinct(r.value, game);
      }
    }
  }

  /** Loading a preset, with the preset's orders on screen, shows that
      preset's name. */
  lemma PresetRecognised(game: Game)
    ensures MatchPreset(PresetDefaultWeight, PresetWeights(game), Some(PresetPlayerOrder(game)), Some(PresetHostOrder(game))) == Some(game)
  {
  }

  /** The preset tables differ pairwise, so at most one game can match. */
  lemma PresetWeightsDistinct(g1: Game, g2: Game)
    requires g1 != g2
    ensures PresetWeights(g1) != PresetWeights(g2)
  {
    var m1 := PresetWeights(g1);
    var m2 := PresetWeights(g2);
    assert 0 in m1 && 0 in m2 && m1[0] != m2[0];
  }

  /** Changing a single explicit weight of a preset table, to anything but
      its current value, makes the status "Custom". */
  lemma EditedPresetIsCustom(game: Game, key: int, w: real, player: Option<Order>, host: Option<Order>)
    requires key in PresetWeights(game) && PresetWeights(game)[key] != w
    ensures MatchPreset(PresetDefaultWeight, PresetWeights(game)[key := w], player, host) == None
  {
    var edited := PresetWeights(game)[key := w];
    forall g
      ensures edited != PresetWeights(g)
    {
      if g == game {
        assert edited[key] != PresetWeights(game)[key];
      } else if |edited| != |PresetWeights(g)| {
      } else {
        assert game != Reme && g != Reme;
        assert edited[1 - key] != PresetWeights(g)[1 - key];
      }
    }
  }
}
