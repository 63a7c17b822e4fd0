# Xeme calculator core in Dafny

This project models the arithmetic core of the xeme calculator. The calculator
compares a player and a host in a roulette-style game. The core exists twice: in
JavaScript (`calculator.js`) and as a Python reference (`calc.py`).

- **Values and transforms.** A raw value is a number in `[0, bound)`. The
  calculator uses bound 37 and base 10. A transform maps a raw value to a
  display value:
  - `xemmify(v, b) = (v mod b + floor(v / b)) mod b`;
  - the "qq" transform `v mod 10`;
  - the raw identity.

  The inverse image of a display value is found by brute force over
  `[0, bound)`.
- **Tier orders.** An order is a sequence of tiers, each a set of raw values.
  The rank ("height") of a value is the index of the first tier that holds it.
  Every other value is an error.
  - Each of the three games (reme, jeme, leme) has a player order and a host
    order, built from groupings of display values.
  - A host order is the player order below one extra empty tier, except for
    leme.
- **Expected value and edge.** Host and player each draw a raw value. The
  player wins when their rank is not below the host's rank, and is then paid
  the weight of their value.
  - The EV is the average payout over the `bound × bound` grid.
  - The edge over `r` rounds is `1 - EV^r`.
- **Weight table.** A map from display value to weight, plus a default weight.
  Its manager can reset the table, look weights up, set one weight, and change
  the default, which prunes every entry equal to it.
  - It can load a game's preset and compare two tables.
  - It can export a configuration and load it back.
  - It can recognise which preset the current table and orders match.

## Structure

The files follow the two source files:

| file | content |
|---|---|
| `transform.dfy` (module `Transform`) | the transforms and their inverse images |
| `orders.dfy` (module `Orders`) | rank lookup, hostify, display groupings, order builders |
| `weights.dfy` (module `Weights`) | weight functions and the `WeightManager` class |
| `expectation.dfy` (module `Expectation`) | EV and edge |
| `presets.dfy` (module `Presets`) | the preset check |
| `calcpy.dfy` (module `CalcPy`) | what only `calc.py` does: floor-based `%`, the memo cache of `inverse_xemmify`, in-place `hostify_order` |

Every function of `calc.py` that computes the same thing as its JavaScript
twin is modelled by the shared member. The `## Model` table cites that member's
JavaScript lines:

- `get_height` (calc.py:10-14) is `Orders.GetHeight`. It raises where
  the JavaScript throws.
- The `make_*_order` builders (calc.py:42-82) are the `Orders.Make*Order`
  methods. With base 10 the two languages build the same orders: the Python
  inverses equal the intended ones (`CalcPy.PyPreimageBaseTen`,
  `CalcPy.PyPreimageMultiBaseTen`). For
  `make_reme_player_order` with another base, see Findings.
- `get_*_weight` (calc.py:84-104) are `Weights.PresetWeight`. Their
  properties are in `Weights.PresetLookupAgrees`.
- `get_ev` (calc.py:107-115) is `Expectation.GetEV`. It has the same loops,
  skip rule and sum.
- `get_edge` (calc.py:118-119) is `Expectation.GetEdge`.

`calc.py`'s `xemmify` agrees with the JavaScript one on non-negative values
(`CalcPy.XemmifyAgrees`).

`setWeight` stores an explicit weight even when it equals the default, as
its comment says (calculator.js:198). `Weights.WeightManager.SetWeight` does
the same, and `Weights.StoredDefaultNotCanonical` shows that the table then
holds an entry equal to the default. Only `setDefaultWeight` prunes.

## Model

| member | source | states |
|---|---|---|
| Transform.JsRem | calculator.js:3 | JavaScript's `%`: for a non-negative dividend it is the mathematical remainder; for a negative one it lies in `(-b, 0]` |
| Transform.Xemmify | calculator.js:2-4 | for a non-negative value and a positive base, the result lies in `[0, base)` |
| Transform.QQTransform | calculator.js:132-134 | for a non-negative value, the result lies in `[0, 10)` |
| Transform.InverseXemmify | calculator.js:6-14 | `x` is in the result iff `0 <= x < bound` and `xemmify(x, base) == d`; the result is exactly that inverse image |
| Transform.InverseXemmifyMulti | calculator.js:16-22 | `x` is in the result iff `0 <= x < bound` and `xemmify(x, base)` is one of the inputs; this is the union of the single inverse images |
| Transform.InverseQQTransform | calculator.js:136-144 | `x` is in the result iff `0 <= x < bound` and `x mod 10 == d` |
| Transform.InverseQQTransformMulti | calculator.js:146-152 | `x` is in the result iff `0 <= x < bound` and `x mod 10` is one of the inputs |
| Transform.TransformRange | calculator.js:154-165 | the xeme and qq transforms send a non-negative raw value into `[0, 10)` |
| Transform.InverseTransform | calculator.js:167-178 | xeme and qq give the brute-force inverse image over `[0, bound)`; raw (and any other kind) gives `{d}` |
| Transform.PreimageContainsSource | calculator.js:154-178 | every raw value in `[0, bound)` is in the inverse image of its own transform |
| Orders.GetHeight | calculator.js:24-33 | an `Ok` result is the least index of a tier holding the value; the result is an error iff no tier holds the value, and the error names that value |
| Orders.PartitionHeight | calculator.js:24-33 | in an order that partitions `[0, bound)`, a value's rank is the one tier holding it |
| Orders.PartitionRanksAll | calculator.js:24-33 | in such an order, every value of `[0, bound)` has a rank |
| Orders.HostifyHeight | calculator.js:66-68 | hostifying raises every rank by exactly one and ranks no new value |
| Orders.HostifyPartition | calculator.js:66-68 | hostifying a partition of `[0, bound)` gives a partition of `[0, bound)` |
| Orders.ExpandPartition | calculator.js:35-87 | groups that partition the display values `[0, base)` expand to a partition of `[0, bound)`, for every bound |
| Orders.HostifyExpand | calculator.js:70-76 | the hostified expansion of some groups is the expansion of those groups below an empty group |
| Orders.RemeGroupsPartition | calculator.js:35-44 | the reme groupings `{1},…,{base-1},{0}` partition the display values, alone and below an empty group |
| Orders.JemeGroupsPartition | calculator.js:46-54 | the jeme groupings `{2,3,4,5},{6},{7},{8},{9},{0,1}` partition the display values, alone and below an empty group |
| Orders.LemeGroupsPartition | calculator.js:56-64 | the leme player groupings `{2,9},{3},…,{8},{1,0}` and the host groupings `∅,{2},…,{7},{8,9},{1,0}` each partition the display values |
| Orders.MakeRemePlayerOrder | calculator.js:35-44 | the built order is the expansion of the reme groupings and has `base` tiers |
| Orders.MakeRemeHostOrder | calculator.js:70-72 | the built order is the hostified reme player order |
| Orders.MakeJemePlayerOrder | calculator.js:46-54 | the built order is the expansion of the jeme groupings |
| Orders.MakeJemeHostOrder | calculator.js:74-76 | the built order is the hostified jeme player order |
| Orders.MakeLemePlayerOrder | calculator.js:56-64 | the built order is the expansion of the leme player groupings |
| Orders.MakeLemeHostOrder | calculator.js:78-87 | the built order is the expansion of the leme host groupings `∅,{2},…,{7},{8,9},{1,0}` |
| Orders.BuiltInOrdersPartition | calculator.js:35-87 | all six built-in orders put every value of `[0, bound)` in exactly one tier, for every bound |
| Weights.PresetLookupAgrees | calculator.js:90-106 | each game's weight function (3/2 for reme; 5/4/2 for jeme; 4/3/2 for leme, keyed on the xemmify being 0, 1 or other) equals a lookup of the xeme-transformed value in that game's preset table over default 2 |
| Weights.Prune | calculator.js:203-212 | the pruned table keeps exactly the entries whose weight differs from `w`, with their weights, and holds no entry equal to `w` |
| Weights.PruneInvisible | calculator.js:203-212 | pruning the entries equal to the new default changes no weight lookup made with that default |
| Weights.PruneIdempotent | calculator.js:203-212 | pruning twice is pruning once |
| Weights.PresetCanonical | calculator.js:214-230 | the preset tables hold no entry equal to the default 2, and only display values in `[0, 10)` |
| Weights.StoredDefaultNotCanonical | calculator.js:197-201 | storing the default weight explicitly leaves an entry equal to the default |
| Weights.ConfigRoundTrip | calculator.js:330-346 | a configuration taken from a table loads back the same table, and the same default unless that default is 0 (then 2) |
| Weights.WeightManager.constructor | calculator.js:182-185 | a new manager has an empty table and default 2 |
| Weights.WeightManager.SetDefaultWeights | calculator.js:187-190 | the table becomes empty and the default 2 |
| Weights.WeightManager.GetWeight | calculator.js:192-195 | the weight is the explicit entry of the transformed value when it is present and non-zero, else the default; it is the default or one of the table's weights |
| Weights.WeightManager.SetWeight | calculator.js:197-201 | the table maps the key to the weight, even when it equals the default; every other key and the default are unchanged |
| Weights.WeightManager.SetDefaultWeight | calculator.js:203-212 | the default becomes `w`; the table becomes the old table with every entry equal to `w` removed; no entry equals the default afterwards; every other entry keeps its weight |
| Weights.WeightManager.LoadPreset | calculator.js:214-230 | the default becomes 2 and the table becomes exactly `{0:3}`, `{0:5,1:4}` or `{0:4,1:3}` |
| Weights.WeightManager.AreWeightsEqual | calculator.js:262-267 | the size check plus the per-key comparison holds iff the two tables are equal |
| Weights.WeightManager.GetConfiguration | calculator.js:330-335 | the configuration's table is the manager's table, and its default the manager's when non-zero |
| Weights.WeightManager.LoadConfiguration | calculator.js:337-346 | the table becomes the configuration's table (empty when absent); the default becomes the configuration's default, or 2 when that is absent or 0 |
| Expectation.GetEV | calculator.js:109-122 | the result is an error iff some value of `[0, bound)` is unranked in the player or the host order, and it names the least unranked value of one of them; otherwise the result is the exact EV |
| Expectation.GainValue | calculator.js:114-119 | a pair pays nothing when the player's rank is below the host's, and `weight(player) / bound²` otherwise |
| Expectation.EVAverage | calculator.js:109-122 | the EV is the total weight of the winning pairs divided by `bound²` |
| Expectation.EVBounds | calculator.js:109-122 | with every weight in `[0, w]`, the EV lies in `[0, w]` |
| Expectation.GridSumByColumns | calculator.js:112-121 | summing the grid host-first or player-first gives the same total |
| Expectation.GetEdge | calculator.js:124-126 | for an EV in `[0, 1]` the edge lies in `[0, 1]`; zero rounds give edge 0; an EV of 1 gives edge 0; an EV of 0 gives edge 1 |
| Expectation.EdgeMonotone | calculator.js:124-126 | for an EV in `[0, 1]`, more rounds never lower the edge |
| Presets.MatchPreset | calculator.js:273-322 | a recognised game has default weight 2, both orders present, its own preset table, and orders equivalent to its own |
| Presets.MatchPresetExact | calculator.js:285-319 | the status shows a game exactly when default, table and orders are that game's; trying the games in order loses nothing |
| Presets.PresetRecognised | calculator.js:288-319 | a preset's table and orders are recognised as that preset |
| Presets.PresetWeightsDistinct | calculator.js:289-311 | the three preset tables differ pairwise |
| Presets.EditedPresetIsCustom | calculator.js:197-201 | changing one weight of a preset table to a different value makes the status "Custom" |
| CalcPy.PyXemmify | calc.py:16-17 | with Python's flooring `%` and `floor`, the result lies in `[0, base)` for every value |
| CalcPy.XemmifyAgrees | calc.py:16-17 | on non-negative values `calc.py`'s xemmify equals the JavaScript one |
| CalcPy.XemmifyNegativeDiffers | calc.py:16-17 | at -1 the two differ: -2 in JavaScript, 8 in Python |
| CalcPy.PyPreimageBaseTen | calc.py:20-33 | with base 10, the Python inverse is the intended inverse image |
| CalcPy.PyPreimageMultiBaseTen | calc.py:35-36 | with base 10, the union that `inverse_xemmify_multi` builds is the intended inverse image of the whole list |
| CalcPy.BaseIgnored | calc.py:29 | with base 5, the value 5 xemmifies to 1, but the Python inverse of 1 leaves it out |
| CalcPy.InverseCache.constructor | calc.py:19 | the cache starts empty |
| CalcPy.InverseCache.InverseXemmify | calc.py:20-33 | the result is the brute-force set; a cached key leaves the cache unchanged; a new key is added with exactly that set; every cached set stays correct |
| CalcPy.InverseCache.InverseXemmifyMulti | calc.py:35-36 | `x` is in the result iff it is below `bound` and its base-10 xemmify is one of the inputs; the cache keeps every old entry unchanged and gains exactly the keys `(v, bound, base)` for the inputs `v`, each mapped to its correct set |
| CalcPy.OrderList.HostifyOrder | calc.py:38-40 | the list gains an empty tier at index 0; old tier `i` moves to `i + 1`; the method returns the same list object it changed, not a copy |

## Left out

- The page: status text, tables, order editors, event wiring, clipboard and URL
  sharing, and the page-level configuration code. The preset check reads the
  orders from another page object; `Presets.MatchPreset` takes them as
  parameters. `Presets.MatchPreset` is a function of the state; the source
  calls it after every change to the table.
- The string dispatch of `transformValue` and `inverseTransform` is a datatype.
  An unknown kind string behaves as 'raw' in the source; the `Raw` case covers
  it.
- `parseOrder`, `parseInput` and `formatOrder`: these are string parsing and
  formatting.
- The Set→Array→Set conversion used when sharing orders is not part of this
  model.
- The sorting inside `areOrdersEquivalent`. Its comparator returns NaN for
  empty tiers, so the outcome depends on the engine's sort. `Presets.OrdersEquivalent`
  states the comparison the code means: the same tiers, counted with
  repetition, in any order.
- Floating point: JavaScript numbers, Python `Decimal`, `Math.pow` and `**` are
  exact `real` arithmetic here.
- Expectation.GetEV: the weight function is a total function of the raw value.
  The source passes a closure that reads the weight table.
- Expectation.GetEV: for bound 0 the model returns 0, as the JavaScript does.
  `calc.py` raises a `Decimal` division by zero instead.
- Expectation.GetEdge: the number of rounds is a natural number. The source
  accepts any number.
- Expectation.GetEdge: for zero rounds the model gives edge 0, as the
  JavaScript does (`Math.pow(0, 0)` is 1). `calc.py` raises
  `decimal.InvalidOperation` for `get_edge(0, 0)`, because `Decimal(0) **
  Decimal(0)` is undefined.
- The concrete EV and edge of the games at bound 37 are not computed.
- Transform.Xemmify: the base must be positive. A zero or negative base is not
  modelled; every caller passes 10 or a positive base.
- CalcPy.PyXemmify: the base must be positive, for the same reason.
- Transform.Xemmify: the range guarantees cover non-negative values only.
  Negative raw values never occur, and the two implementations disagree on
  them (`CalcPy.XemmifyNegativeDiffers`).
- Python's `floor(value / base)` goes through a float. For very large values it
  can differ from integer floor division; the model uses exact division.
- Weights.WeightManager: the table is a map.
  - The insertion order of the JavaScript `Map` is not modelled; nothing in the
    core depends on it.
  - The string keys that `Object.fromEntries` produces, and their `parseInt`
    on loading, are not modelled: keys stay integers.
- Weights.WeightManager.SetDefaultWeight: entries are deleted in an
  unspecified order. The source deletes them while iterating over its `Map`.
- CalcPy.InverseCache.InverseXemmify: `calc.py` returns the cached set object
  itself, so a caller that mutated it would change the cache. Sets are values
  here, so this aliasing is not modelled.
- The module-level cache of `calc.py` is a global. Here it is an object that
  the caller passes along.
- The error message texts of `getHeight` and `get_height` are not modelled.

## Findings

| source | as written | input that shows it | evidently intended | confidence | as-written member | corrected member |
|---|---|---|---|---|---|---|
| calc.py:29 | `inverse_xemmify` compares against `xemmify(x)` with the default base 10, ignoring its own `base` argument (which only enters the cache key) | `inverse_xemmify(1, 37, 5)` leaves out 5, although `xemmify(5, 5) == 1`; so `make_reme_player_order(37, 5)` builds wrong tiers | `xemmify(x, base)`, as `calculator.js` does | not executed; high (the JavaScript twin passes the base) | CalcPy.BaseIgnored | Transform.InverseXemmify |
