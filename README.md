# Mahjong hand-score calculator: a Dafny model of its scoring engine

The calculator scores a won hand of Japanese mahjong. Each time the form changes it
reads the form into a hand descriptor (`updateState`). It counts the hand's fu
(`calculateFu`) and rounds them (`roundUpFu`). It scores the hand from the
user-supplied han and the rounded fu (`calculateScore`). It rebuilds the 13 × 11
reference grid of scores (`generateScoreTable`) and finds the grid cell that matches
the hand (`highlightCell`). `mainUpdate` runs these steps in order.

The model has one module per stage:

- `Hand` (hand.dfy): the form, the descriptor, and `BuildState`, which builds the
  descriptor. `ControlsApplied` states what the control logic guarantees of the form.
- `FuCalc` (fu.dfy): `CalculateFu` is a method with a loop over the melds. It is proved
  equal to the specification function `Fu`. `RoundUpFu` is the rounding.
- `Scoring` (score.dfy): `CalculateScore` gives the named limit tiers (yakuman,
  sanbaiman, baiman, haneman, mangan) and, below them, the base-points formula.
  `PaymentsOf` rounds each payment up to 100.
- `ScoreTable` (score_table.dfy): the cell function `CellAt`, the loops that build the
  grid (`GenerateRow`, `GenerateScoreTable`), and `LocateCell`. It also proves that the
  shown score never decreases with more fu or more han. For the grid's own cells this
  holds along every row and down every column, the placeholder aside.
- `Calculator` (calculator.dfy): `MainUpdate`, the whole pipeline.

`calculateFu` and `calculateScore` read the shared `state` object. In the model they
take the descriptor, or the seat flag `isOya`, as parameters. `updateState` rewrites
every field of `state` on each run, so it is modelled as a pure function from the form
to a fresh descriptor.

Where the code and a fuller ruleset differ, the model follows the code:

- The mangan cutoff is `basePoints > 2000` (script.js:198), not `>= 2000`.
  `Scoring.CutoffBoundary` proves that base points of exactly 2000 pay the mangan
  amounts anyway, so the two readings give the same points.
- There is no "2 han and fu ≥ 120" mangan rule.
- The +2 tsumo fu applies only to a closed hand.
- The placeholder cell (1 han, 20 fu) appears in the ron grid and in the tsumo grid.
- There is no quad (kantsu) fu and no +4 double-yakuhai pair.
- For a named tier the code shows only the tier's total for the seat. It never splits
  a tier into per-payer tsumo amounts, so the model does not split it either.
- The pinfu shortcut (30 fu on ron, 20 on tsumo) applies whenever the pinfu flag is
  set. It relies on the controls to keep the hand closed.

## Model

| member | source | states |
|---|---|---|
| `Hand.AllClosed` | script.js:65 | true exactly when no meld of the sequence is open |
| `Hand.BuildState` | script.js:41-73 | the descriptor is valid. Seven pairs is closed, waits tanki, and has no melds and no yakuhai pair. A standard hand is closed exactly when no meld is open and takes the form's wait, pair and melds. The hand type follows the seven-pairs control, and seat, han, modifiers and win method are copied |
| `Hand.ControlsAppliedState` | script.js:75-127 | once the controls have settled the form, a pinfu hand is a closed standard hand of runs with a ryanmen wait and a plain pair, and a tanyao hand has no yaochu meld and a plain pair |
| `FuCalc.MeldFu` | script.js:169-177 | a meld's fu is one of 0, 2, 4, 8, and is 0 exactly when the meld is not a triplet |
| `FuCalc.TripletFu` | script.js:170-175 | a closed triplet is worth 8 when yaochu and 4 otherwise, and an open triplet exactly half the closed value |
| `FuCalc.MeldSum` | script.js:168-177 | the melds' fu total is even and lies between 0 and 8 per meld |
| `FuCalc.MeldSumNoTriplets` | script.js:168-177 | melds without a triplet add no fu |
| `FuCalc.WinMethodFu` | script.js:147-155 | the win-method fu is 0, 2 or 10. It is 0 exactly for an open hand and 10 exactly for a closed ron, so the two bonuses never both apply |
| `FuCalc.WaitFu` | script.js:157-161 | the wait is worth 2 exactly for kanchan, penchan and tanki, and 0 otherwise |
| `FuCalc.PairFu` | script.js:163-166 | the pair is worth 2 exactly when it is yakuhai, and 0 otherwise |
| `FuCalc.StandardFu` | script.js:144-179 | a standard hand's general total is even and lies between 20 and 34 plus 8 per meld |
| `FuCalc.Fu` | script.js:131-180 | the fu are at least 20, and equal 25 exactly for a seven-pairs hand |
| `FuCalc.CalculateFu` | script.js:131-180 | the early returns, the increments and the meld loop compute exactly `Fu` of the descriptor |
| `FuCalc.RoundUpFu` | script.js:182-186 | 25 stays 25. Any other fu becomes the one multiple of 10 in [fu, fu + 10) |
| `FuCalc.RoundUpFuIdempotent` | script.js:182-186 | rounding twice is the same as rounding once |
| `FuCalc.ChiitoitsuFu` | script.js:132-134 | a seven-pairs form gives a closed, tanki, meld-less descriptor worth 25 fu, and 25 survives rounding, whatever the other controls say |
| `FuCalc.PinfuFu` | script.js:138-142 | a standard pinfu hand is worth 30 fu on ron and 20 on tsumo, whatever its wait, pair and melds |
| `FuCalc.PinfuShortcut` | script.js:138-155 | on a pinfu hand the controls allow, the general rule gives 30 fu on ron, the same as the shortcut, and 22 on tsumo, which the shortcut replaces with 20 |
| `FuCalc.StandardFuRange` | script.js:144-179 | a standard non-pinfu hand with at most four melds has 20 to 66 fu and rounds to one of 20, 30, ..., 70 |
| `FuCalc.KanchanExample` | jules-scratch/verification/verify_fu_display.py:20-22 | a closed kanchan hand of runs has 32 fu on ron (rounded to 40) and 24 on tsumo (rounded to 30) |
| `Scoring.BasePoints` | script.js:197 | the base points are fu × 2^(han + 2): four times the fu at 0 han, and each further han doubles them |
| `Scoring.BasePointsPositive` | script.js:197 | a positive fu gives positive base points |
| `Scoring.TierByThreshold` | script.js:193 | the han/fu condition that names mangan before the formula: it holds from 5 han on, for 4 han with at least 40 fu, for 3 han with at least 70 fu, and never below 3 han |
| `Scoring.RoundUp100` | script.js:200 | the result is the one multiple of 100 in [x, x + 100) |
| `Scoring.RoundUp100Monotone` | script.js:200 | rounding up to 100 preserves order |
| `Scoring.BasePointsMonotoneInFu` | script.js:197 | more fu at the same han never gives fewer base points |
| `Scoring.BasePointsMonotoneInHan` | script.js:197 | more han at the same non-negative fu never gives fewer base points |
| `Scoring.PaymentsOf` | script.js:200-211 | the payment shape follows the seat. Each payment is its share of the base points (dealer: 6 on ron, 2 per opponent on tsumo; non-dealer: 4 on ron, 2 from the dealer, 1 from each other player) rounded up to 100 |
| `Scoring.CalculateScore` | script.js:188-212 | a tier is named exactly when a han/fu threshold matches or the base points exceed 2000. A tier's dealer total is 1.5 times its non-dealer total. Otherwise the result is the rounded payments of the base points |
| `Scoring.TierBands` | script.js:189-195 | from the top, the first matching threshold wins: yakuman from 13 han, sanbaiman at 11-12, baiman at 8-10, haneman at 6-7, and only mangan below 6 han, each with its totals |
| `Scoring.ThresholdsImpliedByBasePoints` | script.js:193-198 | for non-negative fu the explicit 3-han and 4-han thresholds name nothing that the base-points cutoff does not already name |
| `Scoring.FormulaBelowMangan` | script.js:197-211 | below the cutoff a dealer win pays at most 12000 in all and a non-dealer win at most 8000, on ron and on tsumo |
| `Scoring.CutoffBoundary` | script.js:198-211 | base points of exactly 2000 pay exactly the mangan amounts |
| `Scoring.ScoreExamples` | script.js:188-211 | a 3-han 30-fu dealer ron pays 5800. A 2-han 40-fu non-dealer tsumo is paid 1300 by the dealer and 700 by each other player, 2700 in all |
| `ScoreTable.SeatValue` | script.js:266-274 | a named tier shows the seat's total (dealer or non-dealer). Otherwise a ron shows the ron payment, and a tsumo shows the sum of what the three other players pay: three equal shares to a dealer, and to a non-dealer the dealer's share plus the other share twice |
| `ScoreTable.CellAt` | script.js:259-275 | only (1 han, 20 fu) is the placeholder. Every other cell shows `SeatValue` of `CalculateScore` for its han and fu. Every number is a whole number of hundreds, at most 48000, and positive when fu is |
| `ScoreTable.SeatValueBounds` | script.js:264-274 | the number a cell shows for a score is a whole number of hundreds, at most 48000, and positive for positive fu |
| `ScoreTable.PaymentsShown` | script.js:269-273 | a formula cell shows whole hundreds, at most the seat's mangan total, and a positive number for positive base points |
| `ScoreTable.GenerateRow` | script.js:259-276 | the inner loop builds the row of eleven cells, cell j being `CellAt` of the row's han and the j-th fu column |
| `ScoreTable.GenerateScoreTable` | script.js:249-282 | the grid has 13 rows of 11 cells, and cell (i, j) is `CellAt` of the i-th han and the j-th fu |
| `ScoreTable.LocateCell` | script.js:240-244 | a cell is found exactly when han and fu are both on the axes, and the found row and column carry those values |
| `ScoreTable.PlaceholderOnlyAtOrigin` | script.js:260-263 | the grid's only placeholder is its top-left cell |
| `ScoreTable.NamedAtLeastMangan` | script.js:189-195 | a named tier shows at least the seat's mangan total |
| `ScoreTable.FormulaAtMostMangan` | script.js:197-211 | a formula cell shows at most the seat's mangan total |
| `ScoreTable.NamedMonotone` | script.js:189-195 | of two named tiers, the one with more han shows no fewer points |
| `ScoreTable.PaymentsMonotone` | script.js:200-211 | more base points never show fewer points |
| `ScoreTable.RowMonotone` | script.js:259-275 | along a row, more fu never shows fewer points |
| `ScoreTable.ColumnMonotone` | script.js:257-275 | down a column with non-negative fu, more han never shows fewer points |
| `ScoreTable.GridRowMonotone` | script.js:257-275 | in the grid, apart from the placeholder, each number in a row is at least every number to its left |
| `ScoreTable.GridColumnMonotone` | script.js:257-275 | in the grid, apart from the placeholder, each number in a column is at least every number above it |
| `Calculator.HanOnAxis` | script.js:251 | a han value has a grid row exactly when it is between 1 and 13 |
| `Calculator.RoundedFuOnAxis` | script.js:250 | the rounded fu of any hand with at most four melds is one of the grid's fu columns |
| `Calculator.MainUpdate` | script.js:286-295 | the pipeline builds the descriptor, fu, rounded fu, score, grid and highlight as the stages specify. With at most four meld groups, a cell is highlighted exactly when han is 1 to 13, and unless it is the placeholder it shows the points just computed |

## Left out

- DOM lookup, event listeners and initialisation (script.js:1-35, 297-328) are browser
  plumbing.
- The form-control mutation in `updateControlStates` (script.js:75-127) is not modelled.
  Its effect is stated as the predicate `Hand.ControlsApplied`.
- The result text of `updateDisplay` (script.js:216-230) is not modelled. The same goes
  for the formatted tsumo strings (`"… All"`, `"… / …"`) and the HTML assembly in
  `generateScoreTable`. The model keeps the numbers those strings are made from.
- The CSS class changes in `highlightCell` (script.js:232-245) are not modelled.
  `LocateCell` gives the one cell to mark. Removing the previous mark is DOM state and is
  left out.
- Parsing han with `parseInt(…) || 0` is not modelled. Han is an integer, and
  `CalculateScore` requires han ≥ 0. A negative han from the form would make
  `Math.pow(2, han + 2)` fractional for han < -2, and that floating-point case is not
  modelled.
- `Math.ceil` on floating-point quotients is modelled as exact integer ceiling. That is
  what it computes for the integer inputs involved.
- The meld `id` read from the page is left out. It only locates the controls.
- The options of the wait selector come from the page markup, which is not part of this
  model. The model takes the five shapes the code and its comments name: ryanmen,
  kanchan, penchan, tanki and shanpon.
- The page's meld groups are also markup. The model accepts any number of melds, and
  the 20-66 fu bound assumes at most four.
