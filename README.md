# Wish engine model

This project models the pull ("wish") engine of the bismarck gacha bot
(`bismarck_commands/src/wish.rs`) in Dafny. The engine has three parts:

- **Pity-adjusted odds.** `GetDistribution` computes two cumulative boundaries from the base weights, the pity
  thresholds and the two roll counters. The first is the five-star odds. The second is the five-star plus the
  four-star odds. The five-star odds ramp linearly from soft pity (`s5Start`) to certainty at hard pity (`s5End`).
  The four-star odds ramp by half the remaining odds per roll from `s4Proc` on.
- **Regular roll.** `RegularRoll` picks the rarity from a uniform draw `u` and the boundaries. It then returns the
  item index drawn from that rarity's pool. The counter of the rarity drawn restarts at 1 and every other counter
  advances by one.
- **Featured roll.** `FeaturedRoll` adds a "guaranteed featured after a loss" flag per top rarity. It applies the
  flags on top of the regular rarity choice.

Every operation takes a state value and returns a fresh one, as the source does. So the model is made of
datatypes, functions and lemmas in module `Wish` (`wish.dfy`).

The random generator is replaced by explicit draws:

- `u`, the uniform value in [0, 1);
- `index`, the result of the uniform integer draw, required to lie below the size of the pool that the roll
  selects (the source's draw fails on an empty pool);
- `won`, the result of the Bernoulli draw on the featured chance. It is read only where the source makes that
  draw: a top-rarity roll with the four-star flag set. There the chance must be in [0, 1], and `won` must be
  false at chance 0 and true at chance 1 (`BernoulliOutcome`).

Odds are `real` instead of 64-bit floats. Counters are `nat`.

Module `WishIntended` (`wish_intended.dfy`) holds the corrected featured engine for the two findings below.
`Wish.FeaturedRoll` stays the model of the code as written.

The featured engine as written departs in two places from what its own code promises:

- The featured state promises a guarantee per rarity, one that procs when the last drop of that category was not
  featured (wish.rs:126-128). The four-star path tests its own flag, but the five-star path tests the four-star
  flag (wish.rs:332).
- The featured rolls are described as the same as their regular counterparts (wish.rs:303), and the regular drops
  advance the other rarity's counter (wish.rs:268, 277). The featured branches leave it unchanged
  (wish.rs:315, 339).

`Wish` models both as written. `WishIntended` corrects them.

## Model

| member | source | states |
|---|---|---|
| Wish.BaseFiveStarOdds | bismarck_commands/src/wish.rs:179-180 | up to soft pity the first boundary is exactly the base five-star weight |
| Wish.FiveStarRamp | bismarck_commands/src/wish.rs:181-183 | past soft pity (with `s5Start < s5End`, `0 <= s5 < 1`) the five-star odds exceed the base weight, and stay below 1 while `sinceS5 < s5End` |
| Wish.FiveStarHardPity | bismarck_commands/src/wish.rs:181-183 | at or past hard pity the five-star odds are at least 1 |
| Wish.FiveStarOddsMonotone | bismarck_commands/src/wish.rs:179-184 | the five-star odds never decrease as `sinceS5` grows |
| Wish.FourStarBelowProc | bismarck_commands/src/wish.rs:186-193 | below the four-star threshold the second boundary is the base four-star weight plus the first boundary |
| Wish.FourStarPity | bismarck_commands/src/wish.rs:186-193 | from `s4Proc + 1` rolls on, the four-star share alone is at least 1, and so is the second boundary |
| Wish.DistributionAscending | bismarck_commands/src/wish.rs:178-194 | with weights in [0, 1] the boundaries are ascending and non-negative |
| Wish.WeightIncreaseExample | bismarck_commands/src/wish.rs:23-41 | the odds the unit test expects for weights 0.006/0.051 and pity 73/90/9 at the states (74, 10), (89, 9) and (90, 9) |
| Wish.RegularRoll | bismarck_commands/src/wish.rs:253-291 | the rarity is five-star iff `u` is below the first boundary, four-star iff between the boundaries, three-star otherwise; the index is the drawn one and lies within the chosen pool; the counters obey the counter law (five-star gives `(1, sinceS4 + 1)`, four-star `(sinceS5 + 1, 1)`, three-star both plus one) |
| Wish.RegularHardPity | bismarck_commands/src/wish.rs:281-286 | at hard pity every regular roll is a five-star, whatever the draws |
| Wish.RegularFourStarPity | bismarck_commands/src/wish.rs:281-291 | from `s4Proc + 1` rolls without a four-star on, a regular roll is never a three-star |
| Wish.RegularRollKeepsHardPityBound | bismarck_commands/src/wish.rs:274-291 | a regular roll keeps the five-star counter within 1 .. `s5End` |
| Wish.RegularHardPityWithin | bismarck_commands/src/wish.rs:281-291 | threading the state through successive regular rolls from counter `k <= s5End`, one of the next `s5End - k + 1` rolls is a five-star |
| Wish.FeaturedRoll | bismarck_commands/src/wish.rs:294-366 | the top rarities follow the regular boundaries; the index lies within the chosen (featured or standard) pool; with the four-star flag clear both top rarities are featured; each flag changes only on a drop of its rarity and then records whether it was featured; counters follow the regular law except that a featured drop leaves the other counter unchanged |
| Wish.FeaturedThreeStarIsRegular | bismarck_commands/src/wish.rs:295-301 | a featured three-star roll equals the regular three-star roll with both flags carried through |
| Wish.FeaturedFourStarWin | bismarck_commands/src/wish.rs:307-319 | with the four-star flag clear (whatever the Bernoulli) or the draw won, a four-star is `FourStarFeatured` from the featured pool, with `sinceS4 = 1`, `sinceS5` unchanged, four-star flag set, five-star flag kept |
| Wish.FeaturedFourStarLoss | bismarck_commands/src/wish.rs:320-326 | with the flag set and the draw lost, a four-star equals the regular four-star roll with the four-star flag cleared and the five-star flag kept |
| Wish.FeaturedFiveStarWin | bismarck_commands/src/wish.rs:331-343 | gated on the four-star flag as written: a won or guaranteed five-star is `FiveStarFeatured`, with `sinceS5 = 1`, `sinceS4` unchanged, five-star flag set, four-star flag kept |
| Wish.FeaturedFiveStarLoss | bismarck_commands/src/wish.rs:344-350 | with the four-star flag set and the draw lost, a five-star equals the regular five-star roll with the five-star flag cleared and the four-star flag kept |
| Wish.FeaturedHardPity | bismarck_commands/src/wish.rs:353-361 | at hard pity every featured roll is a five-star, featured or not |
| Wish.FeaturedRollKeepsHardPityBound | bismarck_commands/src/wish.rs:331-366 | a featured roll keeps the five-star counter within 1 .. `s5End` |
| WishIntended.IntendedRoll | bismarck_commands/src/wish.rs:294-366 | corrected featured roll: each top rarity's drop after a non-featured drop of that rarity is featured; with that rarity's own flag set, the drop is featured exactly when the featured draw is won; each flag changes only on a drop of its rarity and then records whether it was featured; counters obey the regular counter law |
| WishIntended.IntendedRollMatchesRegular | bismarck_commands/src/wish.rs:307-351 | the corrected featured roll moves the counters exactly as the regular roll on the same draw, and draws the same rarity |
| WishIntended.IntendedHardPityWithin | bismarck_commands/src/wish.rs:353-366 | threading the state through successive corrected featured rolls from counter `k <= s5End`, one of the next `s5End - k + 1` rolls is a five-star (featured or not) |
| WishIntended.FiveStarGateCounterexample | bismarck_commands/src/wish.rs:331-332 | as written, the five-star flag clear, the four-star flag set and a lost draw yield a plain five-star; the corrected roll yields a featured one |
| WishIntended.FeaturedPityStallCounterexample | bismarck_commands/src/wish.rs:307-319 | as written, from `(89, 1)` with both flags set, `u = 0.95` and a won draw, the roll returns the same state (a fixed point one roll short of hard pity); the corrected roll advances `sinceS5` to 90 |

## Findings

| source | as written | input that shows it | evidently intended | confidence | as-written member | corrected member |
|---|---|---|---|---|---|---|
| bismarck_commands/src/wish.rs:332 | `make_s5_roll` tests `last_s4_featured` for the five-star guarantee | standard pool, state `(1, 1)`, five-star flag clear, four-star flag set, `u = 0`, featured draw lost: a plain five-star follows a plain five-star | test `last_s5_featured`, as the four-star path tests its own flag | high; not executed | WishIntended.FiveStarGateCounterexample | WishIntended.IntendedRoll |
| bismarck_commands/src/wish.rs:315 | a featured four-star (and, at line 339, a featured five-star) keeps the other counter instead of advancing it | standard pool, state `(89, 1)`, both flags set, `u = 0.95`, featured draw won: the state is returned unchanged, so repeated won four-star draws never reach hard pity | advance the other counter by one, as the regular paths at lines 268 and 277 do | medium; not executed | WishIntended.FeaturedPityStallCounterexample | WishIntended.IntendedHardPityWithin |

## Left out

- Floating point: odds are exact reals, so rounding is not modelled. Nor is the infinity or NaN that `f64` gives when `s5End == s5Start`. `RampDefined` requires `s5Start < s5End` wherever the ramp divides.
- Unsigned 32-bit arithmetic: counters are unbounded `nat`. The overflow of `since + 1` and the underflow of `s5End - s5Start` when `s5End < s5Start` are not modelled. The latter is excluded by `RampDefined`.
- Generator panics: the uniform integer draw panics on an empty pool (wish.rs:258, 267, 276, 312, 336), and the Bernoulli draw panics on a chance outside [0, 1] (wish.rs:308, 332). Neither panic is modelled as a behaviour. Both are excluded by preconditions: the pool-count bound on `index` in `RegularRollInputs`, `FeaturedRollInputs` and `IntendedRollInputs` (and in the `RegularMake*Roll`/`FeaturedMake*Roll` functions), and `BernoulliOutcome` where the draw is made.
- The random generator (`gen`, `gen_range`, `gen_bool`) is a foreign library. It is replaced by explicit draw parameters. The draws' distribution (uniformity, independence) is not modelled.
- The Monte Carlo tests (wish.rs:43-108) check statistical convergence over a live generator. They cannot be stated as verified properties.
- Wish.RegularHardPityWithin: the run function `RegularPulls` behind it requires every draw's index to fit every regular pool, which is stronger than one roll needs.
- WishIntended.IntendedHardPityWithin: the run function `IntendedPulls` behind it requires every draw's index to fit all five pools and every Bernoulli outcome to be possible, which is stronger than one roll needs.
- Draw order: the source draws the uniform value, then the Bernoulli outcome, then the index. The order only matters to a live generator, so the model does not capture it.
- The `new` constructors and derived `Debug`/`Clone` impls carry no logic. The datatype constructors stand for them.
