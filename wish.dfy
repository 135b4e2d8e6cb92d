/** The pull ("wish") engine of a gacha game bot.
 *
 * A wish is one draw from a pool of items of three rarities (five-, four- and
 * three-star). The odds of the two top rarities rise with the number of rolls
 * made since the last drop of that rarity ("pity"). A featured wish adds, per
 * rarity, a "guaranteed featured after a loss" flag on top of the regular
 * engine. Every operation takes a state value and returns a fresh one.
 *
 * The random generator is replaced by explicit draws: a uniform value
 * `u` in [0, 1), the index that the uniform integer draw returned, and the
 * outcome `won` of the Bernoulli draw on the featured chance.
 */
module Wish {

  // ---------------------------------------------------------------------------
  // Data model
  // ---------------------------------------------------------------------------

  /** Rolls made since the last five-star and since the last four-star drop;
      a counter is 1 on the roll right after a drop of its rarity. */
  datatype RegularState = RegularState(sinceS5: nat, sinceS4: nat)

  /** A regular state plus, per rarity, whether the last drop of that rarity
      was a featured item. */
  datatype FeaturedState = FeaturedState(base: RegularState, lastS5Featured: bool, lastS4Featured: bool)

  /** Base odds of a five-star and of a four-star drop. */
  datatype Weights = Weights(s5: real, s4: real)

  /** The five-star ramp starts after `s5Start` rolls and reaches certainty at
      `s5End`; the four-star ramp starts at `s4Proc`. */
  datatype Pity = Pity(s5Start: nat, s5End: nat, s4Proc: nat)

  /** A pool: its weights, its pity and the number of items of each rarity. */
  datatype RegularWish = RegularWish(
    weights: Weights,
    pity: Pity,
    fiveStarCount: nat,
    fourStarCount: nat,
    threeStarCount: nat)

  /** A regular pool plus featured five- and four-star items and the chance
      of winning the featured draw once the guarantee is used up. */
  datatype FeaturedWish = FeaturedWish(
    base: RegularWish,
    fiveStarFeaturedCount: nat,
    fourStarFeaturedCount: nat,
    featuredChance: real)

  datatype RollKind = FiveStar | FiveStarFeatured | FourStar | FourStarFeatured | ThreeStar

  /** One pull: the rarity (and pool) drawn and the index of the item in that pool. */
  datatype Roll = Roll(kind: RollKind, index: nat)

  /** The two cumulative boundaries of a roll: the five-star odds, and the
      five-star plus the four-star odds. Whatever lies above the second one
      is the three-star odds. Neither is clamped to 1. */
  datatype Distribution = Distribution(fiveStar: real, fourStarOrBetter: real)

  predicate IsFiveStar(kind: RollKind) {
    kind.FiveStar? || kind.FiveStarFeatured?
  }

  predicate IsFourStar(kind: RollKind) {
    kind.FourStar? || kind.FourStarFeatured?
  }

  /** Both base odds are probabilities. */
  predicate ValidWeights(w: Weights) {
    0.0 <= w.s5 <= 1.0 && 0.0 <= w.s4 <= 1.0
  }

  /** The five-star ramp subtracts and divides by `s5End - s5Start`, but only
      once `sinceS5` has passed `s5Start`: from there on the pity needs
      `s5Start < s5End` (equal bounds divide by zero, a smaller `s5End`
      underflows the unsigned subtraction). */
  predicate RampDefined(pity: Pity, state: RegularState) {
    state.sinceS5 > pity.s5Start ==> pity.s5Start < pity.s5End
  }

  /** What the Bernoulli draw of the random generator can return for chance
      `p`: it rejects a chance outside [0, 1], never succeeds at 0 and always
      succeeds at 1. */
  predicate BernoulliOutcome(p: real, won: bool) {
    && 0.0 <= p <= 1.0
    && (p == 0.0 ==> !won)
    && (p == 1.0 ==> won)
  }

  // ---------------------------------------------------------------------------
  // Distribution calculator
  // ---------------------------------------------------------------------------

  /** The pity-adjusted odds: the base five-star odds up to `s5Start` rolls,
      then a linear ramp that reaches 1 at `s5End`; the base four-star odds
      below `s4Proc` rolls, then a ramp of half the remaining odds per roll. */
  function GetDistribution(w: Weights, pity: Pity, state: RegularState): Distribution
    requires RampDefined(pity, state)
  {
    var s5Odds :=
      if state.sinceS5 <= pity.s5Start then w.s5
      else
        var inc := (1.0 - w.s5) / (pity.s5End - pity.s5Start) as real;
        w.s5 + inc * (state.sinceS5 - pity.s5Start) as real;
    var s4Odds :=
      if state.sinceS4 < pity.s4Proc then w.s4
      else
        var inc := (1.0 - w.s4) / 2.0;
        w.s4 + inc * (state.sinceS4 - pity.s4Proc + 1) as real;
    Distribution(s5Odds, s4Odds + s5Odds)
  }

  /** Which rarity a uniform draw `u` falls in. */
  function Classify(d: Distribution, u: real): RollKind {
    if u < d.fiveStar then FiveStar
    else if u < d.fourStarOrBetter then FourStar
    else ThreeStar
  }

  // Small facts about scaling a real by a non-negative factor.

  lemma ScaleMono(a: real, x: real, y: real)
    requires 0.0 <= a && x <= y
    ensures a * x <= a * y
  {
  }

  lemma ScaleStrictMono(a: real, x: real, y: real)
    requires 0.0 < a && x < y
    ensures a * x < a * y
  {
  }

  /** The five-star ramp's step times its length is exactly the odds left to gain. */
  lemma RampLength(s5: real, pity: Pity)
    requires pity.s5Start < pity.s5End
    ensures ((1.0 - s5) / (pity.s5End - pity.s5Start) as real) * (pity.s5End - pity.s5Start) as real == 1.0 - s5
  {
  }

  /** Up to soft pity the five-star odds are the base odds, exactly. */
  lemma BaseFiveStarOdds(w: Weights, pity: Pity, state: RegularState)
    requires state.sinceS5 <= pity.s5Start
    ensures GetDistribution(w, pity, state).fiveStar == w.s5
  {
  }

  /** Past soft pity the five-star odds exceed the base odds, and they stay
      below 1 until hard pity. */
  lemma FiveStarRamp(w: Weights, pity: Pity, state: RegularState)
    requires pity.s5Start < pity.s5End
    requires 0.0 <= w.s5 < 1.0
    requires state.sinceS5 > pity.s5Start
    ensures GetDistribution(w, pity, state).fiveStar > w.s5
    ensures state.sinceS5 < pity.s5End ==> GetDistribution(w, pity, state).fiveStar < 1.0
  {
    var inc := (1.0 - w.s5) / (pity.s5End - pity.s5Start) as real;
    var k := (state.sinceS5 - pity.s5Start) as real;
    assert inc > 0.0;
    ScaleStrictMono(inc, 0.0, k);
    if state.sinceS5 < pity.s5End {
      RampLength(w.s5, pity);
      ScaleStrictMono(inc, k, (pity.s5End - pity.s5Start) as real);
    }
  }

  /** At hard pity (and beyond) the five-star odds are at least 1. */
  lemma FiveStarHardPity(w: Weights, pity: Pity, state: RegularState)
    requires pity.s5Start < pity.s5End
    requires w.s5 <= 1.0
    requires state.sinceS5 >= pity.s5End
    ensures GetDistribution(w, pity, state).fiveStar >= 1.0
  {
  }

  /** The five-star odds never decrease as rolls without a five-star accumulate. */
  lemma FiveStarOddsMonotone(w: Weights, pity: Pity, state: RegularState, later: RegularState)
    requires pity.s5Start < pity.s5End
    requires w.s5 <= 1.0
    requires state.sinceS5 <= later.sinceS5
    ensures GetDistribution(w, pity, state).fiveStar <= GetDistribution(w, pity, later).fiveStar
  {
    var inc := (1.0 - w.s5) / (pity.s5End - pity.s5Start) as real;
    assert inc >= 0.0;
    if state.sinceS5 > pity.s5Start {
      ScaleMono(inc, (state.sinceS5 - pity.s5Start) as real, (later.sinceS5 - pity.s5Start) as real);
    } else if later.sinceS5 > pity.s5Start {
      ScaleMono(inc, 0.0, (later.sinceS5 - pity.s5Start) as real);
    }
  }

  /** Below the four-star threshold the second boundary adds exactly the base
      four-star odds to the first. */
  lemma FourStarBelowProc(w: Weights, pity: Pity, state: RegularState)
    requires RampDefined(pity, state)
    requires state.sinceS4 < pity.s4Proc
    ensures var d := GetDistribution(w, pity, state);
      d.fourStarOrBetter == w.s4 + d.fiveStar
  {
  }

  /** One roll past the four-star threshold the four-star odds alone are at
      least 1, and so is the second boundary. */
  lemma FourStarPity(w: Weights, pity: Pity, state: RegularState)
    requires RampDefined(pity, state)
    requires ValidWeights(w)
    requires state.sinceS4 >= pity.s4Proc + 1
    ensures var d := GetDistribution(w, pity, state);
      d.fourStarOrBetter - d.fiveStar >= 1.0 && d.fourStarOrBetter >= 1.0
  {
    var d := GetDistribution(w, pity, state);
    var inc, k := (1.0 - w.s4) / 2.0, (state.sinceS4 - pity.s4Proc + 1) as real;
    assert d.fourStarOrBetter == (w.s4 + inc * k) + d.fiveStar;
    ScaleMono(inc, 2.0, k);
    FiveStarNonNegative(w, pity, state);
  }

  lemma FiveStarNonNegative(w: Weights, pity: Pity, state: RegularState)
    requires RampDefined(pity, state)
    requires ValidWeights(w)
    ensures GetDistribution(w, pity, state).fiveStar >= 0.0
  {
    if state.sinceS5 > pity.s5Start {
      var inc := (1.0 - w.s5) / (pity.s5End - pity.s5Start) as real;
      var k := (state.sinceS5 - pity.s5Start) as real;
      assert inc >= 0.0;
      ScaleMono(inc, 0.0, k);
      assert GetDistribution(w, pity, state).fiveStar == w.s5 + inc * k;
    }
  }

  /** With probabilities as base odds the two boundaries are ascending and
      non-negative: the four-star share is never negative. */
  lemma DistributionAscending(w: Weights, pity: Pity, state: RegularState)
    requires RampDefined(pity, state)
    requires ValidWeights(w)
    ensures var d := GetDistribution(w, pity, state);
      0.0 <= d.fiveStar <= d.fourStarOrBetter
  {
    var d := GetDistribution(w, pity, state);
    FiveStarNonNegative(w, pity, state);
    if state.sinceS4 < pity.s4Proc {
      assert d.fourStarOrBetter == w.s4 + d.fiveStar;
    } else {
      var inc, k := (1.0 - w.s4) / 2.0, (state.sinceS4 - pity.s4Proc + 1) as real;
      assert d.fourStarOrBetter == (w.s4 + inc * k) + d.fiveStar;
      ScaleMono(inc, 0.0, k);
    }
  }

  /** The odds the source's own unit test expects for the standard pool
      (base odds 0.006 and 0.051, pity 73, 90 and 9). */
  lemma WeightIncreaseExample()
    ensures var w, pity := Weights(0.006, 0.051), Pity(73, 90, 9);
      && GetDistribution(w, pity, RegularState(74, 10)).fiveStar > 0.006
      && GetDistribution(w, pity, RegularState(74, 10)).fourStarOrBetter >= 1.0
      && GetDistribution(w, pity, RegularState(89, 9)).fiveStar < 1.0
      && GetDistribution(w, pity, RegularState(90, 9)).fiveStar >= 1.0
      && GetDistribution(w, pity, RegularState(90, 9)).fourStarOrBetter != 1.0
  {
  }

  // ---------------------------------------------------------------------------
  // Regular roll engine
  // ---------------------------------------------------------------------------

  /** The number of items a regular pool holds of a rarity; it holds no
      featured items. */
  function RegularPoolCount(wish: RegularWish, kind: RollKind): nat {
    match kind
    case FiveStar => wish.fiveStarCount
    case FourStar => wish.fourStarCount
    case ThreeStar => wish.threeStarCount
    case _ => 0
  }

  /** The counter law of the regular engine: the counter of the rarity drawn
      restarts at 1, every other counter advances by one. */
  predicate CounterLaw(prev: RegularState, kind: RollKind, next: RegularState) {
    && next.sinceS5 == (if IsFiveStar(kind) then 1 else prev.sinceS5 + 1)
    && next.sinceS4 == (if IsFourStar(kind) then 1 else prev.sinceS4 + 1)
  }

  function RegularMakeS3Roll(wish: RegularWish, state: RegularState, index: nat): (Roll, RegularState)
    requires index < wish.threeStarCount
  {
    (Roll(ThreeStar, index), RegularState(state.sinceS5 + 1, state.sinceS4 + 1))
  }

  function RegularMakeS4Roll(wish: RegularWish, state: RegularState, index: nat): (Roll, RegularState)
    requires index < wish.fourStarCount
  {
    (Roll(FourStar, index), RegularState(state.sinceS5 + 1, 1))
  }

  function RegularMakeS5Roll(wish: RegularWish, state: RegularState, index: nat): (Roll, RegularState)
    requires index < wish.fiveStarCount
  {
    (Roll(FiveStar, index), RegularState(1, state.sinceS4 + 1))
  }

  /** What a regular roll needs of its draws: `u` in [0, 1), an index drawn
      from the pool of the rarity `u` selects (so that pool is not empty),
      and a defined ramp. */
  predicate RegularRollInputs(wish: RegularWish, state: RegularState, u: real, index: nat) {
    && 0.0 <= u < 1.0
    && RampDefined(wish.pity, state)
    && index < RegularPoolCount(wish, Classify(GetDistribution(wish.weights, wish.pity, state), u))
  }

  /** One regular roll. */
  function RegularRoll(wish: RegularWish, state: RegularState, u: real, index: nat): (r: (Roll, RegularState))
    requires RegularRollInputs(wish, state, u, index)
    ensures var d := GetDistribution(wish.weights, wish.pity, state);
      && (r.0.kind == FiveStar <==> u < d.fiveStar)
      && (r.0.kind == FourStar <==> d.fiveStar <= u < d.fourStarOrBetter)
      && (r.0.kind == ThreeStar <==> d.fiveStar <= u && d.fourStarOrBetter <= u)
    ensures r.0.index == index && r.0.index < RegularPoolCount(wish, r.0.kind)
    ensures CounterLaw(state, r.0.kind, r.1)
  {
    var d := GetDistribution(wish.weights, wish.pity, state);
    if u < d.fiveStar then RegularMakeS5Roll(wish, state, index)
    else if u < d.fourStarOrBetter then RegularMakeS4Roll(wish, state, index)
    else RegularMakeS3Roll(wish, state, index)
  }

  /** At hard pity a regular roll is a five-star, whatever the draw. */
  lemma RegularHardPity(wish: RegularWish, state: RegularState, u: real, index: nat)
    requires RegularRollInputs(wish, state, u, index)
    requires wish.pity.s5Start < wish.pity.s5End && wish.weights.s5 <= 1.0
    requires state.sinceS5 >= wish.pity.s5End
    ensures RegularRoll(wish, state, u, index).0.kind == FiveStar
  {
    FiveStarHardPity(wish.weights, wish.pity, state);
  }

  /** One roll past the four-star threshold a regular roll is a five-star or
      a four-star, whatever the draw. */
  lemma RegularFourStarPity(wish: RegularWish, state: RegularState, u: real, index: nat)
    requires RegularRollInputs(wish, state, u, index)
    requires ValidWeights(wish.weights)
    requires state.sinceS4 >= wish.pity.s4Proc + 1
    ensures RegularRoll(wish, state, u, index).0.kind != ThreeStar
  {
    FourStarPity(wish.weights, wish.pity, state);
  }

  /** The five-star counter never passes hard pity: a roll keeps it within
      1 .. s5End. */
  lemma RegularRollKeepsHardPityBound(wish: RegularWish, state: RegularState, u: real, index: nat)
    requires RegularRollInputs(wish, state, u, index)
    requires wish.pity.s5Start < wish.pity.s5End && wish.weights.s5 <= 1.0
    requires state.sinceS5 <= wish.pity.s5End
    ensures 1 <= RegularRoll(wish, state, u, index).1.sinceS5 <= wish.pity.s5End
  {
    if state.sinceS5 == wish.pity.s5End {
      RegularHardPity(wish, state, u, index);
    }
  }

  /** Draws for a sequence of regular rolls. */
  datatype Draw = Draw(u: real, index: nat)

  /** A draw usable by a roll of any rarity of the pool. */
  predicate ValidDraw(wish: RegularWish, draw: Draw) {
    && 0.0 <= draw.u < 1.0
    && draw.index < wish.fiveStarCount
    && draw.index < wish.fourStarCount
    && draw.index < wish.threeStarCount
  }

  /** The rolls a caller obtains by threading the state through successive
      regular rolls, one per draw. */
  function RegularPulls(wish: RegularWish, state: RegularState, draws: seq<Draw>): (rolls: seq<Roll>)
    requires wish.pity.s5Start < wish.pity.s5End
    requires forall i :: 0 <= i < |draws| ==> ValidDraw(wish, draws[i])
    ensures |rolls| == |draws|
    decreases |draws|
  {
    if draws == [] then []
    else
      assert ValidDraw(wish, draws[0]);
      var step := RegularRoll(wish, state, draws[0].u, draws[0].index);
      [step.0] + RegularPulls(wish, step.1, draws[1..])
  }

  /** Hard pity as a guarantee over a run: from a state `k` rolls since the
      last five-star (k <= s5End), one of the next `s5End - k + 1` regular
      rolls is a five-star. */
  lemma {:induction false} RegularHardPityWithin(wish: RegularWish, state: RegularState, draws: seq<Draw>)
    requires wish.pity.s5Start < wish.pity.s5End && wish.weights.s5 <= 1.0
    requires forall i :: 0 <= i < |draws| ==> ValidDraw(wish, draws[i])
    requires state.sinceS5 <= wish.pity.s5End
    requires |draws| > wish.pity.s5End - state.sinceS5
    ensures exists i :: 0 <= i <= wish.pity.s5End - state.sinceS5
                        && RegularPulls(wish, state, draws)[i].kind == FiveStar
    decreases |draws|
  {
    assert ValidDraw(wish, draws[0]);
    var step := RegularRoll(wish, state, draws[0].u, draws[0].index);
    var rolls := RegularPulls(wish, state, draws);
    assert rolls[0] == step.0;
    if step.0.kind == FiveStar {
      assert 0 <= 0 <= wish.pity.s5End - state.sinceS5 && rolls[0].kind == FiveStar;
    } else {
      if state.sinceS5 >= wish.pity.s5End {
        RegularHardPity(wish, state, draws[0].u, draws[0].index);
      }
      assert step.1.sinceS5 == state.sinceS5 + 1;
      RegularHardPityWithin(wish, step.1, draws[1..]);
      var i :| 0 <= i <= wish.pity.s5End - step.1.sinceS5
               && RegularPulls(wish, step.1, draws[1..])[i].kind == FiveStar;
      assert rolls[i + 1] == RegularPulls(wish, step.1, draws[1..])[i];
    }
  }

  // ---------------------------------------------------------------------------
  // Featured roll engine
  // ---------------------------------------------------------------------------

  /** The number of items a featured pool holds of each kind. */
  function FeaturedPoolCount(wish: FeaturedWish, kind: RollKind): nat {
    match kind
    case FiveStarFeatured => wish.fiveStarFeaturedCount
    case FourStarFeatured => wish.fourStarFeaturedCount
    case _ => RegularPoolCount(wish.base, kind)
  }

  /** A featured item is drawn when the guarantee is pending (the last drop
      was not featured) or the featured draw is won. */
  predicate TakesFeatured(lastFeatured: bool, won: bool) {
    !lastFeatured || won
  }

  /** The kind a featured roll yields once `u` has selected `tier`. Both top
      rarities consult the four-star flag. */
  function FeaturedKind(tier: RollKind, state: FeaturedState, won: bool): RollKind {
    match tier
    case FiveStar => if TakesFeatured(state.lastS4Featured, won) then FiveStarFeatured else FiveStar
    case FourStar => if TakesFeatured(state.lastS4Featured, won) then FourStarFeatured else FourStar
    case _ => tier
  }

  function FeaturedMakeS3Roll(wish: FeaturedWish, state: FeaturedState, index: nat): (Roll, FeaturedState)
    requires index < wish.base.threeStarCount
  {
    var (roll, base) := RegularMakeS3Roll(wish.base, state.base, index);
    (roll, FeaturedState(base, state.lastS5Featured, state.lastS4Featured))
  }

  /** The Bernoulli draw is made, and `won` read, only when the four-star flag is set. */
  function FeaturedMakeS4Roll(wish: FeaturedWish, state: FeaturedState, won: bool, index: nat): (Roll, FeaturedState)
    requires state.lastS4Featured ==> BernoulliOutcome(wish.featuredChance, won)
    requires index < FeaturedPoolCount(wish, FeaturedKind(FourStar, state, won))
  {
    if !state.lastS4Featured || won then
      (Roll(FourStarFeatured, index),
       FeaturedState(RegularState(state.base.sinceS5, 1), state.lastS5Featured, true))
    else
      var (roll, base) := RegularMakeS4Roll(wish.base, state.base, index);
      (roll, FeaturedState(base, state.lastS5Featured, false))
  }

  /** The five-star guarantee is gated on the four-star flag. */
  function FeaturedMakeS5Roll(wish: FeaturedWish, state: FeaturedState, won: bool, index: nat): (Roll, FeaturedState)
    requires state.lastS4Featured ==> BernoulliOutcome(wish.featuredChance, won)
    requires index < FeaturedPoolCount(wish, FeaturedKind(FiveStar, state, won))
  {
    if !state.lastS4Featured || won then
      (Roll(FiveStarFeatured, index),
       FeaturedState(RegularState(1, state.base.sinceS4), true, state.lastS4Featured))
    else
      var (roll, base) := RegularMakeS5Roll(wish.base, state.base, index);
      (roll, FeaturedState(base, false, state.lastS4Featured))
  }

  /** What a featured roll needs of its draws: `u` in [0, 1), a defined ramp,
      a possible Bernoulli outcome where the draw is made (a top rarity with
      the four-star flag set), and an index from the pool the roll selects. */
  predicate FeaturedRollInputs(wish: FeaturedWish, state: FeaturedState, u: real, won: bool, index: nat) {
    && 0.0 <= u < 1.0
    && RampDefined(wish.base.pity, state.base)
    && var tier := Classify(GetDistribution(wish.base.weights, wish.base.pity, state.base), u);
    && (tier != ThreeStar && state.lastS4Featured ==> BernoulliOutcome(wish.featuredChance, won))
    && index < FeaturedPoolCount(wish, FeaturedKind(tier, state, won))
  }

  /** One featured roll. */
  function FeaturedRoll(wish: FeaturedWish, state: FeaturedState, u: real, won: bool, index: nat): (r: (Roll, FeaturedState))
    requires FeaturedRollInputs(wish, state, u, won, index)
    // the rarity is selected by the regular boundaries
    ensures var d := GetDistribution(wish.base.weights, wish.base.pity, state.base);
      && (IsFiveStar(r.0.kind) <==> u < d.fiveStar)
      && (IsFourStar(r.0.kind) <==> d.fiveStar <= u < d.fourStarOrBetter)
    ensures r.0.index == index && r.0.index < FeaturedPoolCount(wish, r.0.kind)
    // a pending guarantee forces a featured item at both top rarities
    ensures !state.lastS4Featured && IsFiveStar(r.0.kind) ==> r.0.kind == FiveStarFeatured
    ensures !state.lastS4Featured && IsFourStar(r.0.kind) ==> r.0.kind == FourStarFeatured
    // a flag changes only on a drop of its rarity, and then records whether it was featured
    ensures r.1.lastS5Featured == if IsFiveStar(r.0.kind) then r.0.kind == FiveStarFeatured else state.lastS5Featured
    ensures r.1.lastS4Featured == if IsFourStar(r.0.kind) then r.0.kind == FourStarFeatured else state.lastS4Featured
    // counters: as the regular law, except that a featured drop leaves the other counter as it was
    ensures r.1.base.sinceS5 == if IsFiveStar(r.0.kind) then 1
                                else if r.0.kind == FourStarFeatured then state.base.sinceS5
                                else state.base.sinceS5 + 1
    ensures r.1.base.sinceS4 == if IsFourStar(r.0.kind) then 1
                                else if r.0.kind == FiveStarFeatured then state.base.sinceS4
                                else state.base.sinceS4 + 1
  {
    var d := GetDistribution(wish.base.weights, wish.base.pity, state.base);
    if u < d.fiveStar then FeaturedMakeS5Roll(wish, state, won, index)
    else if u < d.fourStarOrBetter then FeaturedMakeS4Roll(wish, state, won, index)
    else FeaturedMakeS3Roll(wish, state, index)
  }

  /** A featured three-star roll is the regular three-star roll, with both
      flags carried over. */
  lemma FeaturedThreeStarIsRegular(wish: FeaturedWish, state: FeaturedState, u: real, won: bool, index: nat)
    requires FeaturedRollInputs(wish, state, u, won, index)
    requires var d := GetDistribution(wish.base.weights, wish.base.pity, state.base);
      d.fiveStar <= u && d.fourStarOrBetter <= u
    ensures var r, g := FeaturedRoll(wish, state, u, won, index), RegularRoll(wish.base, state.base, u, index);
      r.0 == g.0 && r.1 == FeaturedState(g.1, state.lastS5Featured, state.lastS4Featured)
  {
  }

  /** A four-star roll with the guarantee pending, or with the featured draw
      won, is a featured four-star: the four-star counter restarts, the
      five-star counter is left as it was, the four-star flag is set. */
  lemma FeaturedFourStarWin(wish: FeaturedWish, state: FeaturedState, u: real, won: bool, index: nat)
    requires FeaturedRollInputs(wish, state, u, won, index)
    requires var d := GetDistribution(wish.base.weights, wish.base.pity, state.base);
      d.fiveStar <= u < d.fourStarOrBetter
    requires TakesFeatured(state.lastS4Featured, won)
    ensures var r := FeaturedRoll(wish, state, u, won, index);
      && r.0 == Roll(FourStarFeatured, index)
      && index < wish.fourStarFeaturedCount
      && r.1 == FeaturedState(RegularState(state.base.sinceS5, 1), state.lastS5Featured, true)
  {
  }

  /** A four-star roll that loses the featured draw is the regular four-star
      roll, with the four-star flag cleared and the five-star flag kept. */
  lemma FeaturedFourStarLoss(wish: FeaturedWish, state: FeaturedState, u: real, won: bool, index: nat)
    requires FeaturedRollInputs(wish, state, u, won, index)
    requires var d := GetDistribution(wish.base.weights, wish.base.pity, state.base);
      d.fiveStar <= u < d.fourStarOrBetter
    requires state.lastS4Featured && !won
    ensures var r, g := FeaturedRoll(wish, state, u, won, index), RegularRoll(wish.base, state.base, u, index);
      r.0 == g.0 && r.1 == FeaturedState(g.1, state.lastS5Featured, false)
  {
  }

  /** A five-star roll takes a featured item when the FOUR-star flag is
      clear or the featured draw is won: the five-star counter restarts, the
      four-star counter is left as it was, the five-star flag is set. */
  lemma FeaturedFiveStarWin(wish: FeaturedWish, state: FeaturedState, u: real, won: bool, index: nat)
    requires FeaturedRollInputs(wish, state, u, won, index)
    requires u < GetDistribution(wish.base.weights, wish.base.pity, state.base).fiveStar
    requires TakesFeatured(state.lastS4Featured, won)
    ensures var r := FeaturedRoll(wish, state, u, won, index);
      && r.0 == Roll(FiveStarFeatured, index)
      && index < wish.fiveStarFeaturedCount
      && r.1 == FeaturedState(RegularState(1, state.base.sinceS4), true, state.lastS4Featured)
  {
  }

  /** A five-star roll that loses the featured draw is the regular five-star
      roll, with the five-star flag cleared and the four-star flag kept. */
  lemma FeaturedFiveStarLoss(wish: FeaturedWish, state: FeaturedState, u: real, won: bool, index: nat)
    requires FeaturedRollInputs(wish, state, u, won, index)
    requires u < GetDistribution(wish.base.weights, wish.base.pity, state.base).fiveStar
    requires state.lastS4Featured && !won
    ensures var r, g := FeaturedRoll(wish, state, u, won, index), RegularRoll(wish.base, state.base, u, index);
      r.0 == g.0 && r.1 == FeaturedState(g.1, false, state.lastS4Featured)
  {
  }

  /** At hard pity a featured roll is a five-star (featured or not), whatever
      the draws. */
  lemma FeaturedHardPity(wish: FeaturedWish, state: FeaturedState, u: real, won: bool, index: nat)
    requires FeaturedRollInputs(wish, state, u, won, index)
    requires wish.base.pity.s5Start < wish.base.pity.s5End && wish.base.weights.s5 <= 1.0
    requires state.base.sinceS5 >= wish.base.pity.s5End
    ensures IsFiveStar(FeaturedRoll(wish, state, u, won, index).0.kind)
  {
    FiveStarHardPity(wish.base.weights, wish.base.pity, state.base);
  }

  /** A featured roll keeps the five-star counter within 1 .. s5End. */
  lemma FeaturedRollKeepsHardPityBound(wish: FeaturedWish, state: FeaturedState, u: real, won: bool, index: nat)
    requires FeaturedRollInputs(wish, state, u, won, index)
    requires wish.base.pity.s5Start < wish.base.pity.s5End && wish.base.weights.s5 <= 1.0
    requires 1 <= state.base.sinceS5 <= wish.base.pity.s5End
    ensures 1 <= FeaturedRoll(wish, state, u, won, index).1.base.sinceS5 <= wish.base.pity.s5End
  {
    if state.base.sinceS5 == wish.base.pity.s5End {
      FeaturedHardPity(wish, state, u, won, index);
    }
  }
}
