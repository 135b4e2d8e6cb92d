/** The featured roll engine corrected in two points, beside two inputs on
 * which the engine as written departs from what its own code promises:
 *
 * - the featured state promises a guarantee per rarity, one that procs when
 *   the last drop of that category was not featured (wish.rs:126-128), and
 *   the four-star path tests its own flag; the five-star path as written
 *   tests the four-star flag (wish.rs:332);
 * - the featured rolls are described as the same as their regular
 *   counterparts (wish.rs:303), whose drops advance the other rarity's
 *   counter (wish.rs:268, 277); the featured branches as written leave it
 *   unchanged (wish.rs:315, 339), so the five-star counter can stall below
 *   hard pity.
 *
 * The functions here differ from Wish.FeaturedMakeS5Roll and
 * Wish.FeaturedMakeS4Roll only in those two points.
 */
module WishIntended {
  import opened Wish

  /** The kind an intended featured roll yields once `u` has selected `tier`:
      each top rarity consults its own flag. */
  function IntendedKind(tier: RollKind, state: FeaturedState, won: bool): RollKind {
    match tier
    case FiveStar => if TakesFeatured(state.lastS5Featured, won) then FiveStarFeatured else FiveStar
    case FourStar => if TakesFeatured(state.lastS4Featured, won) then FourStarFeatured else FourStar
    case _ => tier
  }

  /** As Wish.FeaturedMakeS4Roll, but a featured four-star advances the
      five-star counter. */
  function IntendedMakeS4Roll(wish: FeaturedWish, state: FeaturedState, won: bool, index: nat): (Roll, FeaturedState)
    requires state.lastS4Featured ==> BernoulliOutcome(wish.featuredChance, won)
    requires index < FeaturedPoolCount(wish, IntendedKind(FourStar, state, won))
  {
    if !state.lastS4Featured || won then
      (Roll(FourStarFeatured, index),
       FeaturedState(RegularState(state.base.sinceS5 + 1, 1), state.lastS5Featured, true))
    else
      var (roll, base) := RegularMakeS4Roll(wish.base, state.base, index);
      (roll, FeaturedState(base, state.lastS5Featured, false))
  }

  /** As Wish.FeaturedMakeS5Roll, but gated on the five-star flag, and a
      featured five-star advances the four-star counter. */
  function IntendedMakeS5Roll(wish: FeaturedWish, state: FeaturedState, won: bool, index: nat): (Roll, FeaturedState)
    requires state.lastS5Featured ==> BernoulliOutcome(wish.featuredChance, won)
    requires index < FeaturedPoolCount(wish, IntendedKind(FiveStar, state, won))
  {
    if !state.lastS5Featured || won then
      (Roll(FiveStarFeatured, index),
       FeaturedState(RegularState(1, state.base.sinceS4 + 1), true, state.lastS4Featured))
    else
      var (roll, base) := RegularMakeS5Roll(wish.base, state.base, index);
      (roll, FeaturedState(base, false, state.lastS4Featured))
  }

  /** The intended engine makes the Bernoulli draw when the selected top
      rarity's own flag is set. */
  predicate DrawsBernoulli(tier: RollKind, state: FeaturedState) {
    (tier == FiveStar && state.lastS5Featured) || (tier == FourStar && state.lastS4Featured)
  }

  /** What an intended featured roll needs of its draws; the Bernoulli draw
      is made when the selected rarity's own flag is set. */
  predicate IntendedRollInputs(wish: FeaturedWish, state: FeaturedState, u: real, won: bool, index: nat) {
    && 0.0 <= u < 1.0
    && RampDefined(wish.base.pity, state.base)
    && var tier := Classify(GetDistribution(wish.base.weights, wish.base.pity, state.base), u);
    && (DrawsBernoulli(tier, state) ==> BernoulliOutcome(wish.featuredChance, won))
    && index < FeaturedPoolCount(wish, IntendedKind(tier, state, won))
  }

  /** One intended featured roll: per rarity, a drop after a non-featured drop
      of that rarity is featured, a drop after a featured one is featured
      exactly when the featured draw is won, and the counters obey the regular
      counter law. */
  function IntendedRoll(wish: FeaturedWish, state: FeaturedState, u: real, won: bool, index: nat): (r: (Roll, FeaturedState))
    requires IntendedRollInputs(wish, state, u, won, index)
    ensures var d := GetDistribution(wish.base.weights, wish.base.pity, state.base);
      && (IsFiveStar(r.0.kind) <==> u < d.fiveStar)
      && (IsFourStar(r.0.kind) <==> d.fiveStar <= u < d.fourStarOrBetter)
    ensures r.0.index == index && r.0.index < FeaturedPoolCount(wish, r.0.kind)
    ensures !state.lastS5Featured && IsFiveStar(r.0.kind) ==> r.0.kind == FiveStarFeatured
    ensures !state.lastS4Featured && IsFourStar(r.0.kind) ==> r.0.kind == FourStarFeatured
    // once a rarity's own flag is set, its drop is featured exactly when the featured draw is won
    ensures state.lastS5Featured && IsFiveStar(r.0.kind) ==> (r.0.kind == FiveStarFeatured <==> won)
    ensures state.lastS4Featured && IsFourStar(r.0.kind) ==> (r.0.kind == FourStarFeatured <==> won)
    ensures r.1.lastS5Featured == if IsFiveStar(r.0.kind) then r.0.kind == FiveStarFeatured else state.lastS5Featured
    ensures r.1.lastS4Featured == if IsFourStar(r.0.kind) then r.0.kind == FourStarFeatured else state.lastS4Featured
    ensures CounterLaw(state.base, r.0.kind, r.1.base)
  {
    var d := GetDistribution(wish.base.weights, wish.base.pity, state.base);
    if u < d.fiveStar then IntendedMakeS5Roll(wish, state, won, index)
    else if u < d.fourStarOrBetter then IntendedMakeS4Roll(wish, state, won, index)
    else FeaturedMakeS3Roll(wish, state, index)
  }

  /** The intended featured engine moves the counters exactly as the regular
      engine does on the same draw, and draws the same rarity. */
  lemma IntendedRollMatchesRegular(wish: FeaturedWish, state: FeaturedState, u: real, won: bool, index: nat)
    requires IntendedRollInputs(wish, state, u, won, index)
    requires RegularRollInputs(wish.base, state.base, u, index)
    ensures var r, g := IntendedRoll(wish, state, u, won, index), RegularRoll(wish.base, state.base, u, index);
      && r.1.base == g.1
      && (IsFiveStar(r.0.kind) <==> g.0.kind == FiveStar)
      && (IsFourStar(r.0.kind) <==> g.0.kind == FourStar)
  {
  }

  /** Draws for a sequence of featured rolls. */
  datatype FeaturedDraw = FeaturedDraw(u: real, won: bool, index: nat)

  /** A draw usable by a featured roll of any kind of the pool. */
  predicate ValidFeaturedDraw(wish: FeaturedWish, draw: FeaturedDraw) {
    && 0.0 <= draw.u < 1.0
    && BernoulliOutcome(wish.featuredChance, draw.won)
    && draw.index < wish.fiveStarFeaturedCount
    && draw.index < wish.fourStarFeaturedCount
    && draw.index < wish.base.fiveStarCount
    && draw.index < wish.base.fourStarCount
    && draw.index < wish.base.threeStarCount
  }

  /** The rolls a caller obtains by threading the state through successive
      intended featured rolls, one per draw. */
  function IntendedPulls(wish: FeaturedWish, state: FeaturedState, draws: seq<FeaturedDraw>): (rolls: seq<Roll>)
    requires wish.base.pity.s5Start < wish.base.pity.s5End
    requires forall i :: 0 <= i < |draws| ==> ValidFeaturedDraw(wish, draws[i])
    ensures |rolls| == |draws|
    decreases |draws|
  {
    if draws == [] then []
    else
      assert ValidFeaturedDraw(wish, draws[0]);
      var step := IntendedRoll(wish, state, draws[0].u, draws[0].won, draws[0].index);
      [step.0] + IntendedPulls(wish, step.1, draws[1..])
  }

  /** The corrected engine restores hard pity over a run: from a state `k`
      rolls since the last five-star (k <= s5End), one of the next
      `s5End - k + 1` intended featured rolls is a five-star, featured or not. */
  lemma {:induction false} IntendedHardPityWithin(wish: FeaturedWish, state: FeaturedState, draws: seq<FeaturedDraw>)
    requires wish.base.pity.s5Start < wish.base.pity.s5End && wish.base.weights.s5 <= 1.0
    requires forall i :: 0 <= i < |draws| ==> ValidFeaturedDraw(wish, draws[i])
    requires state.base.sinceS5 <= wish.base.pity.s5End
    requires |draws| > wish.base.pity.s5End - state.base.sinceS5
    ensures exists i :: 0 <= i <= wish.base.pity.s5End - state.base.sinceS5
                        && IsFiveStar(IntendedPulls(wish, state, draws)[i].kind)
    decreases |draws|
  {
    assert ValidFeaturedDraw(wish, draws[0]);
    var step := IntendedRoll(wish, state, draws[0].u, draws[0].won, draws[0].index);
    var rolls := IntendedPulls(wish, state, draws);
    assert rolls[0] == step.0;
    if IsFiveStar(step.0.kind) {
      assert 0 <= 0 <= wish.base.pity.s5End - state.base.sinceS5 && IsFiveStar(rolls[0].kind);
    } else {
      if state.base.sinceS5 >= wish.base.pity.s5End {
        FiveStarHardPity(wish.base.weights, wish.base.pity, state.base);
      }
      assert step.1.base.sinceS5 == state.base.sinceS5 + 1;
      IntendedHardPityWithin(wish, step.1, draws[1..]);
      var i :| 0 <= i <= wish.base.pity.s5End - step.1.base.sinceS5
               && IsFiveStar(IntendedPulls(wish, step.1, draws[1..])[i].kind);
      assert rolls[i + 1] == IntendedPulls(wish, step.1, draws[1..])[i];
    }
  }

  /** The standard featured pool of the source's own tests. */
  function StandardFeaturedWish(): FeaturedWish {
    FeaturedWish(RegularWish(Weights(0.006, 0.051), Pity(73, 90, 9), 100, 100, 100), 100, 100, 0.5)
  }

  /** As written, a five-star drop after a non-featured five-star can again be
      non-featured: with the four-star flag set and the featured draw lost, the
      roll is a plain five-star although the five-star flag was clear. The
      intended engine draws a featured five-star on the same inputs. */
  lemma FiveStarGateCounterexample()
    ensures var state := FeaturedState(RegularState(1, 1), false, true);
      && !state.lastS5Featured
      && FeaturedRollInputs(StandardFeaturedWish(), state, 0.0, false, 0)
      && FeaturedRoll(StandardFeaturedWish(), state, 0.0, false, 0).0.kind == FiveStar
      && IntendedRollInputs(StandardFeaturedWish(), state, 0.0, false, 0)
      && IntendedRoll(StandardFeaturedWish(), state, 0.0, false, 0).0.kind == FiveStarFeatured
  {
  }

  /** As written, a featured four-star leaves the five-star counter where it
      was: one roll short of hard pity, with both flags set, a draw in the
      four-star range and the featured draw won return the very same state,
      so the five-star that hard pity promises within two rolls never comes.
      The intended engine advances the counter to hard pity. */
  lemma FeaturedPityStallCounterexample()
    ensures var state := FeaturedState(RegularState(89, 1), true, true);
      && FeaturedRollInputs(StandardFeaturedWish(), state, 0.95, true, 0)
      && FeaturedRoll(StandardFeaturedWish(), state, 0.95, true, 0) == (Roll(FourStarFeatured, 0), state)
      && !CounterLaw(state.base, FourStarFeatured, state.base)
      && IntendedRollInputs(StandardFeaturedWish(), state, 0.95, true, 0)
      && IntendedRoll(StandardFeaturedWish(), state, 0.95, true, 0).1.base.sinceS5 == 90
  {
  }
}
