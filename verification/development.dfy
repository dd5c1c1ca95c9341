/**
 * Slow, experience-driven personality drift. Each tick every trait moves by a
 * small linear delta (novelty, reward, mood, verb bias), is pulled back toward
 * the baseline captured on the first tick, and is clamped to [0, 1].
 */
module Development {
  import opened Common
  import opened World
  import opened Personalities

  const NoveltyThreshold: real := 5.0
  const NoveltyWeight: real := 0.6
  const ConscientiousPositive: real := 0.3
  const ConscientiousNegative: real := 0.2
  const ExtraversionPositive: real := 0.4
  const ExtraversionNegative: real := 0.2
  const ExtraversionMood: real := 0.2
  const AgreeablenessPositive: real := 0.25
  const AgreeablenessNegative: real := 0.1
  const NeuroticismNegative: real := 0.5
  const NeuroticismPositive: real := 0.15

  /** Per-verb trait bias; a verb missing from the table contributes nothing. */
  const ActionTraitBias: map<string, map<Trait, real>> :=
    map["moku" := map[Openness := 0.2], "lon" := map[Conscientiousness := 0.1], "tawa" := map[Extraversion := 0.2]]

  /** `min(1.0, count / 5.0)` for a whole number of perceived objects. */
  function NoveltyOfCount(count: nat): (novelty: real)
    ensures 0.0 <= novelty <= 1.0
    ensures count == 0 ==> novelty == 0.0
    ensures count >= 5 ==> novelty == 1.0
  {
    Min(1.0, count as real / NoveltyThreshold)
  }

  /** The novelty of a perception; a perception without "objects" has none. */
  function Novelty(perception: Perception): (novelty: real)
    ensures 0.0 <= novelty <= 1.0
    ensures perception.objects.None? ==> novelty == 0.0
  {
    NoveltyOfCount(ObjectCount(perception))
  }

  /** The first token of the action, or "" for an empty action. */
  function ActionVerb(action: seq<string>): (verb: string)
    ensures action != [] ==> verb == action[0]
    ensures action == [] ==> verb == ""
  {
    if action != [] then action[0] else ""
  }

  /** `action_trait_bias.get(verb, {}).get(trait, 0.0)`. */
  function TraitBias(verb: string, t: Trait): (bias: real)
    ensures 0.0 <= bias <= 0.2
    ensures bias != 0.0 ==> verb in {"moku", "lon", "tawa"}
  {
    var bias := if verb in ActionTraitBias then ActionTraitBias[verb] else map[];
    if t in bias then bias[t] else 0.0
  }

  /** A verb outside the table biases no trait. */
  lemma UnknownVerbNoBias(verb: string, t: Trait)
    requires verb !in {"moku", "lon", "tawa"}
    ensures TraitBias(verb, t) == 0.0
  {
    assert verb !in ActionTraitBias;
  }

  /** Each verb in the table raises exactly one trait: moku openness, lon conscientiousness, tawa extraversion. */
  lemma KnownVerbBias(t: Trait)
    ensures TraitBias("moku", t) == (if t == Openness then 0.2 else 0.0)
    ensures TraitBias("lon", t) == (if t == Conscientiousness then 0.1 else 0.0)
    ensures TraitBias("tawa", t) == (if t == Extraversion then 0.2 else 0.0)
  {
  }

  /**
   * The linear delta of one trait, from novelty, the split reward, the mood
   * and the verb bias. For novelty in [0, 1] and reward and mood in [-1, 1]
   * every delta lies in [-0.4, 0.8]; only openness depends on the novelty and
   * only extraversion on the mood.
   */
  function TraitDelta(t: Trait, novelty: real, reward: real, mood: real, verb: string): (delta: real)
    ensures 0.0 <= novelty <= 1.0 && -1.0 <= reward <= 1.0 && -1.0 <= mood <= 1.0 ==> -0.4 <= delta <= 0.8
  {
    var positive := Max(reward, 0.0);
    var negative := Max(-reward, 0.0);
    match t
    case Openness => (novelty - 0.5) * NoveltyWeight + TraitBias(verb, Openness)
    case Conscientiousness =>
      ConscientiousPositive * positive - ConscientiousNegative * negative + TraitBias(verb, Conscientiousness)
    case Extraversion =>
      ExtraversionPositive * positive - ExtraversionNegative * negative + ExtraversionMood * mood
      + TraitBias(verb, Extraversion)
    case Agreeableness => AgreeablenessPositive * positive - AgreeablenessNegative * negative
    case Neuroticism => NeuroticismNegative * negative - NeuroticismPositive * positive
  }

  /**
   * What each delta reads: only openness depends on the novelty, only
   * extraversion on the mood, and agreeableness and neuroticism not on the verb.
   */
  lemma DeltaInputs(t: Trait, n1: real, n2: real, reward: real, m1: real, m2: real, verb: string)
    ensures t != Openness ==> TraitDelta(t, n1, reward, m1, verb) == TraitDelta(t, n2, reward, m1, verb)
    ensures t != Extraversion ==> TraitDelta(t, n1, reward, m1, verb) == TraitDelta(t, n1, reward, m2, verb)
    ensures t == Agreeableness || t == Neuroticism ==>
      TraitDelta(t, n1, reward, m1, verb) == TraitDelta(t, n1, reward, m1, "")
  {
  }

  /** Punishment raises neuroticism and reward lowers it; agreeableness moves with the sign of the reward. */
  lemma RewardSigns(novelty: real, reward: real, mood: real, verb: string)
    ensures reward <= 0.0 ==> TraitDelta(Neuroticism, novelty, reward, mood, verb) >= 0.0
    ensures reward >= 0.0 ==> TraitDelta(Neuroticism, novelty, reward, mood, verb) <= 0.0
    ensures reward > 0.0 ==> TraitDelta(Agreeableness, novelty, reward, mood, verb) > 0.0
    ensures reward < 0.0 ==> TraitDelta(Agreeableness, novelty, reward, mood, verb) < 0.0
    ensures reward == 0.0 ==> TraitDelta(Agreeableness, novelty, reward, mood, verb) == 0.0
  {
  }

  /**
   * With no reward and an empty action, every delta but openness is zero
   * (extraversion only when the mood is zero too).
   */
  lemma RestingDeltas(novelty: real, mood: real)
    ensures TraitDelta(Conscientiousness, novelty, 0.0, mood, ActionVerb([])) == 0.0
    ensures TraitDelta(Agreeableness, novelty, 0.0, mood, ActionVerb([])) == 0.0
    ensures TraitDelta(Neuroticism, novelty, 0.0, mood, ActionVerb([])) == 0.0
    ensures TraitDelta(Extraversion, novelty, 0.0, 0.0, ActionVerb([])) == 0.0
  {
    UnknownVerbNoBias("", Conscientiousness);
    UnknownVerbNoBias("", Extraversion);
  }

  /** For a whole number of objects the openness delta is never zero: the novelty is never 0.5 nor 1/6. */
  lemma OpennessDeltaNonZero(count: nat, reward: real, mood: real, verb: string)
    ensures TraitDelta(Openness, NoveltyOfCount(count), reward, mood, verb) != 0.0
  {
    var novelty := NoveltyOfCount(count);
    var bias := TraitBias(verb, Openness);
    KnownVerbBias(Openness);
    if verb !in {"moku", "lon", "tawa"} {
      UnknownVerbNoBias(verb, Openness);
    }
    assert bias == 0.2 || bias == 0.0;
    if count >= 5 {
      assert novelty == 1.0;
    } else {
      assert novelty == count as real / 5.0;
      assert count as real != 2.5 && count as real * 6.0 != 5.0;
    }
  }

  /** The pre-clamp value of a trait: its delta step plus the restoring pull toward the baseline. */
  function Adjusted(current: real, baseline: real, delta: real, pace: real, pull: real): (adjusted: real)
    ensures current == baseline ==> adjusted == current + pace * delta
    ensures delta == 0.0 && current == baseline ==> adjusted == current
    ensures pace == 0.0 ==> adjusted == current
  {
    current + pace * delta - pace * pull * (current - baseline)
  }

  /** One trait after a tick: the adjusted value clamped to [0, 1]. */
  function Drift(current: real, baseline: real, delta: real, pace: real, pull: real): (next: real)
    ensures 0.0 <= next <= 1.0
    ensures 0.0 <= Adjusted(current, baseline, delta, pace, pull) <= 1.0 ==> next == Adjusted(current, baseline, delta, pace, pull)
  {
    Clamp(Adjusted(current, baseline, delta, pace, pull), 0.0, 1.0)
  }

  /**
   * The restoring pull: with a zero delta and 0 < pace*pull <= 1, an in-range
   * trait stays at the baseline or moves toward it without overshooting.
   */
  lemma DriftTowardBaseline(current: real, baseline: real, pace: real, pull: real)
    requires 0.0 <= current <= 1.0 && 0.0 <= baseline <= 1.0
    requires 0.0 < pace * pull <= 1.0
    ensures current == baseline ==> Drift(current, baseline, 0.0, pace, pull) == current
    ensures baseline < current ==> baseline <= Drift(current, baseline, 0.0, pace, pull) < current
    ensures current < baseline ==> current < Drift(current, baseline, 0.0, pace, pull) <= baseline
  {
    var k := pace * pull;
    assert Adjusted(current, baseline, 0.0, pace, pull) == current - k * (current - baseline);
    PullLandsBetween(current, baseline, k);
  }

  /** Moving `current` by the fraction `k` in (0, 1] of its gap to `baseline` lands between the two. */
  lemma PullLandsBetween(current: real, baseline: real, k: real)
    requires 0.0 <= current <= 1.0 && 0.0 <= baseline <= 1.0
    requires 0.0 < k <= 1.0
    ensures current == baseline ==> Clamp(current - k * (current - baseline), 0.0, 1.0) == current
    ensures baseline < current ==> baseline <= Clamp(current - k * (current - baseline), 0.0, 1.0) < current
    ensures current < baseline ==> current < Clamp(current - k * (current - baseline), 0.0, 1.0) <= baseline
  {
    var gap := current - baseline;
    var shift := k * gap;
    if gap > 0.0 {
      assert 0.0 < shift;
      assert shift <= gap by {
        assert (1.0 - k) * gap >= 0.0;
      }
    } else if gap < 0.0 {
      assert shift < 0.0;
      assert gap <= shift by {
        assert (1.0 - k) * gap <= 0.0;
      }
    }
    assert current - k * (current - baseline) == current - shift;
  }

  /** Every trait of a personality after one tick of development. */
  function Evolve(current: Traits, baseline: Traits, pace: real, pull: real,
                  novelty: real, reward: real, mood: real, verb: string): (next: Traits)
    ensures next.InUnitRange()
    ensures forall t :: (next.Get(t) ==
      Drift(current.Get(t), baseline.Get(t), TraitDelta(t, novelty, reward, mood, verb), pace, pull))
  {
    Traits(
      Drift(current.openness, baseline.openness, TraitDelta(Openness, novelty, reward, mood, verb), pace, pull),
      Drift(current.conscientiousness, baseline.conscientiousness,
            TraitDelta(Conscientiousness, novelty, reward, mood, verb), pace, pull),
      Drift(current.extraversion, baseline.extraversion, TraitDelta(Extraversion, novelty, reward, mood, verb), pace, pull),
      Drift(current.agreeableness, baseline.agreeableness, TraitDelta(Agreeableness, novelty, reward, mood, verb), pace, pull),
      Drift(current.neuroticism, baseline.neuroticism, TraitDelta(Neuroticism, novelty, reward, mood, verb), pace, pull))
  }

  /**
   * A resting tick (no reward, no mood, no action, no objects) from the
   * baseline itself: four traits stay where they are, while openness is
   * pushed down by pace*0.3 (then clamped), because zero novelty gives it a
   * delta of -0.3. The baseline is therefore not a fixed point of the rule.
   */
  lemma RestingTickFromBaseline(baseline: Traits, pace: real, pull: real)
    requires baseline.InUnitRange()
    ensures var next := Evolve(baseline, baseline, pace, pull, NoveltyOfCount(0), 0.0, 0.0, ActionVerb([]));
      next.conscientiousness == baseline.conscientiousness &&
      next.extraversion == baseline.extraversion &&
      next.agreeableness == baseline.agreeableness &&
      next.neuroticism == baseline.neuroticism &&
      next.openness == Clamp(baseline.openness - pace * 0.3, 0.0, 1.0)
  {
    RestingDeltas(0.0, 0.0);
    assert baseline.Get(Conscientiousness) == baseline.conscientiousness;
    assert baseline.Get(Extraversion) == baseline.extraversion;
    assert baseline.Get(Agreeableness) == baseline.agreeableness;
    assert baseline.Get(Neuroticism) == baseline.neuroticism;
    assert TraitDelta(Openness, 0.0, 0.0, 0.0, "") == -0.3 by {
      UnknownVerbNoBias("", Openness);
    }
  }

  /** The traits ranked below `i` taken from `done`, the rest from `pending`. */
  function Blend(done: Traits, pending: Traits, i: nat): Traits
  {
    Traits(
      if 0 < i then done.openness else pending.openness,
      if 1 < i then done.conscientiousness else pending.conscientiousness,
      if 2 < i then done.extraversion else pending.extraversion,
      if 3 < i then done.agreeableness else pending.agreeableness,
      if 4 < i then done.neuroticism else pending.neuroticism)
  }

  /** Trait `i` is still pending in `Blend(.., i)`; replacing it with its `done` value gives `Blend(.., i + 1)`. */
  lemma BlendAt(done: Traits, pending: Traits, i: nat)
    requires i < |TraitOrder|
    ensures Blend(done, pending, i).Get(TraitOrder[i]) == pending.Get(TraitOrder[i])
    ensures Blend(done, pending, i).With(TraitOrder[i], done.Get(TraitOrder[i])) == Blend(done, pending, i + 1)
  {
  }

  class PersonalityDevelopment {
    var pace: real
    var baselinePull: real
    var baseline: Option<Traits>

    constructor (pace: real, baselinePull: real, baseline: Option<Traits>)
      ensures this.pace == pace && this.baselinePull == baselinePull && this.baseline == baseline
    {
      this.pace := pace;
      this.baselinePull := baselinePull;
      this.baseline := baseline;
    }

    /** On the first call, snapshots the personality as the baseline; afterwards does nothing. */
    method EnsureBaseline(personality: Personality)
      modifies this`baseline
      ensures baseline == if old(baseline).None? then Some(personality.Snapshot()) else old(baseline)
    {
      if baseline.None? {
        baseline := Some(personality.Snapshot());
      }
    }

    /** Evolves the supplied personality in place and returns it. */
    method Update(personality: Personality, perception: Perception, action: seq<string>, reward: real, mood: real)
      returns (r: Personality)
      modifies this`baseline, personality
      ensures r == personality
      ensures pace == old(pace) && baselinePull == old(baselinePull)
      ensures baseline == if old(baseline).None? then Some(old(personality.Snapshot())) else old(baseline)
      ensures personality.Snapshot() ==
        Evolve(old(personality.Snapshot()), baseline.value, pace, baselinePull,
               Novelty(perception), reward, mood, ActionVerb(action))
      ensures personality.Snapshot().InUnitRange()
    {
      EnsureBaseline(personality);
      var base := baseline.value;
      var novelty := Novelty(perception);
      var verb := ActionVerb(action);
      ghost var before := personality.Snapshot();
      ghost var target := Evolve(before, base, pace, baselinePull, novelty, reward, mood, verb);
      for i := 0 to |TraitOrder|
        invariant personality.Snapshot() == Blend(target, before, i)
        invariant baseline == Some(base)
      {
        var tr := TraitOrder[i];
        var delta := TraitDelta(tr, novelty, reward, mood, verb);
        BlendAt(target, before, i);
        var current := personality.Get(tr);
        var baselineValue := base.Get(tr);
        var adjusted := Adjusted(current, baselineValue, delta, pace, baselinePull);
        personality.Set(tr, Clamp(adjusted, 0.0, 1.0));
      }
      r := personality;
    }
  }
}
