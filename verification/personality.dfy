/**
 * The Big Five personality traits: a mutable record shared by the mind, the
 * ego and the development rule, plus the ego's placeholder action chooser.
 */
module Personalities {

  datatype Trait = Openness | Conscientiousness | Extraversion | Agreeableness | Neuroticism

  /** The order in which the traits are declared (and in which development visits them). */
  const TraitOrder: seq<Trait> := [Openness, Conscientiousness, Extraversion, Agreeableness, Neuroticism]

  /** A frozen copy of the five trait values. */
  datatype Traits = Traits(
    openness: real,
    conscientiousness: real,
    extraversion: real,
    agreeableness: real,
    neuroticism: real)
  {
    function Get(t: Trait): real
    {
      match t
      case Openness => openness
      case Conscientiousness => conscientiousness
      case Extraversion => extraversion
      case Agreeableness => agreeableness
      case Neuroticism => neuroticism
    }

    /** The same record with one trait replaced. */
    function With(t: Trait, v: real): (r: Traits)
      ensures r.Get(t) == v
      ensures forall u :: u != t ==> r.Get(u) == Get(u)
    {
      match t
      case Openness => this.(openness := v)
      case Conscientiousness => this.(conscientiousness := v)
      case Extraversion => this.(extraversion := v)
      case Agreeableness => this.(agreeableness := v)
      case Neuroticism => this.(neuroticism := v)
    }

    /** Every trait lies in the documented range [0, 1]. */
    predicate InUnitRange()
    {
      forall t :: 0.0 <= Get(t) <= 1.0
    }
  }

  /** The outcome of a Python call: the value it returned, or the TypeError raised while binding its arguments. */
  datatype CallResult = Returned(value: seq<string>) | TypeError

  class Personality {
    var openness: real
    var conscientiousness: real
    var extraversion: real
    var agreeableness: real
    var neuroticism: real

    /** The values are stored as given; the 0-1 range is documented, not enforced. */
    constructor (openness: real, conscientiousness: real, extraversion: real, agreeableness: real, neuroticism: real)
      ensures Snapshot() == Traits(openness, conscientiousness, extraversion, agreeableness, neuroticism)
    {
      this.openness := openness;
      this.conscientiousness := conscientiousness;
      this.extraversion := extraversion;
      this.agreeableness := agreeableness;
      this.neuroticism := neuroticism;
    }

    function Snapshot(): Traits
      reads this
    {
      Traits(openness, conscientiousness, extraversion, agreeableness, neuroticism)
    }

    /** `getattr(personality, trait)`. */
    function Get(t: Trait): (v: real)
      reads this
      ensures v == Snapshot().Get(t)
    {
      match t
      case Openness => openness
      case Conscientiousness => conscientiousness
      case Extraversion => extraversion
      case Agreeableness => agreeableness
      case Neuroticism => neuroticism
    }

    /** `setattr(personality, trait, v)`: one trait changes, the others keep their values. */
    method Set(t: Trait, v: real)
      modifies this
      ensures Snapshot() == old(Snapshot()).With(t, v)
    {
      match t
      case Openness => openness := v;
      case Conscientiousness => conscientiousness := v;
      case Extraversion => extraversion := v;
      case Agreeableness => agreeableness := v;
      case Neuroticism => neuroticism := v;
    }

    /**
     * The placeholder chooser: the first candidate, or no action when there is
     * none. It reads no trait (no reads clause) and changes nothing. The mood
     * is accepted and ignored, which is how the ego calls it.
     */
    function InfluenceAction(actions: seq<seq<string>>, mood: real): (action: seq<string>)
      ensures actions != [] ==> action == actions[0]
      ensures actions == [] ==> action == []
      ensures action == [] || action in actions
    {
      if actions != [] then actions[0] else []
    }

    /**
     * The chooser as declared, with a single parameter after `self`, bound
     * against a call that passes `extra` further positional arguments.
     */
    function CallInfluenceAction(actions: seq<seq<string>>, extra: seq<real>): (r: CallResult)
      ensures r.Returned? <==> extra == []
      ensures r.Returned? ==> r.value == InfluenceAction(actions, 0.0)
    {
      if extra != [] then TypeError
      else Returned(if actions != [] then actions[0] else [])
    }
  }

  /** The ego passes the mood as a second argument, so the call as written raises TypeError for every candidate list and mood. */
  lemma EgoCallRaises(p: Personality, actions: seq<seq<string>>, mood: real)
    ensures p.CallInfluenceAction(actions, [mood]) == TypeError
  {
  }

  /** The chosen action depends on neither the traits nor the mood. */
  lemma InfluenceActionIgnoresTraits(p: Personality, q: Personality, actions: seq<seq<string>>, m1: real, m2: real)
    ensures p.InfluenceAction(actions, m1) == q.InfluenceAction(actions, m2)
  {
  }
}
