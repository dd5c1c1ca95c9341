/** The agent's mood: a scalar in [-1, 1] moved by reward signals. */
module Emotions {
  import opened Common

  /** The mood after a reward: the sum, clamped to [-1, 1]. */
  function MoodAfter(mood: real, reward: real): (m: real)
    ensures -1.0 <= m <= 1.0
    ensures -1.0 <= mood + reward <= 1.0 ==> m == mood + reward
  {
    Clamp(mood + reward, -1.0, 1.0)
  }

  /** From an in-range mood, a non-negative reward never lowers it and a non-positive one never raises it. */
  lemma MoodFollowsReward(mood: real, reward: real)
    requires -1.0 <= mood <= 1.0
    ensures reward >= 0.0 ==> mood <= MoodAfter(mood, reward)
    ensures reward <= 0.0 ==> MoodAfter(mood, reward) <= mood
    ensures reward == 0.0 ==> MoodAfter(mood, reward) == mood
  {
  }

  class Emotion {
    var mood: real

    /** The initial mood is clamped to [-1, 1]. */
    constructor (mood: real)
      ensures this.mood == Clamp(mood, -1.0, 1.0)
      ensures -1.0 <= this.mood <= 1.0
    {
      this.mood := Max(-1.0, Min(1.0, mood));
    }

    /** Adds the reward to the mood, then clamps it to [-1, 1]. */
    method Update(reward: real)
      modifies this
      ensures mood == MoodAfter(old(mood), reward)
      ensures -1.0 <= mood <= 1.0
    {
      mood := mood + reward;
      if mood > 1.0 {
        mood := 1.0;
      } else if mood < -1.0 {
        mood := -1.0;
      }
    }
  }
}
