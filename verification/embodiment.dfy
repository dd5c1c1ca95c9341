/** The adapter between a mind-bearing agent and the built-in 2D world. */
module Embodiment {
  import opened Common
  import opened World
  import opened Agents

  /**
   * The agent's x after the adapter applies an action: "tawa" steps right by
   * `stepSize` and is kept `radius` away from both walls; anything else stays.
   */
  function AdaptedX(x: real, width: int, radius: int, stepSize: real, tokens: seq<string>): (nx: real)
    ensures tokens == [] || tokens[0] != "tawa" ==> nx == x
    ensures tokens != [] && tokens[0] == "tawa" ==> radius as real <= nx
    ensures tokens != [] && tokens[0] == "tawa" && radius <= width - radius ==> nx <= (width - radius) as real
    ensures tokens != [] && tokens[0] == "tawa" && radius as real <= x + stepSize <= (width - radius) as real ==>
      nx == x + stepSize
  {
    if tokens == [] then x
    else if tokens[0] == "tawa" then Max(radius as real, Min((width - radius) as real, x + stepSize))
    else x
  }

  class EnvironmentAdapter {
    const stepSize: real

    constructor (stepSize: real)
      ensures this.stepSize == stepSize
    {
      this.stepSize := stepSize;
    }

    /** The same perception the agent builds for itself, taken from the given world. */
    function Perceive(env: Environment, agent: Agent): (perception: Perception)
      reads env, agent
      ensures perception.position == Some((agent.x, agent.y))
      ensures perception.objects == Some(env.objects) && SunlightOf(perception) == env.sunlight
      ensures env == agent.env ==> perception == agent.Perceive()
    {
      Perception(Some((agent.x, agent.y)), Some(env.objects), Some(env.sunlight))
    }

    /** Applies an action to the agent's position; only "tawa" moves it, and only along x. */
    method ApplyAction(env: Environment, agent: Agent, tokens: seq<string>)
      modifies agent`x
      ensures agent.x == AdaptedX(old(agent.x), env.width, agent.radius, stepSize, tokens)
      ensures agent.y == old(agent.y)
    {
      if tokens == [] {
        return;
      }
      var verb := tokens[0];
      if verb == "tawa" {
        agent.x := Max(agent.radius as real, Min((env.width - agent.radius) as real, agent.x + stepSize));
      } else if verb == "lon" {
      }
    }
  }
}
