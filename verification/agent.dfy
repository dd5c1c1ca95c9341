/** The embodied agent: a position in the world, a mind, and the movement each action verb causes. */
module Agents {
  import opened Common
  import opened World
  import opened Minds

  /** The agent's x after acting: "tawa" moves 5 to the right, capped at the world width; anything else stays. */
  function ActedX(x: real, width: int, tokens: seq<string>): (nx: real)
    ensures tokens == [] || tokens[0] != "tawa" ==> nx == x
    ensures tokens != [] && tokens[0] == "tawa" ==> nx <= width as real && nx <= x + 5.0
    ensures tokens != [] && tokens[0] == "tawa" && x + 5.0 <= width as real ==> nx == x + 5.0
    ensures tokens != [] && tokens[0] == "tawa" && x + 5.0 > width as real ==> nx == width as real
  {
    if tokens == [] then x
    else if tokens[0] == "tawa" then Min(width as real, x + 5.0)
    else x
  }

  class Agent {
    const env: Environment
    const mind: Mind
    var x: real
    var y: real
    const radius: int
    var lastSentence: Option<seq<string>>

    /** A new agent stands at the middle of the world's width, on the ground, having said nothing. */
    constructor (env: Environment, mind: Mind)
      ensures this.env == env && this.mind == mind
      ensures x == env.width as real / 2.0 && y == 0.0
      ensures radius == 10
      ensures lastSentence == None
    {
      this.env := env;
      this.mind := mind;
      x := env.width as real / 2.0;
      y := 0.0;
      radius := 10;
      lastSentence := None;
    }

    /** The perception: the agent's position, every object's state in order, and the sunlight. */
    function Perceive(): (perception: Perception)
      reads this, env
      ensures perception.position == Some((x, y))
      ensures perception.objects == Some(env.objects) && ObjectCount(perception) == |env.objects|
      ensures SunlightOf(perception) == env.sunlight
    {
      Perception(Some((x, y)), Some(env.objects), Some(env.sunlight))
    }

    /** Executes an action: only "tawa" moves, and only along x. */
    method Act(tokens: seq<string>)
      modifies this`x
      ensures x == ActedX(old(x), env.width, tokens)
      ensures y == old(y)
    {
      if tokens == [] {
        return;
      }
      var verb := tokens[0];
      if verb == "tawa" {
        x := Min(env.width as real, x + 5.0);
      } else if verb == "lon" {
      } else if verb == "moku" {
      }
    }

    /**
     * One agent tick: perceive, let the mind decide, act on the action the
     * mind recorded, and keep and return the sentence it recorded.
     */
    method Update(dt: real) returns (sentence: seq<string>)
      requires mind.Valid()
      modifies this`x, this`lastSentence
      modifies mind.subconscious, mind.emotion, mind.superego, mind.personality, mind.development`baseline
      ensures mind.Valid()
      ensures |mind.subconscious.memory| == |old(mind.subconscious.memory)| + 1
      ensures var e := mind.subconscious.memory[|mind.subconscious.memory| - 1];
        e.perception == old(Perceive()) && e.sentence == sentence &&
        x == ActedX(old(x), env.width, e.action)
      ensures y == old(y) && lastSentence == Some(sentence)
      ensures sentence == ["mi", "tawa"] && x == Min(env.width as real, old(x) + 5.0)
    {
      var perception := Perceive();
      var tokiSentence, actionTokens := mind.Decide(perception);
      Act(actionTokens);
      lastSentence := Some(tokiSentence);
      sentence := tokiSentence;
    }
  }
}
