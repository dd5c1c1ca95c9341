/**
 * The cognitive layers of the agent: the subconscious (experience log), the
 * superego (reinforced norms), the ego (action choice and utterance) and the
 * mind that runs one tick through all of them.
 */
module Minds {
  import opened Common
  import opened World
  import Grammar
  import opened Personalities
  import opened Emotions
  import opened Development

  /** One recorded tick: what was perceived, said and done, and the reward it earned. */
  datatype Experience = Experience(perception: Perception, sentence: seq<string>, action: seq<string>, reward: real)

  class Subconscious {
    var memory: seq<Experience>

    constructor ()
      ensures memory == []
    {
      memory := [];
    }

    /** The latent state of a perception: for now, the perception itself. */
    function Process(perception: Perception): (latent: Perception)
      ensures latent == perception
    {
      perception
    }

    /** Appends one experience at the end of the log; earlier entries are untouched. */
    method Record(perception: Perception, sentence: seq<string>, action: seq<string>, reward: real)
      modifies this
      ensures memory == old(memory) + [Experience(perception, sentence, action, reward)]
    {
      memory := memory + [Experience(perception, sentence, action, reward)];
    }
  }

  /** `" ".join(tokens)`: the tokens separated by single spaces; no tokens give "". */
  function Join(tokens: seq<string>): (key: string)
    ensures tokens == [] ==> key == ""
    ensures |tokens| == 1 ==> key == tokens[0]
  {
    if tokens == [] then ""
    else if |tokens| == 1 then tokens[0]
    else tokens[0] + " " + Join(tokens[1..])
  }

  /** A non-empty token without spaces, as every word of the lexicon is. */
  predicate IsWord(w: string)
  {
    w != [] && ' ' !in w
  }

  predicate AllWords(tokens: seq<string>)
  {
    forall i :: 0 <= i < |tokens| ==> IsWord(tokens[i])
  }

  /** A joined key starts with the first word, followed by a space exactly when more words follow. */
  lemma JoinStartsWithFirst(tokens: seq<string>)
    requires tokens != [] && AllWords(tokens)
    ensures |Join(tokens)| >= |tokens[0]| > 0 && Join(tokens)[..|tokens[0]|] == tokens[0]
    ensures |tokens| == 1 ==> |Join(tokens)| == |tokens[0]|
    ensures |tokens| > 1 ==> |Join(tokens)| > |tokens[0]| && Join(tokens)[|tokens[0]|] == ' '
  {
    if |tokens| > 1 {
      assert Join(tokens) == tokens[0] + " " + Join(tokens[1..]);
      assert (tokens[0] + " " + Join(tokens[1..]))[..|tokens[0]|] == tokens[0];
    }
  }

  /** Over space-free words, different actions never share a norm key. */
  lemma {:induction false} JoinInjective(a: seq<string>, b: seq<string>)
    requires AllWords(a) && AllWords(b)
    requires Join(a) == Join(b)
    ensures a == b
    decreases |a|
  {
    var j := Join(a);
    if a == [] || b == [] {
      if a != [] {
        JoinStartsWithFirst(a);
      }
      if b != [] {
        JoinStartsWithFirst(b);
      }
    } else {
      JoinStartsWithFirst(a);
      JoinStartsWithFirst(b);
      var n, m := |a[0]|, |b[0]|;
      assert n == m;
      assert a[0] == b[0];
      if |a| > 1 && |b| > 1 {
        assert j == a[0] + " " + Join(a[1..]);
        assert j == b[0] + " " + Join(b[1..]);
        assert Join(a[1..]) == j[n + 1..] == Join(b[1..]);
        JoinInjective(a[1..], b[1..]);
        assert a == [a[0]] + a[1..] && b == [b[0]] + b[1..];
      }
    }
  }

  /** Every stored norm weight is positive. */
  predicate AllPositive(rules: map<string, real>)
  {
    forall key :: key in rules ==> rules[key] > 0.0
  }

  /**
   * The norm table after reinforcing `key` by `reward`: its weight (0 if
   * absent) plus the reward, and the entry is dropped when that is <= 0.
   */
  function Reinforce(rules: map<string, real>, key: string, reward: real): (r: map<string, real>)
    ensures var w := (if key in rules then rules[key] else 0.0) + reward;
      (key in r <==> w > 0.0) && (key in r ==> r[key] == w)
    ensures forall k :: k != key ==> (k in r <==> k in rules) && (k in r ==> r[k] == rules[k])
    ensures AllPositive(rules) ==> AllPositive(r)
  {
    var w := (if key in rules then rules[key] else 0.0) + reward;
    if w <= 0.0 then rules - {key} else rules[key := w]
  }

  class Superego {
    var rules: map<string, real>

    constructor ()
      ensures rules == map[]
      ensures AllPositive(rules)
    {
      rules := map[];
    }

    /** The norms as a value: a caller cannot reach the table through it. */
    function GetNorms(): (norms: map<string, real>)
      reads this
      ensures norms.Keys == rules.Keys && forall k :: k in norms ==> norms[k] == rules[k]
      ensures AllPositive(rules) ==> AllPositive(norms)
    {
      rules
    }

    /** Adds the reward to the weight of the joined action, evicting it when the result is <= 0. */
    method Update(action: seq<string>, reward: real)
      modifies this
      ensures rules == Reinforce(old(rules), Join(action), reward)
      ensures old(AllPositive(rules)) ==> AllPositive(rules)
    {
      var key := Join(action);
      rules := rules[key := (if key in rules then rules[key] else 0.0) + reward];
      if rules[key] <= 0.0 {
        rules := rules - {key};
      }
    }
  }

  /** The actions the ego chooses from, in order. */
  const DefaultCandidates: seq<seq<string>> := [["tawa"], ["lon"], ["moku"]]

  /** The verb of the utterance: the action's first token, or "lon" when there is no action. */
  function UtteranceVerb(action: seq<string>): (verb: string)
    ensures action != [] ==> verb == action[0]
    ensures action == [] ==> verb == "lon"
  {
    if action != [] then action[0] else "lon"
  }

  class EgoModel {
    const personality: Personality
    const actionCandidates: seq<seq<string>>

    constructor (personality: Personality)
      ensures this.personality == personality
      ensures actionCandidates == DefaultCandidates
    {
      this.personality := personality;
      actionCandidates := DefaultCandidates;
    }

    /**
     * Chooses an action and describes it as "mi VERB". The latent state and
     * the norms are accepted but not used. The utterance and the action come
     * from the same choice.
     */
    function Generate(latent: Perception, norms: map<string, real>, mood: real): (result: (seq<string>, seq<string>))
      ensures result.1 == personality.InfluenceAction(actionCandidates, mood)
      ensures result.1 == [] || result.1 in actionCandidates
      ensures result.0 == Grammar.Canonicalise(["mi", UtteranceVerb(result.1)])
      ensures result.0 == ["mi", UtteranceVerb(result.1)]
      ensures UtteranceVerb(result.1) in Grammar.Verbs ==> Grammar.Validate(result.0)
      ensures actionCandidates == DefaultCandidates ==> result == (["mi", "tawa"], ["tawa"])
    {
      var action := personality.InfluenceAction(actionCandidates, mood);
      var subject := "mi";
      var verb := if action != [] then action[0] else "lon";
      Grammar.CanonicaliseShape([subject, verb]);
      var tokens := Grammar.Canonicalise([subject, verb]);
      (tokens, action)
    }
  }

  class Mind {
    const subconscious: Subconscious
    const emotion: Emotion
    const superego: Superego
    const personality: Personality
    const ego: EgoModel
    const development: PersonalityDevelopment

    /** The ego shares the mind's personality, keeps the fixed candidates, and the norms and mood are in range. */
    ghost predicate Valid()
      reads this, superego, emotion
    {
      ego.personality == personality &&
      ego.actionCandidates == DefaultCandidates &&
      AllPositive(superego.rules) &&
      -1.0 <= emotion.mood <= 1.0
    }

    /** A mind over the given personality; without a development object, one with pace 0.02 and pull 0.15. */
    constructor (personality: Personality, development: Option<PersonalityDevelopment>)
      ensures Valid()
      ensures this.personality == personality
      ensures subconscious.memory == [] && superego.rules == map[] && emotion.mood == 0.0
      ensures fresh(subconscious) && fresh(emotion) && fresh(superego) && fresh(ego)
      ensures development.None? ==> fresh(this.development)
      ensures development.Some? ==> this.development == development.value
      ensures development.None? ==>
        this.development.pace == 0.02 && this.development.baselinePull == 0.15 && this.development.baseline == None
    {
      subconscious := new Subconscious();
      emotion := new Emotion(0.0);
      superego := new Superego();
      this.personality := personality;
      ego := new EgoModel(personality);
      if development.Some? {
        this.development := development.value;
      } else {
        this.development := new PersonalityDevelopment(0.02, 0.15, None);
      }
    }

    /** The reward rule: -0.1 for no action, the sunlight (0.0 if unknown) for "tawa", 0.0 otherwise. */
    function EvaluateOutcome(perception: Perception, action: seq<string>): (reward: real)
      ensures action == [] ==> reward == -0.1
      ensures action != [] && action[0] == "tawa" ==> reward == SunlightOf(perception)
      ensures action != [] && action[0] != "tawa" ==> reward == 0.0
    {
      var sunlight := SunlightOf(perception);
      if action == [] then -0.1
      else if action[0] == "tawa" then sunlight
      else 0.0
    }

    /**
     * One tick: process the perception, choose an action and an utterance,
     * evaluate the reward, then update mood, personality, norms and memory
     * with that same action and reward. Development sees the updated mood.
     */
    method Decide(perception: Perception) returns (sentence: seq<string>, action: seq<string>)
      requires Valid()
      modifies subconscious, emotion, superego, personality, development`baseline
      ensures Valid()
      ensures (sentence, action) == ego.Generate(perception, old(superego.rules), old(emotion.mood))
      ensures sentence == ["mi", "tawa"] && action == ["tawa"]
      ensures emotion.mood == MoodAfter(old(emotion.mood), EvaluateOutcome(perception, action))
      ensures development.baseline ==
        if old(development.baseline).None? then Some(old(personality.Snapshot())) else old(development.baseline)
      ensures personality.Snapshot() ==
        Evolve(old(personality.Snapshot()), development.baseline.value, development.pace, development.baselinePull,
               Novelty(perception), EvaluateOutcome(perception, action), emotion.mood, ActionVerb(action))
      ensures superego.rules == Reinforce(old(superego.rules), Join(action), EvaluateOutcome(perception, action))
      ensures subconscious.memory ==
        old(subconscious.memory) + [Experience(perception, sentence, action, EvaluateOutcome(perception, action))]
    {
      var latent := subconscious.Process(perception);
      var norms := superego.GetNorms();
      var generated := ego.Generate(latent, norms, emotion.mood);
      sentence, action := generated.0, generated.1;
      var reward := EvaluateOutcome(perception, action);
      emotion.Update(reward);
      var _ := development.Update(personality, perception, action, reward, emotion.mood);
      superego.Update(action, reward);
      subconscious.Record(perception, sentence, action, reward);
    }
  }

  /**
   * The first tick of a fresh mind with every trait at 0.5 under full
   * sunlight: the agent says "mi tawa", moves, earns the sunlight as reward,
   * and its mood rises from 0 to 1.
   */
  method SunnyFirstTick() returns (sentence: seq<string>, action: seq<string>, mood: real, norms: map<string, real>)
    ensures sentence == ["mi", "tawa"] && action == ["tawa"]
    ensures mood == 1.0
    ensures norms == map["tawa" := 1.0]
  {
    var personality := new Personality(0.5, 0.5, 0.5, 0.5, 0.5);
    var mind := new Mind(personality, None);
    var perception := Perception(Some((400.0, 0.0)), Some([]), Some(1.0));
    assert mind.Valid();
    sentence, action := mind.Decide(perception);
    assert mind.EvaluateOutcome(perception, action) == 1.0;
    mood := mind.emotion.mood;
    norms := mind.superego.rules;
  }
}
