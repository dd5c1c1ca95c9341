# Kama Sona agent: one cognitive tick, in Dafny

This project models the core of Kama Sona. Kama Sona is a single agent in a
2D toy world that perceives, decides, speaks a Toki Pona sentence and moves.
The model covers:

- **Grammar**: the lexicon, the validator for "subject [li] verb [e object]"
  and "o verb ..." sentences, and the canonicaliser that inserts "li" and "e".
- **Personality**: the five Big Five traits. They are one mutable object that
  the mind and the ego share and that the development rule changes in place.
  The placeholder chooser returns the first candidate.
- **Emotion**: a mood clamped to [-1, 1] and moved by rewards.
- **Development**: the slow drift of the traits. The baseline is captured on
  the first call. Linear deltas come from novelty, the split reward, the mood
  and a per-verb bias. A restoring pull draws each trait toward the baseline,
  then the trait is clamped to [0, 1].
- **Mind**: the subconscious (the identity `process` and an append-only
  experience log) and the superego (norm weights keyed by the space-joined
  action, with entries that drop to 0 or below removed). Also the ego (action
  choice and utterance), the reward rule, and `decide`, which runs one tick
  through all of them in the source's order.
- **Agent and adapter**: the perception they build and the position change
  each action verb causes, clamped to the world.

Python floats are modelled as `real`. Lists are `seq` and dicts are `map`. The
perception dictionary is a datatype whose fields may be absent, because the
code reads it with `.get` defaults. Objects that the code updates in place are
classes: `Personality`, `Emotion`, `PersonalityDevelopment`, `Subconscious`,
`Superego`, `Mind`, `Agent` and `Environment`. Each method states its new
state in terms of the old one through a pure function, and lemmas prove
properties of that function. `TokiPonaGrammar` has no state, so its methods
are module-level functions.

Notes on the code's behaviour:

- The chooser is neither weighted nor random: it always takes the first
  candidate, so the ego picks `["tawa"]` on every tick (`Minds.EgoModel.Generate`).
- `get_norms` returns the live dictionary. The model returns a map value.
- A resting tick (no objects, no reward, no action, mood 0) from the baseline
  changes openness: zero novelty gives it a delta of -0.3, and the other four
  traits stay put (`Development.RestingTickFromBaseline`).
- The docstring at personality.py:6 gives each trait the range 0-1. Nothing
  checks that at construction; only a development step clamps the traits.
- The validator accepts any tokens after the verb of an "o" command and after
  the object word of a statement.

## Model

| member | source | states |
|---|---|---|
| `Common.Clamp` | personality_development.py:18-19 | The result lies in [minimum, maximum]. An in-range value is returned unchanged, a value below is raised to the minimum, and a value above is lowered to the maximum. |
| `World.SunlightOf` | mind.py:130 | The perceived sunlight, or 0.0 when the perception has no "sunlight". |
| `World.ObjectCount` | personality_development.py:54 | The number of perceived objects, or 0 when "objects" is missing. |
| `World.Environment.constructor` | environment.py:62-73 | A new world has full sunlight, a static object at (200, 0) and a movable one at (400, 100). |
| `Grammar.LexiconClasses` | grammar.py:23-26 | The lexicon has 3 subjects, 5 verbs, 4 object words and 5 particles. The four word classes are pairwise disjoint, so "li", "e" and "o" are particles and never verbs or object words. mi and sina are subjects and jan is the only subject that needs "li". |
| `Grammar.Validate` | grammar.py:38-46 | The empty sequence is rejected. A sequence starting with "o" is accepted exactly when a second token exists and is a verb. |
| `Grammar.ValidateComplete` | grammar.py:47-68 | Every well-formed sentence passes the validator. A well-formed sentence is a subject, "li" unless the subject is mi/sina, a verb, and optionally "e" and an object word. |
| `Grammar.ValidateSound` | grammar.py:28-68 | Everything the validator accepts renders from some well-formed command or statement. Together with ValidateComplete, the validator accepts exactly the grammar's sentences. |
| `Grammar.Canonicalise` | grammar.py:70-91 | Keeps the first token and adds at most one token. |
| `Grammar.CanonicaliseShape` | grammar.py:77-91 | Empty and "o"-initial input is unchanged. "li" is inserted after a subject other than mi/sina when it is missing. "e" is inserted after the verb only for mi/sina subjects with a verb and an object word. Every other input is unchanged. |
| `Grammar.CanonicaliseKeepsTokens` | grammar.py:82-91 | The input is an ordered subsequence of its canonical form. |
| `Grammar.CanonicaliseIdempotent` | grammar.py:70-91 | Canonicalising twice gives the same result as canonicalising once. |
| `Grammar.CanonicalisePairValid` | grammar.py:82-87 | For every subject s and verb v, the canonical form of [s, v] is valid. |
| `Grammar.CanonicaliseExamples` | grammar.py:82-90 | [mi, tawa] is unchanged and [jan, tawa] becomes [jan, li, tawa]. [mi, moku, kili] becomes [mi, moku, e, kili], but [jan, moku, kili] becomes [jan, li, moku, kili], which the validator rejects. |
| `Grammar.CanonicaliseCorrected` | grammar.py:85-90 | Keeps the first token and adds at most two tokens ("li" and "e"). |
| `Grammar.CorrectedAgreesOnPersonal` | grammar.py:85-90 | On empty, "o"-initial and mi/sina-initial input, the corrected canonicaliser equals the original. |
| `Grammar.CorrectedYieldsValid` | grammar.py:85-90 | With the correction, [s, v] and [s, v, o] become valid sentences for every subject, verb and object word. |
| `Grammar.DefaultSentence` | grammar.py:93-95 | The default sentence is valid and already canonical. |
| `Personalities.Personality.constructor` | personality.py:14-22 | The five trait values are stored exactly as given, with no range check. |
| `Personalities.Personality.Get` | personality_development.py:95-96 | Reading a trait by name gives that trait's current value in the personality's snapshot. |
| `Personalities.Personality.Set` | personality_development.py:98 | Setting one trait changes it alone. The other four keep their values. |
| `Personalities.Personality.InfluenceAction` | personality.py:24-33 | Returns the first candidate when there is one, and [] otherwise. The result is always [] or one of the candidates. It reads no trait and changes nothing. |
| `Personalities.InfluenceActionIgnoresTraits` | personality.py:24-33 | Two personalities choose the same action from the same candidates, whatever their traits and moods. |
| `Personalities.Personality.CallInfluenceAction` | personality.py:24 | A call with extra positional arguments raises TypeError. A call without them returns the chooser's result. |
| `Personalities.EgoCallRaises` | mind.py:83 | The call that passes (candidates, mood) raises TypeError for every candidate list and mood. |
| `Emotions.MoodAfter` | emotion.py:23-28 | The mood after a reward lies in [-1, 1] and equals mood + reward when that sum is in range. |
| `Emotions.MoodFollowsReward` | emotion.py:19-28 | From an in-range mood, a reward of 0 or more never lowers the mood, a reward of 0 or less never raises it, and a reward of 0 leaves it unchanged. |
| `Emotions.Emotion.constructor` | emotion.py:6-13 | Stores clamp(mood, -1, 1). |
| `Emotions.Emotion.Update` | emotion.py:15-28 | Sets mood to clamp(old mood + reward, -1, 1), so the mood is in [-1, 1] afterwards. |
| `Development.NoveltyOfCount` | personality_development.py:54 | min(1, n/5) lies in [0, 1]. It is 0 for no objects and 1 from five objects on. |
| `Development.Novelty` | personality_development.py:54 | The novelty of a perception lies in [0, 1] and is 0 when "objects" is missing. |
| `Development.ActionVerb` | personality_development.py:57 | The first action token, or "" for an empty action. |
| `Development.TraitBias` | personality_development.py:59-64 | A verb's bias for a trait lies in [0, 0.2]. It is non-zero only for moku, lon and tawa. |
| `Development.UnknownVerbNoBias` | personality_development.py:57-64 | A verb outside {moku, lon, tawa}, including the "" of an empty action, biases no trait. |
| `Development.KnownVerbBias` | personality_development.py:59-64 | moku adds 0.2 to openness, lon adds 0.1 to conscientiousness and tawa adds 0.2 to extraversion. Each adds nothing to the other traits. |
| `Development.TraitDelta` | personality_development.py:77-92 | For novelty in [0, 1] and reward and mood in [-1, 1], every trait's delta lies in [-0.4, 0.8]. |
| `Development.DeltaInputs` | personality_development.py:77-92 | Only the openness delta depends on the novelty and only the extraversion delta on the mood. The agreeableness and neuroticism deltas do not depend on the verb. |
| `Development.RewardSigns` | personality_development.py:90-91 | The neuroticism delta is 0 or more when reward is 0 or less, and 0 or less when reward is 0 or more. The agreeableness delta has the sign of the reward. |
| `Development.RestingDeltas` | personality_development.py:77-91 | With reward 0 and an empty action, the conscientiousness, agreeableness and neuroticism deltas are 0. The extraversion delta is 0 when the mood is 0 too. |
| `Development.OpennessDeltaNonZero` | personality_development.py:78 | For every whole object count, reward, mood and verb, the openness delta is not 0. |
| `Development.Adjusted` | personality_development.py:97 | At the baseline the pull vanishes and the value moves by pace·delta alone. A zero delta at the baseline, or a zero pace, leaves the trait where it is. |
| `Development.Drift` | personality_development.py:94-98 | A trait after one step lies in [0, 1]. It equals current + pace·delta − pace·pull·(current − baseline) whenever that value is in range. |
| `Development.DriftTowardBaseline` | personality_development.py:97 | Take a trait in [0, 1] with zero delta and 0 < pace·pull ≤ 1. If it equals the baseline, it stays. Otherwise it moves strictly toward the baseline without passing it. |
| `Development.Evolve` | personality_development.py:77-98 | All five traits lie in [0, 1] afterwards. Each trait is the drift of its current value toward its baseline value, using that trait's delta. |
| `Development.RestingTickFromBaseline` | personality_development.py:54-98 | From the baseline with no objects, reward, mood or action, four traits stay put. Openness becomes clamp(openness − 0.3·pace). |
| `Development.PersonalityDevelopment.constructor` | personality_development.py:22-28 | Stores pace, pull and the optional baseline. |
| `Development.PersonalityDevelopment.EnsureBaseline` | personality_development.py:30-38 | Snapshots the personality as the baseline when none exists. Otherwise it changes nothing. |
| `Development.PersonalityDevelopment.Update` | personality_development.py:40-100 | Returns the same Personality it mutated. Pace and pull are unchanged. The baseline is captured on the first call and then never changes. The traits become Evolve of the old traits, the baseline, the novelty, the reward, the mood and the action verb, so each lies in [0, 1]. |
| `Minds.Subconscious.constructor` | mind.py:25-27 | The experience log starts empty. |
| `Minds.Subconscious.Process` | mind.py:29-35 | Returns its argument unchanged. |
| `Minds.Subconscious.Record` | mind.py:37-39 | Appends exactly one (perception, sentence, action, reward) entry at the end. Earlier entries are untouched. |
| `Minds.Join` | mind.py:58 | An empty action gives the key "". A one-token action gives the token itself. |
| `Minds.JoinInjective` | mind.py:58 | Over non-empty words without spaces, two actions with the same key are equal, so different actions never share a norm. |
| `Minds.Reinforce` | mind.py:58-62 | The key's weight becomes old weight (0 if absent) + reward and is removed when that is 0 or less. No other key changes. All-positive weights stay all-positive. |
| `Minds.Superego.constructor` | mind.py:45-46 | The norm table starts empty, so every stored weight is positive. |
| `Minds.Superego.GetNorms` | mind.py:48-49 | Returns the norm table's keys and weights as a value. |
| `Minds.Superego.Update` | mind.py:51-62 | The table becomes Reinforce(old table, join(action), reward). This preserves "every stored weight is > 0". |
| `Minds.UtteranceVerb` | mind.py:86 | The action's first token, or "lon" for an empty action. |
| `Minds.EgoModel.constructor` | mind.py:68-76 | Shares the given personality and sets the candidates to [[tawa], [lon], [moku]]. |
| `Minds.EgoModel.Generate` | mind.py:77-90 | The action is the chooser's pick from the candidates. The utterance is ["mi", v] with v the action's verb or "lon", and equals canonicalise(["mi", v]). The utterance is valid when v is a verb. With the fixed candidates the result is always (["mi","tawa"], ["tawa"]). |
| `Minds.Mind.constructor` | mind.py:96-107 | The ego shares the mind's personality. Log, norms and mood start empty or zero. Without a development object, a fresh one with pace 0.02, pull 0.15 and no baseline is created. |
| `Minds.Mind.EvaluateOutcome` | mind.py:124-136 | Returns -0.1 for an empty action, the sunlight (0.0 if absent) when the first token is "tawa", and 0.0 otherwise. |
| `Minds.Mind.Decide` | mind.py:109-122 | Returns the ego's pair for the pre-tick mood and norms. The same action and reward go to the mood, the development rule (with the post-update mood), the norms and the log. The log grows by exactly that entry. The mind's invariant is kept. |
| `Minds.SunnyFirstTick` | main.py:33-36 | A fresh mind with all traits at 0.5 says "mi tawa" and moves in full sunlight. Its mood becomes 1.0 and its norms become {"tawa": 1.0}. |
| `Agents.ActedX` | agent.py:50-63 | "tawa" gives min(width, x + 5), so x ≤ width afterwards. An empty action, "lon", "moku" or any other verb leaves x unchanged. |
| `Agents.Agent.constructor` | agent.py:23-31 | A new agent is at x = width/2, y = 0, with radius 10 and no last sentence. |
| `Agents.Agent.Perceive` | agent.py:33-41 | Returns (x, y), the environment's object states in order, and the environment's sunlight. |
| `Agents.Agent.Act` | agent.py:43-63 | x becomes ActedX(old x, width, tokens). y never changes. |
| `Agents.Agent.Update` | agent.py:65-74 | The agent acts on the action of the experience the mind just recorded, from the perception taken before the tick. It stores that sentence as its last sentence and returns it. |
| `Embodiment.AdaptedX` | embodiment.py:34-41 | "tawa" gives max(radius, min(width − radius, x + step)), so radius ≤ x, and x ≤ width − radius whenever radius ≤ width − radius. Anything else leaves x unchanged. |
| `Embodiment.EnvironmentAdapter.constructor` | embodiment.py:20-24 | Stores the step size. |
| `Embodiment.EnvironmentAdapter.Perceive` | embodiment.py:26-32 | Returns (agent.x, agent.y), the world's object states in order, and the sunlight. This is the agent's own perception when the world is the agent's. |
| `Embodiment.EnvironmentAdapter.ApplyAction` | embodiment.py:34-41 | agent.x becomes AdaptedX(old x, width, radius, step, tokens). agent.y is never touched. |

## Findings

| source | as written | input that shows it | evidently intended | confidence | as-written member | corrected member |
|---|---|---|---|---|---|---|
| mind.py:83 | `influence_action(self.action_candidates, mood)` calls a method declared at personality.py:24 with one parameter after `self` | any call of `decide`, with any perception and mood | the chooser accepts the mood as well, and as a placeholder ignores it | not executed; high | `Personalities.Personality.CallInfluenceAction` (shown by `Personalities.EgoCallRaises`) | `Personalities.Personality.InfluenceAction` |
| grammar.py:89 | the verb/object test reads `rest[0]` and `rest[1]` even after "li" has been put at `rest[0]`, so "e" is never inserted for a third-person subject | `["jan", "moku", "kili"]` becomes `["jan", "li", "moku", "kili"]`, which `validate` rejects | "e" goes after the verb that follows "li": `["jan", "li", "moku", "e", "kili"]` | not executed; medium | `Grammar.CanonicaliseExamples` (about `Grammar.Canonicalise`) | `Grammar.CanonicaliseCorrected` (proved by `Grammar.CorrectedYieldsValid`) |

The ego only ever canonicalises `["mi", v]`. There the code as written and the
correction agree (`Grammar.CorrectedAgreesOnPersonal`), so the ego calls
`Grammar.Canonicalise` as the code does, and its utterance is unaffected.

## Left out

- The `random` import in mind.py: it is unused, and the chooser is deterministic.
- World physics (gravity, ground collision, sine-driven sunlight) and `WorldObject`: floating-point and trigonometric numerics. The environment is a record of width, sunlight and object states.
- The pygame window, main loop and all rendering (`Agent.render`, the `color` field, the `render` methods of the world).
- IEEE floating point: every float is a `real`, and rounding, NaN and infinities are not modelled.
- The `dt` argument of `Agent.update` is accepted but, as in the code, unused.
- The live dictionary that `get_norms` returns: it is modelled as a map value. In Python a caller could write through it and bypass the eviction rule.
- The branch that returns when the baseline is still `None` right after it was ensured: it cannot be reached, and the model does not contain it.
- The `TokiPonaGrammar` object passed to `Mind` and `EgoModel`: it has no state, so the grammar is a module of functions and the constructors take no grammar.
- The TypeError the as-written call raises (see Findings): the tick is modelled with the corrected call, so the model's `decide` always completes.
- Development.PersonalityDevelopment.constructor: the baseline is stored as a value snapshot (`Option<Traits>`). In Python it is a `Personality` object that a caller may pass in, so an aliased baseline is not modelled. If a caller passed the live personality, the pull term would always be 0. If a caller later mutated the object, the anchor would move.
- Emotions.Emotion.constructor, Embodiment.EnvironmentAdapter.constructor: the default arguments `mood=0.0` (emotion.py:6) and `step_size=5.0` (embodiment.py:24) are not modelled. Both constructors take the value explicitly, and the mind passes 0.0 for the mood.
- Size bounds on the experience log and the norm table: the code has none.
- Agents.Agent.Update: states the recorded experience, the move, the position and the returned sentence. The mood, traits and norms after the tick are stated by Minds.Mind.Decide, which it calls, and are not repeated.
