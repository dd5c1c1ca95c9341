/**
 * A minimal Toki Pona grammar: a small lexicon, a validator for
 * "subject [li] verb [e object]" sentences and "o verb ..." commands, and a
 * canonicaliser that inserts the particles "li" and "e".
 */
module Grammar {
  import opened Common

  const Subjects: set<string> := {"mi", "sina", "jan"}
  const Verbs: set<string> := {"tawa", "moku", "lon", "lukin", "sona"}
  const Objects: set<string> := {"kili", "ma", "tomo", "supa"}
  const Particles: set<string> := {"li", "e", "o", "la", "pi"}

  /** First- and second-person subjects, which take the verb without "li". */
  const Personal: set<string> := {"mi", "sina"}

  /**
   * The lexicon's word classes do not overlap, so every known word has one
   * category; in particular the particles "li", "e" and "o" are neither
   * verbs nor object words, and the subjects without "li" are subjects.
   */
  lemma LexiconClasses()
    ensures Subjects !! Verbs && Subjects !! Objects && Subjects !! Particles
    ensures Verbs !! Objects && Verbs !! Particles && Objects !! Particles
    ensures Personal <= Subjects && "jan" in Subjects - Personal
    ensures "li" in Particles && "e" in Particles && "o" in Particles
    ensures |Subjects| == 3 && |Verbs| == 5 && |Objects| == 4 && |Particles| == 5
  {
  }

  /** The validator: walks the tokens with an index, as the declarative rule reads them. */
  function Validate(tokens: seq<string>): (ok: bool)
    ensures tokens == [] ==> !ok
    ensures tokens != [] && tokens[0] == "o" ==> (ok <==> |tokens| >= 2 && tokens[1] in Verbs)
  {
    if tokens == [] then false
    else if tokens[0] == "o" then |tokens| >= 2 && tokens[1] in Verbs
    else if tokens[0] !in Subjects then false
    else if tokens[0] !in Personal && (|tokens| < 2 || tokens[1] != "li") then false
    else
      var idx := if tokens[0] in Personal then 1 else 2;
      if idx >= |tokens| || tokens[idx] !in Verbs then false
      else if idx + 1 < |tokens| then
        tokens[idx + 1] == "e" && idx + 2 < |tokens| && tokens[idx + 2] in Objects
      else true
  }

  /**
   * The sentences the grammar describes, independently of the validator:
   * a command "o VERB ..." (anything may follow the verb), or a statement
   * "SUBJECT [li] VERB [e OBJECT ...]" (anything may follow the object word).
   */
  datatype Sentence =
    | Command(verb: string, tail: seq<string>)
    | Statement(subject: string, verb: string, complement: Option<string>, tail: seq<string>)

  predicate WellFormed(s: Sentence)
  {
    match s
    case Command(v, _) => v in Verbs
    case Statement(subj, v, obj, tail) =>
      subj in Subjects && v in Verbs &&
      (obj.None? ==> tail == []) &&
      (obj.Some? ==> obj.value in Objects)
  }

  /** The token sequence of a sentence; "li" follows every subject but "mi" and "sina". */
  function Render(s: Sentence): seq<string>
  {
    match s
    case Command(v, tail) => ["o", v] + tail
    case Statement(subj, v, obj, tail) =>
      [subj] + (if subj in Personal then [] else ["li"]) + [v] +
      (if obj.Some? then ["e", obj.value] + tail else [])
  }

  /** Every well-formed sentence passes the validator. */
  lemma ValidateComplete(s: Sentence)
    requires WellFormed(s)
    ensures Validate(Render(s))
  {
    var t := Render(s);
    match s
    case Command(v, tail) =>
      assert t[0] == "o" && t[1] == v;
    case Statement(subj, v, obj, tail) =>
      var lead := if subj in Personal then 1 else 2;
      assert t[0] == subj;
      assert subj !in Personal ==> t[1] == "li";
      assert t[lead] == v;
      if obj.Some? {
        assert t[lead + 1] == "e" && t[lead + 2] == obj.value;
      } else {
        assert |t| == lead + 1;
      }
  }

  /** Everything the validator accepts is a well-formed sentence. */
  lemma ValidateSound(tokens: seq<string>)
    requires Validate(tokens)
    ensures exists s :: WellFormed(s) && Render(s) == tokens
  {
    if tokens[0] == "o" {
      var s := Command(tokens[1], tokens[2..]);
      assert Render(s) == tokens;
    } else {
      var subj := tokens[0];
      var lead := if subj in Personal then 1 else 2;
      assert subj !in Personal ==> tokens[1] == "li";
      assert tokens[..lead] == [subj] + (if subj in Personal then [] else ["li"]);
      if lead + 1 < |tokens| {
        var s := Statement(subj, tokens[lead], Some(tokens[lead + 2]), tokens[lead + 3..]);
        assert tokens == tokens[..lead] + [tokens[lead]] + ["e", tokens[lead + 2]] + tokens[lead + 3..];
        assert WellFormed(s) && Render(s) == tokens;
      } else {
        var s := Statement(subj, tokens[lead], None, []);
        assert tokens == tokens[..lead] + [tokens[lead]];
        assert WellFormed(s) && Render(s) == tokens;
      }
    }
  }

  /**
   * The canonicaliser as written: "li" is inserted after a subject other than
   * "mi"/"sina" when it is missing; then "e" is inserted between a verb and an
   * object word, looking only at the first two tokens after the subject.
   */
  function Canonicalise(tokens: seq<string>): (r: seq<string>)
    ensures |tokens| <= |r| <= |tokens| + 1
    ensures tokens != [] ==> r[0] == tokens[0]
  {
    if tokens == [] then tokens
    else if tokens[0] == "o" then tokens
    else
      var subject := tokens[0];
      var rest := tokens[1..];
      var rest := if subject !in Personal && (rest == [] || rest[0] != "li") then ["li"] + rest else rest;
      var rest := if |rest| >= 2 && rest[1] in Objects && rest[0] in Verbs then [rest[0], "e"] + rest[1..] else rest;
      [subject] + rest
  }

  /** Canonicalising either leaves the tokens alone or inserts one "li" after the subject or one "e" after the verb. */
  lemma CanonicaliseShape(tokens: seq<string>)
    ensures tokens == [] || tokens[0] == "o" ==> Canonicalise(tokens) == tokens
    ensures tokens != [] && tokens[0] != "o" && tokens[0] !in Personal && (|tokens| < 2 || tokens[1] != "li") ==>
      Canonicalise(tokens) == tokens[..1] + ["li"] + tokens[1..]
    ensures tokens != [] && tokens[0] !in Personal && |tokens| >= 2 && tokens[1] == "li" ==>
      Canonicalise(tokens) == tokens
    ensures tokens != [] && tokens[0] in Personal && |tokens| >= 3 && tokens[1] in Verbs && tokens[2] in Objects ==>
      Canonicalise(tokens) == tokens[..2] + ["e"] + tokens[2..]
    ensures tokens != [] && tokens[0] in Personal && !(|tokens| >= 3 && tokens[1] in Verbs && tokens[2] in Objects) ==>
      Canonicalise(tokens) == tokens
  {
    if tokens != [] && tokens[0] != "o" {
      var rest := tokens[1..];
      if tokens[0] !in Personal && (rest == [] || rest[0] != "li") {
        assert (["li"] + rest)[0] !in Verbs;
      }
      if tokens[0] in Personal && |tokens| >= 3 && tokens[1] in Verbs && tokens[2] in Objects {
        assert [tokens[0]] + ([rest[0], "e"] + rest[1..]) == tokens[..2] + ["e"] + tokens[2..];
      }
    }
  }

  /** `a` can be obtained from `b` by deleting tokens: `b` keeps every token of `a`, in order. */
  predicate IsSubsequence(a: seq<string>, b: seq<string>)
    decreases |b|
  {
    a == [] || (b != [] && ((a[0] == b[0] && IsSubsequence(a[1..], b[1..])) || IsSubsequence(a, b[1..])))
  }

  lemma {:induction false} SubsequenceReflexive(a: seq<string>)
    ensures IsSubsequence(a, a)
    decreases |a|
  {
    if a != [] {
      SubsequenceReflexive(a[1..]);
    }
  }

  lemma {:induction false} InsertKeepsSubsequence(u: seq<string>, x: string, v: seq<string>)
    ensures IsSubsequence(u + v, u + [x] + v)
    decreases |u|
  {
    var a, b := u + v, u + [x] + v;
    if u == [] {
      SubsequenceReflexive(v);
      assert a == v && b[1..] == v;
    } else {
      InsertKeepsSubsequence(u[1..], x, v);
      assert a[0] == b[0];
      assert a[1..] == u[1..] + v;
      assert b[1..] == u[1..] + [x] + v;
    }
  }

  /** The canonical form keeps every input token, in order. */
  lemma CanonicaliseKeepsTokens(tokens: seq<string>)
    ensures IsSubsequence(tokens, Canonicalise(tokens))
  {
    CanonicaliseShape(tokens);
    var c := Canonicalise(tokens);
    if c == tokens {
      SubsequenceReflexive(tokens);
    } else if tokens[0] !in Personal {
      InsertKeepsSubsequence(tokens[..1], "li", tokens[1..]);
      assert tokens[..1] + tokens[1..] == tokens;
    } else {
      InsertKeepsSubsequence(tokens[..2], "e", tokens[2..]);
      assert tokens[..2] + tokens[2..] == tokens;
    }
  }

  /** Canonicalising twice is the same as canonicalising once. */
  lemma CanonicaliseIdempotent(tokens: seq<string>)
    ensures Canonicalise(Canonicalise(tokens)) == Canonicalise(tokens)
  {
    CanonicaliseShape(tokens);
    var c := Canonicalise(tokens);
    CanonicaliseShape(c);
    if c != tokens {
      if tokens[0] !in Personal {
        assert c[1] == "li";
      } else {
        assert c[2] == "e";
        assert c[2] !in Objects;
      }
    }
  }

  /** A subject followed by a verb canonicalises to a sentence the validator accepts. */
  lemma CanonicalisePairValid(subject: string, verb: string)
    requires subject in Subjects && verb in Verbs
    ensures Validate(Canonicalise([subject, verb]))
  {
    CanonicaliseShape([subject, verb]);
    if subject in Personal {
      assert Canonicalise([subject, verb]) == [subject, verb];
    } else {
      assert Canonicalise([subject, verb]) == [subject, "li", verb];
    }
  }

  /** The worked examples: "li" for third-person subjects, "e" only when no "li" precedes. */
  lemma CanonicaliseExamples()
    ensures Canonicalise(["mi", "tawa"]) == ["mi", "tawa"]
    ensures Canonicalise(["jan", "tawa"]) == ["jan", "li", "tawa"]
    ensures Canonicalise(["mi", "moku", "kili"]) == ["mi", "moku", "e", "kili"]
    ensures Canonicalise(["jan", "moku", "kili"]) == ["jan", "li", "moku", "kili"]
    ensures !Validate(["jan", "li", "moku", "kili"])
  {
    CanonicaliseShape(["jan", "tawa"]);
    CanonicaliseShape(["mi", "moku", "kili"]);
    CanonicaliseShape(["jan", "moku", "kili"]);
  }

  /**
   * The canonicaliser with the object marker looked for after "li" as well:
   * the verb sits at `rest[0]` after "mi"/"sina" and at `rest[1]` after "li".
   */
  function CanonicaliseCorrected(tokens: seq<string>): (r: seq<string>)
    ensures |tokens| <= |r| <= |tokens| + 2
    ensures tokens != [] ==> r[0] == tokens[0]
  {
    if tokens == [] then tokens
    else if tokens[0] == "o" then tokens
    else
      var subject := tokens[0];
      var rest := tokens[1..];
      var rest := if subject !in Personal && (rest == [] || rest[0] != "li") then ["li"] + rest else rest;
      var lead := if subject in Personal then 0 else 1;
      var rest :=
        if |rest| >= lead + 2 && rest[lead + 1] in Objects && rest[lead] in Verbs
        then rest[..lead + 1] + ["e"] + rest[lead + 1..]
        else rest;
      [subject] + rest
  }

  /** The correction only changes sentences whose subject needs "li". */
  lemma CorrectedAgreesOnPersonal(tokens: seq<string>)
    requires tokens == [] || tokens[0] == "o" || tokens[0] in Personal
    ensures CanonicaliseCorrected(tokens) == Canonicalise(tokens)
  {
    if tokens != [] && tokens[0] in Personal {
      var rest := tokens[1..];
      if |rest| >= 2 && rest[1] in Objects && rest[0] in Verbs {
        assert rest[..1] + ["e"] + rest[1..] == [rest[0], "e"] + rest[1..];
      }
    }
  }

  /** With the correction, every subject-verb and subject-verb-object triple becomes a valid sentence. */
  lemma CorrectedYieldsValid(subject: string, verb: string, noun: string)
    requires subject in Subjects && verb in Verbs && noun in Objects
    ensures Validate(CanonicaliseCorrected([subject, verb]))
    ensures Validate(CanonicaliseCorrected([subject, verb, noun]))
  {
    if subject in Personal {
      assert CanonicaliseCorrected([subject, verb]) == [subject, verb];
      assert CanonicaliseCorrected([subject, verb, noun]) == [subject, verb, "e", noun];
    } else {
      assert CanonicaliseCorrected([subject, verb]) == [subject, "li", verb];
      assert CanonicaliseCorrected([subject, verb, noun]) == [subject, "li", verb, "e", noun];
    }
  }

  /** The default utterance, "mi sona" ("I know"), is a valid sentence. */
  function DefaultSentence(): (r: seq<string>)
    ensures Validate(r)
    ensures Canonicalise(r) == r
  {
    ["mi", "sona"]
  }
}
