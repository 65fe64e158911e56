/**
 * The keyword scoring of `give_recommendation` (bot.py:153-174): each keyword of a
 * fixed list scores one point when it occurs, as a substring, in any of the stored
 * answers. Answers are taken as already lower-cased.
 */
module Scoring {
  import opened PyStrings

  const TechWords: seq<string> :=
    ["программирование", "ml", "data", "инженер", "математика", "разработка", "python"]
  const ProductWords: seq<string> :=
    ["менеджмент", "бизнес", "стартап", "product", "маркетинг", "управление"]

  /** `w in a or w in b or ...` over the given answers. */
  predicate InAny(w: string, answers: seq<string>)
    decreases |answers|
  {
    answers != [] && (Contains(answers[0], w) || InAny(w, answers[1..]))
  }

  lemma {:induction false} InAnyIff(w: string, answers: seq<string>)
    ensures InAny(w, answers) <==> exists i :: 0 <= i < |answers| && Contains(answers[i], w)
    decreases |answers|
  {
    if answers != [] {
      InAnyIff(w, answers[1..]);
      assert forall i :: 1 <= i < |answers| ==> answers[1..][i - 1] == answers[i];
      if InAny(w, answers[1..]) {
        var i :| 0 <= i < |answers[1..]| && Contains(answers[1..][i], w);
        assert Contains(answers[i + 1], w);
      }
    }
  }

  lemma InAnyTwo(w: string, a: string, b: string)
    ensures InAny(w, [a, b]) <==> Contains(a, w) || Contains(b, w)
  {
    assert [a, b][0] == a && [a, b][1..] == [b];
    assert [b][0] == b && [b][1..] == [];
    assert !InAny(w, []);
    assert InAny(w, [b]) <==> Contains(b, w);
  }

  lemma InAnyThree(w: string, a: string, b: string, c: string)
    ensures InAny(w, [a, b, c]) <==> Contains(a, w) || Contains(b, w) || Contains(c, w)
  {
    assert [a, b, c][1..] == [b, c];
    InAnyTwo(w, b, c);
  }

  /** The number of keywords of `words` found in some answer. */
  function Hits(words: seq<string>, answers: seq<string>): (r: nat)
    ensures r <= |words|
    decreases |words|
  {
    if words == [] then 0
    else Hits(words[..|words| - 1], answers) + (if InAny(words[|words| - 1], answers) then 1 else 0)
  }

  /** `ai_score`: technical keywords in the background or the interest. */
  function TechScore(background: string, interest: string): (r: nat)
    ensures r <= 7
  {
    Hits(TechWords, [background, interest])
  }

  /** `ai_p_score`: product keywords in the background, the interest or the startup answer. */
  function ProductScore(background: string, interest: string, startup: string): (r: nat)
    ensures r <= 6
  {
    Hits(ProductWords, [background, interest, startup])
  }

  /** The two `for` loops of bot.py:159-164. */
  method Scores(background: string, interest: string, startup: string) returns (aiScore: nat, aiPScore: nat)
    ensures aiScore == TechScore(background, interest)
    ensures aiPScore == ProductScore(background, interest, startup)
  {
    aiScore := 0;
    for k := 0 to |TechWords|
      invariant aiScore == Hits(TechWords[..k], [background, interest])
    {
      var w := TechWords[k];
      assert TechWords[..k + 1][..k] == TechWords[..k];
      InAnyTwo(w, background, interest);
      if Contains(background, w) || Contains(interest, w) {
        aiScore := aiScore + 1;
      }
    }
    assert TechWords[..|TechWords|] == TechWords;
    aiPScore := 0;
    for k := 0 to |ProductWords|
      invariant aiPScore == Hits(ProductWords[..k], [background, interest, startup])
    {
      var w := ProductWords[k];
      assert ProductWords[..k + 1][..k] == ProductWords[..k];
      InAnyThree(w, background, interest, startup);
      if Contains(background, w) || Contains(interest, w) || Contains(startup, w) {
        aiPScore := aiPScore + 1;
      }
    }
    assert ProductWords[..|ProductWords|] == ProductWords;
  }

  /** The positions of the keywords that occur in some answer. */
  function Found(words: seq<string>, answers: seq<string>): set<nat> {
    set i: nat | i < |words| && InAny(words[i], answers)
  }

  /** Every keyword is counted at most once: the score is the number of distinct keyword positions found. */
  lemma {:induction false} HitsCountsKeywords(words: seq<string>, answers: seq<string>)
    ensures Hits(words, answers) == |Found(words, answers)|
    decreases |words|
  {
    if words != [] {
      var n := |words| - 1;
      HitsCountsKeywords(words[..n], answers);
      var before, after := Found(words[..n], answers), Found(words, answers);
      if InAny(words[n], answers) {
        assert after == before + {n};
      } else {
        assert after == before;
      }
    }
  }

  /** More answers never lower a score. */
  lemma {:induction false} HitsMonotone(words: seq<string>, answers: seq<string>, more: seq<string>)
    ensures Hits(words, answers) <= Hits(words, answers + more)
    decreases |words|
  {
    if words != [] {
      HitsMonotone(words[..|words| - 1], answers, more);
      var w := words[|words| - 1];
      InAnyIff(w, answers);
      InAnyIff(w, answers + more);
      if InAny(w, answers) {
        var i :| 0 <= i < |answers| && Contains(answers[i], w);
        assert (answers + more)[i] == answers[i];
      }
    }
  }

  /** The score depends only on which answers are given, not on their order or on repetitions. */
  lemma {:induction false} HitsSameAnswers(words: seq<string>, a: seq<string>, b: seq<string>)
    requires forall x :: x in a <==> x in b
    ensures Hits(words, a) == Hits(words, b)
    decreases |words|
  {
    if words != [] {
      HitsSameAnswers(words[..|words| - 1], a, b);
      var w := words[|words| - 1];
      InAnyIff(w, a);
      InAnyIff(w, b);
      if InAny(w, a) {
        var i :| 0 <= i < |a| && Contains(a[i], w);
        assert a[i] in b;
        var j :| 0 <= j < |b| && b[j] == a[i];
      }
      if InAny(w, b) {
        var j :| 0 <= j < |b| && Contains(b[j], w);
        assert b[j] in a;
        var i :| 0 <= i < |a| && a[i] == b[j];
      }
    }
  }

  /** Answers that contain no keyword at all score nothing. */
  lemma {:induction false} HitsNone(words: seq<string>, answers: seq<string>)
    requires forall i, j :: 0 <= i < |words| && 0 <= j < |answers| ==> !Contains(answers[j], words[i])
    ensures Hits(words, answers) == 0
    decreases |words|
  {
    if words != [] {
      HitsNone(words[..|words| - 1], answers);
      InAnyIff(words[|words| - 1], answers);
    }
  }

  /** The startup answer can only raise the product score. */
  lemma StartupOnlyRaisesProduct(background: string, interest: string, startup: string)
    ensures ProductScore(background, interest, "") <= ProductScore(background, interest, startup)
  {
    HitsMonotone(ProductWords, [background, interest], [""]);
    HitsMonotone(ProductWords, [background, interest], [startup]);
    assert [background, interest] + [""] == [background, interest, ""];
    assert [background, interest] + [startup] == [background, interest, startup];
    HitsNone(ProductWords, [""]);
    HitsSameAnswers(ProductWords, [background, interest, ""], [background, interest] + [""]);
    ProductEmptyAnswerIrrelevant(background, interest);
  }

  /** An empty startup answer scores exactly what the first two answers score. */
  lemma {:induction false} ProductEmptyAnswerIrrelevant(background: string, interest: string)
    ensures ProductScore(background, interest, "") == Hits(ProductWords, [background, interest])
  {
    EmptyAnswerIrrelevant(ProductWords, [background, interest]);
    assert [background, interest] + [""] == [background, interest, ""];
  }

  lemma {:induction false} EmptyAnswerIrrelevant(words: seq<string>, answers: seq<string>)
    requires forall i :: 0 <= i < |words| ==> words[i] != []
    ensures Hits(words, answers + [""]) == Hits(words, answers)
    decreases |words|
  {
    if words != [] {
      EmptyAnswerIrrelevant(words[..|words| - 1], answers);
      var w := words[|words| - 1];
      InAnyIff(w, answers);
      InAnyIff(w, answers + [""]);
      NotInEmpty(w);
      if InAny(w, answers + [""]) {
        var i :| 0 <= i < |answers + [""]| && Contains((answers + [""])[i], w);
        assert i < |answers| && (answers + [""])[i] == answers[i];
      }
      if InAny(w, answers) {
        var i :| 0 <= i < |answers| && Contains(answers[i], w);
        assert (answers + [""])[i] == answers[i];
      }
    }
  }

  /** Which branch of bot.py:166-174 is taken. */
  datatype Verdict = Technical | ProductFit | Tie

  function Decide(aiScore: nat, aiPScore: nat): (v: Verdict)
    ensures v == Technical <==> aiScore > aiPScore
    ensures v == ProductFit <==> aiPScore > aiScore
    ensures v == Tie <==> aiScore == aiPScore
  {
    if aiScore > aiPScore then Technical
    else if aiPScore > aiScore then ProductFit
    else Tie
  }

  /** Three empty answers give equal (zero) scores, hence the tie branch. */
  lemma NoAnswersTie()
    ensures TechScore("", "") == 0 && ProductScore("", "", "") == 0
    ensures Decide(TechScore("", ""), ProductScore("", "", "")) == Tie
  {
    forall i, j | 0 <= i < |TechWords| && 0 <= j < 2 ensures !Contains(["", ""][j], TechWords[i]) {
      NotInEmpty(TechWords[i]);
    }
    HitsNone(TechWords, ["", ""]);
    forall i, j | 0 <= i < |ProductWords| && 0 <= j < 3 ensures !Contains(["", "", ""][j], ProductWords[i]) {
      NotInEmpty(ProductWords[i]);
    }
    HitsNone(ProductWords, ["", "", ""]);
  }

  /** Containment is by substring: "ml" inside "html" is a technical hit. */
  lemma SubstringHit()
    ensures TechScore("html", "") >= 1
  {
    ContainsAt("html", "ml", 2);
    assert InAny("ml", ["html", ""]);
    assert TechWords[1] == "ml";
    HitsMonotone([], ["html", ""], []);
    HitAtLeastOne(TechWords, ["html", ""], 1);
  }

  /** A keyword found in some answer scores at least one point. */
  lemma {:induction false} HitAtLeastOne(words: seq<string>, answers: seq<string>, k: nat)
    requires k < |words| && InAny(words[k], answers)
    ensures Hits(words, answers) >= 1
    decreases |words|
  {
    if k < |words| - 1 {
      HitAtLeastOne(words[..|words| - 1], answers, k);
    }
  }

  /** No keyword found: no points. */
  lemma {:induction false} HitsZero(words: seq<string>, answers: seq<string>)
    requires forall i :: 0 <= i < |words| ==> !InAny(words[i], answers)
    ensures Hits(words, answers) == 0
    decreases |words|
  {
    if words != [] {
      HitsZero(words[..|words| - 1], answers);
    }
  }

  /** Exactly one keyword found: one point. */
  lemma {:induction false} HitsOne(words: seq<string>, answers: seq<string>, k: nat)
    requires k < |words| && InAny(words[k], answers)
    requires forall i :: 0 <= i < |words| && i != k ==> !InAny(words[i], answers)
    ensures Hits(words, answers) == 1
    decreases |words|
  {
    var init := words[..|words| - 1];
    if k == |words| - 1 {
      HitsZero(init, answers);
    } else {
      HitsOne(init, answers, k);
    }
  }

  /**
   * The points of an answer followed by blank ones: the keyword `k` (or none when
   * `k` is out of range) occurs in it, and every other keyword has a character,
   * at position `keys[i]`, that it lacks.
   */
  lemma {:induction false} FirstAnswerHits(words: seq<string>, answers: seq<string>, keys: seq<nat>, k: int)
    requires answers != [] && forall j :: 1 <= j < |answers| ==> answers[j] == ""
    requires |keys| == |words|
    requires forall i :: 0 <= i < |words| && i != k ==> keys[i] < |words[i]| && words[i][keys[i]] !in answers[0]
    requires 0 <= k < |words| ==> Contains(answers[0], words[k])
    ensures Hits(words, answers) == if 0 <= k < |words| then 1 else 0
  {
    forall i | 0 <= i < |words| && i != k
      ensures !InAny(words[i], answers)
    {
      AbsentChar(answers[0], words[i], keys[i]);
      NotInEmpty(words[i]);
      assert forall j :: 0 <= j < |answers| ==> !Contains(answers[j], words[i]);
      InAnyIff(words[i], answers);
    }
    if 0 <= k < |words| {
      InAnyIff(words[k], answers);
      HitsOne(words, answers, k);
    } else {
      HitsZero(words, answers);
    }
  }

  /**
   * The points when keyword `k` (or none, when `k` is out of range) occurs in some
   * answer and every other keyword has, for each answer, a character at position
   * `keys[i][j]` that the answer lacks.
   */
  lemma {:induction false} HitsByWitnesses(words: seq<string>, answers: seq<string>, keys: seq<seq<nat>>, k: int)
    requires |keys| == |words|
    requires forall i :: 0 <= i < |words| && i != k ==> |keys[i]| == |answers|
    requires forall i, j :: 0 <= i < |words| && i != k && 0 <= j < |answers| ==>
               keys[i][j] < |words[i]| && words[i][keys[i][j]] !in answers[j]
    requires 0 <= k < |words| ==> InAny(words[k], answers)
    ensures Hits(words, answers) == if 0 <= k < |words| then 1 else 0
  {
    forall i | 0 <= i < |words| && i != k
      ensures !InAny(words[i], answers)
    {
      forall j | 0 <= j < |answers|
        ensures !Contains(answers[j], words[i])
      {
        AbsentChar(answers[j], words[i], keys[i][j]);
      }
      InAnyIff(words[i], answers);
    }
    if 0 <= k < |words| {
      HitsOne(words, answers, k);
    } else {
      HitsZero(words, answers);
    }
  }

  /** "программирование" is itself the first technical keyword, and each other one has a letter it lacks. */
  lemma {:induction false} ProgrammingTechHits(a: string)
    requires a == "программирование"
    ensures TechScore(a, "") == 1
  {
    ContainsAt(a, TechWords[0], 0);
    FirstAnswerHits(TechWords, [a, ""], [0, 0, 0, 2, 2, 2, 0], 0);
  }

  /** Each product keyword has a letter that "программирование" lacks. */
  lemma {:induction false} ProgrammingProductHits(a: string)
    requires a == "программирование"
    ensures ProductScore(a, "", "") == 0
  {
    FirstAnswerHits(ProductWords, [a, "", ""], [4, 0, 0, 0, 3, 0], -1);
  }

  /** A programming background alone recommends the technical program. */
  lemma ProgrammingIsTechnical()
    ensures TechScore("программирование", "") == 1 && ProductScore("программирование", "", "") == 0
    ensures Decide(TechScore("программирование", ""), ProductScore("программирование", "", "")) == Technical
  {
    ProgrammingTechHits("программирование");
    ProgrammingProductHits("программирование");
  }

  /** A startup answer alone recommends the product program. */
  lemma {:induction false} StartupIsProduct()
    ensures TechScore("", "") == 0 && ProductScore("", "", "стартап") == 1
    ensures Decide(TechScore("", ""), ProductScore("", "", "стартап")) == ProductFit
  {
    NoAnswersTie();
    StartupHits("стартап");
  }

  /** Of the product keywords only "стартап" occurs, in the startup answer. */
  lemma {:induction false} StartupHits(c: string)
    requires c == "стартап"
    ensures ProductScore("", "", c) == 1
  {
    ContainsAt(c, ProductWords[2], 0);
    InAnyThree(ProductWords[2], "", "", c);
    HitsByWitnesses(ProductWords, ["", "", c], [[0, 0, 0], [0, 0, 0], [], [0, 0, 0], [0, 0, 0], [0, 0, 0]], 2);
  }

  /** One point each way is a tie. */
  lemma {:induction false} OnePointEachTies()
    ensures TechScore("программирование", "") == 1 && ProductScore("программирование", "", "стартап") == 1
    ensures Decide(TechScore("программирование", ""), ProductScore("программирование", "", "стартап")) == Tie
  {
    ProgrammingTechHits("программирование");
    OnePointProduct("программирование", "стартап");
  }

  /** With a programming background too, "стартап" remains the only product keyword found. */
  lemma {:induction false} OnePointProduct(a: string, c: string)
    requires a == "программирование" && c == "стартап"
    ensures ProductScore(a, "", c) == 1
  {
    ContainsAt(c, ProductWords[2], 0);
    InAnyThree(ProductWords[2], a, "", c);
    HitsByWitnesses(ProductWords, [a, "", c], [[4, 0, 0], [0, 0, 0], [], [0, 0, 0], [3, 0, 0], [0, 0, 0]], 2);
  }
}
