/**
 * The bot's mutable state and its handlers (bot.py:21-24, 27-58, 62-77, 116-186,
 * 215-273): the per-user questionnaire state `USER_STATE`, the loaded program data
 * `PROGRAM_DATA`, and the replies sent so far. Messages reach the handlers already
 * lower-cased; the Telegram transport is left out.
 */
module Bot {
  import opened Wrappers
  import opened PyStrings
  import opened PyJson
  import opened Scoring
  import opened Query
  import opened Loader

  datatype Stage = Start | Question0 | Question1 | Question2 | Advised

  /** The `stage` strings stored in `USER_STATE`. */
  function StageName(s: Stage): string {
    match s
    case Start => "start"
    case Question0 => "question_0"
    case Question1 => "question_1"
    case Question2 => "question_2"
    case Advised => "advised"
  }

  const QuestionPrefix: string := "question_"

  predicate IsQuestion(s: Stage) {
    s == Question0 || s == Question1 || s == Question2
  }

  /** The questionnaire guard of bot.py:126 picks out exactly the three question stages. */
  lemma QuestionStages(s: Stage)
    ensures StartsWith(StageName(s), QuestionPrefix) <==> IsQuestion(s)
  {
    match s
    case Question0 => assert StageName(s)[..9] == QuestionPrefix;
    case Question1 => assert StageName(s)[..9] == QuestionPrefix;
    case Question2 => assert StageName(s)[..9] == QuestionPrefix;
    case Start =>
    case Advised =>
  }

  /** Position of a stage in the questionnaire. */
  function Rank(s: Stage): nat {
    match s
    case Start => 0
    case Question0 => 1
    case Question1 => 2
    case Question2 => 3
    case Advised => 4
  }

  /** One entry of `USER_STATE`: the stage and the answers stored so far. */
  datatype UserRecord = UserRecord(stage: Stage, background: Option<string>, interest: Option<string>,
                                   startup: Option<string>)

  /** `{"stage": name}` with no answers. */
  function Fresh(s: Stage): UserRecord {
    UserRecord(s, None, None, None)
  }

  /**
   * The answers fit the stage. After a failed recommendation the user stays at
   * question 2 with the startup answer already stored.
   */
  predicate Consistent(r: UserRecord) {
    match r.stage
    case Start => r.background.None? && r.interest.None? && r.startup.None?
    case Question0 => r.background.None? && r.interest.None? && r.startup.None?
    case Question1 => r.background.Some? && r.interest.None? && r.startup.None?
    case Question2 => r.background.Some? && r.interest.Some?
    case Advised => r.background.Some? && r.interest.Some? && r.startup.Some?
  }

  /** The replies of `give_recommendation` for a stored record, answers defaulting to "". */
  function RecommendationFor(r: UserRecord, programs: map<string, Json>, show: Json -> string): Outcome {
    var bg, interest, startup := r.background.GetOr(""), r.interest.GetOr(""), r.startup.GetOr("");
    Recommendation(Decide(TechScore(bg, interest), ProductScore(bg, interest, startup)), programs, show)
  }

  /**
   * One questionnaire message (bot.py:132-143): the new record and what was sent.
   * The stage moves one step forward unless the recommendation raised.
   */
  function Answer(r: UserRecord, text: string, programs: map<string, Json>, show: Json -> string): (res: (UserRecord, Outcome))
    requires IsQuestion(r.stage)
    ensures res.1.crash.None? ==> Rank(res.0.stage) == Rank(r.stage) + 1
    ensures res.1.crash.Some? ==> r.stage == Question2 && res.0.stage == Question2
    ensures Consistent(r) ==> Consistent(res.0)
    ensures r.stage == Question0 ==> res.0.background == Some(text) && res.0.interest == r.interest
                                     && res.0.startup == r.startup && res.1 == Outcome([AskInterest], None)
    ensures r.stage == Question1 ==> res.0.interest == Some(text) && res.0.background == r.background
                                     && res.0.startup == r.startup && res.1 == Outcome([AskStartup], None)
    ensures r.stage == Question2 ==> res.0.startup == Some(text) && res.0.background == r.background
                                     && res.0.interest == r.interest
                                     && res.1 == RecommendationFor(res.0, programs, show)
    ensures r.stage == Question2 && Consistent(r) ==>
              var (bg, interest) := (r.background.value, r.interest.value);
              res.1 == Recommendation(Decide(TechScore(bg, interest), ProductScore(bg, interest, text)), programs, show)
  {
    match r.stage
    case Question0 => (r.(background := Some(text), stage := Question1), Outcome([AskInterest], None))
    case Question1 => (r.(interest := Some(text), stage := Question2), Outcome([AskStartup], None))
    case Question2 =>
      var stored := r.(startup := Some(text));
      var o := RecommendationFor(stored, programs, show);
      (if o.crash.None? then stored.(stage := Advised) else stored, o)
  }

  /** Three answers after /recommend end in `advised` with all three stored, unless the recommendation raised. */
  lemma {:induction false} WholeQuestionnaire(a: string, b: string, c: string, programs: map<string, Json>,
                                              show: Json -> string)
    ensures var r1 := Answer(Fresh(Question0), a, programs, show).0;
            var r2 := Answer(r1, b, programs, show).0;
            var (r3, o) := Answer(r2, c, programs, show);
            r3 == UserRecord(if o.crash.None? then Advised else Question2, Some(a), Some(b), Some(c))
            && o == Recommendation(Decide(TechScore(a, b), ProductScore(a, b, c)), programs, show)
  {
    var r1 := Answer(Fresh(Question0), a, programs, show).0;
    assert r1 == UserRecord(Question1, Some(a), None, None);
    var r2 := Answer(r1, b, programs, show).0;
    assert r2 == UserRecord(Question2, Some(a), Some(b), None);
  }

  /** Equal answers for both programs, e.g. three empty ones, give only the tie message and no course list. */
  lemma {:induction false} TieSendsOnlyTieMessage(r: UserRecord, text: string, programs: map<string, Json>,
                                                  show: Json -> string)
    requires r.stage == Question2
    requires var bg, interest := r.background.GetOr(""), r.interest.GetOr("");
             TechScore(bg, interest) == ProductScore(bg, interest, text)
    ensures Answer(r, text, programs, show) ==
            (r.(startup := Some(text), stage := Advised), Outcome([BothFit], None))
  {
  }

  class Bot {
    /** `USER_STATE` */
    var users: map<int, UserRecord>
    /** `PROGRAM_DATA` */
    var programs: map<string, Json>
    /** Every reply sent, in order. */
    var sent: seq<Reply>
    /** Python's `str()` of the values the replies display. */
    const show: Json -> string

    predicate Valid()
      reads this
    {
      forall u :: u in users ==> Consistent(users[u])
    }

    constructor(show: Json -> string)
      ensures Valid() && users == map[] && programs == map[] && sent == [] && this.show == show
    {
      users := map[];
      programs := map[];
      sent := [];
      this.show := show;
    }

    /** The questionnaire handler's guard (bot.py:126). */
    predicate InQuestionnaire(user: int)
      reads this
    {
      user in users && StartsWith(StageName(users[user].stage), QuestionPrefix)
    }

    /** /start (bot.py:63-77): the user's state becomes `{stage: start}`. */
    method Start(user: int)
      requires Valid()
      modifies this
      ensures Valid()
      ensures users == old(users)[user := Fresh(Stage.Start)]
      ensures sent == old(sent) + [Welcome] && programs == old(programs)
    {
      users := users[user := Fresh(Stage.Start)];
      sent := sent + [Welcome];
    }

    /** /recommend (bot.py:117-122): earlier answers are discarded and the questionnaire starts over. */
    method Recommend(user: int)
      requires Valid()
      modifies this
      ensures Valid()
      ensures users == old(users)[user := Fresh(Question0)]
      ensures sent == old(sent) + [AskBackground, AnswerOnce] && programs == old(programs)
    {
      users := users[user := Fresh(Question0)];
      sent := sent + [AskBackground];
      sent := sent + [AnswerOnce];
    }

    /** `give_recommendation` (bot.py:146-186): the two scoring loops, then the verdict replies. */
    method GiveRecommendation(user: int) returns (crash: Option<Crash>)
      requires user in users
      modifies this
      ensures users == old(users) && programs == old(programs)
      ensures sent == old(sent) + RecommendationFor(users[user], programs, show).replies
      ensures crash == RecommendationFor(users[user], programs, show).crash
    {
      var r := users[user];
      var bg, interest, startup := r.background.GetOr(""), r.interest.GetOr(""), r.startup.GetOr("");
      var aiScore, aiPScore := Scores(bg, interest, startup);
      var o := Recommendation(Decide(aiScore, aiPScore), programs, show);
      sent := sent + o.replies;
      crash := o.crash;
    }

    /** `handle_questionnaire` (bot.py:127-143): only the sender's entry changes. */
    method HandleQuestionnaire(user: int, text: string) returns (crash: Option<Crash>)
      requires Valid() && InQuestionnaire(user)
      modifies this
      ensures Valid()
      ensures old(users[user].stage) == Question0 || old(users[user].stage) == Question1
              || old(users[user].stage) == Question2
      ensures users == old(users)[user := Answer(old(users[user]), text, programs, show).0]
      ensures sent == old(sent) + Answer(old(users[user]), text, programs, show).1.replies
      ensures crash == Answer(old(users[user]), text, programs, show).1.crash
      ensures programs == old(programs)
      ensures old(users[user].stage) == Question2 ==>
                var (bg, interest) := (old(users[user]).background.value, old(users[user]).interest.value);
                sent == old(sent) + Recommendation(Decide(TechScore(bg, interest), ProductScore(bg, interest, text)),
                                                   programs, show).replies
    {
      QuestionStages(users[user].stage);
      var r := users[user];
      if r.stage == Question0 {
        users := users[user := users[user].(background := Some(text))];
        sent := sent + [AskInterest];
        users := users[user := users[user].(stage := Question1)];
        crash := None;
      } else if r.stage == Question1 {
        users := users[user := users[user].(interest := Some(text))];
        sent := sent + [AskStartup];
        users := users[user := users[user].(stage := Question2)];
        crash := None;
      } else {
        users := users[user := users[user].(startup := Some(text))];
        crash := GiveRecommendation(user);
        if crash.None? {
          users := users[user := users[user].(stage := Advised)];
        }
      }
    }

    /** `handle_query` with the corrections listed under Findings. */
    method HandleQuery(text: string) returns (crash: Option<Crash>)
      modifies this
      ensures users == old(users) && programs == old(programs)
      ensures sent == old(sent) + HandleQueryFixed(text, programs, show).replies
      ensures crash == HandleQueryFixed(text, programs, show).crash
    {
      var o := HandleQueryFixed(text, programs, show);
      sent := sent + o.replies;
      crash := o.crash;
    }

    /** A text message: the questionnaire when the guard holds, the free-text handler otherwise. */
    method OnText(user: int, text: string) returns (crash: Option<Crash>)
      requires Valid()
      modifies this
      ensures Valid() && programs == old(programs)
      ensures old(InQuestionnaire(user)) ==>
                users == old(users)[user := Answer(old(users[user]), text, programs, show).0]
      ensures !old(InQuestionnaire(user)) ==>
                users == old(users) && sent == old(sent) + HandleQueryFixed(text, programs, show).replies
    {
      if InQuestionnaire(user) {
        crash := HandleQuestionnaire(user, text);
      } else {
        crash := HandleQuery(text);
      }
    }

    /**
     * `load_all_programs` (bot.py:27-58) over the directory listing. A missing
     * directory raises before anything changes.
     */
    method LoadAllPrograms(dirExists: bool, entries: Listing) returns (found: bool, loaded: nat)
      requires Valid()
      modifies this
      ensures Valid() && users == old(users) && sent == old(sent)
      ensures found == dirExists
      ensures !dirExists ==> programs == old(programs) && loaded == 0
      ensures dirExists ==> programs == Loaded(entries) && loaded == LoadedCount(entries)
    {
      if !dirExists {
        return false, 0;
      }
      found := true;
      programs := map[];
      loaded := 0;
      for i := 0 to |entries|
        invariant programs == Loaded(entries[..i]) && loaded == LoadedCount(entries[..i])
        invariant users == old(users) && sent == old(sent)
      {
        assert entries[..i + 1][..i] == entries[..i];
        var (name, parsed) := entries[i];
        if EndsWith(name, JsonSuffix) && parsed.Some? {
          var key := JsonKey(name);
          programs := programs[key := parsed.value];
          loaded := loaded + 1;
        }
      }
      assert entries[..|entries|] == entries;
    }
  }
}
