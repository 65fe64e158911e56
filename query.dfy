/**
 * The replies of the bot that depend only on the message text and the loaded
 * program data: the free-text handler `handle_query` (bot.py:216-273), the verdict
 * replies of `give_recommendation` (bot.py:166-186) and the course list of
 * `suggest_courses` (bot.py:189-211). Replies are events, not their Markdown text.
 */
module Query {
  import opened Wrappers
  import opened PyStrings
  import opened PyJson
  import opened Scoring
  import opened ScraperRecord

  datatype Reply =
    | Welcome                                    // the /start greeting
    | AskBackground | AnswerOnce                 // the two /recommend messages
    | AskInterest | AskStartup                   // the questionnaire's follow-up questions
    | Rejected | AskMoreDetail                   // the two replies to an off-topic message
    | NotUnderstood                              // no program named
    | UseCompare | UseRecommend
    | Team(title: string, members: seq<(string, string)>)
    | Manager(name: string)
    | ExamDates(dates: seq<string>)
    | Overview(title: string, lead: string, career: string, cost: string, plan: string)
    | WhichProgram
    | BothFit
    | Recommended(title: string, verdict: Verdict)
    | Courses(courses: seq<string>)

  /** Why a handler raised: `prog` never assigned, or program data of an unexpected shape. */
  datatype Crash = ProgUnbound | DataFault

  /** The replies sent before the handler returned or raised. */
  datatype Outcome = Outcome(replies: seq<Reply>, crash: Option<Crash>)

  const AiKey: string := "itmo_ai_parsed"
  const AiProductKey: string := "itmo_ai_product_parsed"

  const Allowed: seq<string> := [
    "искусственный интеллект", "ai", "product", "магистратура", "итмо",
    "управление", "управление ии", "поступить", "курсы", "карьера",
    "команда", "руководитель", "сравнить", "руковод", "срав", "выбрать",
    "менеджер", "экзамен", "дата", "даты"]

  /** `any(word in text for word in allowed)` */
  predicate OnTopic(text: string) {
    exists i :: 0 <= i < |Allowed| && Contains(text, Allowed[i])
  }

  /** `prog` after bot.py:230-235: never assigned, or `PROGRAM_DATA.get(key)`. */
  datatype Binding = Unbound | Bound(prog: Option<Json>)

  function Lookup(programs: map<string, Json>, key: string): Option<Json> {
    if key in programs then Some(programs[key]) else None
  }

  predicate NamesProduct(text: string) {
    Contains(text, "ai_product") || Contains(text, "ai product") || Contains(text, "управление ии")
  }

  predicate NamesAi(text: string) {
    Contains(text, "ai") || Contains(text, "искусственный интеллект")
  }

  function ChooseProgram(text: string, programs: map<string, Json>): (b: Binding)
    ensures NamesProduct(text) ==> b == Bound(Lookup(programs, AiProductKey))
    ensures !NamesProduct(text) && NamesAi(text) ==> b == Bound(Lookup(programs, AiKey))
    ensures b == Unbound <==> !NamesProduct(text) && !NamesAi(text)
  {
    if NamesProduct(text) then Bound(Lookup(programs, AiProductKey))
    else if NamesAi(text) then Bound(Lookup(programs, AiKey))
    else Unbound
  }

  /** The topic branches of bot.py:238-258, tried in this order, then the overview. */
  datatype Topic = CompareTopic | RecommendTopic | TeamTopic | ManagerTopic | DatesTopic | OverviewTopic

  predicate AsksCompare(text: string) {
    Contains(text, "сравн") || Contains(text, "сравнить") || Contains(text, "выбрать")
  }

  predicate AsksManager(text: string) {
    Contains(text, "руковод") || Contains(text, "руководитель") || Contains(text, "менеджер")
  }

  predicate AsksDates(text: string) {
    Contains(text, "поступить") || Contains(text, "экзамен") || Contains(text, "дата") || Contains(text, "даты")
  }

  function TopicOf(text: string): (t: Topic)
    ensures t == CompareTopic <==> AsksCompare(text)
    ensures t == RecommendTopic <==> !AsksCompare(text) && Contains(text, "рекоменд")
    ensures t == TeamTopic <==> !AsksCompare(text) && !Contains(text, "рекоменд") && Contains(text, "команда")
    ensures t == ManagerTopic <==>
              !AsksCompare(text) && !Contains(text, "рекоменд") && !Contains(text, "команда") && AsksManager(text)
    ensures t == DatesTopic <==>
              !AsksCompare(text) && !Contains(text, "рекоменд") && !Contains(text, "команда") && !AsksManager(text)
              && AsksDates(text)
  {
    if AsksCompare(text) then CompareTopic
    else if Contains(text, "рекоменд") then RecommendTopic
    else if Contains(text, "команда") then TeamTopic
    else if AsksManager(text) then ManagerTopic
    else if AsksDates(text) then DatesTopic
    else OverviewTopic
  }

  /** Whatever contains a keyword contains every prefix of it. */
  lemma KeywordPrefix(text: string, long: string, short: string)
    requires StartsWith(long, short) && Contains(text, long)
    ensures Contains(text, short)
  {
    ContainsAt(long, short, 0);
    ContainsTransitive(text, long, short);
  }

  /**
   * "сравнить" and "руководитель" contain a shorter keyword of their own test, so they
   * never decide anything. "ai_product" contains "ai", a keyword of the next test,
   * which is why the product test has to come before the AI test.
   */
  lemma RedundantKeywords(text: string)
    ensures Contains(text, "сравнить") ==> Contains(text, "сравн")
    ensures Contains(text, "руководитель") ==> Contains(text, "руковод")
    ensures Contains(text, "ai_product") ==> Contains(text, "ai")
  {
    if Contains(text, "сравнить") { KeywordPrefix(text, "сравнить", "сравн"); }
    if Contains(text, "руководитель") { KeywordPrefix(text, "руководитель", "руковод"); }
    if Contains(text, "ai_product") { KeywordPrefix(text, "ai_product", "ai"); }
  }

  /** `f"• {m['name']} — {m['position']}"`, as the pair of displayed values. */
  function TeamLine(show: Json -> string): Json -> Option<(string, string)> {
    m => (var name :- Subscript(m, "name");
          var position :- Subscript(m, "position");
          Some((Display(name, show), Display(position, show))))
  }

  /** `d.split("T")[0]`: only a string has `split`. */
  function DatePart(d: Json): Option<string> {
    match d
    case JString(s) => Some(FirstSegment(s, 'T'))
    case _ => None
  }

  /** bot.py:246-247: the first five team members, then the title. */
  function TeamReply(prog: Json, show: Json -> string): (r: Option<Reply>)
    ensures r.Some? ==> r.value.Team? && |r.value.members| <= 5
    ensures r.Some? ==> Subscript(prog, "team").Some? && Subscript(prog, "title").Some?
                        && r.value.title == Display(Subscript(prog, "title").value, show)
    ensures r.Some? && Subscript(prog, "team").value.JArray? ==>
              var xs := Subscript(prog, "team").value.items;
              |r.value.members| == (if |xs| <= 5 then |xs| else 5)
              && forall i :: 0 <= i < |r.value.members| ==> TeamLine(show)(xs[i]) == Some(r.value.members[i])
    ensures Subscript(prog, "team").Some? && Subscript(prog, "team").value.JArray? && Subscript(prog, "title").Some? ==>
              var xs := Subscript(prog, "team").value.items;
              (r.Some? <==> forall i :: 0 <= i < |xs| && i < 5 ==> TeamLine(show)(xs[i]).Some?)
  {
    var team :- Subscript(prog, "team");
    var firstFive :- Prefix(team, 5);
    var lines :- MapAll(firstFive, TeamLine(show));
    var title :- Subscript(prog, "title");
    Some(Team(Display(title, show), lines))
  }

  /** bot.py:251-252 as written: the manager is read from a `supervisor` key. */
  function ManagerReply(prog: Json, show: Json -> string): (r: Option<Reply>)
    ensures r.Some? <==> Subscript(prog, "supervisor").Some? && Subscript(prog, "supervisor").value.JObject?
                         && "name" in Subscript(prog, "supervisor").value.fields
    ensures r.Some? ==> r == Some(Manager(Display(prog.fields["supervisor"].fields["name"], show)))
  {
    var sup :- Subscript(prog, "supervisor");
    var name :- Subscript(sup, "name");
    Some(Manager(Display(name, show)))
  }

  /** bot.py:256-257: at most three dates, each cut at its first "T". */
  function DatesReply(prog: Json): (r: Option<Reply>)
    ensures r.Some? ==> r.value.ExamDates? && |r.value.dates| <= 3
    ensures r.Some? ==> forall i :: 0 <= i < |r.value.dates| ==> 'T' !in r.value.dates[i]
    ensures r.Some? && Subscript(prog, "exam_dates").Some? && Subscript(prog, "exam_dates").value.JArray? ==>
              var ds := Subscript(prog, "exam_dates").value.items;
              |r.value.dates| == (if |ds| <= 3 then |ds| else 3)
              && forall i :: 0 <= i < |r.value.dates| ==>
                   ds[i].JString? && r.value.dates[i] == FirstSegment(ds[i].s, 'T')
    ensures Subscript(prog, "exam_dates").Some? && Subscript(prog, "exam_dates").value.JArray? ==>
              var ds := Subscript(prog, "exam_dates").value.items;
              (r.Some? <==> forall i :: 0 <= i < |ds| && i < 3 ==> ds[i].JString?)
  {
    var dates :- Subscript(prog, "exam_dates");
    var firstThree :- Prefix(dates, 3);
    var parts :- MapAll(firstThree, DatePart);
    Some(ExamDates(parts))
  }

  /** bot.py:262-271 */
  function OverviewReply(prog: Json, show: Json -> string): (r: Option<Reply>)
    ensures r.Some? <==>
              prog.JObject? && "title" in prog.fields && "academic_plan_url" in prog.fields
              && "about" in prog.fields && prog.fields["about"].JObject? && "lead" in prog.fields["about"].fields
              && "career" in prog.fields && prog.fields["career"].JObject? && "text" in prog.fields["career"].fields
              && "education_cost" in prog.fields && prog.fields["education_cost"].JObject?
    ensures r.Some? ==> r.value.Overview? && r.value.title == Display(prog.fields["title"], show)
                        && r.value.plan == Display(prog.fields["academic_plan_url"], show)
  {
    var title :- Subscript(prog, "title");
    var about :- Subscript(prog, "about");
    var lead :- Subscript(about, "lead");
    var career :- Subscript(prog, "career");
    var text :- Subscript(career, "text");
    var costs :- Subscript(prog, "education_cost");
    var cost :- DictGet(costs, "russian", JString("—"));
    var plan :- Subscript(prog, "academic_plan_url");
    Some(Overview(Display(title, show), Display(lead, show), Display(text, show), Display(cost, show),
                  Display(plan, show)))
  }

  /** The reply of a topic that uses `prog`, once `if prog:` has passed. */
  function TopicReply(t: Topic, prog: Json, show: Json -> string, manager: (Json, Json -> string) -> Option<Reply>): Option<Reply> {
    match t
    case TeamTopic => TeamReply(prog, show)
    case ManagerTopic => manager(prog, show)
    case DatesTopic => DatesReply(prog)
    case _ => OverviewReply(prog, show)
  }

  /**
   * The body after the gate with `prog` bound. Team, manager and dates send nothing
   * when `prog` is falsy; the overview asks which program is meant.
   */
  function BoundReplies(t: Topic, prog: Option<Json>, show: Json -> string,
                        manager: (Json, Json -> string) -> Option<Reply>): (o: Outcome)
    requires t != CompareTopic && t != RecommendTopic
    ensures o.crash != Some(ProgUnbound)
    ensures |o.replies| <= 1
    ensures prog.None? || !Truthy(prog.value) ==> o == Outcome(if t == OverviewTopic then [WhichProgram] else [], None)
    ensures prog.Some? && Truthy(prog.value) ==>
              var reply := TopicReply(t, prog.value, show, manager);
              (reply.Some? ==> o == Outcome([reply.value], None)) && (reply.None? ==> o == Outcome([], Some(DataFault)))
  {
    if prog.None? || !Truthy(prog.value) then
      Outcome(if t == OverviewTopic then [WhichProgram] else [], None)
    else
      match TopicReply(t, prog.value, show, manager)
      case Some(r) => Outcome([r], None)
      case None => Outcome([], Some(DataFault))
  }

  /** `handle_query` as written (bot.py:216-273). */
  function HandleQuery(text: string, programs: map<string, Json>, show: Json -> string): (o: Outcome)
    ensures !OnTopic(text) ==> o == Outcome([Rejected, AskMoreDetail], None)
    ensures OnTopic(text) && AsksCompare(text) ==> o.crash.None? && |o.replies| >= 1 && o.replies[|o.replies| - 1] == UseCompare
    ensures OnTopic(text) && ChooseProgram(text, programs).Unbound? ==> |o.replies| >= 1 && o.replies[0] == NotUnderstood
    ensures (OnTopic(text) && ChooseProgram(text, programs).Unbound? && TopicOf(text) != CompareTopic
             && TopicOf(text) != RecommendTopic) ==> o == Outcome([NotUnderstood], Some(ProgUnbound))
    ensures ChooseProgram(text, programs).Bound? ==> o.crash != Some(ProgUnbound)
    ensures OnTopic(text) && (TopicOf(text) == CompareTopic || TopicOf(text) == RecommendTopic) ==>
              o == Outcome((if ChooseProgram(text, programs).Unbound? then [NotUnderstood] else [])
                           + [if TopicOf(text) == CompareTopic then UseCompare else UseRecommend], None)
    ensures (OnTopic(text) && ChooseProgram(text, programs).Bound? && TopicOf(text) != CompareTopic
             && TopicOf(text) != RecommendTopic) ==>
              o == BoundReplies(TopicOf(text), ChooseProgram(text, programs).prog, show, ManagerReply)
  {
    if !OnTopic(text) then Outcome([Rejected, AskMoreDetail], None)
    else
      var binding := ChooseProgram(text, programs);
      var before := if binding.Unbound? then [NotUnderstood] else [];
      match TopicOf(text)
      case CompareTopic => Outcome(before + [UseCompare], None)
      case RecommendTopic => Outcome(before + [UseRecommend], None)
      case t =>
        match binding
        case Unbound => Outcome(before, Some(ProgUnbound))
        case Bound(prog) =>
          var rest := BoundReplies(t, prog, show, ManagerReply);
          Outcome(before + rest.replies, rest.crash)
  }

  /** "команда" passes the gate, names no program and asks for the team: `prog` is unbound at bot.py:245. */
  lemma {:induction false} TeamWithoutProgramCrashes(programs: map<string, Json>, show: Json -> string)
    ensures HandleQuery("команда", programs, show) == Outcome([NotUnderstood], Some(ProgUnbound))
  {
    TeamTextRoute("команда", programs);
  }

  /** "команда" is on topic, names no program and selects the team branch. */
  lemma {:induction false} TeamTextRoute(text: string, programs: map<string, Json>)
    requires text == "команда"
    ensures OnTopic(text) && ChooseProgram(text, programs).Unbound? && TopicOf(text) == TeamTopic
  {
    TeamTextNamesNothing(text);
    assert Allowed[10] == text;
    ContainsAt(text, text, 0);
    AbsentChar(text, "сравн", 0);
    AbsentChar(text, "сравнить", 0);
    AbsentChar(text, "выбрать", 0);
    AbsentChar(text, "рекоменд", 0);
  }

  /** "команда" contains none of the program keywords. */
  lemma {:induction false} TeamTextNamesNothing(text: string)
    requires text == "команда"
    ensures !NamesProduct(text) && !NamesAi(text)
  {
    AbsentChar(text, "ai_product", 0);
    AbsentChar(text, "ai product", 0);
    AbsentChar(text, "управление ии", 0);
    AbsentChar(text, "ai", 0);
    AbsentChar(text, "искусственный интеллект", 0);
  }

  /** `handle_query` with `prog` starting out as `None`, and the manager read from the saved `manager` key. */
  function HandleQueryFixed(text: string, programs: map<string, Json>, show: Json -> string): (o: Outcome)
    ensures o.crash != Some(ProgUnbound)
    ensures !OnTopic(text) ==> o == Outcome([Rejected, AskMoreDetail], None)
    ensures OnTopic(text) && AsksCompare(text) ==> o.crash.None? && |o.replies| >= 1 && o.replies[|o.replies| - 1] == UseCompare
    ensures OnTopic(text) && ChooseProgram(text, programs).Unbound? ==> |o.replies| >= 1 && o.replies[0] == NotUnderstood
    ensures ChooseProgram(text, programs).Bound? ==> o == HandleQuery(text, programs, show) || TopicOf(text) == ManagerTopic
    ensures OnTopic(text) && (TopicOf(text) == CompareTopic || TopicOf(text) == RecommendTopic) ==>
              o == HandleQuery(text, programs, show)
    ensures (OnTopic(text) && ChooseProgram(text, programs).Bound? && TopicOf(text) != CompareTopic
             && TopicOf(text) != RecommendTopic) ==>
              o == BoundReplies(TopicOf(text), ChooseProgram(text, programs).prog, show, ManagerReplyFixed)
    ensures (OnTopic(text) && ChooseProgram(text, programs).Unbound? && TopicOf(text) != CompareTopic
             && TopicOf(text) != RecommendTopic) ==>
              o == Outcome(if TopicOf(text) == OverviewTopic then [NotUnderstood, WhichProgram] else [NotUnderstood], None)
  {
    if !OnTopic(text) then Outcome([Rejected, AskMoreDetail], None)
    else
      var binding := ChooseProgram(text, programs);
      var before := if binding.Unbound? then [NotUnderstood] else [];
      var prog := if binding.Bound? then binding.prog else None;
      match TopicOf(text)
      case CompareTopic => Outcome(before + [UseCompare], None)
      case RecommendTopic => Outcome(before + [UseRecommend], None)
      case t =>
        var rest := BoundReplies(t, prog, show, ManagerReplyFixed);
        Outcome(before + rest.replies, rest.crash)
  }

  /** The manager reply reading the `manager` key that the scraper writes. */
  function ManagerReplyFixed(prog: Json, show: Json -> string): (r: Option<Reply>)
    ensures r.Some? <==> Subscript(prog, "manager").Some? && Subscript(prog, "manager").value.JObject?
                         && "name" in Subscript(prog, "manager").value.fields
    ensures r.Some? ==> r == Some(Manager(Display(prog.fields["manager"].fields["name"], show)))
  {
    var manager :- Subscript(prog, "manager");
    var name :- Subscript(manager, "name");
    Some(Manager(Display(name, show)))
  }

  /** A saved record has no `supervisor` key, so the manager reply as written always faults on it. */
  lemma ManagerMissingOnSavedRecord(r: ProgramRecord, show: Json -> string)
    ensures ManagerReply(ToJson(r), show) == None
    ensures BoundReplies(ManagerTopic, Some(ToJson(r)), show, ManagerReply) == Outcome([], Some(DataFault))
  {
    assert "supervisor" !in ToJson(r).fields;
    assert "title" in ToJson(r).fields;
  }

  /** Reading `manager` instead gives the name the scraper stored. */
  lemma ManagerFoundOnSavedRecord(r: ProgramRecord, show: Json -> string)
    ensures ManagerReplyFixed(ToJson(r), show) == Some(Manager(r.managerName))
    ensures BoundReplies(ManagerTopic, Some(ToJson(r)), show, ManagerReplyFixed) == Outcome([Manager(r.managerName)], None)
  {
    PlanKeys(r);
  }

  /** The fixed course lists of `suggest_courses` (bot.py:190-204). */
  const AiCourses: seq<string> :=
    ["Глубокое обучение", "ML в продакшене", "Обработка естественного языка", "Computer Vision", "Data Engineering"]
  const AiProductCourses: seq<string> :=
    ["Управление AI-продуктами", "UX для ИИ", "Монетизация технологий", "AI Project Management"]

  /** `course_map.get(slug, [])`: a list or a dict is not hashable and raises. */
  function CoursesFor(slug: Json): (r: Option<seq<string>>)
    ensures slug == JString("ai") ==> r == Some(AiCourses) && |r.value| == 5
    ensures slug == JString("ai_product") ==> r == Some(AiProductCourses) && |r.value| == 4
    ensures r.None? <==> slug.JArray? || slug.JObject?
    ensures r.Some? && slug != JString("ai") && slug != JString("ai_product") ==> r == Some([])
  {
    match slug
    case JString(s) => Some(if s == "ai" then AiCourses else if s == "ai_product" then AiProductCourses else [])
    case JArray(_) => None
    case JObject(_) => None
    case _ => Some([])
  }

  /** `suggest_courses(message, program)`: `program.get("slug", "")`, then the lookup. */
  function SuggestCourses(program: Json): (r: Option<Reply>)
    ensures program.JObject? && "slug" !in program.fields ==> r == Some(Courses([]))
    ensures !program.JObject? ==> r.None?
    ensures program.JObject? ==>
              var courses := CoursesFor(FieldOr(program.fields, "slug", EmptyString));
              (courses.Some? ==> r == Some(Courses(courses.value))) && (courses.None? ==> r.None?)
    ensures r.Some? ==> r.value.Courses? && |r.value.courses| <= 5
  {
    var slug :- DictGet(program, "slug", EmptyString);
    var courses :- CoursesFor(slug);
    Some(Courses(courses))
  }

  /**
   * The replies of `give_recommendation` once the scores are known (bot.py:166-186):
   * the tie message alone, or the recommended program followed by its course list.
   */
  function Recommendation(v: Verdict, programs: map<string, Json>, show: Json -> string): (o: Outcome)
    ensures v == Tie ==> o == Outcome([BothFit], None)
    ensures v != Tie ==> BothFit !in o.replies && |o.replies| <= 2
    ensures v != Tie && o.crash.None? ==>
              var key := if v == Technical then AiKey else AiProductKey;
              key in programs && Subscript(programs[key], "title").Some? && |o.replies| == 2
              && o.replies[0] == Recommended(Display(Subscript(programs[key], "title").value, show), v)
              && SuggestCourses(programs[key]) == Some(o.replies[1])
    ensures v != Tie && (if v == Technical then AiKey else AiProductKey) in programs
            && Subscript(programs[if v == Technical then AiKey else AiProductKey], "title").None? ==>
              o == Outcome([], Some(DataFault))
    ensures v != Tie && (if v == Technical then AiKey else AiProductKey) in programs
            && Subscript(programs[if v == Technical then AiKey else AiProductKey], "title").Some? ==>
              var rec := programs[if v == Technical then AiKey else AiProductKey];
              |o.replies| >= 1 && o.replies[0] == Recommended(Display(Subscript(rec, "title").value, show), v)
              && (o.crash.None? <==> SuggestCourses(rec).Some?)
    ensures v != Tie && (if v == Technical then AiKey else AiProductKey) !in programs ==>
              o == Outcome([], Some(DataFault))
  {
    if v == Tie then Outcome([BothFit], None)
    else
      var key := if v == Technical then AiKey else AiProductKey;
      if key !in programs then Outcome([], Some(DataFault))
      else
        var rec := programs[key];
        match Subscript(rec, "title")
        case None => Outcome([], Some(DataFault))
        case Some(title) =>
          var first := Recommended(Display(title, show), v);
          match SuggestCourses(rec)
          case None => Outcome([first], Some(DataFault))
          case Some(courses) => Outcome([first, courses], None)
  }

  /** A saved record of the technical program recommends its five courses. */
  lemma {:induction false} TechnicalRecordCourses(r: ProgramRecord, programs: map<string, Json>, show: Json -> string)
    requires r.slug == JString("ai") && programs == map[AiKey := ToJson(r)]
    ensures Recommendation(Technical, programs, show).replies == [Recommended(Display(r.title, show), Technical), Courses(AiCourses)]
  {
    ScalarKeys(r);
  }
}
