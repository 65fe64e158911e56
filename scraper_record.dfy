/**
 * The second half of `parse_itmo_program`: reshaping the navigated page data into
 * the flat program record (scraper.py:100-159), and the whole extraction from the
 * page's island inputs to a record or an error.
 */
module ScraperRecord {
  import opened Wrappers
  import opened PyStrings
  import opened PyJson
  import opened ScraperIsland

  datatype TeamMember = TeamMember(name: string, position: Json, degree: Json)
  datatype SimilarProgram = SimilarProgram(title: Json, year: Json, directionOfEducation: Json, slug: Json)
  datatype Scholarship = Scholarship(name: string, amount: string)

  /** The record `parse_itmo_program` returns. Values copied from the page keep their JSON form. */
  datatype ProgramRecord = ProgramRecord(
    title: Json,
    slug: Json,
    aboutLead: Json,
    aboutDesc: Json,
    careerText: Json,
    educationCost: Json,
    studyPeriod: Json,
    language: Json,
    academicPlanUrl: Json,
    directionOfEducation: Json,
    directionCode: Json,
    faculty: Json,
    facultyLink: Json,
    managerName: string,
    team: seq<TeamMember>,
    partners: seq<string>,
    scholarships: seq<Scholarship>,
    admissionMethods: seq<Json>,
    examDates: Json,
    socialLinks: Json,
    videoLinks: seq<Json>,
    similarPrograms: seq<SimilarProgram>)

  /** The default for a missing title, slug or faculty name. */
  const Unknown: string := "Неизвестно"

  /** The fixed scholarship list attached to every record; it is never read from the page. */
  const ScholarshipCatalog: seq<Scholarship> := [
    Scholarship("Государственная академическая стипендия", "До 4 100 рублей"),
    Scholarship("Повышенная государственная академическая стипендия", "До 27 000 рублей"),
    Scholarship("Стипендия Президента и Правительства РФ", "До 30 000 рублей"),
    Scholarship("Именная стипендия Правительства Санкт-Петербурга", "7 000 рублей"),
    Scholarship("Стипендия фонда Владимира Потанина", "25 000 рублей"),
    Scholarship("Стипендия «Альфа-Шанс»", "До 300 000 рублей")
  ]

  /** An exception raised while building the record escapes `parse_itmo_program`. */
  function Need<T>(o: Option<T>): Result<T, Error> {
    match o
    case Some(v) => Ok(v)
    case None => Err(Fault)
  }

  /** `o.get(outer, {}).get(inner, d)` */
  function GetIn(o: Json, outer: string, inner: string, d: Json): Option<Json> {
    match DictGet(o, outer, EmptyObject)
    case None => None
    case Some(v) => DictGet(v, inner, d)
  }

  /** `o.get(k, '')` */
  function Part(m: map<string, Json>, k: string): Json {
    FieldOr(m, k, EmptyString)
  }

  /**
   * f"{o.get('firstName', '')} {o.get('middleName', '')} {o.get('lastName', '')}",
   * followed by `tail`, then stripped (scraper.py:120 with an empty tail, 124 with " ").
   */
  function FullName(o: Json, tail: string, show: Json -> string): (r: Option<string>)
    ensures r.Some? <==> o.JObject?
    ensures r.Some? ==> Trimmed(r.value)
  {
    match o
    case JObject(m) =>
      var first := Display(Part(m, "firstName"), show);
      var middle := Display(Part(m, "middleName"), show);
      var last := Display(Part(m, "lastName"), show);
      Some(Strip(first + " " + middle + " " + last + tail))
    case _ => None
  }

  /** Three missing (or empty) name parts give the empty name. */
  lemma {:induction false} NoNameParts(m: map<string, Json>, tail: string, show: Json -> string)
    requires Part(m, "firstName") == EmptyString && Part(m, "middleName") == EmptyString
    requires Part(m, "lastName") == EmptyString
    requires tail == "" || tail == " "
    ensures FullName(JObject(m), tail, show) == Some("")
  {
    var joined := "" + " " + "" + " " + "" + tail;
    assert forall i :: 0 <= i < |joined| ==> joined[i] == ' ';
    StripAllSpace(joined);
  }

  /** Parts that are themselves trimmed and non-empty are joined by single spaces, with nothing removed. */
  lemma {:induction false} TrimmedParts(m: map<string, Json>, show: Json -> string)
    requires var f, l := Display(Part(m, "firstName"), show), Display(Part(m, "lastName"), show);
             f != "" && l != "" && Trimmed(f) && Trimmed(l)
    ensures FullName(JObject(m), "", show) ==
            Some(Display(Part(m, "firstName"), show) + " " + Display(Part(m, "middleName"), show)
                 + " " + Display(Part(m, "lastName"), show))
  {
    var f, mid, l := Display(Part(m, "firstName"), show), Display(Part(m, "middleName"), show), Display(Part(m, "lastName"), show);
    var joined := f + " " + mid + " " + l + "";
    assert joined[0] == f[0];
    assert joined[|joined| - 1] == l[|l| - 1];
  }

  /** The trailing space the team comprehension adds before stripping changes nothing. */
  lemma TrailingSpaceIrrelevant(o: Json, show: Json -> string)
    ensures FullName(o, " ", show) == FullName(o, "", show)
  {
    if o.JObject? {
      var m := o.fields;
      var base := Display(Part(m, "firstName"), show) + " " + Display(Part(m, "middleName"), show)
                  + " " + Display(Part(m, "lastName"), show);
      assert base + "" == base;
      StripTrailingSpace(base);
    }
  }

  /** scraper.py:125: the first position's name when `positions` is truthy, else "". */
  function Position(m: map<string, Json>): Option<Json> {
    var ps := if "positions" in m then m["positions"] else JNull;
    if !Truthy(ps) then Some(EmptyString)
    else
      match ps
      case JArray(xs) => DictGet(xs[0], "position_name", EmptyString)
      case _ => None
  }

  /** One element of the `team` comprehension (scraper.py:123-127). */
  function Member(j: Json, show: Json -> string): Option<TeamMember> {
    match j
    case JObject(m) =>
      var name :- FullName(j, " ", show);
      var position :- Position(m);
      Some(TeamMember(name, position, Part(m, "degree")))
    case _ => None
  }

  /** A team member whose `positions` is missing or empty gets the position "". */
  lemma MemberWithoutPositions(m: map<string, Json>, show: Json -> string)
    requires "positions" !in m || !Truthy(m["positions"])
    ensures Member(JObject(m), show).Some?
    ensures Member(JObject(m), show).value.position == EmptyString
  {
    assert Position(m) == Some(EmptyString);
    assert FullName(JObject(m), " ", show).Some?;
  }

  function MemberOf(show: Json -> string): Json -> Option<TeamMember> {
    j => Member(j, show)
  }

  /** `logo.split('/')[-1]` (scraper.py:131). */
  function LogoFile(j: Json): Option<string> {
    match j
    case JString(s) => Some(LastSegment(s, '/'))
    case _ => None
  }

  /** `method.get("title", "")` (scraper.py:142). */
  function AdmissionTitle(j: Json): Option<Json> {
    DictGet(j, "title", EmptyString)
  }

  /** `video["content"]` (scraper.py:146). */
  function VideoContent(j: Json): Option<Json> {
    Subscript(j, "content")
  }

  /** One element of the `similar_programs` comprehension (scraper.py:149-154). */
  function Similar(j: Json): Option<SimilarProgram> {
    match j
    case JObject(m) =>
      Some(SimilarProgram(Part(m, "title"), Part(m, "year"), Part(m, "direction_of_education"), Part(m, "slug")))
    case _ => None
  }

  /**
   * `[f(x) for x in o]`. A list keeps its length and order; a non-empty dict yields
   * its keys, which either make `f` raise or give a result in an order not modelled.
   */
  function Comprehend<T>(o: Json, f: Json -> Option<T>): (r: Result<seq<T>, Error>)
    ensures o.JArray? ==> (r.Ok? <==> forall i :: 0 <= i < |o.items| ==> f(o.items[i]).Some?)
    ensures o.JArray? && r.Ok? ==>
              |r.value| == |o.items| && forall i :: 0 <= i < |o.items| ==> f(o.items[i]) == Some(r.value[i])
    ensures o.JArray? && r.Err? ==> r.error == Fault
  {
    match Elements(o)
    case Items(xs) => Need(MapAll(xs, f))
    case DictKeys(ks) =>
      if exists k :: k in ks && f(JString(k)).None? then Err(Fault) else Err(UnorderedKeys)
    case NotIterable => Err(Fault)
  }

  /** `program_data.get("faculties", [{}])[0].get(k, d)` (scraper.py:117-118). */
  function FacultyField(api: Json, k: string, d: Json): (r: Option<Json>)
    ensures !api.JObject? ==> r.None?
    ensures api.JObject? && "faculties" !in api.fields ==> r == Some(d)
    ensures api.JObject? && "faculties" in api.fields && api.fields["faculties"].JArray? ==>
              var fs := api.fields["faculties"].items;
              (fs == [] ==> r.None?) && (fs != [] ==> r == DictGet(fs[0], k, d))
    ensures api.JObject? && "faculties" in api.fields && !api.fields["faculties"].JArray? ==> r.None?
  {
    match DictGet(api, "faculties", JArray([EmptyObject]))
    case None => None
    case Some(fs) =>
      match fs
      case JArray(xs) => if xs == [] then None else DictGet(xs[0], k, d)
      case _ => None
  }

  function TeamSource(p: Page): Json {
    FieldOr(p.pageProps, "team", EmptyArray)
  }

  /** `m.get(k, d)` */
  function FieldOr(m: map<string, Json>, k: string, d: Json): Json {
    if k in m then m[k] else d
  }

  /** The scalar fields of the record (scraper.py:102-118), read from `apiProgram` and `jsonProgram`. */
  datatype Header = Header(
    title: Json, slug: Json, aboutLead: Json, aboutDesc: Json, careerText: Json, educationCost: Json,
    studyPeriod: Json, language: Json, academicPlanUrl: Json, directionOfEducation: Json,
    directionCode: Json, faculty: Json, facultyLink: Json)

  function ReadHeader(api: Json, second: Json): (r: Result<Header, Error>)
    ensures r.Ok? ==> api.JObject? && second.JObject?
    ensures r.Ok? <==> api.JObject? && second.JObject?
                       && GetIn(second, "about", "lead", EmptyString).Some? && GetIn(second, "about", "desc", EmptyString).Some?
                       && GetIn(second, "career", "lead", EmptyString).Some? && GetIn(api, "study", "label", EmptyString).Some?
                       && FacultyField(api, "title", JString(Unknown)).Some? && FacultyField(api, "link", EmptyString).Some?
    ensures !api.JObject? || !second.JObject? ==> r == Err(Fault)
    ensures r.Err? ==> r.error == Fault
    ensures r.Ok? ==> r.value.title == FieldOr(api.fields, "title", JString(Unknown))
                      && r.value.slug == FieldOr(api.fields, "slug", JString(Unknown))
                      && r.value.language == FieldOr(api.fields, "language", EmptyString)
    ensures r.Ok? && "faculties" !in api.fields ==>
              r.value.faculty == JString(Unknown) && r.value.facultyLink == EmptyString
    ensures r.Ok? && "about" !in second.fields ==> r.value.aboutLead == EmptyString && r.value.aboutDesc == EmptyString
    ensures r.Ok? ==> GetIn(second, "about", "lead", EmptyString) == Some(r.value.aboutLead)
                      && GetIn(second, "about", "desc", EmptyString) == Some(r.value.aboutDesc)
                      && GetIn(second, "career", "lead", EmptyString) == Some(r.value.careerText)
                      && GetIn(api, "study", "label", EmptyString) == Some(r.value.studyPeriod)
    ensures r.Ok? ==> r.value.educationCost == FieldOr(api.fields, "educationCost", EmptyObject)
                      && r.value.academicPlanUrl == FieldOr(api.fields, "academic_plan", EmptyString)
                      && r.value.directionOfEducation == FieldOr(api.fields, "direction_of_education", EmptyString)
                      && r.value.directionCode == FieldOr(api.fields, "direction_code", EmptyString)
    ensures r.Ok? ==> FacultyField(api, "title", JString(Unknown)) == Some(r.value.faculty)
                      && FacultyField(api, "link", EmptyString) == Some(r.value.facultyLink)
    ensures FacultyField(api, "title", JString(Unknown)).None? ==> r == Err(Fault)
  {
    if !api.JObject? || !second.JObject? then Err(Fault)
    else
      var title := FieldOr(api.fields, "title", JString(Unknown));
      var slug := FieldOr(api.fields, "slug", JString(Unknown));
      var lead :- Need(GetIn(second, "about", "lead", EmptyString));
      var desc :- Need(GetIn(second, "about", "desc", EmptyString));
      var career :- Need(GetIn(second, "career", "lead", EmptyString));
      var cost := FieldOr(api.fields, "educationCost", EmptyObject);
      var study :- Need(GetIn(api, "study", "label", EmptyString));
      var language := FieldOr(api.fields, "language", EmptyString);
      var plan := FieldOr(api.fields, "academic_plan", EmptyString);
      var direction := FieldOr(api.fields, "direction_of_education", EmptyString);
      var code := FieldOr(api.fields, "direction_code", EmptyString);
      var faculty :- Need(FacultyField(api, "title", JString(Unknown)));
      var facultyLink :- Need(FacultyField(api, "link", EmptyString));
      Ok(Header(title, slug, lead, desc, career, cost, study, language, plan, direction, code, faculty, facultyLink))
  }

  /** `page_props.get("admission", {}).get("items", [])` */
  function AdmissionItems(p: Page): Option<Json> {
    GetIn(JObject(p.pageProps), "admission", "items", EmptyArray)
  }

  /** `json_program.get("about", {}).get("video", [])` */
  function VideoItems(p: Page): Option<Json> {
    GetIn(p.program2, "about", "video", EmptyArray)
  }

  /** The fields of scraper.py:119-157 that come after the header, in the dict literal's order. */
  datatype Lists = Lists(managerName: string, team: seq<TeamMember>, partners: seq<string>,
                         admissionMethods: seq<Json>, socialLinks: Json, videoLinks: seq<Json>,
                         similarPrograms: seq<SimilarProgram>)

  function ReadLists(p: Page, show: Json -> string): (r: Result<Lists, Error>)
    ensures !p.program2.JObject? ==> r == Err(Fault)
    ensures r.Ok? <==> p.program2.JObject? && FieldOr(p.pageProps, "supervisor", EmptyObject).JObject?
                       && Comprehend(TeamSource(p), MemberOf(show)).Ok?
                       && Comprehend(FieldOr(p.program2.fields, "careersImages", EmptyArray), LogoFile).Ok?
                       && AdmissionItems(p).Some? && Comprehend(AdmissionItems(p).value, AdmissionTitle).Ok?
                       && VideoItems(p).Some? && Comprehend(VideoItems(p).value, VideoContent).Ok?
                       && Comprehend(p.similar, Similar).Ok?
    ensures r.Ok? ==> Trimmed(r.value.managerName)
    ensures r.Ok? ==> forall i :: 0 <= i < |r.value.team| ==> Trimmed(r.value.team[i].name)
    ensures r.Ok? ==> forall i :: 0 <= i < |r.value.partners| ==> '/' !in r.value.partners[i]
    ensures r.Ok? && "supervisor" !in p.pageProps ==> r.value.managerName == ""
    ensures r.Ok? ==> FullName(FieldOr(p.pageProps, "supervisor", EmptyObject), "", show)
                      == Some(r.value.managerName)
    ensures r.Ok? ==> r.value.socialLinks == FieldOr(p.program2.fields, "social", EmptyObject)
    ensures r.Ok? && TeamSource(p).JArray? ==>
              |r.value.team| == |TeamSource(p).items|
              && forall i :: 0 <= i < |r.value.team| ==> Member(TeamSource(p).items[i], show) == Some(r.value.team[i])
    ensures r.Ok? && p.similar.JArray? ==>
              |r.value.similarPrograms| == |p.similar.items|
              && forall i :: 0 <= i < |r.value.similarPrograms| ==>
                   Similar(p.similar.items[i]) == Some(r.value.similarPrograms[i])
    ensures r.Ok? && FieldOr(p.program2.fields, "careersImages", EmptyArray).JArray? ==>
              var logos := FieldOr(p.program2.fields, "careersImages", EmptyArray).items;
              |r.value.partners| == |logos|
              && forall i :: 0 <= i < |logos| ==> LogoFile(logos[i]) == Some(r.value.partners[i])
    ensures r.Ok? && AdmissionItems(p).Some? && AdmissionItems(p).value.JArray? ==>
              var xs := AdmissionItems(p).value.items;
              |r.value.admissionMethods| == |xs|
              && forall i :: 0 <= i < |xs| ==> AdmissionTitle(xs[i]) == Some(r.value.admissionMethods[i])
    ensures r.Ok? && VideoItems(p).Some? && VideoItems(p).value.JArray? ==>
              var xs := VideoItems(p).value.items;
              |r.value.videoLinks| == |xs|
              && forall i :: 0 <= i < |xs| ==> VideoContent(xs[i]) == Some(r.value.videoLinks[i])
  {
    if !p.program2.JObject? then Err(Fault)
    else
      var second := p.program2.fields;
      var supervisor := FieldOr(p.pageProps, "supervisor", EmptyObject);
      var manager :- Need(FullName(supervisor, "", show));
      var team :- Comprehend(TeamSource(p), MemberOf(show));
      var logos := FieldOr(second, "careersImages", EmptyArray);
      var partners :- Comprehend(logos, LogoFile);
      var admissionItems :- Need(AdmissionItems(p));
      var admission :- Comprehend(admissionItems, AdmissionTitle);
      var social := FieldOr(second, "social", EmptyObject);
      var videoItems :- Need(VideoItems(p));
      var videos :- Comprehend(videoItems, VideoContent);
      var similar :- Comprehend(p.similar, Similar);
      assert forall i :: 0 <= i < |partners| ==> '/' !in partners[i] by {
        ComprehendLogos(logos, partners);
      }
      assert forall i :: 0 <= i < |team| ==> Trimmed(team[i].name) by {
        ComprehendMembers(TeamSource(p), show, team);
      }
      assert "supervisor" !in p.pageProps ==> manager == "" by {
        if "supervisor" !in p.pageProps {
          NoNameParts(map[], "", show);
        }
      }
      Ok(Lists(manager, team, partners, admission, social, videos, similar))
  }

  /** The dict literal of scraper.py:101-157, evaluated key by key in source order. */
  function Reshape(p: Page, show: Json -> string): (r: Result<ProgramRecord, Error>)
    ensures r.Ok? ==> r.value.scholarships == ScholarshipCatalog
    ensures r.Ok? ==> r.value.examDates == p.examDates
    ensures r.Ok? <==> ReadHeader(p.program, p.program2).Ok? && ReadLists(p, show).Ok?
    ensures r.Ok? ==> var h := ReadHeader(p.program, p.program2).value;
              r.value.title == h.title && r.value.slug == h.slug && r.value.faculty == h.faculty
              && r.value.facultyLink == h.facultyLink && r.value.language == h.language
    ensures r.Ok? ==> HeaderOf(r.value) == ReadHeader(p.program, p.program2).value
    ensures r.Ok? ==> ListsOf(r.value) == ReadLists(p, show).value
    ensures ReadHeader(p.program, p.program2).Err? ==> r == ReadHeader(p.program, p.program2).PropagateFailure()
    ensures ReadHeader(p.program, p.program2).Ok? && ReadLists(p, show).Err? ==>
              r == ReadLists(p, show).PropagateFailure()
    ensures r.Ok? ==> Trimmed(r.value.managerName)
    ensures r.Ok? ==> forall i :: 0 <= i < |r.value.team| ==> Trimmed(r.value.team[i].name)
    ensures r.Ok? ==> forall i :: 0 <= i < |r.value.partners| ==> '/' !in r.value.partners[i]
    ensures r.Ok? && "supervisor" !in p.pageProps ==> r.value.managerName == ""
  {
    var h :- ReadHeader(p.program, p.program2);
    var l :- ReadLists(p, show);
    Ok(ProgramRecord(h.title, h.slug, h.aboutLead, h.aboutDesc, h.careerText, h.educationCost, h.studyPeriod,
                     h.language, h.academicPlanUrl, h.directionOfEducation, h.directionCode, h.faculty,
                     h.facultyLink, l.managerName, l.team, l.partners, ScholarshipCatalog, l.admissionMethods,
                     p.examDates, l.socialLinks, l.videoLinks, l.similarPrograms))
  }

  /** The fields of a record that `ReadLists` produces. */
  function ListsOf(r: ProgramRecord): Lists {
    Lists(r.managerName, r.team, r.partners, r.admissionMethods, r.socialLinks, r.videoLinks, r.similarPrograms)
  }

  lemma ComprehendLogos(o: Json, partners: seq<string>)
    requires Comprehend(o, LogoFile) == Ok(partners)
    ensures forall i :: 0 <= i < |partners| ==> '/' !in partners[i]
  {
    match Elements(o)
    case Items(xs) =>
      assert MapAll(xs, LogoFile) == Some(partners);
      forall i | 0 <= i < |partners| ensures '/' !in partners[i] {
        assert LogoFile(xs[i]) == Some(partners[i]);
      }
    case DictKeys(_) =>
    case NotIterable =>
  }

  lemma ComprehendMembers(o: Json, show: Json -> string, team: seq<TeamMember>)
    requires Comprehend(o, MemberOf(show)) == Ok(team)
    ensures forall i :: 0 <= i < |team| ==> Trimmed(team[i].name)
  {
    match Elements(o)
    case Items(xs) =>
      assert MapAll(xs, MemberOf(show)) == Some(team);
      forall i | 0 <= i < |team| ensures Trimmed(team[i].name) {
        assert MemberOf(show)(xs[i]) == Some(team[i]);
        MemberName(xs[i], show, team[i]);
      }
    case DictKeys(_) =>
    case NotIterable =>
  }

  /** A member's name comes out of `FullName`, so it is stripped. */
  lemma MemberName(j: Json, show: Json -> string, t: TeamMember)
    requires Member(j, show) == Some(t)
    ensures Trimmed(t.name)
  {
    var name := FullName(j, " ", show);
    assert name.Some? && t.name == name.value;
  }

  /**
   * `parse_itmo_program` from the island inputs on (scraper.py:41-159): pick the island,
   * decode it, navigate to the program data and reshape it.
   */
  function Extract(nextData: Option<string>, matches: seq<string>, loads: string -> Option<Json>,
                   show: Json -> string): (r: Result<ProgramRecord, Error>)
    ensures Island(nextData, matches).Err? ==> r == Err(NoIsland)
    ensures Island(nextData, matches).Ok? && ParseIsland(Island(nextData, matches).value, loads).Err? ==>
              r == Err(Unparseable)
    ensures Island(nextData, matches).Ok? && ParseIsland(Island(nextData, matches).value, loads).Ok? ==>
              var data := ParseIsland(Island(nextData, matches).value, loads).value;
              (MissingKey(data) ==> r == Err(StructureMismatch))
              && (r.Ok? ==> HasPath(data) && r.value.examDates == Navigate(data).value.examDates)
    ensures r.Ok? ==> r.value.scholarships == ScholarshipCatalog && Trimmed(r.value.managerName)
    ensures Island(nextData, matches).Ok? && ParseIsland(Island(nextData, matches).value, loads).Ok? ==>
              var data := ParseIsland(Island(nextData, matches).value, loads).value;
              (Navigate(data).Err? ==> r == Err(Navigate(data).error))
              && (Navigate(data).Ok? ==> r == Reshape(Navigate(data).value, show))
  {
    var island :- Island(nextData, matches);
    ParseIslandOutcome(island, loads);
    var data :- ParseIsland(island, loads);
    var page :- Navigate(data);
    Reshape(page, show)
  }

  method ParseItmoProgram(nextData: Option<string>, matches: seq<string>, loads: string -> Option<Json>,
                          show: Json -> string) returns (r: Result<ProgramRecord, Error>)
    ensures r == Extract(nextData, matches, loads, show)
  {
    var island := SelectIsland(nextData, matches);
    if island.Err? {
      return Err(island.error);
    }
    var data := DecodeIsland(island.value, loads);
    if data.Err? {
      return Err(data.error);
    }
    var page := Navigate(data.value);
    if page.Err? {
      return Err(page.error);
    }
    r := Reshape(page.value, show);
  }

  /** A `pageProps` with empty program dicts and no supervisor, team, admission or similar programmes. */
  const BarePageProps: map<string, Json> :=
    map["apiProgram" := EmptyObject, "jsonProgram" := EmptyObject, "similarPrograms" := EmptyArray]

  const BareData: Json := JObject(map["props" := JObject(map["pageProps" := JObject(BarePageProps)])])

  /** The record of the bare page: every field at the default of the dict literal. */
  const DefaultRecord: ProgramRecord :=
    ProgramRecord(JString(Unknown), JString(Unknown), EmptyString, EmptyString, EmptyString, EmptyObject,
                  EmptyString, EmptyString, EmptyString, EmptyString, EmptyString, JString(Unknown), EmptyString,
                  "", [], [], ScholarshipCatalog, [], EmptyArray, EmptyObject, [], [])

  /** An island that decodes to the bare page gives the all-defaults record. */
  lemma BarePageDefaults(text: string, loads: string -> Option<Json>, show: Json -> string)
    requires text != "" && loads(CleanIsland(text)) == Some(BareData)
    ensures Extract(Some(text), [], loads, show) == Ok(DefaultRecord)
  {
    var page := Page(BarePageProps, EmptyObject, EmptyObject, EmptyArray, EmptyArray);
    assert Island(Some(text), []) == Ok(text);
    CleanIslandCases(text);
    assert ParseIsland(text, loads) == Ok(BareData);
    BareNavigate();
    BareReshape(page, show);
  }

  lemma BareNavigate()
    ensures Navigate(BareData) == Ok(Page(BarePageProps, EmptyObject, EmptyObject, EmptyArray, EmptyArray))
  {
    assert HasPath(BareData);
  }

  lemma BareReshape(page: Page, show: Json -> string)
    requires page == Page(BarePageProps, EmptyObject, EmptyObject, EmptyArray, EmptyArray)
    ensures Reshape(page, show) == Ok(DefaultRecord)
  {
    BareHeader();
    BareLists(page, show);
  }

  lemma BareHeader()
    ensures ReadHeader(EmptyObject, EmptyObject) ==
            Ok(Header(JString(Unknown), JString(Unknown), EmptyString, EmptyString, EmptyString, EmptyObject,
                      EmptyString, EmptyString, EmptyString, EmptyString, EmptyString, JString(Unknown), EmptyString))
  {
    assert FacultyField(EmptyObject, "title", JString(Unknown)) == Some(JString(Unknown));
    assert FacultyField(EmptyObject, "link", EmptyString) == Some(EmptyString);
  }

  lemma BareLists(page: Page, show: Json -> string)
    requires page == Page(BarePageProps, EmptyObject, EmptyObject, EmptyArray, EmptyArray)
    ensures ReadLists(page, show) == Ok(Lists("", [], [], [], EmptyObject, [], []))
  {
    NoNameParts(map[], "", show);
    assert TeamSource(page) == EmptyArray;
    assert AdmissionItems(page) == Some(EmptyArray) && VideoItems(page) == Some(EmptyArray);
  }

  // The record as `json.dump` writes it (scraper.py:101-157, 173-175) and read back.

  function TeamJson(t: TeamMember): Json {
    JObject(map["name" := JString(t.name), "position" := t.position, "degree" := t.degree])
  }

  function SimilarJson(s: SimilarProgram): Json {
    JObject(map["title" := s.title, "year" := s.year, "direction_of_education" := s.directionOfEducation,
                "slug" := s.slug])
  }

  function ScholarshipJson(s: Scholarship): Json {
    JObject(map["name" := JString(s.name), "amount" := JString(s.amount)])
  }

  function PartnerJson(s: string): Json {
    JString(s)
  }

  function Each<T>(xs: seq<T>, f: T -> Json): (r: seq<Json>)
    ensures |r| == |xs| && forall i :: 0 <= i < |xs| ==> r[i] == f(xs[i])
  {
    seq(|xs|, i requires 0 <= i < |xs| => f(xs[i]))
  }

  function ToJson(r: ProgramRecord): Json {
    JObject(map[
      "title" := r.title,
      "slug" := r.slug,
      "about" := JObject(map["lead" := r.aboutLead, "desc" := r.aboutDesc]),
      "career" := JObject(map["text" := r.careerText]),
      "education_cost" := r.educationCost,
      "study_period" := r.studyPeriod,
      "language" := r.language,
      "academic_plan_url" := r.academicPlanUrl,
      "direction_of_education" := r.directionOfEducation,
      "direction_code" := r.directionCode,
      "faculty" := r.faculty,
      "faculty_link" := r.facultyLink,
      "manager" := JObject(map["name" := JString(r.managerName)]),
      "team" := JArray(Each(r.team, TeamJson)),
      "partners" := JArray(Each(r.partners, PartnerJson)),
      "scholarships" := JArray(Each(r.scholarships, ScholarshipJson)),
      "admission_methods" := JArray(r.admissionMethods),
      "exam_dates" := r.examDates,
      "social_links" := r.socialLinks,
      "video_links" := JArray(r.videoLinks),
      "similar_programs" := JArray(Each(r.similarPrograms, SimilarJson))
    ])
  }

  function AsString(j: Json): Option<string> {
    if j.JString? then Some(j.s) else None
  }

  function AsList(j: Json): Option<seq<Json>> {
    if j.JArray? then Some(j.items) else None
  }

  function TeamFromJson(j: Json): Option<TeamMember> {
    var name :- Subscript(j, "name");
    var name :- AsString(name);
    var position :- Subscript(j, "position");
    var degree :- Subscript(j, "degree");
    Some(TeamMember(name, position, degree))
  }

  function SimilarFromJson(j: Json): Option<SimilarProgram> {
    var title :- Subscript(j, "title");
    var year :- Subscript(j, "year");
    var direction :- Subscript(j, "direction_of_education");
    var slug :- Subscript(j, "slug");
    Some(SimilarProgram(title, year, direction, slug))
  }

  function ScholarshipFromJson(j: Json): Option<Scholarship> {
    var name :- Subscript(j, "name");
    var name :- AsString(name);
    var amount :- Subscript(j, "amount");
    var amount :- AsString(amount);
    Some(Scholarship(name, amount))
  }

  function HeaderFromJson(j: Json): Option<Header> {
    var title :- Subscript(j, "title");
    var slug :- Subscript(j, "slug");
    var about :- Subscript(j, "about");
    var lead :- Subscript(about, "lead");
    var desc :- Subscript(about, "desc");
    var career :- Subscript(j, "career");
    var careerText :- Subscript(career, "text");
    var cost :- Subscript(j, "education_cost");
    var study :- Subscript(j, "study_period");
    var language :- Subscript(j, "language");
    var plan :- Subscript(j, "academic_plan_url");
    var direction :- Subscript(j, "direction_of_education");
    var code :- Subscript(j, "direction_code");
    var faculty :- Subscript(j, "faculty");
    var facultyLink :- Subscript(j, "faculty_link");
    Some(Header(title, slug, lead, desc, careerText, cost, study, language, plan, direction, code, faculty, facultyLink))
  }

  function ListFromJson<T>(j: Json, k: string, dec: Json -> Option<T>): Option<seq<T>> {
    var v :- Subscript(j, k);
    var xs :- AsList(v);
    MapAll(xs, dec)
  }

  function ManagerFromJson(j: Json): Option<string> {
    var manager :- Subscript(j, "manager");
    var name :- Subscript(manager, "name");
    AsString(name)
  }

  /** Reads a saved record back; a file of another shape gives `None`. */
  function FromJson(j: Json): Option<ProgramRecord> {
    var h :- HeaderFromJson(j);
    var managerName :- ManagerFromJson(j);
    var team :- ListFromJson(j, "team", TeamFromJson);
    var partners :- ListFromJson(j, "partners", AsString);
    var scholarships :- ListFromJson(j, "scholarships", ScholarshipFromJson);
    var admission :- Subscript(j, "admission_methods");
    var admission :- AsList(admission);
    var exams :- Subscript(j, "exam_dates");
    var social :- Subscript(j, "social_links");
    var videos :- Subscript(j, "video_links");
    var videos :- AsList(videos);
    var similar :- ListFromJson(j, "similar_programs", SimilarFromJson);
    Some(ProgramRecord(h.title, h.slug, h.aboutLead, h.aboutDesc, h.careerText, h.educationCost, h.studyPeriod,
                       h.language, h.academicPlanUrl, h.directionOfEducation, h.directionCode, h.faculty,
                       h.facultyLink, managerName, team, partners, scholarships, admission, exams, social,
                       videos, similar))
  }

  /** Decoding each encoded element gives the list back. */
  lemma {:induction false} MapAllInverse<T>(xs: seq<T>, enc: T -> Json, dec: Json -> Option<T>)
    requires forall i :: 0 <= i < |xs| ==> dec(enc(xs[i])) == Some(xs[i])
    ensures MapAll(Each(xs, enc), dec) == Some(xs)
  {
    var js := Each(xs, enc);
    forall i | 0 <= i < |js| ensures dec(js[i]) == Some(xs[i]) {
      assert js[i] == enc(xs[i]);
    }
    var ys := MapAll(js, dec).value;
    assert |ys| == |xs|;
    forall i | 0 <= i < |xs| ensures ys[i] == xs[i] {
      assert dec(js[i]) == Some(ys[i]);
    }
    assert ys == xs;
  }

  lemma ScalarKeys(r: ProgramRecord)
    ensures var j := ToJson(r);
            Subscript(j, "title") == Some(r.title) && Subscript(j, "slug") == Some(r.slug)
            && Subscript(j, "about") == Some(JObject(map["lead" := r.aboutLead, "desc" := r.aboutDesc]))
            && Subscript(j, "career") == Some(JObject(map["text" := r.careerText]))
            && Subscript(j, "education_cost") == Some(r.educationCost)
            && Subscript(j, "study_period") == Some(r.studyPeriod)
            && Subscript(j, "language") == Some(r.language)
  {
    TitleKeys(r);
    TermsKeys(r);
  }

  lemma TitleKeys(r: ProgramRecord)
    ensures var j := ToJson(r);
            Subscript(j, "title") == Some(r.title) && Subscript(j, "slug") == Some(r.slug)
            && Subscript(j, "about") == Some(JObject(map["lead" := r.aboutLead, "desc" := r.aboutDesc]))
            && Subscript(j, "career") == Some(JObject(map["text" := r.careerText]))
  {
  }

  lemma TermsKeys(r: ProgramRecord)
    ensures var j := ToJson(r);
            Subscript(j, "education_cost") == Some(r.educationCost)
            && Subscript(j, "study_period") == Some(r.studyPeriod)
            && Subscript(j, "language") == Some(r.language)
  {
  }

  lemma PlanKeys(r: ProgramRecord)
    ensures var j := ToJson(r);
            Subscript(j, "academic_plan_url") == Some(r.academicPlanUrl)
            && Subscript(j, "direction_of_education") == Some(r.directionOfEducation)
            && Subscript(j, "direction_code") == Some(r.directionCode)
            && Subscript(j, "faculty") == Some(r.faculty)
            && Subscript(j, "faculty_link") == Some(r.facultyLink)
            && Subscript(j, "manager") == Some(JObject(map["name" := JString(r.managerName)]))
            && Subscript(j, "exam_dates") == Some(r.examDates)
  {
  }

  lemma ListKeys(r: ProgramRecord)
    ensures var j := ToJson(r);
            Subscript(j, "team") == Some(JArray(Each(r.team, TeamJson)))
            && Subscript(j, "partners") == Some(JArray(Each(r.partners, PartnerJson)))
            && Subscript(j, "scholarships") == Some(JArray(Each(r.scholarships, ScholarshipJson)))
            && Subscript(j, "admission_methods") == Some(JArray(r.admissionMethods))
            && Subscript(j, "social_links") == Some(r.socialLinks)
            && Subscript(j, "video_links") == Some(JArray(r.videoLinks))
            && Subscript(j, "similar_programs") == Some(JArray(Each(r.similarPrograms, SimilarJson)))
  {
  }

  function HeaderOf(r: ProgramRecord): Header {
    Header(r.title, r.slug, r.aboutLead, r.aboutDesc, r.careerText, r.educationCost, r.studyPeriod,
           r.language, r.academicPlanUrl, r.directionOfEducation, r.directionCode, r.faculty, r.facultyLink)
  }

  lemma HeaderRoundTrip(r: ProgramRecord)
    ensures HeaderFromJson(ToJson(r)) == Some(HeaderOf(r))
  {
    ScalarKeys(r);
    PlanKeys(r);
  }

  lemma ListRoundTrip<T>(j: Json, k: string, xs: seq<T>, enc: T -> Json, dec: Json -> Option<T>)
    requires Subscript(j, k) == Some(JArray(Each(xs, enc)))
    requires forall i :: 0 <= i < |xs| ==> dec(enc(xs[i])) == Some(xs[i])
    ensures ListFromJson(j, k, dec) == Some(xs)
  {
    MapAllInverse(xs, enc, dec);
  }

  lemma TeamRoundTrip(r: ProgramRecord)
    ensures ListFromJson(ToJson(r), "team", TeamFromJson) == Some(r.team)
  {
    ListKeys(r);
    ListRoundTrip(ToJson(r), "team", r.team, TeamJson, TeamFromJson);
  }

  lemma PartnersRoundTrip(r: ProgramRecord)
    ensures ListFromJson(ToJson(r), "partners", AsString) == Some(r.partners)
  {
    ListKeys(r);
    ListRoundTrip(ToJson(r), "partners", r.partners, PartnerJson, AsString);
  }

  lemma ScholarshipsRoundTrip(r: ProgramRecord)
    ensures ListFromJson(ToJson(r), "scholarships", ScholarshipFromJson) == Some(r.scholarships)
  {
    ListKeys(r);
    ListRoundTrip(ToJson(r), "scholarships", r.scholarships, ScholarshipJson, ScholarshipFromJson);
  }

  lemma SimilarRoundTrip(r: ProgramRecord)
    ensures ListFromJson(ToJson(r), "similar_programs", SimilarFromJson) == Some(r.similarPrograms)
  {
    ListKeys(r);
    ListRoundTrip(ToJson(r), "similar_programs", r.similarPrograms, SimilarJson, SimilarFromJson);
  }

  /** The saved file holds the whole record: reading it back gives the record again. */
  lemma {:induction false} SavedRecordRoundTrip(r: ProgramRecord)
    ensures FromJson(ToJson(r)) == Some(r)
  {
    HeaderRoundTrip(r);
    TeamRoundTrip(r);
    PartnersRoundTrip(r);
    ScholarshipsRoundTrip(r);
    SimilarRoundTrip(r);
    PlanKeys(r);
    ListKeys(r);
  }
}
