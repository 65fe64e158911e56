/**
 * The first half of `parse_itmo_program`: choosing the page's JSON data island,
 * unwrapping an HTML comment around it, decoding it (with the salvage pass) and
 * walking the fixed path `props.pageProps.{apiProgram, jsonProgram}`.
 *
 * The HTML parser and the regular-expression scan are outside the model: their
 * results arrive as `nextData` (the text of `<script id="__NEXT_DATA__">`, if
 * that tag was found and has a single text child) and `matches` (the bodies of
 * the `application/json` script blocks, in page order). `json.loads` arrives as
 * an arbitrary partial function `loads`; `None` is a JSONDecodeError.
 */
module ScraperIsland {
  import opened Wrappers
  import opened PyStrings
  import opened PyJson

  /** Why no record is produced. The first three are the ValueErrors the function raises. */
  datatype Error =
    | NoIsland           // neither a non-empty __NEXT_DATA__ text nor a qualifying JSON block
    | Unparseable        // the strict parse and the salvage pass both failed
    | StructureMismatch  // a KeyError along the fixed path, re-raised as ValueError
    | Fault              // an exception the function does not catch (TypeError, AttributeError, IndexError, a KeyError outside the try)
    | UnorderedKeys      // the result would depend on a dict's key order, which a map does not hold

  const PropsMarker: string := "\"props\""
  const SsgMarker: string := "__N_SSG"

  /** The fallback test for a JSON script block (scraper.py:57). */
  predicate IsCandidate(m: string) {
    Contains(m, PropsMarker) && Contains(m, SsgMarker)
  }

  /** The position of the first candidate block, if any. */
  function FirstCandidate(matches: seq<string>): (r: Option<nat>)
    ensures r.Some? ==> r.value < |matches| && IsCandidate(matches[r.value])
    ensures r.Some? ==> forall j :: 0 <= j < r.value ==> !IsCandidate(matches[j])
    ensures r.None? <==> forall j :: 0 <= j < |matches| ==> !IsCandidate(matches[j])
    decreases |matches|
  {
    if |matches| == 0 then None
    else if IsCandidate(matches[0]) then Some(0)
    else
      match FirstCandidate(matches[1..])
      case None => None
      case Some(k) => Some(k + 1)
  }

  /** The island text: the non-empty __NEXT_DATA__ text, else the first candidate block. */
  function Island(nextData: Option<string>, matches: seq<string>): Result<string, Error> {
    if nextData.Some? && nextData.value != "" then Ok(nextData.value)
    else
      match FirstCandidate(matches)
      case Some(k) => Ok(matches[k])
      case None => Err(NoIsland)
  }

  /** The `for ... else` search of scraper.py:48-61. */
  method SelectIsland(nextData: Option<string>, matches: seq<string>) returns (r: Result<string, Error>)
    ensures r == Island(nextData, matches)
    ensures r.Err? <==> (nextData.None? || nextData.value == "")
                        && forall j :: 0 <= j < |matches| ==> !IsCandidate(matches[j])
    ensures r.Ok? && (nextData.None? || nextData.value == "") ==>
              exists k :: 0 <= k < |matches| && r.value == matches[k] && IsCandidate(matches[k])
  {
    if nextData.Some? && nextData.value != "" {
      return Ok(nextData.value);
    }
    r := Err(NoIsland);
    var i := 0;
    while i < |matches|
      invariant 0 <= i <= |matches|
      invariant forall j :: 0 <= j < i ==> !IsCandidate(matches[j])
      invariant r == Err(NoIsland)
    {
      if Contains(matches[i], PropsMarker) && Contains(matches[i], SsgMarker) {
        r := Ok(matches[i]);
        break;
      }
      i := i + 1;
    }
    if r.Ok? {
      assert FirstCandidate(matches) == Some(i);
    }
  }

  const CommentOpen: string := "<!--"
  const CommentClose: string := "-->"

  /**
   * `re.sub(r'^<!--(.*?)-->$', r'\1', s, flags=re.DOTALL)` on an already stripped `s`:
   * the pattern needs the opening and the closing marker without overlap, and `$`
   * can only sit at the very end because a stripped string has no final newline.
   */
  function CommentSub(s: string): string {
    if |s| >= |CommentOpen| + |CommentClose| && StartsWith(s, CommentOpen) && EndsWith(s, CommentClose)
    then s[|CommentOpen|..|s| - |CommentClose|]
    else s
  }

  /** scraper.py:64-66: strip, and unwrap a `<!-- ... -->` wrapper. */
  function CleanIsland(raw: string): (r: string)
    ensures Trimmed(r)
  {
    var s := Strip(raw);
    if StartsWith(s, CommentOpen) then Strip(CommentSub(s)) else s
  }

  /** Only a whole `<!-- ... -->` wrapper around the stripped text is removed; anything else is only stripped. */
  lemma CleanIslandCases(raw: string)
    ensures var s := Strip(raw);
            if |s| >= 7 && StartsWith(s, CommentOpen) && EndsWith(s, CommentClose)
            then CleanIsland(raw) == Strip(s[4..|s| - 3])
            else CleanIsland(raw) == s
  {
    CommentCases(Strip(raw));
  }

  /** On a stripped text, unwrapping changes something only for a whole `<!-- ... -->` wrapper. */
  lemma CommentCases(s: string)
    requires Trimmed(s)
    ensures (if StartsWith(s, CommentOpen) then Strip(CommentSub(s)) else s) ==
            (if |s| >= 7 && StartsWith(s, CommentOpen) && EndsWith(s, CommentClose) then Strip(s[4..|s| - 3]) else s)
  {
    assert |CommentOpen| == 4 && |CommentClose| == 3;
  }

  /** The markers may not overlap: `<!--->` is left as it is. */
  lemma OverlappingMarkersKept()
    ensures StartsWith("<!--->", CommentOpen) && EndsWith("<!--->", CommentClose)
    ensures CleanIsland("<!--->") == "<!--->"
  {
    var s := "<!--->";
    assert s[..4] == CommentOpen && s[3..] == CommentClose;
    assert Trimmed(s) && Strip(s) == s && |s| == 6;
    CleanIslandCases(s);
  }

  const RootSignature: string := "{\"props\":"

  /**
   * The salvage slice `s[s.find('{"props":'):s.rfind('}') + 1]`, when the root
   * signature occurs and the last `}` lies after it.
   */
  function SalvageSlice(s: string): (r: Option<string>)
    ensures r.Some? <==> Contains(s, RootSignature) && '}' in s[Find(s, RootSignature)..]
    ensures r.Some? ==> StartsWith(r.value, RootSignature) && EndsWith(r.value, "}")
    ensures r.Some? ==> var start := Find(s, RootSignature);
                        start + |r.value| <= |s| && r.value == s[start..start + |r.value|]
                        && '}' !in s[start + |r.value|..]
  {
    var start := Find(s, RootSignature);
    var last := RFindChar(s, '}');
    SalvageBounds(s, start, last);
    if start != -1 && last + 1 > start then Some(s[start..last + 1]) else None
  }

  /** The slice bounds from `find` and `rfind`, and what they say about the text. */
  lemma SalvageBounds(s: string, start: int, last: int)
    requires start == -1 <==> !Contains(s, RootSignature)
    requires start != -1 ==> 0 <= start && start + |RootSignature| <= |s|
                             && s[start..start + |RootSignature|] == RootSignature
    requires -1 <= last < |s| && (last == -1 <==> '}' !in s)
    requires last != -1 ==> s[last] == '}' && '}' !in s[last + 1..]
    ensures start != -1 && last + 1 > start <==> Contains(s, RootSignature) && '}' in s[start..]
    ensures start != -1 && last + 1 > start ==>
              StartsWith(s[start..last + 1], RootSignature) && EndsWith(s[start..last + 1], "}")
  {
    if start != -1 {
      LastBraceFrom(s, start, last);
      if last + 1 > start {
        SliceShape(s, start, last);
      }
    }
  }

  /** Some `}` lies at or after `start` exactly when the last one does. */
  lemma LastBraceFrom(s: string, start: nat, last: int)
    requires start <= |s|
    requires -1 <= last < |s| && (last == -1 <==> '}' !in s)
    requires last != -1 ==> s[last] == '}' && '}' !in s[last + 1..]
    ensures '}' in s[start..] <==> last >= start
  {
    if '}' in s[start..] {
      var k :| 0 <= k < |s[start..]| && s[start..][k] == '}';
      assert s[start + k] == '}';
    }
    if last >= start {
      assert s[start..][last - start] == '}';
    }
  }

  /** A `}` at or after the signature lies beyond it, so the slice starts and ends as promised. */
  lemma SliceShape(s: string, start: nat, last: nat)
    requires start + |RootSignature| <= |s| && s[start..start + |RootSignature|] == RootSignature
    requires start <= last < |s| && s[last] == '}'
    ensures last >= start + |RootSignature|
    ensures StartsWith(s[start..last + 1], RootSignature) && EndsWith(s[start..last + 1], "}")
  {
    assert '}' !in RootSignature;
    var slice := s[start..last + 1];
    assert slice[..|RootSignature|] == s[start..start + |RootSignature|];
    assert slice[|slice| - 1..] == [s[last]];
  }

  /** scraper.py:63-83: strict parse of the cleaned text, else one salvage attempt. */
  function ParseIsland(island: string, loads: string -> Option<Json>): Result<Json, Error> {
    var s := CleanIsland(island);
    match loads(s)
    case Some(d) => Ok(d)
    case None =>
      match SalvageSlice(s)
      case None => Err(Unparseable)
      case Some(c) => (
        match loads(c)
        case Some(d) => Ok(d)
        case None => Err(Unparseable))
  }

  /**
   * The salvage pass runs only when the strict parse fails; the decoded value comes
   * from the cleaned text or from its salvage slice; every failure is Unparseable.
   */
  lemma ParseIslandOutcome(island: string, loads: string -> Option<Json>)
    ensures var s := CleanIsland(island);
            && (loads(s).Some? ==> ParseIsland(island, loads) == Ok(loads(s).value))
            && (ParseIsland(island, loads).Err? <==>
                  loads(s).None? && (SalvageSlice(s).None? || loads(SalvageSlice(s).value).None?))
            && (ParseIsland(island, loads).Err? ==> ParseIsland(island, loads).error == Unparseable)
            && (ParseIsland(island, loads).Ok? && loads(s).None? ==>
                  SalvageSlice(s).Some? && loads(SalvageSlice(s).value) == Some(ParseIsland(island, loads).value))
  {
  }

  /** The step-by-step reassignment of `json_str` in scraper.py:63-83. */
  method DecodeIsland(island: string, loads: string -> Option<Json>) returns (r: Result<Json, Error>)
    ensures r == ParseIsland(island, loads)
  {
    var jsonStr := StripComment(island);
    var data := loads(jsonStr);
    if data.Some? {
      return Ok(data.value);
    }
    var clean := SalvageText(jsonStr);
    if clean.Some? {
      data := loads(clean.value);
      if data.Some? {
        return Ok(data.value);
      }
    }
    return Err(Unparseable);
  }

  /** scraper.py:64-66 */
  method StripComment(island: string) returns (jsonStr: string)
    ensures jsonStr == CleanIsland(island)
  {
    jsonStr := Strip(island);
    if StartsWith(jsonStr, CommentOpen) {
      jsonStr := Strip(CommentSub(jsonStr));
    }
  }

  /** scraper.py:75-81 */
  method SalvageText(jsonStr: string) returns (clean: Option<string>)
    ensures clean == SalvageSlice(jsonStr)
  {
    var start := Find(jsonStr, RootSignature);
    var end := RFindChar(jsonStr, '}') + 1;
    if start != -1 && end > start {
      clean := Some(jsonStr[start..end]);
    } else {
      clean := None;
    }
  }

  /** What the record is built from: the `pageProps` dict and four values taken from it. */
  datatype Page = Page(pageProps: map<string, Json>, program: Json, program2: Json, examDates: Json, similar: Json)

  /** `data.props.pageProps`, present and a dict. */
  predicate HasPageProps(data: Json) {
    && data.JObject? && "props" in data.fields
    && data.fields["props"].JObject? && "pageProps" in data.fields["props"].fields
    && data.fields["props"].fields["pageProps"].JObject?
  }

  function PageProps(data: Json): map<string, Json>
    requires HasPageProps(data)
  {
    data.fields["props"].fields["pageProps"].fields
  }

  /** Every key the fixed path reads without a default is there. */
  predicate HasPath(data: Json) {
    HasPageProps(data)
    && "apiProgram" in PageProps(data) && "jsonProgram" in PageProps(data) && "similarPrograms" in PageProps(data)
  }

  /** One of `props`, `pageProps`, `apiProgram`, `jsonProgram`, `similarPrograms` is missing from a dict. */
  predicate MissingKey(data: Json) {
    data.JObject?
    && ("props" !in data.fields
        || (data.fields["props"].JObject?
            && ("pageProps" !in data.fields["props"].fields
                || (data.fields["props"].fields["pageProps"].JObject?
                    && !HasPath(data)))))
  }

  /** scraper.py:86-98, including the `page_props.keys()` and `page_props['similarPrograms']` of the diagnostics. */
  function Navigate(data: Json): (r: Result<Page, Error>)
    ensures r.Ok? <==> HasPath(data)
    ensures r.Ok? ==> r.value.pageProps == PageProps(data)
                      && r.value.program == PageProps(data)["apiProgram"]
                      && r.value.program2 == PageProps(data)["jsonProgram"]
                      && r.value.similar == PageProps(data)["similarPrograms"]
                      && r.value.examDates == (if "examDates" in PageProps(data) then PageProps(data)["examDates"] else EmptyArray)
    ensures MissingKey(data) ==> r == Err(StructureMismatch)
  {
    match data
    case JObject(top) =>
      var props := if "props" in top then top["props"] else EmptyObject;
      (match props
      case JObject(pm) =>
        var pp := if "pageProps" in pm then pm["pageProps"] else EmptyObject;
        if Truthy(pp) && !pp.JObject? then Err(Fault)
        else if Truthy(pp) && "similarPrograms" !in pp.fields then Err(StructureMismatch)
        else if "props" !in top || "pageProps" !in pm then Err(StructureMismatch)
        else if !pp.JObject? then Err(Fault)
        else if "apiProgram" !in pp.fields || "jsonProgram" !in pp.fields then Err(StructureMismatch)
        else
          assert Truthy(pp);
          var exam := if "examDates" in pp.fields then pp.fields["examDates"] else EmptyArray;
          Ok(Page(pp.fields, pp.fields["apiProgram"], pp.fields["jsonProgram"], exam, pp.fields["similarPrograms"]))
      case _ => Err(Fault))
    case _ => Err(Fault)
  }
}
