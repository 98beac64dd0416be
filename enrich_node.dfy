/**
 * The enrichment step: the research gathered so far is compiled into one
 * bounded text for the model, and the model's structured answer becomes
 * the lead's profile.
 */
module EnrichNode {
  import opened Wrappers
  import opened PyStrings
  import opened JsonValues
  import opened LeadStates
  import opened LlmProvider

  const ContentCap := 6000
  const ResultsCap := 20
  const PositionsCap := 10
  const NewsCap := 5
  const ContextCap := 12000

  const WebsiteHeader := "=== WEBSITE CONTENT ===\n"
  const SearchHeader := "=== SEARCH RESULTS ===\n"
  const TechHeader := "=== DETECTED TECH STACK ===\n"
  const PositionsHeader := "=== OPEN POSITIONS ===\n"
  const NewsHeader := "=== RECENT NEWS ===\n"

  /** What the compiler reads: the research keys hold what the research step stores there. */
  predicate ResearchTypes(s: State) {
    OptStr(s, "website_content") && OptList(s, "search_results") && OptStrList(s, "tech_stack")
    && OptList(s, "open_positions") && OptList(s, "recent_news")
  }

  /** The items of a list-valued key; a missing key or None gives none. */
  function Items(s: State, k: string): (r: seq<Json>)
    requires OptList(s, k)
    ensures r == [] <==> !Has(s, k)
  {
    if Has(s, k) then s[k].items else []
  }

  /**
   * One line per item, all of which must be dicts (`item.get` raises on
   * anything else); None when one is not.
   */
  function DictLines(items: seq<Json>, line: JsonObject -> string): (r: Option<seq<string>>)
    ensures r.Some? <==> forall i :: 0 <= i < |items| ==> items[i].JObj?
    ensures r.Some? ==> |r.value| == |items| && forall i :: 0 <= i < |items| ==> r.value[i] == line(items[i].fields)
  {
    if forall i :: 0 <= i < |items| ==> items[i].JObj? then
      Some(seq(|items|, i requires 0 <= i < |items| => line(items[i].fields)))
    else None
  }

  function ResultLine(r: JsonObject): string {
    "- " + Show(FieldOr(r, "title", JStr(""))) + ": " + Show(FieldOr(r, "snippet", JStr("")))
    + " (source: " + Show(FieldOr(r, "url", JStr(""))) + ")"
  }

  function NewsLine(n: JsonObject): string {
    "- " + Show(FieldOr(n, "title", JStr(""))) + ": " + Show(FieldOr(n, "snippet", JStr("")))
  }

  /** `f"- {x}"` for each item. */
  function Bullets(items: seq<Json>): (r: seq<string>)
    ensures |r| == |items| && forall i :: 0 <= i < |items| ==> r[i] == "- " + Show(items[i])
  {
    seq(|items|, i requires 0 <= i < |items| => "- " + Show(items[i]))
  }

  /** The lines of the news section: dict lines when the first item is a dict, plain ones otherwise. */
  function NewsLines(news: seq<Json>): (r: Option<seq<string>>)
    requires news != []
    ensures !news[0].JObj? ==> r == Some(Bullets(Take(news, NewsCap)))
    ensures news[0].JObj? ==> r == DictLines(Take(news, NewsCap), NewsLine)
  {
    if news[0].JObj? then DictLines(Take(news, NewsCap), NewsLine) else Some(Bullets(Take(news, NewsCap)))
  }

  /** The sections, in order; each is absent when its key is empty, and None means a `get` raised. */
  function WebsiteSection(s: State): seq<string>
    requires ResearchTypes(s)
  {
    if Has(s, "website_content") then [WebsiteHeader + Take(s["website_content"].s, ContentCap)] else []
  }

  function SearchSection(s: State): Option<seq<string>>
    requires ResearchTypes(s)
  {
    if !Has(s, "search_results") then Some([])
    else match DictLines(Take(Items(s, "search_results"), ResultsCap), ResultLine)
      case None => None
      case Some(lines) => Some([SearchHeader + Join(lines, "\n")])
  }

  function TechSection(s: State): seq<string>
    requires ResearchTypes(s)
  {
    var tech := StrList(Val(s, "tech_stack"));
    if tech != [] then [TechHeader + Join(tech, ", ")] else []
  }

  function PositionsSection(s: State): seq<string>
    requires ResearchTypes(s)
  {
    if Has(s, "open_positions") then [PositionsHeader + Join(Bullets(Take(Items(s, "open_positions"), PositionsCap)), "\n")]
    else []
  }

  function NewsSection(s: State): Option<seq<string>>
    requires ResearchTypes(s)
  {
    if !Has(s, "recent_news") then Some([])
    else match NewsLines(Items(s, "recent_news"))
      case None => None
      case Some(lines) => Some([NewsHeader + Join(lines, "\n")])
  }

  /** `_compile_research_context`, or None when it raises. */
  function ResearchContext(s: State): Option<string>
    requires ResearchTypes(s)
  {
    if SearchSection(s).None? || NewsSection(s).None? then None
    else
      var sections := WebsiteSection(s) + SearchSection(s).value + TechSection(s) + PositionsSection(s) + NewsSection(s).value;
      Some(Take(Join(sections, "\n\n"), ContextCap))
  }

  /** `sections.append(...)` for a section that is there. */
  method AddSection(sections: seq<string>, section: seq<string>) returns (r: seq<string>)
    requires |section| <= 1
    ensures r == sections + section
  {
    r := sections;
    if section != [] {
      r := r + [section[0]];
    }
  }

  /** `_compile_research_context`, appending one section at a time. */
  method CompileResearchContext(s: State) returns (r: Option<string>)
    requires ResearchTypes(s)
    ensures r == ResearchContext(s)
  {
    var sections: seq<string> := [];
    var website, tech, positions := WebsiteSection(s), TechSection(s), PositionsSection(s);
    sections := AddSection(sections, website);
    assert sections == website;
    var search := SearchSection(s);
    if search.None? {
      return None;
    }
    sections := AddSection(sections, search.value);
    sections := AddSection(sections, tech);
    sections := AddSection(sections, positions);
    var news := NewsSection(s);
    if news.None? {
      return None;
    }
    sections := AddSection(sections, news.value);
    assert sections == website + search.value + tech + positions + news.value;
    r := Some(Take(Join(sections, "\n\n"), ContextCap));
  }

  /** The compiled context is never longer than 12000 characters. */
  lemma ContextBounded(s: State)
    requires ResearchTypes(s)
    ensures ResearchContext(s).Some? ==> |ResearchContext(s).value| <= ContextCap
  {
  }

  predicate AllDicts(items: seq<Json>) {
    forall i :: 0 <= i < |items| ==> items[i].JObj?
  }

  /** Compiling raises exactly when a search result, or (after a dict first item) a news item within the caps, is not a dict. */
  lemma ContextRaises(s: State)
    requires ResearchTypes(s)
    ensures ResearchContext(s).None? <==>
      || !AllDicts(Take(Items(s, "search_results"), ResultsCap))
      || (Has(s, "recent_news") && Items(s, "recent_news")[0].JObj? && !AllDicts(Take(Items(s, "recent_news"), NewsCap)))
  {
  }

  /** With nothing researched, the context is empty. */
  lemma NothingResearched(s: State)
    requires ResearchTypes(s)
    requires forall k :: k in ["website_content", "search_results", "tech_stack", "open_positions", "recent_news"] ==> !Has(s, k)
    ensures ResearchContext(s) == Some("")
  {
    assert !Has(s, "website_content") && !Has(s, "search_results") && !Has(s, "tech_stack");
    assert !Has(s, "open_positions") && !Has(s, "recent_news");
  }

  /** Whatever the sections, the website part comes first. */
  lemma JoinStartsWithFirst(parts: seq<string>, sep: string)
    requires parts != []
    ensures StartsWith(Join(parts, sep), parts[0])
  {
  }

  /** When there is website content, the context opens with its header. */
  lemma WebsiteFirst(s: State)
    requires ResearchTypes(s) && Has(s, "website_content")
    ensures ResearchContext(s).Some? ==> StartsWith(ResearchContext(s).value, WebsiteHeader)
  {
    if ResearchContext(s).Some? {
      var sections := WebsiteSection(s) + SearchSection(s).value + TechSection(s) + PositionsSection(s) + NewsSection(s).value;
      JoinStartsWithFirst(sections, "\n\n");
      var j := Join(sections, "\n\n");
      assert j[..|WebsiteHeader|] == WebsiteHeader by {
        assert sections[0] == WebsiteHeader + Take(s["website_content"].s, ContentCap);
        assert sections[0][..|WebsiteHeader|] == WebsiteHeader;
      }
      assert Take(j, ContextCap)[..|WebsiteHeader|] == WebsiteHeader;
    }
  }

  /** Website content and a tech stack, and nothing else: the two sections, split by a blank line. */
  lemma WebsiteThenTech(s: State)
    requires ResearchTypes(s) && Has(s, "website_content") && Has(s, "tech_stack")
    requires !Has(s, "search_results") && !Has(s, "open_positions") && !Has(s, "recent_news")
    ensures ResearchContext(s) ==
      Some(Take((WebsiteHeader + Take(s["website_content"].s, ContentCap)) + "\n\n" + (TechHeader + Join(StrList(s["tech_stack"]), ", ")),
                ContextCap))
  {
    var w := WebsiteHeader + Take(s["website_content"].s, ContentCap);
    var t := TechHeader + Join(StrList(s["tech_stack"]), ", ");
    var sections := [w, t];
    assert WebsiteSection(s) + SearchSection(s).value + TechSection(s) + PositionsSection(s) + NewsSection(s).value == sections;
    assert sections[1..] == [t];
    assert Join(sections, "\n\n") == w + "\n\n" + t;
  }

  /** Website content past the first 6000 characters is never read. */
  lemma ContentTailIgnored(s: State, extra: string)
    requires ResearchTypes(s) && Has(s, "website_content") && |s["website_content"].s| >= ContentCap
    ensures ResearchTypes(s["website_content" := JStr(s["website_content"].s + extra)])
    ensures ResearchContext(s["website_content" := JStr(s["website_content"].s + extra)]) == ResearchContext(s)
  {
    var t := s["website_content" := JStr(s["website_content"].s + extra)];
    TakeAppend(s["website_content"].s, extra, ContentCap);
    assert WebsiteSection(t) == WebsiteSection(s);
    assert SearchSection(t) == SearchSection(s) && NewsSection(t) == NewsSection(s);
    assert TechSection(t) == TechSection(s) && PositionsSection(t) == PositionsSection(s);
  }

  /** Search results past the twentieth are never read. */
  lemma ResultsTailIgnored(s: State, extra: seq<Json>)
    requires ResearchTypes(s) && |Items(s, "search_results")| >= ResultsCap
    ensures ResearchTypes(s["search_results" := JList(Items(s, "search_results") + extra)])
    ensures ResearchContext(s["search_results" := JList(Items(s, "search_results") + extra)]) == ResearchContext(s)
  {
    var t := s["search_results" := JList(Items(s, "search_results") + extra)];
    TakeAppend(Items(s, "search_results"), extra, ResultsCap);
    assert Items(t, "search_results") == Items(s, "search_results") + extra;
    assert SearchSection(t) == SearchSection(s);
    assert WebsiteSection(t) == WebsiteSection(s) && NewsSection(t) == NewsSection(s);
    assert TechSection(t) == TechSection(s) && PositionsSection(t) == PositionsSection(s);
  }

  /** Open positions past the tenth are never read. */
  lemma PositionsTailIgnored(s: State, extra: seq<Json>)
    requires ResearchTypes(s) && |Items(s, "open_positions")| >= PositionsCap
    ensures ResearchTypes(s["open_positions" := JList(Items(s, "open_positions") + extra)])
    ensures ResearchContext(s["open_positions" := JList(Items(s, "open_positions") + extra)]) == ResearchContext(s)
  {
    var t := s["open_positions" := JList(Items(s, "open_positions") + extra)];
    TakeAppend(Items(s, "open_positions"), extra, PositionsCap);
    assert Items(t, "open_positions") == Items(s, "open_positions") + extra;
    assert PositionsSection(t) == PositionsSection(s);
    assert WebsiteSection(t) == WebsiteSection(s) && NewsSection(t) == NewsSection(s);
    assert TechSection(t) == TechSection(s) && SearchSection(t) == SearchSection(s);
  }

  /** News items past the fifth are never read. */
  lemma NewsTailIgnored(s: State, extra: seq<Json>)
    requires ResearchTypes(s) && |Items(s, "recent_news")| >= NewsCap
    ensures ResearchTypes(s["recent_news" := JList(Items(s, "recent_news") + extra)])
    ensures ResearchContext(s["recent_news" := JList(Items(s, "recent_news") + extra)]) == ResearchContext(s)
  {
    var t := s["recent_news" := JList(Items(s, "recent_news") + extra)];
    var news := Items(s, "recent_news");
    TakeAppend(news, extra, NewsCap);
    assert Items(t, "recent_news") == news + extra;
    assert (news + extra)[0] == news[0];
    assert NewsSection(t) == NewsSection(s);
    assert WebsiteSection(t) == WebsiteSection(s) && PositionsSection(t) == PositionsSection(s);
    assert TechSection(t) == TechSection(s) && SearchSection(t) == SearchSection(s);
  }

  /** The profile keys `enrich_node` stores. */
  const ProfileKeys: set<string> :=
    {"company_description", "industry", "is_b2b", "employee_count", "company_size_category",
     "pain_points", "buying_signals", "ceo_name", "ceo_title", "ceo_linkedin", "company_email",
     "hr_email", "headquarters", "founded_year", "funding_status", "social_profiles"}

  /** The reply field a profile key is read from: its own name, except the size estimate. */
  function ReplyKey(k: string): string {
    if k == "employee_count" then "employee_count_estimate" else k
  }

  /** `parsed.get(key)` gives None for a missing key, except the two lists, which default to []. */
  function ProfileDefault(k: string): Json {
    if k == "pain_points" || k == "buying_signals" then JList([]) else JNull
  }

  function Profile(fields: JsonObject): State {
    map k | k in ProfileKeys :: FieldOr(fields, ReplyKey(k), ProfileDefault(k))
  }

  /** The `try` block of `enrich_node`: `reply` is what the call and `parse_json_response` produced, or what they raised. */
  function EnrichUpdate(reply: Reply, now: string): State {
    match reply
    case Replied(JObj(fields)) => Profile(fields)["status" := JStr("scoring")]["updated_at" := JStr(now)]
    case Replied(parsed) => EnrichFailed(now, NoGetError(parsed))
    case Raised(e) => EnrichFailed(now, e)
  }

  /** `enrich_node`. The context is compiled before the `try`, so a `get` that raises there escapes the node (None). */
  function Enrich(s: State, reply: Reply, now: string): (r: Option<State>)
    requires ResearchTypes(s)
    ensures r.Some? <==> ResearchContext(s).Some?
    ensures r.Some? ==> r.value == EnrichUpdate(reply, now)
  {
    if ResearchContext(s).None? then None else Some(EnrichUpdate(reply, now))
  }

  function EnrichFailed(now: string, e: string): State {
    map["status" := JStr("scoring"), "updated_at" := JStr(now), "error_message" := JStr("Enrichment failed: " + e)]
  }

  /** The update always moves the lead on to scoring; a failed call adds only the error. */
  lemma EnrichOutcome(reply: Reply, now: string)
    ensures var u := EnrichUpdate(reply, now);
      && u["status"] == JStr("scoring") && u["updated_at"] == JStr(now)
      && ("error_message" in u <==> !(reply.Replied? && reply.parsed.JObj?))
    ensures var u := EnrichUpdate(reply, now);
      !(reply.Replied? && reply.parsed.JObj?) ==>
        && u.Keys == {"status", "updated_at", "error_message"}
        && u["error_message"] == JStr("Enrichment failed: " + (if reply.Raised? then reply.error else NoGetError(reply.parsed)))
  {
    if reply.Replied? && reply.parsed.JObj? {
      DictReplyOutcome(reply.parsed.fields, now);
    } else {
      var e := if reply.Raised? then reply.error else NoGetError(reply.parsed);
      assert EnrichUpdate(reply, now) == EnrichFailed(now, e);
      FailedUpdateKeys(now, e);
    }
  }

  /** A dict reply sets the status and the time, and no error. */
  lemma DictReplyOutcome(fields: JsonObject, now: string)
    ensures var u := EnrichUpdate(Replied(JObj(fields)), now);
      u["status"] == JStr("scoring") && u["updated_at"] == JStr(now) && "error_message" !in u
  {
    assert "error_message" !in ProfileKeys;
    assert "error_message" !in Profile(fields);
  }

  /** A failed call stores the status, the time and the error, and nothing else. */
  lemma FailedUpdateKeys(now: string, e: string)
    ensures var u := EnrichFailed(now, e);
      && u.Keys == {"status", "updated_at", "error_message"}
      && u["status"] == JStr("scoring") && u["updated_at"] == JStr(now)
      && u["error_message"] == JStr("Enrichment failed: " + e)
  {
  }

  /** A dict reply stores the profile keys, the status and the time, and nothing else. */
  lemma EnrichProfileKeys(fields: JsonObject, now: string)
    ensures EnrichUpdate(Replied(JObj(fields)), now).Keys == ProfileKeys + {"status", "updated_at"}
  {
    assert Profile(fields).Keys == ProfileKeys;
  }

  /** A dict reply fills in each profile key from its field, or the default. */
  lemma EnrichProfileValue(fields: JsonObject, now: string, k: string)
    requires k in ProfileKeys
    ensures EnrichUpdate(Replied(JObj(fields)), now)[k] == FieldOr(fields, ReplyKey(k), ProfileDefault(k))
  {
    assert k != "status" && k != "updated_at";
  }

  /** The size estimate lands in employee_count, and missing pain points become an empty list. */
  lemma EnrichRenames(fields: JsonObject, now: string)
    ensures var u := EnrichUpdate(Replied(JObj(fields)), now);
      && u["employee_count"] == FieldOr(fields, "employee_count_estimate", JNull)
      && u["pain_points"] == FieldOr(fields, "pain_points", JList([]))
      && (Field(fields, "pain_points").None? ==> u["pain_points"] == JList([]))
  {
    EnrichProfileValue(fields, now, "employee_count");
    EnrichProfileValue(fields, now, "pain_points");
  }

  /** Enrichment never overwrites the research it was compiled from. */
  lemma EnrichKeepsResearch(s: State, reply: Reply, now: string, k: string)
    requires k in {"website_content", "search_results", "tech_stack", "open_positions", "recent_news"}
    ensures Val(Merge(s, EnrichUpdate(reply, now)), k) == Val(s, k)
  {
    assert k != "status" && k != "updated_at";
    if reply.Replied? && reply.parsed.JObj? {
      assert k !in ProfileKeys;
    } else {
      assert k != "error_message";
    }
    assert k !in EnrichUpdate(reply, now);
  }
}
