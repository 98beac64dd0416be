/**
 * The drafting step: the personalisation hooks taken from the research,
 * and the update built from the model's drafted e-mail.
 */
module DraftingNode {
  import opened Wrappers
  import opened PyStrings
  import opened JsonValues
  import opened LeadStates
  import opened LlmProvider

  const DefaultHook := "Growing company in their space"

  /** The list-valued keys the hooks read hold what LeadState declares for them. */
  predicate HookTypes(s: State) {
    OptStrList(s, "tech_stack") && OptStrList(s, "open_positions") && OptStrList(s, "buying_signals")
    && OptList(s, "recent_news")
  }

  /** The hook mentioning a field's text, when the field is truthy. */
  function TextHook(s: State, k: string, prefix: string): (r: Option<string>)
    ensures r.Some? <==> Has(s, k)
  {
    if Has(s, k) then Some(prefix + Show(s[k])) else None
  }

  function SizeHook(s: State): (r: Option<string>)
    ensures r.Some? <==> Has(s, "employee_count")
  {
    if Has(s, "employee_count") then Some("Company size: ~" + Show(s["employee_count"]) + " employees") else None
  }

  function TechHook(s: State): (r: Option<string>)
    requires OptStrList(s, "tech_stack")
    ensures r.Some? <==> Has(s, "tech_stack")
  {
    var tech := StrList(Val(s, "tech_stack"));
    if tech != [] then Some("They use " + Join(Take(tech, 4), ", ") + " in their tech stack") else None
  }

  function HiringHook(s: State): (r: Option<string>)
    requires OptStrList(s, "open_positions")
    ensures r.Some? <==> Has(s, "open_positions")
  {
    var positions := StrList(Val(s, "open_positions"));
    if positions != [] then Some("Currently hiring for: " + Join(Take(positions, 3), ", ")) else None
  }

  /** The CEO hook; a ceo_title key holding None is shown as "None". */
  function CeoHook(s: State): (r: Option<string>)
    ensures r.Some? <==> Has(s, "ceo_name")
  {
    if Has(s, "ceo_name") then Some("Led by " + Show(s["ceo_name"]) + " (" + Show(Get(s, "ceo_title", JStr("CEO"))) + ")")
    else None
  }

  /** The title of the first news item; an item that is not a dict stands for its own title. */
  function NewsTitle(first: Json): (t: Json)
    ensures !first.JObj? ==> Show(t) == Show(first)
  {
    if first.JObj? then FieldOr(first.fields, "title", JStr("")) else JStr(Show(first))
  }

  function NewsHook(s: State): (r: Option<string>)
    requires OptList(s, "recent_news")
    ensures r.Some? <==> Has(s, "recent_news")
  {
    if Has(s, "recent_news") then Some("Recent news: " + Show(NewsTitle(s["recent_news"].items[0]))) else None
  }

  function SignalHook(s: State): (r: Option<string>)
    requires OptStrList(s, "buying_signals")
    ensures r.Some? <==> Has(s, "buying_signals")
  {
    var signals := StrList(Val(s, "buying_signals"));
    if signals != [] then Some("Buying signal: " + signals[0]) else None
  }

  function Opt(h: Option<string>): (r: seq<string>)
    ensures |r| == Bit(h.Some?)
  {
    if h.Some? then [h.value] else []
  }

  /** The hooks that are there, in the fixed order. */
  function AllHooks(s: State): seq<string>
    requires HookTypes(s)
  {
    Opt(TechHook(s)) + Opt(HiringHook(s)) + Opt(CeoHook(s))
    + Opt(TextHook(s, "funding_status", "Funding stage: "))
    + Opt(TextHook(s, "headquarters", "Headquartered in "))
    + Opt(TextHook(s, "founded_year", "Founded in "))
    + Opt(NewsHook(s)) + Opt(SizeHook(s)) + Opt(SignalHook(s))
    + Opt(TextHook(s, "industry", "Operates in "))
    + Opt(TextHook(s, "hr_email", "HR contact: "))
  }

  /** `_build_personalization_hooks`: the hooks there are, or the stock one. */
  function Hooks(s: State): seq<string>
    requires HookTypes(s)
  {
    if AllHooks(s) == [] then [DefaultHook] else AllHooks(s)
  }

  /** `hooks.append(...)` under the hook's own guard. */
  method Append(hooks: seq<string>, h: Option<string>) returns (r: seq<string>)
    ensures r == hooks + Opt(h)
    ensures |r| == |hooks| + (if h.Some? then 1 else 0)
  {
    r := hooks;
    if h.Some? {
      r := r + [h.value];
    }
  }

  /** `_build_personalization_hooks`, appending one hook at a time. */
  method BuildPersonalizationHooks(s: State) returns (hooks: seq<string>)
    requires HookTypes(s)
    ensures hooks == Hooks(s)
  {
    hooks := [];
    hooks := Append(hooks, TechHook(s));
    assert hooks == Opt(TechHook(s));
    hooks := Append(hooks, HiringHook(s));
    assert hooks == Opt(TechHook(s)) + Opt(HiringHook(s));
    hooks := Append(hooks, CeoHook(s));
    assert hooks == Opt(TechHook(s)) + Opt(HiringHook(s)) + Opt(CeoHook(s));
    hooks := Append(hooks, TextHook(s, "funding_status", "Funding stage: "));
    assert hooks == Opt(TechHook(s)) + Opt(HiringHook(s)) + Opt(CeoHook(s)) + Opt(TextHook(s, "funding_status", "Funding stage: "));
    hooks := Append(hooks, TextHook(s, "headquarters", "Headquartered in "));
    assert hooks == Opt(TechHook(s)) + Opt(HiringHook(s)) + Opt(CeoHook(s)) + Opt(TextHook(s, "funding_status", "Funding stage: ")) + Opt(TextHook(s, "headquarters", "Headquartered in "));
    hooks := Append(hooks, TextHook(s, "founded_year", "Founded in "));
    assert hooks == Opt(TechHook(s)) + Opt(HiringHook(s)) + Opt(CeoHook(s)) + Opt(TextHook(s, "funding_status", "Funding stage: ")) + Opt(TextHook(s, "headquarters", "Headquartered in ")) + Opt(TextHook(s, "founded_year", "Founded in "));
    hooks := Append(hooks, NewsHook(s));
    assert hooks == Opt(TechHook(s)) + Opt(HiringHook(s)) + Opt(CeoHook(s)) + Opt(TextHook(s, "funding_status", "Funding stage: ")) + Opt(TextHook(s, "headquarters", "Headquartered in ")) + Opt(TextHook(s, "founded_year", "Founded in ")) + Opt(NewsHook(s));
    hooks := Append(hooks, SizeHook(s));
    assert hooks == Opt(TechHook(s)) + Opt(HiringHook(s)) + Opt(CeoHook(s)) + Opt(TextHook(s, "funding_status", "Funding stage: ")) + Opt(TextHook(s, "headquarters", "Headquartered in ")) + Opt(TextHook(s, "founded_year", "Founded in ")) + Opt(NewsHook(s)) + Opt(SizeHook(s));
    hooks := Append(hooks, SignalHook(s));
    assert hooks == Opt(TechHook(s)) + Opt(HiringHook(s)) + Opt(CeoHook(s)) + Opt(TextHook(s, "funding_status", "Funding stage: ")) + Opt(TextHook(s, "headquarters", "Headquartered in ")) + Opt(TextHook(s, "founded_year", "Founded in ")) + Opt(NewsHook(s)) + Opt(SizeHook(s)) + Opt(SignalHook(s));
    hooks := Append(hooks, TextHook(s, "industry", "Operates in "));
    assert hooks == Opt(TechHook(s)) + Opt(HiringHook(s)) + Opt(CeoHook(s)) + Opt(TextHook(s, "funding_status", "Funding stage: ")) + Opt(TextHook(s, "headquarters", "Headquartered in ")) + Opt(TextHook(s, "founded_year", "Founded in ")) + Opt(NewsHook(s)) + Opt(SizeHook(s)) + Opt(SignalHook(s)) + Opt(TextHook(s, "industry", "Operates in "));
    hooks := Append(hooks, TextHook(s, "hr_email", "HR contact: "));
    assert hooks == Opt(TechHook(s)) + Opt(HiringHook(s)) + Opt(CeoHook(s)) + Opt(TextHook(s, "funding_status", "Funding stage: ")) + Opt(TextHook(s, "headquarters", "Headquartered in ")) + Opt(TextHook(s, "founded_year", "Founded in ")) + Opt(NewsHook(s)) + Opt(SizeHook(s)) + Opt(SignalHook(s)) + Opt(TextHook(s, "industry", "Operates in ")) + Opt(TextHook(s, "hr_email", "HR contact: "));
    if hooks == [] {
      hooks := [DefaultHook];
    }
  }

  function Bit(b: bool): (n: nat)
    ensures n <= 1
  {
    if b then 1 else 0
  }

  /** One for each of the eleven keys the hooks come from that is truthy. */
  function HookCount(s: State): nat {
    Bit(Has(s, "tech_stack")) + Bit(Has(s, "open_positions")) + Bit(Has(s, "ceo_name"))
    + Bit(Has(s, "funding_status")) + Bit(Has(s, "headquarters")) + Bit(Has(s, "founded_year"))
    + Bit(Has(s, "recent_news")) + Bit(Has(s, "employee_count")) + Bit(Has(s, "buying_signals"))
    + Bit(Has(s, "industry")) + Bit(Has(s, "hr_email"))
  }

  /**
   * There is a hook for each truthy key, so at most eleven; the stock hook
   * stands alone exactly when none of the keys is truthy.
   */
  lemma HooksShape(s: State)
    requires HookTypes(s)
    ensures |AllHooks(s)| == HookCount(s) <= 11
    ensures 1 <= |Hooks(s)| <= 11
    ensures HookCount(s) == 0 ==> Hooks(s) == [DefaultHook]
    ensures HookCount(s) > 0 ==> Hooks(s) == AllHooks(s)
  {
    AllHooksCount(s);
  }

  /** One hook per truthy key. */
  lemma AllHooksCount(s: State)
    requires HookTypes(s)
    ensures |AllHooks(s)| == HookCount(s)
  {
    OptsCount(TechHook(s), HiringHook(s), CeoHook(s),
              TextHook(s, "funding_status", "Funding stage: "),
              TextHook(s, "headquarters", "Headquartered in "),
              TextHook(s, "founded_year", "Founded in "),
              NewsHook(s), SizeHook(s), SignalHook(s),
              TextHook(s, "industry", "Operates in "),
              TextHook(s, "hr_email", "HR contact: "));
    HookBits(s);
  }

  /** Each hook is there exactly when its key is truthy. */
  lemma HookBits(s: State)
    requires HookTypes(s)
    ensures Bit(TechHook(s).Some?) == Bit(Has(s, "tech_stack"))
    ensures Bit(HiringHook(s).Some?) == Bit(Has(s, "open_positions"))
    ensures Bit(CeoHook(s).Some?) == Bit(Has(s, "ceo_name"))
    ensures Bit(TextHook(s, "funding_status", "Funding stage: ").Some?) == Bit(Has(s, "funding_status"))
    ensures Bit(TextHook(s, "headquarters", "Headquartered in ").Some?) == Bit(Has(s, "headquarters"))
    ensures Bit(TextHook(s, "founded_year", "Founded in ").Some?) == Bit(Has(s, "founded_year"))
    ensures Bit(NewsHook(s).Some?) == Bit(Has(s, "recent_news"))
    ensures Bit(SizeHook(s).Some?) == Bit(Has(s, "employee_count"))
    ensures Bit(SignalHook(s).Some?) == Bit(Has(s, "buying_signals"))
    ensures Bit(TextHook(s, "industry", "Operates in ").Some?) == Bit(Has(s, "industry"))
    ensures Bit(TextHook(s, "hr_email", "HR contact: ").Some?) == Bit(Has(s, "hr_email"))
  {
  }

  /** Eleven optional hooks give one hook for each that is there. */
  lemma OptsCount(h1: Option<string>, h2: Option<string>, h3: Option<string>, h4: Option<string>,
                  h5: Option<string>, h6: Option<string>, h7: Option<string>, h8: Option<string>,
                  h9: Option<string>, h10: Option<string>, h11: Option<string>)
    ensures |Opt(h1) + Opt(h2) + Opt(h3) + Opt(h4) + Opt(h5) + Opt(h6) + Opt(h7) + Opt(h8) + Opt(h9) + Opt(h10) + Opt(h11)|
      == Bit(h1.Some?) + Bit(h2.Some?) + Bit(h3.Some?) + Bit(h4.Some?) + Bit(h5.Some?) + Bit(h6.Some?)
       + Bit(h7.Some?) + Bit(h8.Some?) + Bit(h9.Some?) + Bit(h10.Some?) + Bit(h11.Some?)
  {
  }

  /** Who signs the e-mail: `sender_name`, or the team when it is missing or empty. */
  function SenderName(s: State): (r: Json)
    ensures Truthy(r)
    ensures Has(s, "sender_name") ==> r == s["sender_name"]
  {
    if Has(s, "sender_name") then s["sender_name"] else JStr("NexusAI Team")
  }

  /** The HR address offered to the prompt: `hr_email`, else `company_email`, else "". */
  function HrEmail(s: State): (r: Json)
    ensures Truthy(r) <==> Has(s, "hr_email") || Has(s, "company_email")
    ensures Has(s, "hr_email") ==> r == s["hr_email"]
    ensures !Has(s, "hr_email") && Has(s, "company_email") ==> r == s["company_email"]
  {
    if Has(s, "hr_email") then s["hr_email"] else if Has(s, "company_email") then s["company_email"] else JStr("")
  }

  /** The hooks as the `list[str]` value stored in the state. */
  function HookList(hooks: seq<string>): (j: Json)
    ensures HasType(j, TOptStrList) && StrList(j) == hooks
  {
    JList(seq(|hooks|, i requires 0 <= i < |hooks| => JStr(hooks[i])))
  }

  /** The `try` block of `drafting_node`, given the hooks built before it. */
  function DraftUpdate(hooks: seq<string>, reply: Reply, now: string): State {
    match reply
    case Replied(JObj(fields)) =>
      map["status" := JStr("drafting_complete"),
          "updated_at" := JStr(now),
          "draft_email_subject" := FieldOr(fields, "subject", JStr("")),
          "draft_email_body" := FieldOr(fields, "body", JStr("")),
          "personalization_hooks" := HookList(hooks)]
    case Replied(parsed) => DraftingFailed(now, NoGetError(parsed))
    case Raised(e) => DraftingFailed(now, e)
  }

  /**
   * `drafting_node`: `reply` is what the call and `parse_json_response`
   * produced, or what they raised.
   */
  function Drafting(s: State, reply: Reply, now: string): State
    requires HookTypes(s)
  {
    DraftUpdate(Hooks(s), reply, now)
  }

  function DraftingFailed(now: string, e: string): State {
    map["status" := JStr("drafting_complete"),
        "updated_at" := JStr(now),
        "error_message" := JStr("Email drafting failed: " + e),
        "draft_email_subject" := JStr(""),
        "draft_email_body" := JStr("")]
  }

  /** Drafting always completes, and records an error exactly when the reply is not a dict. */
  lemma DraftingCompletes(hooks: seq<string>, reply: Reply, now: string)
    ensures var u := DraftUpdate(hooks, reply, now);
      && u["status"] == JStr("drafting_complete") && u["updated_at"] == JStr(now)
      && ("personalization_hooks" in u <==> "error_message" !in u)
      && ("error_message" in u <==> !(reply.Replied? && reply.parsed.JObj?))
  {
  }

  /** A dict reply stores its subject and body, with the hooks. */
  lemma DraftingStoresDraft(hooks: seq<string>, fields: JsonObject, now: string)
    ensures var u := DraftUpdate(hooks, Replied(JObj(fields)), now);
      && u.Keys == {"status", "updated_at", "draft_email_subject", "draft_email_body", "personalization_hooks"}
      && u["draft_email_subject"] == FieldOr(fields, "subject", JStr(""))
      && u["draft_email_body"] == FieldOr(fields, "body", JStr(""))
      && StrList(u["personalization_hooks"]) == hooks
  {
  }

  /** Any other reply stores the error and empties the draft. */
  lemma DraftingStoresError(hooks: seq<string>, reply: Reply, now: string)
    requires !(reply.Replied? && reply.parsed.JObj?)
    ensures var u := DraftUpdate(hooks, reply, now);
      && u.Keys == {"status", "updated_at", "error_message", "draft_email_subject", "draft_email_body"}
      && u["draft_email_subject"] == JStr("") && u["draft_email_body"] == JStr("")
      && u["error_message"] == JStr("Email drafting failed: " + (if reply.Raised? then reply.error else NoGetError(reply.parsed)))
  {
  }

  /** The stored hooks are never empty: the stock hook fills in when the research found nothing. */
  lemma StoredHooksNonEmpty(s: State, fields: JsonObject, now: string)
    requires HookTypes(s)
    ensures var j := Drafting(s, Replied(JObj(fields)), now)["personalization_hooks"];
      HasType(j, TOptStrList) && StrList(j) == Hooks(s) && Truthy(j)
  {
    DraftingStoresDraft(Hooks(s), fields, now);
    HooksShape(s);
  }

  /** After a failed draft the lead has no draft body, so the send step cannot hand a message over. */
  lemma FailedDraftHasNoBody(s: State, hooks: seq<string>, reply: Reply, now: string)
    requires "error_message" in DraftUpdate(hooks, reply, now)
    ensures !Has(Merge(s, DraftUpdate(hooks, reply, now)), "draft_email_body")
  {
    DraftingCompletes(hooks, reply, now);
    DraftingStoresError(hooks, reply, now);
  }
}
