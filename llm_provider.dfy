/**
 * The language-model front door: which backend `generate` calls and with
 * what system prompt, and how `parse_json_response` reads a reply. The
 * HTTP calls themselves and `json.loads` are not part of this model; the
 * decoder is a parameter.
 */
module LlmProvider {
  import opened Wrappers
  import opened PyStrings
  import opened JsonValues

  /** What a node gets back from `generate` then `parse_json_response`, or the text of the exception raised. */
  datatype Reply = Replied(parsed: Json) | Raised(error: string)

  datatype Backend = Groq | Ollama

  /** The call `generate` hands to a backend. */
  datatype Request = Request(backend: Backend, prompt: string, systemPrompt: string, temperature: real, maxTokens: int)

  const JsonInstruction: string := "\nYou MUST respond with valid JSON only. No markdown, no explanations."

  /**
   * `generate` up to the HTTP call: JSON mode appends the instruction to the
   * system prompt, and LLM_PROVIDER picks the backend or raises ValueError.
   */
  function Generate(provider: string, prompt: string, systemPrompt: string,
                    temperature: real, maxTokens: int, responseFormat: string): (r: Result<Request, string>)
    ensures r.Ok? <==> provider == "groq" || provider == "ollama"
    ensures r.Err? ==> r.error == "Unknown LLM_PROVIDER: " + provider
    ensures r.Ok? ==> r.value.backend == (if provider == "groq" then Groq else Ollama)
    ensures r.Ok? ==> r.value.prompt == prompt && r.value.temperature == temperature && r.value.maxTokens == maxTokens
    ensures r.Ok? ==> StartsWith(r.value.systemPrompt, systemPrompt)
    ensures r.Ok? ==> (r.value.systemPrompt == systemPrompt + JsonInstruction <==> responseFormat == "json")
  {
    var sp := if responseFormat == "json" then systemPrompt + JsonInstruction else systemPrompt;
    assert sp[..|systemPrompt|] == systemPrompt;
    assert responseFormat != "json" ==> |sp| < |systemPrompt + JsonInstruction|;
    if provider == "groq" then Ok(Request(Groq, prompt, sp, temperature, maxTokens))
    else if provider == "ollama" then Ok(Request(Ollama, prompt, sp, temperature, maxTokens))
    else Err("Unknown LLM_PROVIDER: " + provider)
  }

  /**
   * `re.sub(r"^```(?:json)?\s*\n?", "", c)`: the three backticks, a "json"
   * tag when there is one, and all the whitespace after them.
   */
  function DropOpeningFence(c: string): (r: string)
    requires StartsWith(c, "```")
    ensures |r| <= |c| - 3 && r == c[|c| - |r|..]
    ensures r == [] || !IsSpace(r[0])
  {
    var rest := c[3..];
    var afterTag := if StartsWith(rest, "json") then rest[4..] else rest;
    LStrip(afterTag)
  }

  /**
   * `re.sub(r"\n?```\s*$", "", c)` on a text with no trailing whitespace:
   * a final three backticks go, with the newline before them.
   */
  function DropClosingFence(c: string): (r: string)
    requires c == [] || !IsSpace(c[|c| - 1])
    ensures |r| <= |c| && r == c[..|r|]
    ensures EndsWith(c, "```") ==> |r| == |c| - 3 || (|r| == |c| - 4 && c[|r|] == '\n')
    ensures !EndsWith(c, "```") ==> r == c
  {
    if EndsWith(c, "```") then
      var d := c[..|c| - 3];
      if EndsWith(d, "\n") then d[..|d| - 1] else d
    else c
  }

  /** The text `parse_json_response` hands to the decoder first. */
  function Clean(text: string): string {
    var c := Strip(text);
    if StartsWith(c, "```") then
      var o := DropOpeningFence(c);
      assert o != [] ==> o[|o| - 1] == c[|c| - 1];
      DropClosingFence(o)
    else c
  }

  /**
   * The span `re.search(r"\{[\s\S]*\}", c)` finds: from the first "{" to
   * the last "}" after it.
   */
  function BraceSpan(c: string): (r: Option<(nat, nat)>)
    ensures r.Some? ==> var (i, j) := r.value;
      && i < j < |c| && c[i] == '{' && c[j] == '}'
      && '{' !in c[..i] && '}' !in c[j + 1..]
    ensures r.None? <==> ('{' !in c || '}' !in c[IndexOf(c, '{')..])
  {
    if '{' !in c then None
    else
      var i := IndexOf(c, '{');
      var tail := c[i..];
      if '}' !in tail then None
      else
        var j := i + LastIndexOf(tail, '}');
        assert c[j + 1..] == tail[j - i + 1..];
        Some((i, j))
  }

  /**
   * `parse_json_response`, with `decode` standing for `json.loads` (None
   * where it raises JSONDecodeError): the cleaned text, else the brace
   * span, else an empty dict.
   */
  function ParseJsonResponse(text: string, decode: string -> Option<Json>): (r: Json)
    ensures decode(Clean(text)).Some? ==> r == decode(Clean(text)).value
    ensures decode(Clean(text)).None? ==> r == DecodeBraces(Clean(text), decode)
  {
    var c := Clean(text);
    if decode(c).Some? then decode(c).value else DecodeBraces(c, decode)
  }

  /** The fallback: the brace span decoded, else an empty dict. */
  function DecodeBraces(c: string, decode: string -> Option<Json>): (r: Json)
    ensures BraceSpan(c).None? ==> r == JObj([])
    ensures BraceSpan(c).Some? ==> r == decode(c[BraceSpan(c).value.0..BraceSpan(c).value.1 + 1]).GetOr(JObj([]))
  {
    var span := BraceSpan(c);
    if span.None? then JObj([]) else decode(c[span.value.0..span.value.1 + 1]).GetOr(JObj([]))
  }

  /** Leading whitespace before a non-space character is all that LStrip removes. */
  lemma LStripNewline(x: string)
    requires x != [] && !IsSpace(x[0])
    ensures LStrip("\n" + x) == x
  {
    assert ("\n" + x)[1..] == x;
  }

  /** The opening fence and its tag and newline go. */
  lemma OpeningFenceOf(body: string, t: string)
    requires body != [] && !IsSpace(body[0])
    requires t == "```json\n" + body + "\n```"
    ensures StartsWith(t, "```") && DropOpeningFence(t) == body + "\n```"
  {
    assert t[..3] == "```";
    var rest := t[3..];
    assert rest[..4] == "json";
    assert rest[4..] == "\n" + (body + "\n```");
    LStripNewline(body + "\n```");
  }

  /** The closing fence goes with the newline before it. */
  lemma ClosingFenceOf(body: string, o: string)
    requires o == body + "\n```"
    ensures DropClosingFence(o) == body
  {
    assert o[|o| - 3..] == "```";
    var d := o[..|o| - 3];
    assert d == body + "\n";
    assert d[..|d| - 1] == body;
  }

  /** A reply fenced as a json code block is read as the text inside the fence. */
  lemma FencedReply(body: string)
    requires body != [] && !IsSpace(body[0]) && !IsSpace(body[|body| - 1])
    ensures Clean("```json\n" + body + "\n```") == body
  {
    var t := "```json\n" + body + "\n```";
    assert t[0] == '`' && t[|t| - 1] == '`';
    assert Strip(t) == t;
    OpeningFenceOf(body, t);
    ClosingFenceOf(body, body + "\n```");
  }

  /** A fenced reply whose inside decodes is parsed as that value, with no fallback. */
  lemma FencedReplyParsed(body: string, decode: string -> Option<Json>)
    requires body != [] && !IsSpace(body[0]) && !IsSpace(body[|body| - 1])
    requires decode(body).Some?
    ensures ParseJsonResponse("```json\n" + body + "\n```", decode) == decode(body).value
  {
    FencedReply(body);
  }
}
