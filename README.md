# NexusAI lead pipeline — a Dafny model

NexusAI takes a sales lead (a company name, perhaps a website, a contact),
researches it, enriches it from the company's web site, scores it against a
rubric, drafts an outreach e-mail, and then either sends it, rejects the lead,
or stops for a human reviewer. A FastAPI backend stores the leads in a SQL
table, meters each user's daily searches and CSV uploads, and exposes the
pipeline to a Next.js dashboard.

This project models that core in Dafny:

- the pipeline state (`LeadStates`, a map from field name to JSON value, so
  that an absent key and an explicit `None` stay apart) and the JSON values
  the nodes exchange (`JsonValues`);
- the graph (`Workflow`): the builder calls, the transition relation they
  produce, and which nodes every run must pass;
- the three routers and the human-review explanation (`Routing`);
- every node: ingest, enrich, score, draft, human review, send and
  auto-reject (`IngestNode`, `EnrichNode`, `ScoringNode`, `DraftingNode`,
  `ReviewNode`, `SendNode`), with the language-model replies, the clock, the
  uuid generator and the SMTP result as parameters;
- the scoring rubric model and its fallback rubric (`ScoringRubrics`);
- the tools: tech-stack detection and job-title filtering (`WebScraper`),
  how `csv.DictReader` turns records into dictionaries (`CsvReader`), the
  CSV header table, row mapping and filtering (`DataParser`), the e-mail
  check, URL normalisation and text clean-up (`Validators`), and the
  provider dispatch and reply decoding of the language-model wrapper
  (`LlmProvider`);
- the database: the `leads` table's columns and defaults (`LeadRecords`), the
  table as a sequence of rows with its queries (`LeadTable`), and the session
  object that the routes use, as a class whose fields are the three tables
  (`Database.LeadDatabase`);
- the HTTP routes for leads, review and upload (`LeadRoutes`,
  `ReviewRoutes`, `UploadRoutes`), with the error replies as an
  `Http.Response` value;
- the dashboard helpers: the status table and score colours
  (`FrontendConstants`), the status badge (`StatusBadge`) and the form
  validators (`FrontendValidators`).

Python's `dict.get`, truthiness, `str` slicing and list operations are
written out in the helper modules `PyStrings`, `PyLists`, `PyNumbers`,
`Ordering` and `Wrappers`; these have no rows below.

## Model

| member | source | states |
|---|---|---|
| Routing.RouteAfterScoring | backend/src/graph/edges/routing.py:15-35 | "auto_reject" exactly when the score (0 when absent) is below the auto-reject threshold, "draft" otherwise |
| Routing.RouteAfterDrafting | backend/src/graph/edges/routing.py:38-54 | "send" exactly when score >= qualification threshold and confidence >= 0.7, "human_review" exactly otherwise |
| Routing.RouteAfterReview | backend/src/graph/edges/routing.py:57-82 | approved with a draft body goes to send, approved without one to draft, "new" to research, every other status to auto_reject |
| Routing.Ratio | backend/src/graph/edges/routing.py:115 | a missing or falsy max gives ratio 0 without dividing; a truthy max gives the ratio r with r * max == score when score and max are both numbers, and the TypeError otherwise |
| Routing.WeakItemsFails | backend/src/graph/edges/routing.py:113-117 | the weak-criteria scan raises exactly when some dict entry has a non-numeric score or max |
| Routing.WeakItemsComplete | backend/src/graph/edges/routing.py:112-117 | the listed items are exactly the entries whose ratio is below 0.5, each formatted as name (score/max) |
| Routing.IdentifyWeakCriteria | backend/src/graph/edges/routing.py:107-119 | the loop computes the weak-criteria text; an empty breakdown gives "No scoring data available" |
| Routing.HumanReviewReason | backend/src/graph/edges/routing.py:85-104 | the three explanations in order: qualified but low confidence, borderline with its gaps, low score; a raising breakdown only matters past the first case |
| Workflow.StateGraph.constructor | backend/src/graph/workflow.py:33 | a new graph has no nodes, edges or branches |
| Workflow.StateGraph.AddNode | backend/src/graph/workflow.py:36-43 | appends a node name, which must be new and not START or END; nothing else changes |
| Workflow.StateGraph.AddEdge | backend/src/graph/workflow.py:46-49 | appends one fixed edge; nothing else changes |
| Workflow.StateGraph.AddConditionalEdges | backend/src/graph/workflow.py:52-81 | appends one router with its path map; nothing else changes |
| Workflow.BuildWorkflow | backend/src/graph/workflow.py:33-92 | the builder calls leave exactly the pipeline's eight nodes, six edges and three branches |
| Workflow.BuiltTransitions | backend/src/graph/workflow.py:46-85 | the edges and path maps give exactly the written-out transition relation |
| Workflow.SuccessorTable | backend/src/graph/workflow.py:18-31 | each node's successors, as the docstring's diagram draws them; END has none |
| Workflow.PrefixBeforeScore | backend/src/graph/workflow.py:46-49 | until score is reached a run stays on START, ingest, research, enrich |
| Workflow.ScoreComesFirst | backend/src/graph/workflow.py:46-59 | every run passes score before it reaches draft, send or human_review |
| Workflow.RoutesAreMapped | backend/src/graph/workflow.py:52-81 | every value a router returns is a key of its path map |
| IngestNode.Defaults | backend/src/graph/nodes/ingest_node.py:25-38 | status researching and the timestamp always; a fresh id, source "manual" and a creation time only when the lead lacks a truthy one; no other keys |
| IngestNode.Ingest | backend/src/graph/nodes/ingest_node.py:18-55 | the defaults above, plus the normalised website exactly when one is given; a warning exactly when a given contact e-mail is invalid; the e-mail is never changed |
| IngestNode.IngestKeeps | backend/src/graph/nodes/ingest_node.py:30-38 | after the update is merged the lead has an id, a source and a creation time, existing ones are kept, and the contact e-mail is untouched |
| ReviewNode.ReviewRequest | backend/src/graph/nodes/review_node.py:30-40 | the payload shown to the reviewer: its nine keys, with the source's defaults for score, confidence and company name |
| ReviewNode.Review | backend/src/graph/nodes/review_node.py:43-65 | the update for the reviewer's action (missing action means reject): approve, reject, rescore to new, anything else rejected; edited texts are taken only on approve and only when truthy |
| ReviewNode.ReviewThenRoute | backend/src/graph/nodes/review_node.py:51-63 | after the update is merged the review router sends an approval to send or draft depending on whether a draft body exists, a rescore to research, everything else to auto_reject |
| SendNode.Send | backend/src/graph/nodes/send_node.py:17-59 | a message is handed over exactly when recipient, subject and body are all truthy, and then holds exactly those; status is sent exactly when the mailer reports success; each failure carries its own error text |
| SendNode.AutoReject | backend/src/graph/nodes/send_node.py:62-74 | the update sets status rejected, the timestamp and the reason text with the score (0 when absent), and nothing else |
| ScoringNode.Trunc | backend/src/graph/nodes/scoring_node.py:53 | `int()` of a float rounds toward zero: the integer part lies within one below a non-negative value and within one above a negative one |
| ScoringNode.PyInt | backend/src/graph/nodes/scoring_node.py:53 | an integer converts to itself; None, a list or a dict raise |
| ScoringNode.PyFloat | backend/src/graph/nodes/scoring_node.py:56 | a float converts to itself and an integer to its real value; None, a list or a dict raise |
| ScoringNode.EvaluateContract | backend/src/graph/nodes/scoring_node.py:42-82 | a criterion is scored exactly when the reply is a dict whose score and confidence convert; its points are the converted score capped at max_points, its entry holds score, max, reasoning, confidence and evidence with the source's defaults; otherwise it gets the failure entry with confidence 0.0 |
| ScoringNode.Outcomes | backend/src/graph/nodes/scoring_node.py:26 | one outcome per criterion, in rubric order, each the evaluation of that criterion's reply |
| ScoringNode.Signals | backend/src/graph/nodes/scoring_node.py:67-82 | one confidence signal per criterion, the reply's confidence or 0.0 for a failed one |
| ScoringNode.Score | backend/src/graph/nodes/scoring_node.py:14-113 | the update has exactly the six keys: status scoring_complete, the summed points, the breakdown, the reasoning lines joined by newlines, and the blended confidence rounded to two places |
| ScoringNode.ScoringFields | backend/src/graph/nodes/scoring_node.py:100-107 | the update dict's six keys and their values |
| ScoringNode.ScoreCriteria | backend/src/graph/nodes/scoring_node.py:21-82 | the loop leaves the breakdown, total, reasoning lines and signals that the per-criterion outcomes determine |
| ScoringNode.TotalAtMostMax | backend/src/graph/nodes/scoring_node.py:52-66 | with non-negative max_points and each score capped, the total is at most the sum of the max_points |
| ScoringNode.ScoreAtMostMaxTotal | backend/src/graph/nodes/scoring_node.py:52-55 | for valid criteria the reported score never exceeds the rubric's max_total_score |
| ScoringNode.EntryRecordsPoints | backend/src/graph/nodes/scoring_node.py:58-81 | each breakdown entry's score is the points its criterion added to the total (0 for a failure) |
| ScoringNode.BreakdownByName | backend/src/graph/nodes/scoring_node.py:58-75 | with distinct criterion names the breakdown's keys are the names in rubric order |
| ScoringNode.BreakdownLast | backend/src/graph/nodes/scoring_node.py:58-75 | with distinct names each criterion's entry is appended after the earlier ones |
| ScoringNode.BreakdownSum | backend/src/graph/nodes/scoring_node.py:58-66 | with distinct names the breakdown's scores add up to the total |
| ScoringNode.TotalMatchesBreakdown | backend/src/graph/nodes/scoring_node.py:58-104 | with distinct criterion names the reported score equals the sum of the breakdown's scores |
| ScoringNode.DuplicateNamesCountTwice | backend/src/graph/nodes/scoring_node.py:58-66 | two criteria with one name: the breakdown holds only the second one's entry, while the total adds the points of both |
| ScoringNode.RoundKeepsUnit | backend/src/graph/nodes/scoring_node.py:106 | rounding to two places keeps a value in [0, 1] |
| ScoringNode.ConfidenceInUnit | backend/src/graph/nodes/scoring_node.py:84-106 | when every criterion confidence lies in [0, 1] so does the reported confidence |
| ScoringNode.LinesFromScored | backend/src/graph/nodes/scoring_node.py:66-71 | every reasoning line comes from a scored criterion; when all fail there are no lines and the score is 0 |
| ScoringRubrics.MakeCriterion | backend/src/models/scoring.py:8-13 | a criterion is built exactly when max_points lies in [0, 100], and keeps its fields |
| ScoringRubrics.DefaultRubric | backend/src/models/scoring.py:16-20 | the defaults: thresholds 70 and 20, no criteria, max total 0 |
| ScoringRubrics.MaxTotalScore | backend/src/models/scoring.py:22-24 | for valid criteria the max total lies between 0 and 100 per criterion |
| ScoringRubrics.AddCriterion | backend/src/models/scoring.py:22-24 | adding a criterion raises the max total by exactly its max_points |
| ScoringRubrics.FallbackRubric | backend/config/settings.py:58-109 | the rubric used without a file: the configured thresholds and five valid criteria totalling 100 |
| DraftingNode.TextHook | backend/src/graph/nodes/drafting_node.py:87-118 | the funding, headquarters, founded, industry and HR hooks are added exactly when their key is truthy |
| DraftingNode.SizeHook | backend/src/graph/nodes/drafting_node.py:104-106 | the company-size hook is added exactly when employee_count is truthy |
| DraftingNode.TechHook | backend/src/graph/nodes/drafting_node.py:74-76 | the tech hook (first four entries) is added exactly when tech_stack is a non-empty list |
| DraftingNode.HiringHook | backend/src/graph/nodes/drafting_node.py:78-80 | the hiring hook (first three positions) is added exactly when open_positions is non-empty |
| DraftingNode.CeoHook | backend/src/graph/nodes/drafting_node.py:82-85 | the CEO hook is added exactly when ceo_name is truthy; its title defaults to "CEO" only when the key is absent |
| DraftingNode.NewsTitle | backend/src/graph/nodes/drafting_node.py:101-102 | a news item that is not a dict is shown as its own title |
| DraftingNode.NewsHook | backend/src/graph/nodes/drafting_node.py:99-102 | the news hook is added exactly when recent_news is non-empty |
| DraftingNode.SignalHook | backend/src/graph/nodes/drafting_node.py:108-110 | the buying-signal hook (the first signal) is added exactly when buying_signals is non-empty |
| DraftingNode.BuildPersonalizationHooks | backend/src/graph/nodes/drafting_node.py:71-120 | the hooks appended one guard at a time, in source order, are the hook list the specification function gives |
| DraftingNode.HooksShape | backend/src/graph/nodes/drafting_node.py:71-120 | one hook per truthy key, so at most eleven; the stock hook stands alone exactly when no key is truthy, so the list is never empty |
| DraftingNode.SenderName | backend/src/graph/nodes/drafting_node.py:18 | the signer is always truthy: sender_name when truthy, else the team |
| DraftingNode.HrEmail | backend/src/graph/nodes/drafting_node.py:19 | hr_email, else company_email, else ""; truthy exactly when one of the two is |
| DraftingNode.HookList | backend/src/graph/nodes/drafting_node.py:54 | the hooks stored as a list of strings read back as the same hooks |
| DraftingNode.DraftingCompletes | backend/src/graph/nodes/drafting_node.py:38-68 | the status is always drafting_complete; an error is recorded exactly when the reply is not a dict, and hooks are stored exactly when there is no error |
| DraftingNode.DraftingStoresDraft | backend/src/graph/nodes/drafting_node.py:49-55 | a dict reply stores exactly its subject and body (default "") and the hooks |
| DraftingNode.DraftingStoresError | backend/src/graph/nodes/drafting_node.py:60-68 | any other reply stores the error text and empty subject and body, and nothing else |
| DraftingNode.StoredHooksNonEmpty | backend/src/graph/nodes/drafting_node.py:54-120 | the stored hooks are the built hooks and never empty |
| DraftingNode.FailedDraftHasNoBody | backend/src/graph/nodes/drafting_node.py:62-68 | after a failed draft is merged the lead has no draft body |
| EnrichNode.Items | backend/src/graph/nodes/enrich_node.py:80-97 | a list-valued key gives no items exactly when it is absent, None or empty |
| EnrichNode.DictLines | backend/src/graph/nodes/enrich_node.py:82-100 | one line per item when all items are dicts; raises exactly when one is not |
| EnrichNode.Bullets | backend/src/graph/nodes/enrich_node.py:94-102 | one "- item" line per item |
| EnrichNode.NewsLines | backend/src/graph/nodes/enrich_node.py:98-102 | the first five news items as dict lines when the first is a dict, as plain bullets otherwise |
| EnrichNode.CompileResearchContext | backend/src/graph/nodes/enrich_node.py:73-105 | appending the sections one at a time gives the context the specification function gives |
| EnrichNode.ContextBounded | backend/src/graph/nodes/enrich_node.py:105 | the compiled context never exceeds 12000 characters |
| EnrichNode.ContextRaises | backend/src/graph/nodes/enrich_node.py:80-103 | compiling raises exactly when one of the first twenty search results, or after a dict first item one of the first five news items, is not a dict |
| EnrichNode.NothingResearched | backend/src/graph/nodes/enrich_node.py:73-105 | with no research keys truthy the context is empty |
| EnrichNode.WebsiteFirst | backend/src/graph/nodes/enrich_node.py:76-78 | with website content the context opens with the website header |
| EnrichNode.WebsiteThenTech | backend/src/graph/nodes/enrich_node.py:76-105 | with only website content and a tech stack the context is the two sections joined by a blank line |
| EnrichNode.ContentTailIgnored | backend/src/graph/nodes/enrich_node.py:78 | website content past 6000 characters does not change the context |
| EnrichNode.ResultsTailIgnored | backend/src/graph/nodes/enrich_node.py:84 | search results past the twentieth do not change the context |
| EnrichNode.PositionsTailIgnored | backend/src/graph/nodes/enrich_node.py:94 | open positions past the tenth do not change the context |
| EnrichNode.NewsTailIgnored | backend/src/graph/nodes/enrich_node.py:100-102 | news items past the fifth do not change the context |
| EnrichNode.Enrich | backend/src/graph/nodes/enrich_node.py:13-70 | the node raises exactly when compiling the context raises; otherwise its update depends only on the reply |
| EnrichNode.EnrichOutcome | backend/src/graph/nodes/enrich_node.py:36-70 | the status is always scoring; an error is stored exactly when the reply is not a dict, and then only status, time and error |
| EnrichNode.EnrichProfileKeys | backend/src/graph/nodes/enrich_node.py:36-55 | a dict reply writes exactly the sixteen profile keys, status and time |
| EnrichNode.EnrichProfileValue | backend/src/graph/nodes/enrich_node.py:39-54 | each profile key takes its reply field, or None, or an empty list for the two list keys |
| EnrichNode.EnrichRenames | backend/src/graph/nodes/enrich_node.py:42-44 | employee_count takes employee_count_estimate; missing pain points become an empty list |
| EnrichNode.EnrichKeepsResearch | backend/src/graph/nodes/enrich_node.py:36-70 | merging the update never changes the five research keys the context was built from |
| WebScraper.Names | backend/src/tools/web_scraper.py:16-33 | the technology names in table order |
| WebScraper.AnyInIff | backend/src/tools/web_scraper.py:105 | `any(...)` over the patterns holds exactly when some pattern occurs in the text |
| WebScraper.Matching | backend/src/tools/web_scraper.py:104-106 | the matching names are never more than the table's entries |
| WebScraper.DetectTechStack | backend/src/tools/web_scraper.py:96-108 | the loop appends exactly the technologies the specification function detects |
| WebScraper.MatchingMembers | backend/src/tools/web_scraper.py:104-106 | a name is detected exactly when one of its entry's patterns occurs |
| WebScraper.MatchingOrdered | backend/src/tools/web_scraper.py:104-106 | detected names are picked out of the table in table order |
| WebScraper.TechDetectedIff | backend/src/tools/web_scraper.py:98-106 | a technology is detected exactly when the page is non-empty and one of its patterns occurs in the lower-cased page, where lower-casing also turns the Kelvin sign into "k" and the capital I with a dot above into "i" and a combining dot; an empty page detects nothing |
| WebScraper.TechStackOrdered | backend/src/tools/web_scraper.py:101-108 | detected names follow the table order, none repeats, and there are at most sixteen |
| WebScraper.TechStackLowerInvariant | backend/src/tools/web_scraper.py:101 | lower-casing the page first changes nothing |
| WebScraper.UpperPatternNeverOccurs | backend/src/tools/web_scraper.py:30-101 | a pattern holding a character that lower-casing changes (A to Z, the Kelvin sign, the capital I with a dot above) never occurs in lower-cased text |
| WebScraper.IntercomByFirstPattern | backend/src/tools/web_scraper.py:30-105 | Intercom is detected exactly when "intercom" occurs; its second pattern can never match |
| WebScraper.TechNamesDistinct | backend/src/tools/web_scraper.py:16-33 | the table lists no technology twice |
| WebScraper.ParseJobListings | backend/src/tools/web_scraper.py:111-131 | the function returns the first fifteen title lines the specification function selects; empty text gives none |
| WebScraper.CollectTitles | backend/src/tools/web_scraper.py:125-129 | the loop keeps exactly the stripped lines that look like job titles, in order |
| WebScraper.JobListingsAreTitles | backend/src/tools/web_scraper.py:126-129 | each returned job is a stripped line of length between 11 and 79 that holds a keyword in any case |
| WebScraper.JobListingsShape | backend/src/tools/web_scraper.py:117-131 | at most fifteen jobs, picked from the stripped lines in line order |
| WebScraper.JobListingsComplete | backend/src/tools/web_scraper.py:125-131 | below the cap, every title line of the text is returned |
| DataParser.MappingTargets | backend/src/tools/data_parser.py:19-40 | every header in the table maps to one of the five fillable keys |
| CsvReader.Find | backend/src/tools/data_parser.py:87 | a key found is at a position holding it; a key not found is held by no entry |
| CsvReader.Put | backend/src/tools/data_parser.py:56-59 | setting a key keeps the keys distinct: an existing key keeps its position and takes the new value, a new key is appended |
| CsvReader.FillBuilt | backend/src/tools/data_parser.py:56-59 | after pairing the first n field names with their cells, the dictionary has exactly those names, each once, in order of first occurrence, each with the cell of its last occurrence (None past the record's end) |
| CsvReader.ReadRowShape | backend/src/tools/data_parser.py:56-59 | a row's dictionary has distinct keys, exactly the header's names, in order of first occurrence, each with the cell at its last occurrence, and extra cells exactly when the record is longer than the header |
| CsvReader.ReadBodyRows | backend/src/tools/data_parser.py:59 | every non-empty record after the header yields its row |
| CsvReader.ReadBodySound | backend/src/tools/data_parser.py:59 | every row yielded comes from a non-empty record after the header |
| CsvReader.LastIndex | backend/src/tools/data_parser.py:83 | the last position of a name in the header, or -1 exactly when it is absent |
| CsvReader.FirstIndex | backend/src/tools/data_parser.py:83 | the first position of a name in the header, or -1 exactly when it is absent |
| DataParser.BaseLead | backend/src/tools/data_parser.py:72-81 | a row starts from exactly the seven fixed keys: id, source csv, status new, score 0, confidence 0.0, and the one stamp as both timestamps |
| DataParser.ReadCell | backend/src/tools/data_parser.py:84-99 | one cell's write and whether it logs the e-mail warning, as the specification functions give them |
| DataParser.MapRow | backend/src/tools/data_parser.py:70-101 | the loop over the cells leaves the mapped row and the list of warned addresses the specification functions give; a row with cells past the header raises AttributeError, because its extra cells sit under the key None as a list |
| DataParser.CellWriteIff | backend/src/tools/data_parser.py:84-88 | a cell writes exactly when it is not blank and its trimmed, lower-cased header is in the table |
| DataParser.CellWriteShape | backend/src/tools/data_parser.py:87-99 | a cell writes to its header's key a non-empty text: the trimmed value, or for the website the normalised URL with a scheme |
| DataParser.ApplyWritesKey | backend/src/tools/data_parser.py:83-99 | a key is present after the cells exactly when it was already or some cell writes it; otherwise its value is kept |
| DataParser.LastWriteWins | backend/src/tools/data_parser.py:99 | the last write to a key decides its value |
| DataParser.LastWriter | backend/src/tools/data_parser.py:83-99 | given one write to a key there is a last one |
| DataParser.IgnoredCell | backend/src/tools/data_parser.py:84-88 | a blank cell or one under an unknown header leaves the row unchanged |
| DataParser.LastCellWins | backend/src/tools/data_parser.py:83-99 | when several headers map to one key, the last such cell in row order wins |
| DataParser.MappedRowKeys | backend/src/tools/data_parser.py:73-99 | the mapped row holds only the seven fixed keys and the five fillable ones |
| DataParser.KeysDisjoint | backend/src/tools/data_parser.py:19-81 | no fixed key is a fillable key |
| DataParser.BaseFieldsKept | backend/src/tools/data_parser.py:73-99 | no cell overwrites a fixed key, so every row keeps source csv, status new, score 0 and confidence 0.0 |
| DataParser.FilledFields | backend/src/tools/data_parser.py:84-99 | a fillable key is present exactly when some cell fills it, and then holds non-empty text |
| DataParser.EmailWarningsSound | backend/src/tools/data_parser.py:96-97 | each logged address is invalid and is what some cell stores as the contact e-mail |
| DataParser.EmailWarningsComplete | backend/src/tools/data_parser.py:96-99 | every invalid contact e-mail is logged, and kept in the row |
| DataParser.HasCompanyIff | backend/src/tools/data_parser.py:61 | a mapped row has a company name exactly when some cell fills it |
| DataParser.MappedRows | backend/src/tools/data_parser.py:59-60 | the n-th row is mapped with the n-th id and clock reading |
| DataParser.ParseCsv | backend/src/tools/data_parser.py:43-67 | the loop over the rows `DictReader` yields keeps exactly the mapped rows with a company name, in order, each stamped with a `datetime` (the corrected stamp, see Findings); a row longer than the header raises; the summary reports leads kept and rows read |
| DataParser.ParsedLeadsShape | backend/src/tools/data_parser.py:59-64 | the leads are mapped rows in input order, at most one per row, each with a company name |
| DataParser.ParsedLeadsComplete | backend/src/tools/data_parser.py:59-64 | no row with a company name is dropped |
| DataParser.LoggedTotalUndercounts | backend/src/tools/data_parser.py:66 | the closing log line, as written, reports 0 total rows for a file with one row and no company name |
| Validators.EmailSplitCanonical | backend/src/utils/validators.py:13 | any way of splitting an address against the pattern uses the first '@' and the last dot after it |
| Validators.MatchBodySound | backend/src/utils/validators.py:13 | what the one-pass matcher accepts matches the pattern |
| Validators.MatchBodyComplete | backend/src/utils/validators.py:13 | every split matching the pattern is found by the one-pass matcher |
| Validators.MatchBodyCorrect | backend/src/utils/validators.py:13 | the one-pass matcher accepts exactly the texts the pattern matches |
| Validators.IsValidEmail | backend/src/utils/validators.py:9-14 | the empty address is invalid |
| Validators.IsValidEmailIff | backend/src/utils/validators.py:9-14 | an address is valid exactly when it is non-empty and matches local@domain.tld (local over letters, digits and ._%+-, tld of two or more letters), optionally followed by one newline as Python's `$` allows |
| Validators.NormalizeUrl | backend/src/utils/validators.py:28-35 | the empty URL stays empty, and a non-empty result never ends with '/' |
| Validators.WithScheme | backend/src/utils/validators.py:33-34 | a URL with an http:// or https:// prefix is kept, any other gets https:// in front |
| Validators.NormalizeUrlShape | backend/src/utils/validators.py:32-35 | the result is the trimmed, scheme-prefixed input minus a run of trailing slashes |
| Validators.NormalizeUrlKeepsScheme | backend/src/utils/validators.py:33-35 | the result of a non-empty input always starts with "http:" or "https:" |
| Validators.Collapse | backend/src/utils/validators.py:43 | collapsing whitespace keeps the visible characters in order, leaves only single plain spaces, and is empty exactly for empty input |
| Validators.CleanText | backend/src/utils/validators.py:38-44 | the empty text stays empty; the result is a prefix of the whitespace-collapsed, stripped text, exactly max_length long when that text is longer (all of it otherwise), does not start with whitespace and has no two whitespace characters in a row |
| Validators.CleanTextKeepsVisible | backend/src/utils/validators.py:38-44 | when max_length is at least the text's length, the cleaned text has exactly the non-whitespace characters of the input, in order |
| LlmProvider.Generate | backend/src/llm/provider.py:22-51 | the call goes to Groq or Ollama for those two providers and is a ValueError with the provider's name otherwise; JSON mode appends the instruction to the system prompt, and only JSON mode does |
| LlmProvider.DropOpeningFence | backend/src/llm/provider.py:124 | removing the opening fence leaves a suffix of the text that does not start with whitespace |
| LlmProvider.DropClosingFence | backend/src/llm/provider.py:126 | removing the closing fence drops exactly a final three backticks and the newline before them, and leaves any other text as it is |
| LlmProvider.BraceSpan | backend/src/llm/provider.py:132 | the greedy match runs from the first '{' to the last '}' after it, and fails exactly when there is no such pair |
| LlmProvider.ParseJsonResponse | backend/src/llm/provider.py:115-140 | the cleaned text when it decodes, else the decoded brace span, else an empty dict |
| LlmProvider.DecodeBraces | backend/src/llm/provider.py:131-140 | the fallback is the decoded brace span when it decodes, an empty dict otherwise |
| LlmProvider.FencedReply | backend/src/llm/provider.py:121-126 | a reply fenced as a json code block is cleaned to exactly the text inside the fence |
| LlmProvider.FencedReplyParsed | backend/src/llm/provider.py:115-129 | a fenced reply whose inside decodes is parsed as that value |
| LeadRecords.NewLeadFields | backend/src/models/database_models.py:13-70 | an inserted lead has every column: the given value when the data names it, the column default otherwise |
| LeadRecords.NewLeadGiven | backend/src/database/operations.py:11 | a column the data names gets its value |
| LeadRecords.NewLeadDefault | backend/src/models/database_models.py:19-70 | a column the data does not name gets its default |
| LeadRecords.NewLeadDefaults | backend/src/models/database_models.py:23-69 | unset columns get source "manual", score 0, confidence 0.0, status "new", both timestamps the insert time, and None for the nullable ones |
| LeadRecords.ToDict | backend/src/models/database_models.py:72-116 | every non-timestamp column holds the row's value or None, and each timestamp its ISO text or None |
| LeadRecords.ToDictKeys | backend/src/models/database_models.py:72-116 | `to_dict` has exactly the table's columns |
| LeadRecords.IsoText | backend/src/models/database_models.py:113-114 | a `datetime` becomes its ISO text, anything else None |
| LeadRecords.ToDictOfLead | backend/src/models/database_models.py:113-114 | on a stored lead `to_dict` gives back the row, with each timestamp as text or None |
| LeadRecords.NewUsage | backend/src/models/database_models.py:134-141 | a new usage row has the given user and date and zero counters |
| LeadRecords.UsageToDict | backend/src/models/database_models.py:143-149 | the usage dict has exactly user_id, date, search_count and csv_count with the row's values |
| LeadRecords.NewEmailLog | backend/src/models/database_models.py:119-131 | a logged e-mail keeps the given columns; status defaults to "sent", sent_at to the insert time, the rest to None |
| LeadRecords.ScalarBinds | backend/src/models/database_models.py:16-70 | None, text, a float and a 64-bit integer bind to every column except the Boolean flag and the two DateTime columns |
| LeadRecords.TimestampType | backend/src/models/database_models.py:68-69 | created_at and updated_at are DateTime columns |
| LeadRecords.DefaultsBind | backend/src/models/database_models.py:19-69 | every column default binds to its column's type |
| LeadTable.Find | backend/src/database/operations.py:18-22 | a found row is in the table and has the id |
| LeadTable.FindIff | backend/src/database/operations.py:18-22 | nothing is found exactly when no row has the id; with unique ids the row found is the one with the id |
| LeadTable.UpdateRows | backend/src/database/operations.py:42-44 | the update keeps the number of rows |
| LeadTable.UpdateRowsEffect | backend/src/database/operations.py:40-46 | only rows with the id change; they take every value of the data and the new updated_at, and keep the rest |
| LeadTable.UpdateKeepsIds | backend/src/database/operations.py:40-46 | an update that leaves lead_id alone keeps every id in place and the ids unique |
| LeadTable.UpdatedKeeps | backend/src/database/operations.py:43 | a column the update does not name keeps its value |
| LeadTable.UpdatedWrites | backend/src/database/operations.py:43 | a column the update names takes the new value |
| LeadTable.UpdateKeepsShape | backend/src/models/database_models.py:13-70 | an update whose lead_id, company_name, score and status values have those columns' types, and that keeps company_name set, leaves a row of the lead shape (those four columns and the timestamps typed; binding of every column is `Database.UpdateBinds`) |
| LeadTable.DeleteRowsEffect | backend/src/database/operations.py:49-54 | deleting removes exactly the rows with the id, keeps the others in order, and shrinks the table exactly when such a row existed |
| LeadTable.DeleteKeepsIds | backend/src/models/database_models.py:16 | deleting keeps the primary key unique |
| LeadTable.StatusFilterEffect | backend/src/database/operations.py:33-60 | the filter keeps exactly the rows with the status, in order; no status or an empty one keeps every row |
| LeadTable.NewestFirstOrders | backend/src/database/operations.py:32 | created_at descending is a total preorder on rows |
| LeadTable.HighestScoreFirstOrders | backend/src/database/operations.py:69 | score descending is a total preorder on rows |
| LeadTable.Page | backend/src/database/operations.py:35 | as SQLite runs LIMIT and OFFSET: the page skips offset rows (none when offset is negative) and keeps at most limit of the rest (all of them when limit is negative), in order |
| LeadTable.PageKeeps | backend/src/database/operations.py:30-35 | a page of a sorted listing is sorted, holds only listed rows, and is the whole listing when no row is skipped and no limit cuts it |
| LeadTable.ListLeadsEffect | backend/src/database/operations.py:25-37 | the listed rows are newest first, each a table row with the requested status; the count is what skipping max(offset, 0) rows and keeping at most limit (any number when negative) leaves, and with offset at most 0 and a negative or large enough limit every matching row is listed, each once |
| LeadTable.ReviewQueueEffect | backend/src/database/operations.py:65-71 | the queue holds exactly the human_review rows, each as often as in the table, highest score first |
| LeadTable.DistKeys | backend/src/database/operations.py:74-80 | every group lists a score some lead has |
| LeadTable.DistTotal | backend/src/database/operations.py:74-80 | the group counts add up to the number of leads |
| LeadTable.DistAscending | backend/src/database/operations.py:78 | the groups are in strictly ascending score order, NULL first, so no score is listed twice |
| LeadTable.DistHead | backend/src/database/operations.py:74-80 | the first group is the lowest score, with a positive count |
| LeadTable.DistCounts | backend/src/database/operations.py:76-77 | each group's count is the number of leads with its score, and is positive |
| LeadTable.DistCovers | backend/src/database/operations.py:76-77 | every score some lead has is listed |
| LeadTable.GroupDict | backend/src/database/operations.py:80 | each group becomes a dict of exactly score (None for NULL) and count |
| LeadTable.StatusCountsEffect | backend/src/database/operations.py:83-88 | a status is a key exactly when some lead has it, its count is positive and equals `count_leads` for that status |
| LeadTable.Accuracy | backend/src/database/operations.py:113 | the accuracy lies in [0, 100], is 0 when nothing was scored and 100 when something was scored and nothing failed |
| LeadTable.ScoredFailedBound | backend/src/database/operations.py:107-112 | no lead counts as both scored and failed, so the two counts add up to at most the total |
| LeadTable.SummaryCounts | backend/src/database/operations.py:91-124 | total, qualified (sent + approved), pending review, rejected and accuracy are the counts the source adds up |
| LeadTable.SummaryDisjoint | backend/src/database/operations.py:118-120 | no lead is counted in two of qualified, pending review and rejected |
| Database.InsertLead | backend/src/database/operations.py:10-15 | an insert that commits names only columns, binds every value to its column's type, and stores the row built from the data with the column defaults, which has an id and a company name |
| Database.NewLeadStorable | backend/src/models/database_models.py:16-18 | the built row satisfies the NOT NULL constraints exactly when the data gives id and company name as text, and keeps the given id |
| Database.NewLeadColumn | backend/src/models/database_models.py:19-60 | a column without a default is NULL unless the data sets it |
| Database.NewLeadShaped | backend/src/models/database_models.py:13-70 | a row whose lead_id, company_name, score and status values have those columns' types, with its NOT NULL columns set, has the lead shape (those four columns and the timestamps typed; the bind check on every column is `Database.InsertLeadErrors`) |
| Database.InsertLeadErrors | backend/src/models/database_models.py:16-18 | an insert fails on an unknown column exactly when the data names a non-column; with a bind error exactly when the columns are known and some value does not bind to its column's type (a text `created_at`, a dict in a text column, a `datetime` inside a JSON value); and with an integrity error exactly when everything binds and the id or company name is missing or the id is taken |
| Database.InsertLeadOk | backend/src/models/database_models.py:16 | an inserted row is well-shaped and keeps the ids unique |
| Database.UpdateAllSucceeds | backend/src/database/operations.py:40-46 | an update of known columns whose values bind, and which keeps the id and the company name set, always commits, and leaves every row well-shaped |
| Database.UpdateBinds | backend/src/database/operations.py:43-45 | the update with its new updated_at binds exactly when every other value of the data binds, and then created_at holds a `datetime` or None |
| Database.UpdateAllBindError | backend/src/database/operations.py:40-46 | an update fails with a bind error exactly when its columns are known and some value other than updated_at does not bind |
| Database.UpdateAllShape | backend/src/database/operations.py:40-46 | a committed update keeps the ids unique and every row well-shaped |
| Database.InsertEmailLog | backend/src/database/operations.py:129-133 | logging fails on an unknown column exactly when the data names one, and with a bind error exactly when some value does not bind to its column; a committed log is the row with the defaults |
| Database.UsageOf | backend/src/database/operations.py:138-149 | a missing (user, day) row is a fresh one with zero counters |
| Database.LeadDatabase.constructor | backend/src/models/database_models.py:13-149 | an empty database: no leads, usage rows or e-mail logs |
| Database.LeadDatabase.CreateLead | backend/src/database/operations.py:10-15 | appends the inserted row, or changes nothing and returns the error; the other tables are untouched; ids stay unique |
| Database.LeadDatabase.GetLead | backend/src/database/operations.py:18-22 | the row with the id, found exactly when one exists |
| Database.LeadDatabase.ListLeads | backend/src/database/operations.py:25-37 | the listing the specification function gives, newest first |
| Database.LeadDatabase.UpdateLead | backend/src/database/operations.py:40-46 | a committed update replaces the table and returns the row looked up again by id; a failed one changes nothing; the other tables are untouched |
| Database.LeadDatabase.DeleteLead | backend/src/database/operations.py:49-54 | removes the rows with the id and reports true exactly when one existed; the other tables are untouched |
| Database.LeadDatabase.CountLeads | backend/src/database/operations.py:57-62 | the number of rows with the status; with no status, all rows |
| Database.LeadDatabase.GetReviewQueue | backend/src/database/operations.py:65-71 | the review queue, highest score first |
| Database.LeadDatabase.GetScoreDistribution | backend/src/database/operations.py:74-80 | the score groups, whose counts add up to the number of leads |
| Database.LeadDatabase.GetStatusCounts | backend/src/database/operations.py:83-88 | the count of each status present |
| Database.LeadDatabase.GetAnalyticsSummary | backend/src/database/operations.py:91-124 | the summary's counts, with the total the number of leads and the accuracy in [0, 100] |
| Database.LeadDatabase.LogEmail | backend/src/database/operations.py:129-133 | appends the logged e-mail or changes nothing on error; the leads and usage are untouched |
| Database.LeadDatabase.GetDailyUsage | backend/src/database/operations.py:136-149 | returns the (user, today) row, storing a zero one when there was none; nothing else changes |
| Database.LeadDatabase.IncrementSearchCount | backend/src/database/operations.py:152-157 | raises the user's search count for today by exactly one and leaves the upload count and all other rows as they were |
| Database.LeadDatabase.IncrementCsvCount | backend/src/database/operations.py:160-165 | raises the user's upload count for today by exactly one and leaves the search count and all other rows as they were |
| ReviewRoutes.ApproveUpdates | backend/api/routes/review.py:47-55 | approve writes status and feedback, plus the subject and body only when the reviewer gave non-empty edits |
| ReviewRoutes.RejectUpdates | backend/api/routes/review.py:74-77 | reject writes exactly status and feedback |
| ReviewRoutes.RescoreUpdates | backend/api/routes/review.py:94-99 | rescore writes exactly status, feedback, score and confidence |
| ReviewRoutes.ApprovedRow | backend/api/routes/review.py:47-57 | an approved lead has status approved, the feedback or "Approved by human reviewer", the edited subject and body where given and the drafted ones otherwise, and its old score and confidence |
| ReviewRoutes.RejectedRow | backend/api/routes/review.py:74-77 | a rejected lead has status rejected, the feedback or "Rejected by human reviewer", and keeps its score, confidence and draft |
| ReviewRoutes.RescoredRow | backend/api/routes/review.py:94-99 | a rescored lead has status new, score 0, confidence 0.0 and the feedback or "Rescore requested", and keeps its draft |
| ReviewRoutes.ReviewColumns | backend/api/routes/review.py:47-99 | every column a review writes is a lead column |
| ReviewRoutes.UpdatesCommittable | backend/api/routes/review.py:47-99 | updates of review columns holding text, floats and 64-bit integers bind and keep the id and company name |
| ReviewRoutes.ReviewUpdatesBind | backend/api/routes/review.py:47-99 | the approve, reject and rescore updates always bind to their columns |
| ReviewRoutes.Decide | backend/api/routes/review.py:43-57 | a missing lead is a 404 and nothing changes; otherwise the lead gets the updates, which always commit, whatever its current status |
| ReviewRoutes.Approve | backend/api/routes/review.py:36-60 | 404 for a missing lead with nothing changed; otherwise the lead gets the approve updates and the reply names it; usage and e-mail logs are untouched |
| ReviewRoutes.Reject | backend/api/routes/review.py:63-80 | 404 for a missing lead with nothing changed; otherwise the lead gets the reject updates |
| ReviewRoutes.Rescore | backend/api/routes/review.py:83-102 | 404 for a missing lead with nothing changed; otherwise the lead gets the rescore updates |
| ReviewRoutes.GetReviewQueue | backend/api/routes/review.py:27-33 | the `to_dict` of each stored human_review lead, highest score first, none left out |
| ReviewRoutes.ToDictKeepsOrder | backend/api/routes/review.py:33 | `to_dict` keeps the score order and the human_review status of the queued rows |
| LeadRoutes.CreateDataValues | backend/api/routes/leads.py:86-99 | the inserted dictionary carries the given uuid, the request's company name and typed values for every column it fills |
| LeadRoutes.CreatedRow | backend/api/routes/leads.py:84-101 | a created lead has the request's company and contact fields, source "manual", status "new", score 0, confidence 0.0 and the same `datetime` as creation and update time |
| LeadRoutes.CreatedRowNulls | backend/api/routes/leads.py:86-101 | every column the request does not fill is NULL in the created row |
| LeadRoutes.CreateDataBinds | backend/api/routes/leads.py:84-97 | every value `create_lead` inserts binds to its column |
| LeadRoutes.CreateInsertsUnlessTaken | backend/api/routes/leads.py:84-100 | the insert fails exactly when the uuid is already stored |
| LeadRoutes.CoerceCanonical | backend/api/routes/leads.py:30-70 | a value a field accepts comes out of validation with the declared type and the same number or truth value; a value already of that type is kept |
| LeadRoutes.ResponseTyped | backend/api/routes/leads.py:30-70 | a validated response holds exactly the fields (every column but the scraped page and the search results), each of its declared type, keeping each `to_dict` value already of that type |
| LeadRoutes.NullAccepted | backend/api/routes/leads.py:30-70 | None validates for every field except lead_id, company_name, source, status, score and confidence |
| LeadRoutes.CreatedResponseValid | backend/api/routes/leads.py:84-101 | a created lead always validates as a LeadResponse |
| LeadRoutes.CreateLead | backend/api/routes/leads.py:78-101 | a fresh uuid appends the created row and answers with its validated response; a uuid already stored is a 500 that leaves the table as it was |
| LeadRoutes.ListLeads | backend/api/routes/leads.py:104-113 | a 500 exactly when some listed row fails LeadResponse validation; otherwise the listed rows' responses in order, never more than the rows with that status and never more than a non-negative `limit`; a negative limit with no offset lists every such row |
| LeadRoutes.Responses | backend/api/routes/leads.py:113 | the list comprehension fails with a 500 exactly when some row fails validation, and otherwise gives each row's response at its position |
| LeadRoutes.GetLead | backend/api/routes/leads.py:116-124 | 404 exactly when no row has the id; otherwise that row's validated response, or a 500 when validation raises |
| LeadRoutes.DeleteLead | backend/api/routes/leads.py:127-135 | the row is removed; 404 exactly when no row had the id, otherwise the "Lead deleted" message |
| LeadRoutes.ProcessLead | backend/api/routes/leads.py:138-209 | a missing lead is a 404 that changes nothing; a used-up quota is a 429 that changes nothing; otherwise the search is counted, the lead becomes "researching" and the pipeline starts on its dictionary with the sender name |
| LeadRoutes.ChargeSearch | backend/api/routes/leads.py:148-156 | the call is admitted exactly when the day's count is below five, and only an admitted call changes the counters |
| LeadRoutes.MarkResearching | backend/api/routes/leads.py:163 | the lead's status becomes "researching" and nothing else in the store changes |
| LeadRoutes.ResearchingSucceeds | backend/api/routes/leads.py:163 | setting the status to "researching" always commits |
| LeadRoutes.QuotaBound | backend/api/routes/leads.py:148-156 | over any sequence of calls, a user's calls admitted on one day are exactly the remaining quota (five minus the day's starting count) or the number of calls if fewer; never more than five |
| LeadRoutes.PipelineUpdatesEffect | backend/api/routes/leads.py:170-186 | the written-back columns are the run's lead columns other than the two timestamps, with its timing, plus the review reason exactly when the run ended in human review; a crash or a reason that raises is an error |
| LeadRoutes.ColumnsEffect | backend/api/routes/leads.py:175-179 | the filter keeps exactly the lead columns other than created_at and updated_at, with their values |
| LeadRoutes.WriteBackCommits | backend/api/routes/leads.py:186 | a finished run that keeps the lead's id and company name, and whose values bind to their columns, always commits its update |
| LeadRoutes.WriteBackRefused | backend/api/routes/leads.py:186-198 | a finished run with a value that does not bind to its column is written back as the failure write with the bind error's text |
| LeadRoutes.UpdatesShaped | backend/api/routes/leads.py:186 | values copied from a typed run state give lead_id, company_name, score and status their columns' types (the bind check on every column is `LeadRoutes.WriteBackCommits`/`WriteBackRefused`) |
| LeadRoutes.FailedSucceeds | backend/api/routes/leads.py:191-198 | the failure write always commits |
| LeadRoutes.FailedRow | backend/api/routes/leads.py:195-198 | a failed lead has status "failed" and the exception's text, keeps its score and creation time, and gets the new update time |
| LeadRoutes.WriteBack | backend/api/routes/leads.py:165-201 | the rows after the background run: the run's columns when they commit, otherwise the failure write with the exception's text |
| LeadRoutes.UpdatedTwice | backend/api/routes/leads.py:224 | updating a row twice with the same values at the same time is updating it once |
| LeadRoutes.ResearchedStep | backend/api/routes/leads.py:221-224 | setting one more lead to "researching" extends the set of researched ids |
| LeadRoutes.ListedIsStored | backend/api/routes/leads.py:217 | every listed lead is a stored row |
| LeadRoutes.BatchProcess | backend/api/routes/leads.py:212-267 | the first 50 "new" leads, newest first, become "researching" and each goes to the pipeline with the sender name; their ids come back in that order and there are min(new leads, 50) of them; no quota is touched |
| LeadRoutes.StartAll | backend/api/routes/leads.py:221-262 | after the loop every listed lead is "researching", its id is recorded in order and its pipeline input is its dictionary with the sender name |
| LeadRoutes.StartNext | backend/api/routes/leads.py:221-262 | one turn appends the lead's id and pipeline input and sets that lead to "researching" |
| LeadRoutes.StartLead | backend/api/routes/leads.py:222-224 | the lead's dictionary with the sender name is its pipeline input and the lead becomes "researching" |
| LeadRoutes.BatchStartsAllNew | backend/api/routes/leads.py:217-262 | with at most 50 "new" leads, every one of them is started and left "researching" |
| UploadRoutes.GatesIndependent | backend/api/routes/upload.py:24-32 | an upload is admitted exactly when the day's upload count is below five; an admitted upload raises only that day's upload count and an admitted process call only its search count, every other user and day keeps its counters |
| UploadRoutes.Import | backend/api/routes/upload.py:40-49 | every parsed lead is either created or skipped |
| UploadRoutes.ImportAppends | backend/api/routes/upload.py:40-43 | an import only appends: the old rows stay in front, one new row per created id, holding that id, in order |
| UploadRoutes.LeadIds | backend/api/routes/upload.py:43 | one id per lead, the lead's own where it has one |
| UploadRoutes.ImportFresh | backend/api/routes/upload.py:40-49 | insertable leads with distinct, new ids are all created, in order, and none is skipped |
| UploadRoutes.MappedKeysAreColumns | backend/api/routes/upload.py:35-42 | every key a parsed CSV lead can hold is a lead column |
| UploadRoutes.MappedRowInsertable | backend/api/routes/upload.py:35-42 | a mapped row with a company name has lead columns of the right types and its own uuid |
| UploadRoutes.MappedRowBinds | backend/api/routes/upload.py:35-42 | every value of a `datetime`-stamped mapped row binds to its column |
| UploadRoutes.IsoStampedRowRefused | backend/api/routes/upload.py:40-42 | a row stamped with ISO text, as written, fails its insert with a bind error |
| UploadRoutes.ImportRefused | backend/api/routes/upload.py:40-49 | when every insert fails with a bind error, the import creates nothing, leaves the table as it was and skips every lead with that error's text |
| UploadRoutes.CsvImportAsWritten | backend/api/routes/upload.py:35-49 | importing the leads the parser returns as written creates nothing and skips every one of them |
| UploadRoutes.ParsedLeadInsertable | backend/api/routes/upload.py:35-42 | every lead the parser returns can be given to `create_lead` |
| UploadRoutes.UploadCsv | backend/api/routes/upload.py:15-59 | a non-".csv" name gets the error reply and changes nothing; a used-up upload quota is a 429 that changes nothing; otherwise the upload is counted once; a parse that raises (a row longer than the header) is then a 500 that leaves the leads as they were, and otherwise the leads, parsed with the corrected `datetime` stamp (see Findings), are imported, the reply listing the created ids and the skipped leads; as written every lead is skipped, UploadRoutes.CsvImportAsWritten |
| UploadRoutes.ChargeUpload | backend/api/routes/upload.py:24-32 | the upload is admitted exactly when the day's upload count is below five, and only an admitted upload changes the counters |
| UploadRoutes.ImportLeads | backend/api/routes/upload.py:37-49 | the loop leaves the table, the created ids and the skipped entries exactly as the import definition gives them |
| FrontendConstants.StatusConfigCovers | frontend/src/lib/constants.ts:1-14 | the status table styles exactly the twelve pipeline statuses |
| FrontendConstants.StatusLabelsGiven | frontend/src/lib/constants.ts:1-14 | every entry of the status table has a non-empty label |
| FrontendConstants.ScoreColor | frontend/src/lib/constants.ts:16-20 | green exactly from 70 up, amber exactly from 40 below 70, red exactly below 40 |
| FrontendConstants.ScoreLabel | frontend/src/lib/constants.ts:22-26 | "Qualified" exactly from 70 up, "Borderline" exactly from 40 below 70, "Low" exactly below 40 |
| FrontendConstants.ColorMatchesLabel | frontend/src/lib/constants.ts:16-26 | a score's colour is always the colour of its label |
| FrontendConstants.LabelMonotone | frontend/src/lib/constants.ts:22-26 | a higher score never gets a lower label |
| FrontendConstants.QualifiedAtThreshold | frontend/src/lib/constants.ts:16-26 | for every whole-number score, the label is "Qualified" and the colour green exactly when the score reaches the backend's qualification threshold, and every score below the auto-reject threshold is labelled "Low" |
| StatusBadge.Badge | frontend/src/components/dashboard/StatusBadge.tsx:10-26 | "success" exactly for approved and sent, "destructive" exactly for rejected and failed, "warning" exactly for human_review, "secondary" for every other status; the label is the table's, or the status itself when the table has no entry |
| StatusBadge.PipelineLabels | frontend/src/components/dashboard/StatusBadge.tsx:11 | every pipeline status is shown with its own non-empty label |
| FrontendValidators.IsValidEmailIff | frontend/src/lib/validators.ts:4-7 | the character-level definition agrees with the pattern `^[^\s@]+@[^\s@]+\.[^\s@]+$` on every text |
| FrontendValidators.UrlCandidate | frontend/src/lib/validators.ts:14 | the text handed to the URL parser always starts with "http": the input itself, or the input with "https://" in front |
| FrontendValidators.ValidateLeadForm | frontend/src/lib/validators.ts:37-46 | the company error exactly when no company name is given, the website error exactly when a given website fails the URL check, no other errors; valid exactly when there are none, that is, exactly when a company name is given and the website is absent or passes the URL check |

## Left out

- Network and mail I/O: `scrape_website`, the research node with its web search, the SMTP sender and the Groq and Ollama HTTP calls inside `generate`. Their results enter the model as parameters: page text, the search reply, the send outcome and the model's reply text.
- LangGraph itself: `interrupt`, the `MemorySaver` checkpointer, `compile` and `ainvoke`. The graph is kept as the builder's node, edge and branch tables. A run is given as its outcome, either the final state with its duration or the text of the exception it raised.
- `asyncio.create_task`: the background run and the request that started it are not interleaved. Only the run's write-back is modelled, applied to that outcome.
- `json.loads` is the parameter `decode`. The CSV tokenizer (quoting, embedded newlines, dialects) and the `utf-8-sig` decoding are not modelled: a file arrives as its records, each a sequence of cell texts. What `csv.DictReader` makes of those records is modelled (`CsvReader`).
- `uuid.uuid4()` and `datetime.now()` are parameters. A `datetime` is the value `JTime` holding its ISO text; time zones and the formatting of `isoformat()` are not modelled.
- The SQL column types are modelled as the checks their bind step makes (`LeadRecords.Binds`). What SQLite does with a stored value on the way back (type affinity, `JSON` decoding, `DateTime` parsing) is not modelled: a row reads back as it was written.
- Numeric and boolean text in LeadResponse fields: pydantic's lax mode turns "12" into an int and "yes" into a bool. `LeadRoutes.Accepts` rejects such text, so the model answers with a 500 where the service would answer with the converted value. The columns such text could reach are score, confidence and processing_time_seconds.
- `int()`, `float()` and `str()` of language-model values are parameters of the scoring and enrich nodes, together with the text of the error they raise. Floating-point values are exact reals. Python's `round` is modelled with ties to even, applied to the exact value, so a binary representation error that would change a tie is not reproduced.
- `get_analytics_summary`: the `avg_score` and `avg_processing_time` averages are not modelled, because they are float averages over SQL aggregates. The counts and the accuracy are modelled.
- A failed commit: the model keeps the table as it was before the failing statement. The session's rollback state is not modelled.
- Environment settings: the thresholds 70 and 20 and the provider name are constants or parameters. The YAML rubric is taken as given and not validated against the `ScoringCriterion` bounds.
- Prompt templates: the prompt text sent to the model is not modelled, only the values that reach the node's update.
- Backend `is_valid_url`: it is not called by any modelled operation. Front-end `isValidUrl` passes its candidate text to the JS `URL` constructor, whose acceptance is the parameter `parses`.
- `str.lower()` applies the full Unicode case mapping. The model applies it to A to Z, the Kelvin sign and the capital I with a dot above, the only characters whose lower case holds an ASCII letter. Every other character is kept as it is, so text such as "Ä" is not lower-cased. Every pattern and header key the model looks for is ASCII, so this cannot change whether one of them occurs.
- `formatCurrency`: `Intl.NumberFormat` is not modelled.
- Front-end rendering and the checkout route: rendering and payment are outside the core logic.
- StatusBadge.Badge: `STATUS_CONFIG[status]` on a status that names a built-in object property (such as "constructor") is read as a missing entry, which differs from what JavaScript does.
- Scores that are NaN are not modelled: scores are integers or exact reals.
- Database.UsageOf: the contract states only the missing-row case, that is the fresh row with zero counters. A present row is returned as stored.
- Validators.IsValidEmail: the function's own contract states only that the empty address is invalid. The full characterisation is Validators.IsValidEmailIff.
- ScoringNode.Score: requires tech_stack, buying_signals and pain_points to be None or lists of text, as LeadState declares them and the enrich prompt asks. The enrich node stores the model's pain_points and buying_signals unchecked (enrich_node.py:44-45); a reply list holding a non-text item would make the `", ".join` at scoring_node.py:33-35, which is outside the `try`, raise a TypeError, and the run would end as "failed". The model does not capture that crash.
- DraftingNode.SignalHook: requires buying_signals to be None or a list of text, and the hook builder and `Drafting` require the same (through `HookTypes`) of tech_stack and open_positions, and recent_news to be None or a list, as LeadState declares them. An ill-typed buying_signals from the enrich reply (a dict, say, where `signals[0]` at drafting_node.py:110 raises KeyError) would make the node raise; the model does not capture that crash.
- UploadRoutes.Import: the function's own contract states only that every lead is either created or skipped. What is appended and which ids are recorded is stated by UploadRoutes.ImportAppends and UploadRoutes.ImportFresh.

## Findings

| source | as written | input that shows it | evidently intended | confidence | as-written member | corrected member |
|---|---|---|---|---|---|---|
| backend/src/tools/data_parser.py:66 | the logged total is `len(list(reader)) + len(leads)`, taken after the loop has already consumed the reader, so it counts only the kept leads | one row whose company cell is empty: the log reports 0 total rows though 1 row was read | the total is the number of rows read | not executed | DataParser.LoggedTotalUndercounts | DataParser.ParseCsv |
| backend/src/tools/data_parser.py:72-80 | each CSV lead's `created_at` and `updated_at` are `datetime.now(...).isoformat()` text, and `upload_csv` passes the lead to `create_lead`, whose `DateTime` columns accept only `datetime` objects | any CSV file with a company column: every row's insert fails with a bind error, so nothing is imported and every lead is listed as skipped | the timestamps are `datetime` values, as `create_lead` in the leads route gives them | not executed | UploadRoutes.CsvImportAsWritten | UploadRoutes.ParsedLeadInsertable |
