/**
 * The pure halves of the scraper: spotting technologies in a page's HTML,
 * and picking job-title lines out of a careers page's text.
 */
module WebScraper {
  import opened PyStrings
  import opened PyLists

  // ---------------------------------------------------------------- tech stack

  /**
   * `TECH_PATTERNS`, in declaration order. Every pattern is a plain string
   * once the regex escape `\.` is read as a literal dot, so `re.search`
   * finds it exactly where it occurs as a substring.
   */
  const TechPatterns: seq<(string, seq<string>)> := [
    ("React", ["react", "__next", "_react"]),
    ("Vue.js", ["vue", "__vue"]),
    ("Angular", ["ng-", "angular"]),
    ("Next.js", ["__next", "_next"]),
    ("WordPress", ["wp-content", "wordpress"]),
    ("Shopify", ["shopify", "cdn.shopify"]),
    ("Django", ["csrfmiddlewaretoken", "django"]),
    ("Ruby on Rails", ["rails", "csrf-token"]),
    ("AWS", ["amazonaws", "aws"]),
    ("Google Cloud", ["googleapis", "gcloud"]),
    ("Stripe", ["stripe.com", "stripe.js"]),
    ("HubSpot", ["hubspot", "hs-scripts"]),
    ("Segment", ["segment.com", "analytics.js"]),
    ("Intercom", ["intercom", "intercomSettings"]),
    ("Tailwind CSS", ["tailwindcss", "tailwind"]),
    ("Bootstrap", ["bootstrap"])
  ]

  /** The technology names, in declaration order. */
  function Names(es: seq<(string, seq<string>)>): (r: seq<string>)
    ensures |r| == |es| && forall i :: 0 <= i < |es| ==> r[i] == es[i].0
  {
    seq(|es|, i requires 0 <= i < |es| => es[i].0)
  }

  /** `any(p in h for p in ps)` */
  function AnyIn(ps: seq<string>, h: string): bool {
    if ps == [] then false else Contains(h, ps[0]) || AnyIn(ps[1..], h)
  }

  /** Some pattern of `ps` occurs in `h`. */
  lemma {:induction false} AnyInIff(ps: seq<string>, h: string)
    ensures AnyIn(ps, h) <==> exists k :: 0 <= k < |ps| && Occurs(ps[k], h)
  {
    if ps != [] {
      ContainsIff(h, ps[0]);
      AnyInIff(ps[1..], h);
      assert forall k :: 0 < k < |ps| ==> ps[k] == ps[1..][k - 1];
    }
  }

  /** The names of the entries one of whose patterns occurs in `h`, in order. */
  function Matching(es: seq<(string, seq<string>)>, h: string): (r: seq<string>)
    ensures |r| <= |es|
  {
    if es == [] then []
    else Matching(es[..|es| - 1], h) + (if AnyIn(es[|es| - 1].1, h) then [es[|es| - 1].0] else [])
  }

  lemma MatchingSnoc(es: seq<(string, seq<string>)>, h: string, i: nat)
    requires i < |es|
    ensures Matching(es[..i + 1], h) == Matching(es[..i], h) + (if AnyIn(es[i].1, h) then [es[i].0] else [])
  {
    assert es[..i + 1][..i] == es[..i];
  }

  /** What `detect_tech_stack` returns for `html`. */
  function TechStack(html: string): seq<string> {
    if html == "" then [] else Matching(TechPatterns, Lower(html))
  }

  /** `detect_tech_stack`: one pass over the table, appending each technology found. */
  method DetectTechStack(html: string) returns (detected: seq<string>)
    ensures detected == TechStack(html)
  {
    if html == "" {
      return [];
    }
    var htmlLower := Lower(html);
    detected := [];
    for i := 0 to |TechPatterns|
      invariant detected == Matching(TechPatterns[..i], htmlLower)
    {
      var (tech, patterns) := TechPatterns[i];
      if AnyIn(patterns, htmlLower) {
        detected := detected + [tech];
      }
      MatchingSnoc(TechPatterns, htmlLower, i);
    }
    assert TechPatterns[..|TechPatterns|] == TechPatterns;
  }

  /** A name is in the result iff its entry has a pattern that occurs in `h`. */
  lemma {:induction false} MatchingMembers(es: seq<(string, seq<string>)>, h: string, x: string)
    ensures x in Matching(es, h) <==> exists k :: 0 <= k < |es| && es[k].0 == x && AnyIn(es[k].1, h)
  {
    if es != [] {
      var init := es[..|es| - 1];
      MatchingMembers(init, h, x);
      assert forall k :: 0 <= k < |init| ==> init[k] == es[k];
    }
  }

  /** The result picks names out of the table in table order. */
  lemma {:induction false} MatchingOrdered(es: seq<(string, seq<string>)>, h: string)
    ensures IsSubseq(Matching(es, h), Names(es))
  {
    if es == [] {
      assert Embeds(Matching(es, h), Names(es), []);
    } else {
      var init := es[..|es| - 1];
      var last := es[|es| - 1];
      MatchingOrdered(init, h);
      var ix :| Embeds(Matching(init, h), Names(init), ix);
      assert Names(es) == Names(init) + [last.0];
      if AnyIn(last.1, h) {
        EmbedsSnoc(Matching(init, h), Names(init), ix, last.0);
      } else {
        assert Matching(es, h) == Matching(init, h);
        EmbedsExtend(Matching(init, h), Names(init), ix, last.0);
      }
    }
  }

  /** `html` is empty, or one of the technology's patterns occurs in its lower-cased form. */
  lemma TechDetectedIff(html: string, tech: string)
    ensures tech in TechStack(html) <==>
      html != "" && exists k :: 0 <= k < |TechPatterns| && TechPatterns[k].0 == tech
                                && exists j :: 0 <= j < |TechPatterns[k].1| && Occurs(TechPatterns[k].1[j], Lower(html))
  {
    MatchingMembers(TechPatterns, Lower(html), tech);
    forall k | 0 <= k < |TechPatterns| {
      AnyInIff(TechPatterns[k].1, Lower(html));
    }
  }

  /** Detected names follow the table's order and none is repeated. */
  lemma TechStackOrdered(html: string)
    ensures IsSubseq(TechStack(html), Names(TechPatterns))
    ensures Distinct(TechStack(html))
    ensures |TechStack(html)| <= |TechPatterns|
  {
    if html == "" {
      assert Embeds(TechStack(html), Names(TechPatterns), []);
    } else {
      MatchingOrdered(TechPatterns, Lower(html));
    }
    TechNamesDistinct();
    SubseqDistinct(TechStack(html), Names(TechPatterns));
  }

  /** Lower-casing the page first changes nothing. */
  lemma TechStackLowerInvariant(html: string)
    ensures TechStack(Lower(html)) == TechStack(html)
  {
    LowerIdempotent(html);
  }

  /** A pattern holding a character that lower-casing changes never occurs in lower-cased text. */
  lemma UpperPatternNeverOccurs(p: string, h: string, k: nat)
    requires k < |p| && UpperChar(p[k])
    ensures !Occurs(p, Lower(h))
  {
  }

  /**
   * "intercomSettings" is searched for in lower-cased text, so it never
   * matches; Intercom is detected exactly when "intercom" occurs.
   */
  lemma IntercomByFirstPattern(html: string)
    ensures "Intercom" in TechStack(html) <==> html != "" && Occurs("intercom", Lower(html))
  {
    var h := Lower(html);
    var ps := TechPatterns[13].1;
    assert TechPatterns[13].0 == "Intercom" && ps == ["intercom", "intercomSettings"];
    if html != "" {
      MatchingMembers(TechPatterns, h, "Intercom");
      AnyInIff(ps, h);
      UpperPatternNeverOccurs("intercomSettings", html, 8);
      TechNamesDistinct();
      forall k | 0 <= k < |TechPatterns| && TechPatterns[k].0 == "Intercom" ensures k == 13 {
        assert Names(TechPatterns)[k] == Names(TechPatterns)[13];
      }
    }
  }

  /** The position of a technology in the table, by name. */
  function TechIndex(name: string): int {
    if name == "React" then 0
    else if name == "Vue.js" then 1
    else if name == "Angular" then 2
    else if name == "Next.js" then 3
    else if name == "WordPress" then 4
    else if name == "Shopify" then 5
    else if name == "Django" then 6
    else if name == "Ruby on Rails" then 7
    else if name == "AWS" then 8
    else if name == "Google Cloud" then 9
    else if name == "Stripe" then 10
    else if name == "HubSpot" then 11
    else if name == "Segment" then 12
    else if name == "Intercom" then 13
    else if name == "Tailwind CSS" then 14
    else if name == "Bootstrap" then 15
    else -1
  }

  /** No technology is listed twice. */
  lemma TechNamesDistinct()
    ensures Distinct(Names(TechPatterns))
  {
    var n := Names(TechPatterns);
    assert forall k :: 0 <= k < |n| ==> TechIndex(n[k]) == k;
  }

  // ---------------------------------------------------------------- job titles

  const JobKeywords: seq<string> := [
    "engineer", "developer", "manager", "designer", "analyst",
    "director", "lead", "architect", "scientist", "coordinator",
    "specialist", "consultant", "intern", "head of", "vp "
  ]

  const JobsCap := 15

  /** A stripped line is kept when it has a title's length and names a job keyword. */
  predicate IsJobTitle(line: string) {
    10 < |line| < 80 && AnyIn(JobKeywords, Lower(line))
  }

  /** A line that, once stripped, looks like a job title. */
  predicate IsTitleLine(line: string) {
    IsJobTitle(Strip(line))
  }

  /** The stripped lines that look like job titles, in line order. */
  function JobTitles(lines: seq<string>): seq<string> {
    Select(lines, IsTitleLine, Strip)
  }

  /** What `parse_job_listings` returns for `text`. */
  function JobListings(text: string): seq<string> {
    if text == "" then [] else Take(JobTitles(Split(text, '\n')), JobsCap)
  }

  /** `parse_job_listings`: one pass over the lines, then the first 15 kept. */
  method ParseJobListings(text: string) returns (jobs: seq<string>)
    ensures jobs == JobListings(text)
  {
    if text == "" {
      return [];
    }
    var lines := Split(text, '\n');
    jobs := CollectTitles(lines);
    jobs := Take(jobs, JobsCap);
  }

  /** The loop of `parse_job_listings`: strip each line, keep it when it looks like a title. */
  method CollectTitles(lines: seq<string>) returns (jobs: seq<string>)
    ensures jobs == JobTitles(lines)
  {
    jobs := [];
    for i := 0 to |lines|
      invariant jobs == Select(lines[..i], IsTitleLine, Strip)
    {
      SelectSnoc(lines, IsTitleLine, Strip, i);
      var line := Strip(lines[i]);
      if 10 < |line| < 80 {
        if AnyIn(JobKeywords, Lower(line)) {
          assert IsTitleLine(lines[i]);
          jobs := jobs + [line];
        }
      }
    }
    assert lines[..|lines|] == lines;
  }

  /** Each returned job is a stripped line of 10 < length < 80 naming a keyword in any case. */
  lemma JobListingsAreTitles(text: string, i: nat)
    requires i < |JobListings(text)|
    ensures 10 < |JobListings(text)[i]| < 80 && AnyIn(JobKeywords, Lower(JobListings(text)[i]))
  {
    var lines := Split(text, '\n');
    assert JobListings(text)[i] == JobTitles(lines)[i];
    SelectKept(lines, IsTitleLine, Strip, i);
    var k :| 0 <= k < |lines| && IsTitleLine(lines[k]) && JobTitles(lines)[i] == Strip(lines[k]);
    assert IsJobTitle(JobListings(text)[i]);
  }

  /** At most 15 titles come back, the first ones in line order. */
  lemma JobListingsShape(text: string)
    ensures |JobListings(text)| <= JobsCap
    ensures IsSubseq(JobListings(text), MapSeq(Split(text, '\n'), Strip))
  {
    var lines := Split(text, '\n');
    if text == "" {
      assert Embeds(JobListings(text), MapSeq(lines, Strip), []);
    } else {
      SelectOrdered(lines, IsTitleLine, Strip);
      SubseqPrefix(JobTitles(lines), MapSeq(lines, Strip), |JobListings(text)|);
    }
  }

  /** Below the cap, every title line of the text is returned. */
  lemma JobListingsComplete(text: string, k: nat)
    requires text != "" && k < |Split(text, '\n')| && IsJobTitle(Strip(Split(text, '\n')[k]))
    requires |JobTitles(Split(text, '\n'))| <= JobsCap
    ensures Strip(Split(text, '\n')[k]) in JobListings(text)
  {
    var lines := Split(text, '\n');
    assert JobListings(text) == JobTitles(lines) by {
      TakeAll(JobTitles(lines), JobsCap);
    }
    SelectComplete(lines, IsTitleLine, Strip, k);
  }
}
