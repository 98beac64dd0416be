/** The backend's input helpers: e-mail syntax, URL normalisation, text cleaning. */
module Validators {
  import opened PyStrings

  // ---------------------------------------------------------------- e-mail

  predicate LocalChar(c: char) {
    ('a' <= c <= 'z') || ('A' <= c <= 'Z') || ('0' <= c <= '9') || c in "._%+-"
  }

  predicate DomainChar(c: char) {
    ('a' <= c <= 'z') || ('A' <= c <= 'Z') || ('0' <= c <= '9') || c in ".-"
  }

  predicate Letter(c: char) {
    ('a' <= c <= 'z') || ('A' <= c <= 'Z')
  }

  predicate AllLocal(s: string) { forall i :: 0 <= i < |s| ==> LocalChar(s[i]) }
  predicate AllDomain(s: string) { forall i :: 0 <= i < |s| ==> DomainChar(s[i]) }
  predicate AllLetters(s: string) { forall i :: 0 <= i < |s| ==> Letter(s[i]) }

  /**
   * `b` is local@domain.tld with the '@' at index `at` and the last dot at
   * index `dot`: one way for `[a-zA-Z0-9._%+-]+@[a-zA-Z0-9.-]+\.[a-zA-Z]{2,}`
   * to match all of `b`.
   */
  predicate EmailSplit(b: string, at: int, dot: int) {
    0 < at && at + 1 < dot && dot + 3 <= |b|
    && b[at] == '@' && b[dot] == '.'
    && AllLocal(b[..at]) && AllDomain(b[at + 1..dot]) && AllLetters(b[dot + 1..])
  }

  /** Some way of matching the e-mail pattern against the whole of `b` exists. */
  ghost predicate MatchesEmailPattern(b: string) {
    exists at, dot :: EmailSplit(b, at, dot)
  }

  /** Among the ways to split, only the first '@' and the last dot after it can work. */
  lemma EmailSplitCanonical(b: string, at: int, dot: int)
    requires EmailSplit(b, at, dot)
    ensures '@' in b && at == IndexOf(b, '@') && '.' in b[at + 1..] && dot == at + 1 + LastIndexOf(b[at + 1..], '.')
  {
    SameAt(b, IndexOf(b, '@'), at);
    var rest := b[at + 1..];
    assert rest[dot - at - 1] == '.';
    SameDot(b, at, at + 1 + LastIndexOf(rest, '.'), dot);
  }

  lemma SameAt(b: string, at: nat, at': int)
    requires '@' in b && at == IndexOf(b, '@')
    requires 0 < at' < |b| && b[at'] == '@' && AllLocal(b[..at'])
    ensures at' == at
  {
    forall i | 0 <= i < at ensures b[i] != '@' {
      assert b[..at][i] == b[i];
    }
    forall i | 0 <= i < at' ensures b[i] != '@' {
      assert b[..at'][i] == b[i];
    }
  }

  lemma SameDot(b: string, at: nat, dot: nat, dot': int)
    requires at < |b| && '.' in b[at + 1..] && dot == at + 1 + LastIndexOf(b[at + 1..], '.')
    requires at + 1 < dot' < |b| && b[dot'] == '.' && AllLetters(b[dot' + 1..])
    ensures dot' == dot
  {
    var rest := b[at + 1..];
    var last := LastIndexOf(rest, '.');
    forall i | dot < i < |b| ensures b[i] != '.' {
      assert rest[last + 1..][i - dot - 1] == b[i];
    }
    forall i | dot' < i < |b| ensures b[i] != '.' {
      assert b[dot' + 1..][i - dot' - 1] == b[i];
    }
  }

  /**
   * Decides the pattern without backtracking: the '@' must be the first one
   * (the local part has none) and the dot must be the last one (the
   * top-level domain has none).
   */
  function MatchBody(b: string): bool {
    if '@' !in b then false
    else
      var at := IndexOf(b, '@');
      var rest := b[at + 1..];
      '.' in rest && EmailSplit(b, at, at + 1 + LastIndexOf(rest, '.'))
  }

  /** What the one-pass matcher accepts matches the pattern. */
  lemma MatchBodySound(b: string)
    requires MatchBody(b)
    ensures MatchesEmailPattern(b)
  {
    var at := IndexOf(b, '@');
    var dot := at + 1 + LastIndexOf(b[at + 1..], '.');
    assert EmailSplit(b, at, dot);
  }

  /** Every way of matching the pattern is one the one-pass matcher finds. */
  lemma MatchBodyComplete(b: string, at: int, dot: int)
    requires EmailSplit(b, at, dot)
    ensures MatchBody(b)
  {
    EmailSplitCanonical(b, at, dot);
  }

  /** The one-pass matcher agrees with the pattern. */
  lemma MatchBodyCorrect(b: string)
    ensures MatchBody(b) <==> MatchesEmailPattern(b)
  {
    if MatchesEmailPattern(b) {
      var at, dot :| EmailSplit(b, at, dot);
      MatchBodyComplete(b, at, dot);
    }
    if MatchBody(b) {
      MatchBodySound(b);
    }
  }

  /**
   * `is_valid_email`: `re.match` of the anchored pattern. Python's `$` also
   * matches just before a final newline, so one trailing "\n" is accepted.
   */
  function IsValidEmail(email: string): (r: bool)
    ensures email == "" ==> !r
  {
    if email == "" then false
    else MatchBody(email) || (email[|email| - 1] == '\n' && MatchBody(email[..|email| - 1]))
  }

  /** The check accepts exactly the addresses the pattern matches, with or without one trailing newline. */
  lemma IsValidEmailIff(email: string)
    ensures IsValidEmail(email) <==> (email != "" && (MatchesEmailPattern(email)
                    || (email[|email| - 1] == '\n' && MatchesEmailPattern(email[..|email| - 1]))))
  {
    if email != "" {
      MatchBodyCorrect(email);
      MatchBodyCorrect(email[..|email| - 1]);
    }
  }

  // ---------------------------------------------------------------- URLs

  /** `normalize_url`: trim, default the scheme to https, drop trailing slashes. */
  function NormalizeUrl(url: string): (r: string)
    ensures url == "" ==> r == ""
    ensures r != "" ==> r[|r| - 1] != '/'
  {
    if url == "" then ""
    else RStripChar(WithScheme(Strip(url)), '/')
  }

  function WithScheme(u: string): (r: string)
    ensures StartsWith(r, "http://") || StartsWith(r, "https://")
    ensures (StartsWith(u, "http://") || StartsWith(u, "https://")) ==> r == u
    ensures !(StartsWith(u, "http://") || StartsWith(u, "https://")) ==> r == "https://" + u
  {
    if StartsWith(u, "http://") || StartsWith(u, "https://") then u else "https://" + u
  }

  /**
   * The result is the trimmed input, with https:// in front when it had
   * neither scheme, minus a run of trailing slashes.
   */
  lemma NormalizeUrlShape(url: string)
    requires url != ""
    ensures var u := WithScheme(Strip(url)); var r := NormalizeUrl(url);
      |r| <= |u| && r == u[..|r|] && forall i :: |r| <= i < |u| ==> u[i] == '/'
  {
  }

  /** Stripping slashes never reaches the scheme's colon, so "http:" or "https:" survives. */
  lemma NormalizeUrlKeepsScheme(url: string)
    requires url != ""
    ensures StartsWith(NormalizeUrl(url), "http:") || StartsWith(NormalizeUrl(url), "https:")
  {
    SchemeSurvives(WithScheme(Strip(url)));
  }

  lemma {:induction false} SchemeSurvives(u: string)
    requires StartsWith(u, "http://") || StartsWith(u, "https://")
    ensures StartsWith(RStripChar(u, '/'), "http:") || StartsWith(RStripChar(u, '/'), "https:")
  {
    var r := RStripChar(u, '/');
    if StartsWith(u, "https://") {
      assert u[5] == u[..8][5] == ':';
      KeepsUpTo(u, 5);
      assert r[..6] == u[..6] == "https:";
    } else {
      assert u[4] == u[..7][4] == ':';
      KeepsUpTo(u, 4);
      assert r[..5] == u[..5] == "http:";
    }
  }

  /** `rstrip("/")` keeps every character up to the last one that is not a slash. */
  lemma KeepsUpTo(u: string, k: nat)
    requires k < |u| && u[k] != '/'
    ensures |RStripChar(u, '/')| > k
  {
  }

  // ---------------------------------------------------------------- text

  /** No two whitespace characters stand next to each other. */
  predicate NoDoubleSpace(s: string) {
    forall i :: 0 <= i < |s| - 1 ==> !(IsSpace(s[i]) && IsSpace(s[i + 1]))
  }

  /** The only whitespace left is the plain space. */
  predicate OnlyPlainSpaces(s: string) {
    forall i :: 0 <= i < |s| ==> IsSpace(s[i]) ==> s[i] == ' '
  }

  /** The non-whitespace characters of `s`, in order. */
  function Visible(s: string): (r: string)
    ensures |r| <= |s|
  {
    if s == [] then [] else if IsSpace(s[0]) then Visible(s[1..]) else [s[0]] + Visible(s[1..])
  }

  /** `re.sub(r"\s+", " ", s)`: every maximal whitespace run becomes one space. */
  function Collapse(s: string): (r: string)
    ensures |r| <= |s|
    ensures r == [] <==> s == []
    ensures s != [] ==> r[0] == (if IsSpace(s[0]) then ' ' else s[0])
    ensures NoDoubleSpace(r) && OnlyPlainSpaces(r)
    ensures Visible(r) == Visible(s)
    decreases |s|
  {
    if s == [] then []
    else if IsSpace(s[0]) then
      var t := LStrip(s);
      var r := [' '] + Collapse(t);
      VisibleSkipsSpace(s, |s| - |t|);
      r
    else
      [s[0]] + Collapse(s[1..])
  }

  lemma {:induction false} VisibleSkipsSpace(s: string, n: nat)
    requires n <= |s| && AllSpace(s[..n])
    ensures Visible(s) == Visible(s[n..])
    decreases n
  {
    if n > 0 {
      assert IsSpace(s[..n][0]);
      assert s[1..][..n - 1] == s[..n][1..];
      VisibleSkipsSpace(s[1..], n - 1);
      assert s[1..][n - 1..] == s[n..];
    }
  }

  /** `clean_text(text, max_length)` */
  function CleanText(text: string, maxLength: int := 5000): (r: string)
    ensures text == "" ==> r == ""
    ensures var t := Strip(Collapse(text)); |r| <= |t| && r == t[..|r|]
    ensures 0 <= maxLength ==> |r| == if maxLength < |Strip(Collapse(text))| then maxLength else |Strip(Collapse(text))|
    ensures 0 <= maxLength ==> |r| <= maxLength
    ensures r == [] || !IsSpace(r[0])
    ensures NoDoubleSpace(r) && OnlyPlainSpaces(r)
  {
    if text == "" then ""
    else
      var c := Collapse(text);
      var t := Strip(c);
      StripIsSlice(c);
      var r := Take(t, maxLength);
      PrefixKeeps(t, r);
      r
  }

  /** With room for the whole text, cleaning loses no visible character. */
  lemma CleanTextKeepsVisible(text: string, maxLength: int)
    requires |text| <= maxLength
    ensures Visible(CleanText(text, maxLength)) == Visible(text)
  {
    var c := Collapse(text);
    var l := LStrip(c);
    assert CleanText(text, maxLength) == RStrip(l);
    VisibleSkipsSpace(c, |c| - |l|);
    VisibleRStrip(l);
  }

  /** Trailing whitespace holds nothing visible. */
  lemma VisibleRStrip(l: string)
    ensures Visible(RStrip(l)) == Visible(l)
  {
    var t := RStrip(l);
    var n := |t|;
    assert l == l[..n] + l[n..];
    VisibleAppend(t, l[n..]);
    VisibleOfSpace(l[n..]);
  }

  lemma {:induction false} VisibleAppend(a: string, b: string)
    ensures Visible(a + b) == Visible(a) + Visible(b)
    decreases |a|
  {
    if a != [] {
      assert (a + b)[0] == a[0] && (a + b)[1..] == a[1..] + b;
      VisibleAppend(a[1..], b);
    } else {
      assert a + b == b;
    }
  }

  lemma {:induction false} VisibleOfSpace(s: string)
    requires AllSpace(s)
    ensures Visible(s) == []
    decreases |s|
  {
    if s != [] {
      VisibleOfSpace(s[1..]);
    }
  }

  /** A prefix keeps the first character and the spacing facts of the whole. */
  lemma PrefixKeeps(t: string, r: string)
    requires |r| <= |t| && r == t[..|r|]
    requires t == [] || !IsSpace(t[0])
    requires NoDoubleSpace(t) && OnlyPlainSpaces(t)
    ensures r == [] || !IsSpace(r[0])
    ensures NoDoubleSpace(r) && OnlyPlainSpaces(r)
  {
    assert forall i :: 0 <= i < |r| ==> r[i] == t[i];
  }

  /** `Strip(s)` is a contiguous piece of `s`: it adds no new neighbours. */
  lemma StripIsSlice(s: string)
    ensures NoDoubleSpace(s) ==> NoDoubleSpace(Strip(s))
    ensures OnlyPlainSpaces(s) ==> OnlyPlainSpaces(Strip(s))
  {
    var a := |s| - |LStrip(s)|;
    var b := a + |Strip(s)|;
    assert Strip(s) == s[a..b] by {
      var l := LStrip(s);
      assert Strip(s) == RStrip(l) == l[..|Strip(s)|];
    }
    SliceKeeps(s, a, b);
  }

  /** A slice keeps the spacing facts of the whole. */
  lemma SliceKeeps(s: string, a: nat, b: nat)
    requires a <= b <= |s|
    ensures NoDoubleSpace(s) ==> NoDoubleSpace(s[a..b])
    ensures OnlyPlainSpaces(s) ==> OnlyPlainSpaces(s[a..b])
  {
    var r := s[a..b];
    if NoDoubleSpace(s) {
      forall i | 0 <= i < |r| - 1 ensures !(IsSpace(r[i]) && IsSpace(r[i + 1])) {
        assert r[i] == s[a + i] && r[i + 1] == s[a + i + 1];
      }
    }
    if OnlyPlainSpaces(s) {
      forall i | 0 <= i < |r| ensures IsSpace(r[i]) ==> r[i] == ' ' {
        assert r[i] == s[a + i];
      }
    }
  }
}
