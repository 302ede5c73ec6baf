/** The SQL editor's read-only guard: trimming of leading noise, statement splitting and the
    verdict. Text is a sequence of code points. */
module SqlGuard {
  import opened Strings

  // ---- trimming ----

  /** strings.TrimLeft's cutset. */
  predicate Cut(c: char) { c == ' ' || c == '\t' || c == '\r' || c == '\n' }

  function TrimLeft(s: string): string {
    if s != "" && Cut(s[0]) then TrimLeft(s[1..]) else s
  }

  predicate StartsWith(s: string, p: string) { p <= s }

  /** strings.IndexByte(s, '\n') and strings.Index(s, "*" + "/"), |s| standing for not found. */
  function NewlineAt(s: string): (i: nat)
    ensures i <= |s|
  {
    if s == "" then 0 else if s[0] == '\n' then 0 else 1 + NewlineAt(s[1..])
  }

  function CloseAt(s: string): (i: nat)
    ensures i <= |s| && (i < |s| ==> i + 2 <= |s|)
  {
    if s == "" then 0
    else if StartsWith(s, "*/") then 0
    else 1 + CloseAt(s[1..])
  }

  /** One leading comment, if there is one, is dropped; an unterminated one takes the rest. */
  function DropComment(s: string): string {
    if StartsWith(s, "--") then (if NewlineAt(s) < |s| then s[NewlineAt(s) + 1..] else "")
    else if StartsWith(s, "/*") then (if CloseAt(s) < |s| then s[CloseAt(s) + 2..] else "")
    else s
  }

  function Next(s: string): string { DropComment(TrimLeft(s)) }

  lemma {:induction false} TrimLeftShrinks(s: string)
    ensures |TrimLeft(s)| <= |s| && (|TrimLeft(s)| == |s| ==> TrimLeft(s) == s)
    ensures TrimLeft(s) != "" ==> !Cut(TrimLeft(s)[0])
  {
    if s != "" && Cut(s[0]) {
      TrimLeftShrinks(s[1..]);
    }
  }

  /** Every pass that changes anything makes the text strictly shorter. */
  lemma {:induction false} NextShrinks(s: string)
    ensures Next(s) == s || |Next(s)| < |s|
  {
    TrimLeftShrinks(s);
  }

  function Trimmed(s: string): string
    decreases |s|
  {
    NextShrinks(s);
    if Next(s) == s then s else Trimmed(Next(s))
  }

  method TrimLeadingSQLNoise(sql: string) returns (r: string)
    ensures r == Trimmed(sql)
  {
    r := sql;
    while true
      invariant Trimmed(r) == Trimmed(sql)
      decreases |r|
    {
      var next := TrimLeft(r);
      if StartsWith(next, "--") {
        var idx := NewlineAt(next);
        next := if idx < |next| then next[idx + 1..] else "";
      } else if StartsWith(next, "/*") {
        var idx := CloseAt(next);
        next := if idx < |next| then next[idx + 2..] else "";
      }
      assert next == Next(r);
      NextShrinks(r);
      if next == r {
        return;
      }
      r := next;
    }
  }

  // ---- noise, as a grammar ----

  /** One blank, a line comment with its newline, or a block comment up to the first close
      (which may reuse the star of its opening, so that slash-star-slash is complete). */
  predicate NoiseToken(t: string) {
    || (|t| == 1 && Cut(t[0]))
    || (StartsWith(t, "--") && NewlineAt(t) + 1 == |t|)
    || (StartsWith(t, "/*") && CloseAt(t) + 2 == |t|)
  }

  /** A comment that never ends. */
  predicate OpenComment(t: string) {
    (StartsWith(t, "--") && NewlineAt(t) == |t|) || (StartsWith(t, "/*") && CloseAt(t) == |t|)
  }

  predicate AllTokens(ts: seq<string>) { forall i :: 0 <= i < |ts| ==> NoiseToken(ts[i]) }

  function Flat(ts: seq<string>): string { if ts == [] then "" else ts[0] + Flat(ts[1..]) }

  /** Starts with no noise at all. */
  predicate ClearStart(s: string) {
    && (s != "" ==> !Cut(s[0])) && !StartsWith(s, "--") && !StartsWith(s, "/*")
  }

  lemma {:induction false} ClearIsTrimmed(s: string)
    requires ClearStart(s)
    ensures Trimmed(s) == s
  {}

  lemma {:induction false} NewlineExtends(t: string, s: string)
    requires NewlineAt(t) < |t|
    ensures NewlineAt(t + s) == NewlineAt(t)
  {
    assert (t + s)[0] == t[0] && (t + s)[1..] == t[1..] + s;
    if t[0] != '\n' {
      NewlineExtends(t[1..], s);
    }
  }

  lemma {:induction false} CloseExtends(t: string, s: string)
    requires CloseAt(t) < |t|
    ensures CloseAt(t + s) == CloseAt(t)
  {
    assert (t + s)[1..] == t[1..] + s;
    if StartsWith(t, "*/") {
      assert (t + s)[..2] == t[..2];
    } else {
      CloseExtends(t[1..], s);
      assert |t| >= 2 && (t + s)[..2] == t[..2];
    }
  }

  /** One complete piece of noise in front changes nothing. */
  lemma {:induction false} TokenTrimmed(t: string, s: string)
    requires NoiseToken(t)
    ensures Trimmed(t + s) == Trimmed(s)
  {
    if |t| == 1 && Cut(t[0]) {
      assert (t + s)[1..] == s;
      assert Next(t + s) == Next(s);
      TrimLeftShrinks(s);
    } else {
      assert (t + s)[..2] == t[..2];
      if StartsWith(t, "--") { NewlineExtends(t, s); } else { CloseExtends(t, s); }
      assert Next(t + s) == s;
    }
  }

  /** A blank in front changes nothing. */
  lemma {:induction false} BlankTrimmed(c: char, s: string)
    requires c == ' ' || c == '\t' || c == '\r' || c == '\n'
    ensures Trimmed([c] + s) == Trimmed(s)
  {
    TokenTrimmed([c], s);
  }

  lemma {:induction false} NewlineIs(s: string, k: nat)
    requires k < |s| && s[k] == '\n' && forall j :: 0 <= j < k ==> s[j] != '\n'
    ensures NewlineAt(s) == k
  {
    if k > 0 {
      NewlineIs(s[1..], k - 1);
    }
  }

  lemma {:induction false} CloseIs(s: string, k: nat)
    requires k + 1 < |s| && s[k] == '*' && s[k + 1] == '/'
    requires forall j :: 0 <= j < k ==> !(s[j] == '*' && s[j + 1] == '/')
    ensures CloseAt(s) == k
  {
    assert k == 0 ==> s[..2] == "*/";
    if k > 0 {
      assert !(s[0] == '*' && s[1] == '/');
      CloseIs(s[1..], k - 1);
    }
  }

  /** A line comment in front changes nothing. */
  lemma {:induction false} LineCommentTrimmed(text: string, s: string)
    requires forall j :: 0 <= j < |text| ==> text[j] != '\n'
    ensures Trimmed("--" + text + "\n" + s) == Trimmed(s)
  {
    var t := "--" + text + "\n";
    NewlineIs(t, |text| + 2);
    assert t[..2] == "--";
    TokenTrimmed(t, s);
  }

  /** Nor does a block comment, whose text neither closes it early nor merges with its ends. */
  lemma {:induction false} BlockCommentTrimmed(text: string, s: string)
    requires forall j :: 0 <= j < |text| - 1 ==> !(text[j] == '*' && text[j + 1] == '/')
    requires text != "" ==> text[0] != '/'
    ensures Trimmed("/*" + text + "*/" + s) == Trimmed(s)
  {
    var t := "/*" + text + "*/";
    forall j | 0 <= j < |text| + 2
      ensures !(t[j] == '*' && t[j + 1] == '/')
    {
      if 2 <= j < |text| + 1 {
        assert t[j] == text[j - 2] && t[j + 1] == text[j - 1];
      }
    }
    CloseIs(t, |text| + 2);
    assert t[..2] == "/*";
    TokenTrimmed(t, s);
  }

  /** And nothing else is removed: a text that starts with neither a blank nor a comment is left as it is. */
  lemma {:induction false} OtherStartKept(s: string)
    requires s != "" && s[0] != ' ' && s[0] != '\t' && s[0] != '\r' && s[0] != '\n'
    requires |s| > 1 ==> !(s[0] == '-' && s[1] == '-') && !(s[0] == '/' && s[1] == '*')
    ensures Trimmed(s) == s
  {
    ClearIsTrimmed(s);
  }

  lemma {:induction false} NoiseTrimmed(ts: seq<string>, s: string)
    requires AllTokens(ts)
    ensures Trimmed(Flat(ts) + s) == Trimmed(s)
  {
    if ts == [] {
      assert Flat(ts) + s == s;
    } else {
      NoiseTrimmed(ts[1..], s);
      TokenTrimmed(ts[0], Flat(ts[1..]) + s);
      FlatSplit(ts, s);
    }
  }

  lemma {:induction false} FlatSplit(ts: seq<string>, s: string)
    requires ts != []
    ensures Flat(ts) + s == ts[0] + (Flat(ts[1..]) + s)
  {}

  /** s is complete tokens followed by text that starts clear and is what trimming returns,
      or by a comment that never ends, when trimming returns nothing. */
  ghost predicate Decomposed(s: string, ts: seq<string>, tail: string) {
    && AllTokens(ts) && s == Flat(ts) + tail
    && ((ClearStart(tail) && Trimmed(s) == tail) || (OpenComment(tail) && Trimmed(s) == ""))
  }

  /** What the trimmer removes is exactly a run of noise. */
  lemma {:induction false} TrimmedRemovesNoise(s: string) returns (ts: seq<string>, tail: string)
    ensures Decomposed(s, ts, tail)
    decreases |s|
  {
    if ClearStart(s) || OpenComment(s) {
      ts, tail := [], s;
      NothingToRemove(s);
    } else {
      var n := FirstToken(s);
      ts, tail := TrimmedRemovesNoise(s[n..]);
      OneMoreToken(s[..n], s[n..], ts, tail);
      assert s == s[..n] + s[n..];
      ts := [s[..n]] + ts;
    }
  }

  lemma {:induction false} NothingToRemove(s: string)
    requires ClearStart(s) || OpenComment(s)
    ensures Decomposed(s, [], s)
  {
    assert s == Flat([]) + s;
    if ClearStart(s) {
      ClearIsTrimmed(s);
    } else {
      assert Trimmed(s) == "";
    }
  }

  lemma {:induction false} OneMoreToken(t: string, rest: string, ts: seq<string>, tail: string)
    requires NoiseToken(t) && Decomposed(rest, ts, tail)
    ensures Decomposed(t + rest, [t] + ts, tail)
  {
    TokenTrimmed(t, rest);
    FlatCons(t, ts, tail);
  }

  lemma {:induction false} FlatCons(t: string, ts: seq<string>, tail: string)
    ensures Flat([t] + ts) + tail == t + (Flat(ts) + tail)
  {
    assert ([t] + ts)[1..] == ts;
  }

  lemma {:induction false} FirstToken(s: string) returns (n: nat)
    requires !ClearStart(s) && !OpenComment(s)
    ensures 0 < n <= |s| && NoiseToken(s[..n])
  {
    if Cut(s[0]) {
      n := 1;
    } else if StartsWith(s, "--") {
      n := NewlineAt(s) + 1;
      NewlinePrefix(s);
    } else {
      n := CloseAt(s) + 2;
      ClosePrefix(s);
      assert CloseAt(s) > 0;
    }
  }

  lemma {:induction false} NewlinePrefix(s: string)
    requires NewlineAt(s) < |s|
    ensures NewlineAt(s[..NewlineAt(s) + 1]) == NewlineAt(s)
  {
    if s[0] != '\n' {
      NewlinePrefix(s[1..]);
      assert s[..NewlineAt(s) + 1][1..] == s[1..][..NewlineAt(s[1..]) + 1];
    }
  }

  lemma {:induction false} ClosePrefix(s: string)
    requires CloseAt(s) < |s|
    ensures CloseAt(s[..CloseAt(s) + 2]) == CloseAt(s)
  {
    if !StartsWith(s, "*/") {
      ClosePrefix(s[1..]);
      assert s[..CloseAt(s) + 2][1..] == s[1..][..CloseAt(s[1..]) + 2];
      assert s[..CloseAt(s) + 2][..2] == s[..2];
    }
  }

  lemma {:induction false} TrimmedIdempotent(s: string)
    ensures Trimmed(Trimmed(s)) == Trimmed(s)
  {
    var ts, tail := TrimmedRemovesNoise(s);
    ClearIsTrimmed("");
    if ClearStart(tail) { ClearIsTrimmed(tail); }
  }

  // ---- splitting ----

  /** unicode.IsSpace. */
  predicate Space(c: char) {
    || ('\t' <= c <= '\r') || c == ' ' || c == '\U{85}' || c == '\U{A0}' || c == '\U{1680}'
    || ('\U{2000}' <= c <= '\U{200A}') || c == '\U{2028}' || c == '\U{2029}' || c == '\U{202F}'
    || c == '\U{205F}' || c == '\U{3000}'
  }

  /** The code points of Unicode's White_Space property. */
  const SPACES: string := "\t\n\U{0B}\U{0C}\r \U{85}\U{A0}\U{1680}\U{2000}\U{2001}\U{2002}\U{2003}\U{2004}\U{2005}"
    + "\U{2006}\U{2007}\U{2008}\U{2009}\U{200A}\U{2028}\U{2029}\U{202F}\U{205F}\U{3000}"

  lemma {:induction false} SpacesAre(s: string)
    ensures Blank(s) <==> forall i :: 0 <= i < |s| ==> s[i] in SPACES
  {
    forall c: char
      ensures Space(c) <==> c in SPACES
    {
      SpaceIs(c);
    }
  }

  lemma {:induction false} SpaceIs(c: char)
    ensures Space(c) <==> c in SPACES
  {
    assert |SPACES| == 25;
    assert SPACES[..10] == ['\t', '\n', '\U{0B}', '\U{0C}', '\r', ' ', '\U{85}', '\U{A0}', '\U{1680}', '\U{2000}'];
    assert SPACES[10..] == ['\U{2001}', '\U{2002}', '\U{2003}', '\U{2004}', '\U{2005}', '\U{2006}', '\U{2007}',
      '\U{2008}', '\U{2009}', '\U{200A}', '\U{2028}', '\U{2029}', '\U{202F}', '\U{205F}', '\U{3000}'];
    assert SPACES == SPACES[..10] + SPACES[10..];
  }

  /** strings.TrimSpace(s) == "". */
  predicate Blank(s: string) { forall i :: 0 <= i < |s| ==> Space(s[i]) }

  function Split(s: string): (parts: seq<string>)
    ensures |parts| > 0
  {
    if s == "" then [""]
    else if s[0] == ';' then [""] + Split(s[1..])
    else [[s[0]] + Split(s[1..])[0]] + Split(s[1..])[1..]
  }

  /** Split is strings.Split on ";": joining its parts with semicolons gives the text back, and no part
      holds one. There is only one such list of parts. */
  lemma {:induction false} SplitJoins(s: string)
    ensures Join(Split(s), ";") == s
    ensures forall i :: 0 <= i < |Split(s)| ==> ';' !in Split(s)[i]
  {
    if s != "" {
      var parts := Split(s[1..]);
      SplitJoins(s[1..]);
      assert s == [s[0]] + s[1..];
      if s[0] == ';' {
        assert ([""] + parts)[1..] == parts;
      } else {
        assert ([[s[0]] + parts[0]] + parts[1..])[1..] == parts[1..];
        assert forall i :: 1 <= i < |parts| ==> Split(s)[i] == parts[i];
      }
    }
  }

  lemma {:induction false} SplitOfJoin(parts: seq<string>)
    requires parts != [] && forall i :: 0 <= i < |parts| ==> ';' !in parts[i]
    ensures Split(Join(parts, ";")) == parts
  {
    if |parts| == 1 {
      SplitPrefix(parts[0], "");
      assert parts[0] + "" == parts[0];
    } else {
      var rest := Join(parts[1..], ";");
      SplitOfJoin(parts[1..]);
      SplitPrefix(parts[0], ";" + rest);
      assert Join(parts, ";") == parts[0] + (";" + rest);
      assert (";" + rest)[1..] == rest;
      assert parts[0] + "" == parts[0];
      assert Split(";" + rest) == [""] + parts[1..];
    }
  }

  function NonBlank(parts: seq<string>): seq<string> {
    if parts == [] then [] else
      NonBlank(parts[..|parts| - 1]) + (if Blank(parts[|parts| - 1]) then [] else [parts[|parts| - 1]])
  }

  method NonEmptyStatements(sql: string) returns (statements: seq<string>)
    ensures statements == NonBlank(Split(sql))
  {
    var parts := Split(sql);
    statements := [];
    for k := 0 to |parts|
      invariant statements == NonBlank(parts[..k])
    {
      assert parts[..k + 1][..k] == parts[..k];
      if !Blank(parts[k]) {
        statements := statements + [parts[k]];
      }
    }
    assert parts[..|parts|] == parts;
  }

  // ---- the verdict ----

  /** strings.ToLower, on the letters A-Z and on the two other code points whose lower case
      is an ASCII letter. */
  function LowerChar(c: char): char {
    if 'A' <= c <= 'Z' then c - 'A' + 'a' else if c == '\U{130}' then 'i' else if c == '\U{212A}' then 'k' else c
  }

  function Lower(s: string): string { seq(|s|, i requires 0 <= i < |s| => LowerChar(s[i])) }

  predicate SelectBody(body: string) { StartsWith(Lower(body), "select") || StartsWith(Lower(body), "with") }

  /** The body starts, in any letter case, with select or with. */
  ghost predicate ReadWord(b: string) {
    || (|b| >= 6 && (b[0] == 's' || b[0] == 'S') && (b[1] == 'e' || b[1] == 'E') && (b[2] == 'l' || b[2] == 'L')
        && (b[3] == 'e' || b[3] == 'E') && (b[4] == 'c' || b[4] == 'C') && (b[5] == 't' || b[5] == 'T'))
    || (|b| >= 4 && (b[0] == 'w' || b[0] == 'W') && (b[1] == 'i' || b[1] == 'I' || b[1] == '\U{130}')
        && (b[2] == 't' || b[2] == 'T') && (b[3] == 'h' || b[3] == 'H'))
  }

  lemma {:induction false} LowerPrefix(b: string, p: string)
    ensures StartsWith(Lower(b), p) <==> |b| >= |p| && forall i :: 0 <= i < |p| ==> LowerChar(b[i]) == p[i]
  {
    if |b| >= |p| {
      assert Lower(b)[..|p|] == p <==> forall i :: 0 <= i < |p| ==> LowerChar(b[i]) == p[i];
    }
  }

  lemma {:induction false} SelectBodyExactly(b: string)
    ensures SelectBody(b) <==> ReadWord(b)
  {
    LowerPrefix(b, "select");
    LowerPrefix(b, "with");
  }

  datatype Verdict = Empty | NotSelect | Multiple | Accepted

  method ValidateReadOnlySQL(sql: string) returns (v: Verdict)
    ensures v == Validate(sql)
    ensures v.Empty? <==> forall i :: 0 <= i < |sql| ==> sql[i] in SPACES
    ensures v.NotSelect? <==> !v.Empty? && !ReadWord(Trimmed(sql))
    ensures v.Accepted? <==> ReadWord(Trimmed(sql)) && forall i :: 0 < i < |Split(sql)| ==> Blank(Split(sql)[i])
  {
    AcceptedExactly(sql);
    SelectBodyExactly(Trimmed(sql));
    SpacesAre(sql);
    if Blank(sql) {
      return Empty;
    }
    var body := TrimLeadingSQLNoise(sql);
    if !SelectBody(body) {
      return NotSelect;
    }
    var statements := NonEmptyStatements(sql);
    return if |statements| > 1 then Multiple else Accepted;
  }

  function Validate(sql: string): Verdict {
    if Blank(sql) then Empty
    else if !SelectBody(Trimmed(sql)) then NotSelect
    else if |NonBlank(Split(sql))| > 1 then Multiple
    else Accepted
  }

  lemma {:induction false} SelectStart(body: string)
    requires SelectBody(body)
    ensures body != "" && !Space(body[0]) && body[0] != ';'
  {
    assert Lower(body)[0] == LowerChar(body[0]);
    assert Lower(body)[0] == 's' || Lower(body)[0] == 'w';
  }

  lemma {:induction false} SplitPrefix(n: string, s: string)
    requires forall i :: 0 <= i < |n| ==> n[i] != ';'
    ensures Split(n + s) == [n + Split(s)[0]] + Split(s)[1..]
  {
    if n == "" {
      assert n + s == s && n + Split(s)[0] == Split(s)[0];
    } else {
      assert (n + s)[0] == n[0] && (n + s)[1..] == n[1..] + s;
      SplitPrefix(n[1..], s);
      assert [n[0]] + (n[1..] + Split(s)[0]) == n + Split(s)[0];
    }
  }

  lemma {:induction false} NonBlankCons(p: string, ps: seq<string>)
    ensures NonBlank([p] + ps) == (if Blank(p) then [] else [p]) + NonBlank(ps)
  {
    if ps == [] {
      assert [p] + ps == [p];
      assert [p][..0] == [];
    } else {
      NonBlankCons(p, ps[..|ps| - 1]);
      assert ([p] + ps)[..|ps|] == [p] + ps[..|ps| - 1] && ([p] + ps)[|ps|] == ps[|ps| - 1];
    }
  }

  /** The first segment of a text with a select/with body is not blank. */
  lemma {:induction false} FirstSegmentNotBlank(s: string)
    requires SelectBody(Trimmed(s))
    ensures !Blank(Split(s)[0])
    decreases |s|
  {
    SelectStart(Trimmed(s));
    var ts, tail := TrimmedRemovesNoise(s);
    if s == "" {
      ClearIsTrimmed("");
    } else if Cut(s[0]) {
      TokenTrimmed(s[..1], s[1..]);
      assert s == s[..1] + s[1..];
      FirstSegmentNotBlank(s[1..]);
      var seg := Split(s[1..])[0];
      var i :| 0 <= i < |seg| && !Space(seg[i]);
      assert Split(s)[0][i + 1] == seg[i];
    } else {
      if ClearStart(s) { ClearIsTrimmed(s); }
      assert !Space(s[0]) && s[0] != ';';
      assert Split(s)[0][0] == s[0];
    }
  }

  lemma {:induction false} NonBlankNone(parts: seq<string>)
    ensures NonBlank(parts) == [] <==> forall i :: 0 <= i < |parts| ==> Blank(parts[i])
  {
    if parts != [] {
      var front := parts[..|parts| - 1];
      NonBlankNone(front);
      assert forall i :: 0 <= i < |front| ==> front[i] == parts[i];
      if NonBlank(parts) != [] && NonBlank(front) != [] {
        var i :| 0 <= i < |front| && !Blank(front[i]);
        assert !Blank(parts[i]);
      }
    }
  }

  /** Acceptance is a select/with body, and nothing but blanks after the first semicolon, if there is one. */
  lemma {:induction false} AcceptedExactly(sql: string)
    ensures Validate(sql).Accepted?
      <==> ReadWord(Trimmed(sql)) && forall i :: 0 < i < |Split(sql)| ==> Blank(Split(sql)[i])
  {
    var parts := Split(sql);
    assert parts == [parts[0]] + parts[1..];
    NonBlankCons(parts[0], parts[1..]);
    NonBlankNone(parts[1..]);
    assert forall i :: 0 < i < |parts| ==> parts[i] == parts[1..][i - 1];
    SelectBodyExactly(Trimmed(sql));
    if SelectBody(Trimmed(sql)) {
      FirstSegmentNotBlank(sql);
      NonBlankSource(sql);
    }
  }

  lemma {:induction false} NonBlankSource(s: string)
    requires !Blank(Split(s)[0])
    ensures !Blank(s)
  {
    SegmentInText(s);
    var seg := Split(s)[0];
    var i :| 0 <= i < |seg| && !Space(seg[i]);
    assert s[i] == seg[i];
  }

  lemma {:induction false} SegmentInText(s: string)
    ensures Split(s)[0] <= s
  {
    if s != "" && s[0] != ';' {
      SegmentInText(s[1..]);
    }
  }

  lemma {:induction false} TrimmedOfBlank(s: string)
    requires Blank(s)
    ensures !SelectBody(Trimmed(s))
  {
    if SelectBody(Trimmed(s)) {
      FirstSegmentNotBlank(s);
      NonBlankSource(s);
    }
  }

  /** Complete noise without a semicolon, put in front, never changes the verdict; only the
      reason changes, when nothing but a comment precedes a blank text. */
  lemma {:induction false} NoisePrefixKeepsVerdict(ts: seq<string>, sql: string)
    requires AllTokens(ts) && forall i :: 0 <= i < |Flat(ts)| ==> Flat(ts)[i] != ';'
    ensures Validate(Flat(ts) + sql) == if Blank(sql) && !Blank(Flat(ts)) then NotSelect else Validate(sql)
    ensures Validate(Flat(ts) + sql).Accepted? <==> Validate(sql).Accepted?
  {
    var n := Flat(ts);
    NoiseTrimmed(ts, sql);
    SplitPrefix(n, sql);
    var parts := Split(sql);
    assert parts == [parts[0]] + parts[1..];
    NonBlankCons(parts[0], parts[1..]);
    NonBlankCons(n + parts[0], parts[1..]);
    BlankConcat(n, sql);
    BlankConcat(n, parts[0]);
    if SelectBody(Trimmed(sql)) {
      FirstSegmentNotBlank(sql);
    }
    if Blank(sql) {
      TrimmedOfBlank(sql);
    }
  }

  lemma {:induction false} BlankConcat(a: string, b: string)
    ensures Blank(a + b) <==> Blank(a) && Blank(b)
  {
    if Blank(a + b) {
      forall i | 0 <= i < |a| ensures Space(a[i]) { assert (a + b)[i] == a[i]; }
      forall i | 0 <= i < |b| ensures Space(b[i]) { assert (a + b)[|a| + i] == b[i]; }
    }
  }
}
