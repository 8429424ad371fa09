/**
 * The pure helpers of the worker: the validation of chat and ingest
 * requests, the keyword routing that picks a specialised prompt, the
 * mapping of NVD CVE records to threats with their CVSS risk level, the
 * newest-ten selection, text sanitisation, tag and description generation,
 * and the cache expiry test.
 */
module Worker {
  import opened Js
  import opened Listing
  import Threats

  // ---------------------------------------------------------------------------
  // Whitespace and `trim`
  // ---------------------------------------------------------------------------

  /** The characters `String.prototype.trim` removes: white space and line terminators. */
  predicate IsJsSpace(c: char) {
    || c in {'\t', '\n', '\U{000B}', '\U{000C}', '\r', ' ', '\U{00A0}', '\U{1680}',
             '\U{2028}', '\U{2029}', '\U{202F}', '\U{205F}', '\U{3000}', '\U{FEFF}'}
    || '\U{2000}' <= c <= '\U{200A}'
  }

  /** Drop leading white space: a suffix of `s` that starts with a non-space. */
  function TrimStart(s: string): (r: string)
    ensures |r| <= |s| && r == s[|s| - |r|..]
    ensures r == [] || !IsJsSpace(r[0])
    ensures forall i :: 0 <= i < |s| - |r| ==> IsJsSpace(s[i])
    decreases |s|
  {
    if s != [] && IsJsSpace(s[0]) then TrimStart(s[1..]) else s
  }

  /** Drop trailing white space: a prefix of `s` that ends with a non-space. */
  function TrimEnd(s: string): (r: string)
    ensures |r| <= |s| && r == s[..|r|]
    ensures r == [] || !IsJsSpace(r[|r| - 1])
    ensures forall i :: |r| <= i < |s| ==> IsJsSpace(s[i])
    decreases |s|
  {
    if s != [] && IsJsSpace(s[|s| - 1]) then TrimEnd(s[..|s| - 1]) else s
  }

  /**
   * `s.trim()`: a slice of `s` with no white space at either end; it is
   * empty exactly when `s` is nothing but white space.
   */
  function Trim(s: string): (r: string)
    ensures |r| <= |s|
    ensures forall i :: 0 <= i < |r| ==> r[i] in s
    ensures r == [] || (!IsJsSpace(r[0]) && !IsJsSpace(r[|r| - 1]))
    ensures r == [] <==> forall i :: 0 <= i < |s| ==> IsJsSpace(s[i])
  {
    var t := TrimStart(s);
    TrimSlice(s, t, TrimEnd(t));
    TrimEnd(t)
  }

  /** The facts `Trim` needs about cutting white space first at the front, then at the back. */
  lemma TrimSlice(s: string, t: string, r: string)
    requires t == TrimStart(s) && r == TrimEnd(t)
    ensures forall i :: 0 <= i < |r| ==> r[i] in s
    ensures r == [] <==> forall i :: 0 <= i < |s| ==> IsJsSpace(s[i])
  {
    var k := |s| - |t|;
    forall i | 0 <= i < |r| ensures r[i] in s {
      assert r[i] == t[i] == s[k + i];
    }
    if t != [] {
      assert t[0] == s[k];
      assert !IsJsSpace(s[k]);
    }
  }

  // ---------------------------------------------------------------------------
  // Request validation
  // ---------------------------------------------------------------------------

  /**
   * The guard of `handleChat`: a missing message, or one that is only white
   * space, is answered `success: false` (with status 200) before any model
   * is asked.
   */
  function ValidateChat(message: Option<string>): (r: Reply<string>)
    ensures r.Err? <==> message.None? || forall i :: 0 <= i < |message.value| ==> IsJsSpace(message.value[i])
    ensures r.Err? ==> r == Err(200, "Message cannot be empty")
    ensures r.Ok? ==> r.value == message.value
  {
    if message.None? || message.value == "" || Trim(message.value) == "" then Err(200, "Message cannot be empty")
    else Ok(message.value)
  }

  /**
   * The guard of `handleThreatIngest`: a falsy `type` or a missing
   * `indicators` list is answered 400, and nothing reaches the database.
   */
  function ValidateIngest(data: Threats.ThreatData): (r: Reply<Threats.ThreatData>)
    ensures r.Err? <==> !Given(data.threatType) || data.indicators.None?
    ensures r.Err? ==> r == Err(400, "Missing required fields: type and indicators are required")
    ensures r.Ok? ==> r.value == data
  {
    if !Given(data.threatType) || data.indicators.None? then
      Err(400, "Missing required fields: type and indicators are required")
    else Ok(data)
  }

  /**
   * What an accepted ingest stores: its type is the first tag and names its
   * type-index bucket, and without a confidence every indicator adds to the
   * score up to the cap.
   */
  lemma IngestedThreatIsTyped(data: Threats.ThreatData, key: string, now: int)
    requires ValidateIngest(data).Ok?
    ensures var t := Threats.Enhanced(data, key, now);
      && t.enrichment.value.tags[0] == data.threatType.value
      && Threats.TypeKey(t.data.threatType) == data.threatType.value
      && (data.confidence.None? ==>
            t.enrichment.value.riskScore
              == Min(Threats.TypeBase(data.threatType) + |data.indicators.value| as real * 0.1, 1.0))
  {
  }

  function Min(a: real, b: real): real {
    if a < b then a else b
  }

  // ---------------------------------------------------------------------------
  // Prompt routing
  // ---------------------------------------------------------------------------

  datatype PromptCategory = Greeting | IpAnalysis | DomainAnalysis | MalwareAnalysis | IncidentResponse | General

  predicate GreetingWord(l: string) {
    || Contains(l, "hello") || Contains(l, "hi") || Contains(l, "hey")
    || Contains(l, "good morning") || Contains(l, "good afternoon") || Contains(l, "good evening")
    || Contains(l, "greetings") || Contains(l, "how are you") || Contains(l, "what can you do")
  }

  /** A request for analysis, which rules out the greeting prompt. */
  predicate AnalysisWord(l: string) {
    Contains(l, "analyze") || Contains(l, "check") || Contains(l, "investigate")
  }

  predicate IsGreeting(l: string) {
    GreetingWord(l) && !AnalysisWord(l)
  }

  predicate IsIpQuery(l: string) {
    Contains(l, "ip") && AnalysisWord(l)
  }

  predicate IsDomainQuery(l: string) {
    Contains(l, "domain") && (Contains(l, "analyze") || Contains(l, "check") || Contains(l, "scan"))
  }

  predicate IsMalwareQuery(l: string) {
    Contains(l, "hash") || Contains(l, "malware") || Contains(l, "file") || Contains(l, "sample")
  }

  predicate IsIncidentQuery(l: string) {
    Contains(l, "incident") || Contains(l, "breach") || Contains(l, "attack") || Contains(l, "response")
  }

  /**
   * The branch `createSpecializedPrompt` takes on the lower-cased message:
   * the tests run in order and the first that holds wins, with the general
   * prompt as the default.
   */
  function Category(message: string): (c: PromptCategory)
    ensures var l := Lower(message);
      && (c == Greeting <==> IsGreeting(l))
      && (c == IpAnalysis <==> !IsGreeting(l) && IsIpQuery(l))
      && (c == DomainAnalysis <==> !IsGreeting(l) && !IsIpQuery(l) && IsDomainQuery(l))
      && (c == MalwareAnalysis <==> !IsGreeting(l) && !IsIpQuery(l) && !IsDomainQuery(l) && IsMalwareQuery(l))
      && (c == IncidentResponse <==>
            !IsGreeting(l) && !IsIpQuery(l) && !IsDomainQuery(l) && !IsMalwareQuery(l) && IsIncidentQuery(l))
    ensures c == Greeting ==> !AnalysisWord(Lower(message))
    ensures c == IpAnalysis ==> Contains(Lower(message), "ip")
  {
    var l := Lower(message);
    if IsGreeting(l) then Greeting
    else if IsIpQuery(l) then IpAnalysis
    else if IsDomainQuery(l) then DomainAnalysis
    else if IsMalwareQuery(l) then MalwareAnalysis
    else if IsIncidentQuery(l) then IncidentResponse
    else General
  }

  /** Every character of a contained string occurs in the containing one. */
  lemma {:induction false} ContainsChars(s: string, t: string, i: nat)
    requires Contains(s, t) && i < |t|
    ensures t[i] in s
    decreases |s|
  {
    if StartsWith(s, t) {
      assert s[i] == t[i];
    } else {
      ContainsChars(s[1..], t, i);
    }
  }

  /**
   * The keywords are matched as substrings: "hi" inside "this" makes
   * "this malware" a greeting, although "malware" alone picks the malware
   * analysis prompt.
   */
  lemma {:induction false} SubstringGreeting()
    ensures Category("this malware") == Greeting
  {
    LowerIdentity("this malware");
    ThisMalwareGreets("this malware");
  }

  lemma ThisMalwareGreets(m: string)
    requires m == "this malware"
    ensures IsGreeting(m)
  {
    SaysHi(m);
    AsksNoAnalysis(m);
  }

  lemma SaysHi(m: string)
    requires m == "this malware"
    ensures Contains(m, "hi")
  {
    ContainsMiddle("t", "hi", "s malware");
    assert "t" + "hi" + "s malware" == m;
  }

  lemma AsksNoAnalysis(m: string)
    requires m == "this malware"
    ensures !AnalysisWord(m)
  {
    LacksChar(m, "analyze", 5);
    LacksChar(m, "check", 4);
    LacksChar(m, "investigate", 2);
  }

  /** "this malware" has no 'z', 'k' or 'v', so it contains no word that needs one. */
  lemma LacksChar(m: string, t: string, i: nat)
    requires m == "this malware" && i < |t| && t[i] in {'z', 'k', 'v'}
    ensures !Contains(m, t)
  {
    forall j | 0 <= j < |m| ensures m[j] != t[i] {
      assert m[j] in {'t', 'h', 'i', 's', ' ', 'm', 'a', 'l', 'w', 'r', 'e'};
    }
    Lacks(m, t, i);
  }

  /** A string missing one character of `t` does not contain `t`. */
  lemma Lacks(s: string, t: string, i: nat)
    requires i < |t| && t[i] !in s
    ensures !Contains(s, t)
  {
    if Contains(s, t) {
      ContainsChars(s, t, i);
    }
  }

  /** A string without upper-case ASCII letters is its own lower case. */
  lemma LowerIdentity(s: string)
    requires forall i :: 0 <= i < |s| ==> !('A' <= s[i] <= 'Z')
    ensures Lower(s) == s
  {
  }

  // ---------------------------------------------------------------------------
  // CVE records
  // ---------------------------------------------------------------------------

  /** The `baseScore` of the first metric of each CVSS version, when the record has one. */
  datatype CvssMetrics = CvssMetrics(v31: Option<real>, v30: Option<real>, v2: Option<real>)

  /** `x || d` for an optional number: absent and 0 are falsy. */
  function NumberOr(x: Option<real>, d: real): real {
    if x.Some? && x.value != 0.0 then x.value else d
  }

  /**
   * The base score of a CVE: version 3.1, else 3.0, else 2, else 0. A score
   * of 0 counts as missing and falls through to the next version.
   */
  function CvssScore(m: CvssMetrics): (s: real)
    ensures m.v31.Some? && m.v31.value != 0.0 ==> s == m.v31.value
    ensures (m.v31.None? || m.v31.value == 0.0) && m.v30.Some? && m.v30.value != 0.0 ==> s == m.v30.value
    ensures s == 0.0 || s == m.v31.GetOr(0.0) || s == m.v30.GetOr(0.0) || s == m.v2.GetOr(0.0)
    ensures s == 0.0 <==> NumberOr(m.v31, 0.0) == 0.0 && NumberOr(m.v30, 0.0) == 0.0 && NumberOr(m.v2, 0.0) == 0.0
  {
    NumberOr(m.v31, NumberOr(m.v30, NumberOr(m.v2, 0.0)))
  }

  /** The risk level of a CVE: 9 and above critical, 7 high, 4 medium, below that low. */
  function CvssRiskLevel(score: real): (level: string)
    ensures level in {"critical", "high", "medium", "low"}
    ensures level == "critical" <==> score >= 9.0
    ensures level == "low" <==> score < 4.0
  {
    if score >= 9.0 then "critical" else if score >= 7.0 then "high" else if score >= 4.0 then "medium" else "low"
  }

  /** The qualitative severity ratings of section 5 of the CVSS v3.1 specification. */
  datatype Rating = NoRating | Low | Medium | High | Critical {
    function Name(): string {
      match this
      case NoRating => "none"
      case Low => "low"
      case Medium => "medium"
      case High => "high"
      case Critical => "critical"
    }
  }

  /**
   * The rating of section 5 of the CVSS v3.1 specification for a score of
   * `tenths / 10`: 0.0 None, 0.1-3.9 Low, 4.0-6.9 Medium, 7.0-8.9 High,
   * 9.0-10.0 Critical.
   */
  function QualitativeRating(tenths: int): Rating
    requires 0 <= tenths <= 100
  {
    if tenths == 0 then NoRating
    else if tenths <= 39 then Low
    else if tenths <= 69 then Medium
    else if tenths <= 89 then High
    else Critical
  }

  /**
   * The risk level agrees with the CVSS v3.1 rating for every score from
   * 0.1 to 10.0; the score 0.0, rated None by the standard, becomes "low".
   */
  lemma RiskLevelFollowsCvssScale(tenths: int)
    requires 0 <= tenths <= 100
    ensures tenths > 0 ==> CvssRiskLevel(tenths as real / 10.0) == QualitativeRating(tenths).Name()
    ensures tenths == 0 ==> CvssRiskLevel(0.0) == "low" && QualitativeRating(0) == NoRating
  {
  }

  /** A CVE as the NVD answers it; `published` is in milliseconds since the epoch. */
  datatype Cve = Cve(id: string, published: int, metrics: CvssMetrics, description: Option<string>)

  datatype CveThreat = CveThreat(
    id: string,
    threatType: string,
    riskLevel: string,
    status: string,
    timestamp: int,
    riskScore: real,
    source: string,
    description: string,
    indicators: seq<string>,
    tags: seq<string>,
    cvssScore: real)

  /**
   * The threat a CVE becomes: its risk level from the CVSS score, a risk
   * score in [0, 1] for a score in [0, 10], the tag "cvss-high" exactly for
   * scores of 7 and above (everything else is tagged "cvss-medium"), and a
   * description that is never empty.
   */
  function CveToThreat(c: Cve): (t: CveThreat)
    ensures t.id == c.id && t.timestamp == c.published && t.indicators == [c.id]
    ensures t.cvssScore == CvssScore(c.metrics) && t.riskLevel == CvssRiskLevel(t.cvssScore)
    ensures 0.0 <= t.cvssScore <= 10.0 ==> 0.0 <= t.riskScore <= 1.0
    ensures t.riskScore * 10.0 == t.cvssScore
    ensures |t.tags| == 3 && t.tags[..2] == ["cve", "vulnerability"]
    ensures t.tags[2] == "cvss-high" <==> t.cvssScore >= 7.0
    ensures t.tags[2] in {"cvss-high", "cvss-medium"}
    ensures t.description != ""
  {
    var score := CvssScore(c.metrics);
    CveThreat(
      c.id, "vulnerability", CvssRiskLevel(score), "active", c.published, score / 10.0, "NVD",
      CveDescription(c.description),
      [c.id],
      ["cve", "vulnerability", if score >= 7.0 then "cvss-high" else "cvss-medium"],
      score)
  }

  /** `sanitizeBackendText(description) || 'No description available'`. */
  function CveDescription(description: Option<string>): (d: string)
    ensures d != ""
  {
    var text := SanitizeBackendText(description);
    if text != "" then text else "No description available"
  }

  predicate AnyCve(c: Cve) {
    true
  }

  predicate AnyCveThreat(t: CveThreat) {
    true
  }

  function Published(c: Cve): int {
    c.published
  }

  function ThreatTime(t: CveThreat): int {
    t.timestamp
  }

  /** `fetchRecentCVEs`: the ten newest CVEs, as threats. */
  function RecentCves(cves: seq<Cve>): (ts: seq<CveThreat>)
    ensures |ts| <= 10
  {
    Mapped(TopN(cves, AnyCve, Published, 10), CveToThreat)
  }

  /** `fetchRealWorldThreats`: the CVE threats, sorted newest first and cut to ten. */
  function RealWorldThreats(cves: seq<Cve>): (r: seq<CveThreat>)
    ensures |r| <= 10
    ensures SortedDesc(r, ThreatTime)
  {
    TopNSpec(RecentCves(cves), AnyCveThreat, ThreatTime, 10);
    TopN(RecentCves(cves), AnyCveThreat, ThreatTime, 10)
  }

  /**
   * At most ten threats, one per CVE up to ten, newest first: the newest of
   * the input mapped to threats, copies counted, and no CVE left out was
   * published after one that is returned.
   */
  lemma RealWorldThreatsAreNewest(cves: seq<Cve>)
    ensures var r := RealWorldThreats(cves);
      && |r| == (if |cves| < 10 then |cves| else 10)
      && SortedDesc(r, ThreatTime)
      && NewestOf(r, multiset(Mapped(cves, CveToThreat)), ThreatTime)
      && (forall t :: t in r ==> exists c :: c in cves && t == CveToThreat(c))
      && (forall c :: c in cves && CveToThreat(c) !in r ==> forall t :: t in r ==> t.timestamp >= c.published)
  {
    var ts := RecentCves(cves);
    RecentCvesNewest(cves);
    ResortKeepsAll(ts);
    var r := RealWorldThreats(cves);
    assert multiset(r) == multiset(ts);
    assert forall t :: t in r <==> t in ts by {
      forall t ensures t in r <==> t in ts {
        assert t in r <==> t in multiset(r);
        assert t in ts <==> t in multiset(ts);
      }
    }
  }

  /** `fetchRecentCVEs` alone: the ten newest CVEs, each as its threat. */
  lemma RecentCvesNewest(cves: seq<Cve>)
    ensures var ts := RecentCves(cves);
      && |ts| == (if |cves| < 10 then |cves| else 10)
      && NewestOf(ts, multiset(Mapped(cves, CveToThreat)), ThreatTime)
      && (forall t :: t in ts ==> exists c :: c in cves && t == CveToThreat(c))
      && (forall c :: c in cves && CveToThreat(c) !in ts ==> forall t :: t in ts ==> t.timestamp >= c.published)
  {
    var newest := TopN(cves, AnyCve, Published, 10);
    TopNSpec(cves, AnyCve, Published, 10);
    FilterAll(cves);
    var ts := RecentCves(cves);
    MappedKeepsNewest(cves, newest, ts, CveToThreat, Published, ThreatTime);
    MappedNewest(newest, cves, CveToThreat, Published, ThreatTime);
  }

  /**
   * Mapping the newest elements one by one keeps them the newest, when the
   * mapping keeps each element's key.
   */
  lemma {:induction false} MappedKeepsNewest<A, B>(s: seq<A>, newest: seq<A>, ts: seq<B>, f: A -> B, key: A -> int, tkey: B -> int)
    requires forall x :: x in newest ==> x in s
    requires forall x :: x in s && x !in newest ==> forall y :: y in newest ==> key(y) >= key(x)
    requires |ts| == |newest| && forall i :: 0 <= i < |ts| ==> ts[i] == f(newest[i])
    requires forall x :: tkey(f(x)) == key(x)
    ensures forall t :: t in ts ==> exists c :: c in s && t == f(c)
    ensures forall c :: c in s && f(c) !in ts ==> forall t :: t in ts ==> tkey(t) >= key(c)
  {
    forall t | t in ts ensures exists c :: c in newest && t == f(c) {
      var i :| 0 <= i < |ts| && ts[i] == t;
      assert newest[i] in newest;
    }
    forall c | c in newest ensures f(c) in ts {
      var i :| 0 <= i < |newest| && newest[i] == c;
      assert ts[i] in ts;
    }
    forall c | c in s && f(c) !in ts
      ensures forall t :: t in ts ==> tkey(t) >= key(c)
    {
      forall t | t in ts ensures tkey(t) >= key(c) {
        var d :| d in newest && t == f(d);
      }
    }
  }

  /** The second sort and cut of `fetchRealWorldThreats` keeps all of at most ten threats, newest first. */
  lemma ResortKeepsAll(ts: seq<CveThreat>)
    requires |ts| <= 10
    ensures var r := TopN(ts, AnyCveThreat, ThreatTime, 10);
      multiset(r) == multiset(ts) && |r| == |ts| && SortedDesc(r, ThreatTime)
  {
    FilterAllThreats(ts);
    assert TopN(ts, AnyCveThreat, ThreatTime, 10) == SortDesc(ts, ThreatTime);
  }

  lemma {:induction false} FilterAll(s: seq<Cve>)
    ensures Filter(s, AnyCve) == s
    decreases |s|
  {
    if s != [] {
      FilterAll(s[1..]);
      assert s == [s[0]] + s[1..];
    }
  }

  lemma {:induction false} FilterAllThreats(s: seq<CveThreat>)
    ensures Filter(s, AnyCveThreat) == s
    decreases |s|
  {
    if s != [] {
      FilterAllThreats(s[1..]);
      assert s == [s[0]] + s[1..];
    }
  }

  // ---------------------------------------------------------------------------
  // Sanitisation
  // ---------------------------------------------------------------------------

  /** `s.replace(/pat/g, rep)` for a literal pattern: matches left to right, never overlapping. */
  function ReplaceAll(s: string, pat: string, rep: string): string
    requires pat != []
    decreases |s|
  {
    if s == [] then []
    else if StartsWith(s, pat) then rep + ReplaceAll(s[|pat|..], pat, rep)
    else [s[0]] + ReplaceAll(s[1..], pat, rep)
  }

  /** A replacement brings in no character that is in neither the text nor the replacement. */
  lemma {:induction false} ReplaceAllChars(s: string, pat: string, rep: string)
    requires pat != []
    ensures forall c :: c in ReplaceAll(s, pat, rep) ==> c in s || c in rep
    decreases |s|
  {
    if s != [] {
      if StartsWith(s, pat) {
        ReplaceAllChars(s[|pat|..], pat, rep);
        assert forall c :: c in s[|pat|..] ==> c in s;
      } else {
        ReplaceAllChars(s[1..], pat, rep);
      }
    }
  }

  /** A string without the first character of the pattern is left alone. */
  lemma {:induction false} ReplaceAllAbsent(s: string, pat: string, rep: string)
    requires pat != [] && pat[0] !in s
    ensures ReplaceAll(s, pat, rep) == s
    decreases |s|
  {
    if s != [] {
      assert s[0] != pat[0];
      ReplaceAllAbsent(s[1..], pat, rep);
      assert s == [s[0]] + s[1..];
    }
  }

  /** `.replace(/[^\x00-\x7F]/g, '')`: keep the ASCII characters, in order. */
  function StripNonAscii(s: string): (r: string)
    ensures |r| <= |s|
    ensures forall i :: 0 <= i < |r| ==> r[i] as int < 0x80
    ensures forall c :: c in s && (c as int) < 0x80 ==> c in r
    decreases |s|
  {
    if s == [] then []
    else (if (s[0] as int) < 0x80 then [s[0]] else []) + StripNonAscii(s[1..])
  }

  // The mis-decoded UTF-8 sequences the replacements look for.
  const Mojibake: string := "\U{00E2}\U{20AC}"
  const BulletSeq: string := Mojibake + "\U{00A2}"
  const ApostropheSeq: string := Mojibake + "\U{2122}"
  const OpenQuoteSeq: string := Mojibake + "\U{0153}"
  const DashSeq: string := Mojibake + "\""
  const EllipsisSeq: string := Mojibake + "\U{00A6}"

  /** The final two steps of both chains: strip non-ASCII, then trim. */
  function Finish(s: string): (r: string)
    ensures forall i :: 0 <= i < |r| ==> r[i] as int < 0x80
    ensures r == [] || (!IsJsSpace(r[0]) && !IsJsSpace(r[|r| - 1]))
  {
    TrimKeepsAscii(StripNonAscii(s));
    Trim(StripNonAscii(s))
  }

  /** Trimming an ASCII string leaves it ASCII. */
  lemma TrimKeepsAscii(a: string)
    requires forall i :: 0 <= i < |a| ==> a[i] as int < 0x80
    ensures forall i :: 0 <= i < |Trim(a)| ==> Trim(a)[i] as int < 0x80
  {
    var r := Trim(a);
    forall i | 0 <= i < |r| ensures r[i] as int < 0x80 {
      var j :| 0 <= j < |a| && a[j] == r[i];
    }
  }

  /** One `.replace(/pat/g, rep)` step of the chain. */
  datatype Replacement = Replacement(pat: string, rep: string)

  predicate Patterns(steps: seq<Replacement>) {
    forall i :: 0 <= i < |steps| ==> steps[i].pat != []
  }

  /** The replacement steps applied in order. */
  function ReplaceEach(s: string, steps: seq<Replacement>): string
    requires Patterns(steps)
    decreases |steps|
  {
    if steps == [] then s
    else ReplaceEach(ReplaceAll(s, steps[0].pat, steps[0].rep), steps[1..])
  }

  /** A text none of whose characters starts a pattern passes the whole chain unchanged. */
  lemma {:induction false} ReplaceEachAbsent(s: string, steps: seq<Replacement>)
    requires Patterns(steps)
    requires forall i :: 0 <= i < |steps| ==> steps[i].pat[0] !in s
    ensures ReplaceEach(s, steps) == s
    decreases |steps|
  {
    if steps != [] {
      ReplaceAllAbsent(s, steps[0].pat, steps[0].rep);
      ReplaceEachAbsent(s, steps[1..]);
    }
  }

  /**
   * The replacement chain of `sanitizeBackendText` as written: the
   * two-character sequence is replaced second, before the three-character
   * sequences that begin with it, so those later steps never match.
   */
  const AsWrittenSteps: seq<Replacement> := [
    Replacement(BulletSeq, "-"),
    Replacement(Mojibake, "\""),
    Replacement(ApostropheSeq, "'"),
    Replacement(OpenQuoteSeq, "\""),
    Replacement(Mojibake, "\""),
    Replacement(DashSeq, "\U{2013}"),
    Replacement(DashSeq, "\U{2014}"),
    Replacement(EllipsisSeq, "...")]

  /** The same chain with every three-character sequence replaced before the bare two-character one. */
  const CorrectedSteps: seq<Replacement> := [
    Replacement(BulletSeq, "-"),
    Replacement(ApostropheSeq, "'"),
    Replacement(OpenQuoteSeq, "\""),
    Replacement(EllipsisSeq, "..."),
    Replacement(DashSeq, "\U{2013}"),
    Replacement(DashSeq, "\U{2014}"),
    Replacement(Mojibake, "\""),
    Replacement(Mojibake, "\"")]

  /** `sanitizeBackendText` as written: falsy text gives "", otherwise the chain, then `Finish`. */
  function SanitizeAsWritten(text: Option<string>): (r: string)
    ensures forall i :: 0 <= i < |r| ==> r[i] as int < 0x80
    ensures r == [] || (!IsJsSpace(r[0]) && !IsJsSpace(r[|r| - 1]))
    ensures !Given(text) ==> r == ""
  {
    if !Given(text) then "" else Finish(ReplaceEach(text.value, AsWrittenSteps))
  }

  /**
   * `sanitizeBackendText` with the corrected order: falsy text gives "",
   * and the result is ASCII only with no white space at either end.
   */
  function SanitizeBackendText(text: Option<string>): (r: string)
    ensures forall i :: 0 <= i < |r| ==> r[i] as int < 0x80
    ensures r == [] || (!IsJsSpace(r[0]) && !IsJsSpace(r[|r| - 1]))
    ensures !Given(text) ==> r == ""
  {
    if !Given(text) then "" else Finish(ReplaceEach(text.value, CorrectedSteps))
  }

  /** A text that is exactly the pattern becomes the replacement. */
  lemma ReplaceAllExact(pat: string, rep: string)
    requires pat != []
    ensures ReplaceAll(pat, pat, rep) == rep
  {
    assert pat[|pat|..] == [];
    assert rep + [] == rep;
  }

  /** Every step of both chains looks for a sequence starting with "\U{00E2}". */
  lemma StepsStartWithA()
    ensures Patterns(AsWrittenSteps) && Patterns(CorrectedSteps)
    ensures forall i :: 0 <= i < |AsWrittenSteps| ==> AsWrittenSteps[i].pat[0] == '\U{00E2}'
    ensures forall i :: 0 <= i < |CorrectedSteps| ==> CorrectedSteps[i].pat[0] == '\U{00E2}'
  {
  }

  /**
   * The mis-decoded apostrophe of "it’s" comes out of the chain as written
   * as a double quote followed by a stray character, and out of the
   * corrected chain as an apostrophe.
   */
  lemma ApostropheChains(a: string)
    requires a == ApostropheSeq
    ensures ReplaceEach(a, AsWrittenSteps) == ['"', '\U{2122}']
    ensures ReplaceEach(a, CorrectedSteps) == "'"
  {
    StepsStartWithA();
    assert a == ['\U{00E2}', '\U{20AC}', '\U{2122}'];
    assert !StartsWith(a, BulletSeq) by { assert a[2] != BulletSeq[2]; }
    assert ReplaceAll(a, BulletSeq, "-") == a by {
      ReplaceAllAbsent(a[1..], BulletSeq, "-");
      assert a == [a[0]] + a[1..];
    }
    var w := ['"', '\U{2122}'];
    assert ReplaceAll(a, Mojibake, "\"") == w by {
      assert StartsWith(a, Mojibake);
      assert a[2..] == ['\U{2122}'];
      ReplaceAllAbsent(['\U{2122}'], Mojibake, "\"");
    }
    ReplaceEachAbsent(w, AsWrittenSteps[2..]);
    ReplaceAllExact(ApostropheSeq, "'");
    ReplaceEachAbsent("'", CorrectedSteps[2..]);
  }

  /** The two full results: `Finish` drops the stray character and keeps the quote. */
  lemma ApostropheCounterexample()
    ensures SanitizeAsWritten(Some(ApostropheSeq)) == "\""
    ensures SanitizeBackendText(Some(ApostropheSeq)) == "'"
  {
    ApostropheChains(ApostropheSeq);
    FinishSingle(['"', '\U{2122}'], '"');
    FinishSingle(['\''], '\'');
  }

  /** `Finish` of a visible ASCII character, optionally followed by a non-ASCII one, is that character. */
  lemma FinishSingle(w: string, c: char)
    requires 0x20 < c as int < 0x7F
    requires w == [c] || (|w| == 2 && w[0] == c && w[1] as int >= 0x80)
    ensures Finish(w) == [c]
  {
    assert StripNonAscii(w) == [c] by {
      assert w == [w[0]] + w[1..];
      if |w| == 2 {
        assert w[1..] == [w[1]];
        assert StripNonAscii([w[1]]) == [];
      }
    }
    assert !IsJsSpace(c);
    assert TrimStart([c]) == [c];
    assert TrimEnd([c]) == [c];
  }

  // ---------------------------------------------------------------------------
  // Tags, descriptions and cache expiry
  // ---------------------------------------------------------------------------

  /**
   * `generateTags(type, riskLevel)` of the worker: the type and the risk
   * level first, then "urgent" exactly for critical and high levels and
   * "sophisticated" exactly for the apt and ransomware types, in that order
   * and nothing else.
   */
  function GenerateTags(threatType: string, riskLevel: string): (tags: seq<string>)
    ensures 2 <= |tags| <= 4
    ensures tags[..2] == [threatType, "risk:" + riskLevel]
    ensures "urgent" in tags[2..] <==> riskLevel in {"critical", "high"}
    ensures "sophisticated" in tags[2..] <==> threatType in {"apt", "ransomware"}
    ensures forall t :: t in tags[2..] ==> t == "urgent" || t == "sophisticated"
    ensures |tags| == 2 + (if riskLevel in {"critical", "high"} then 1 else 0)
                        + (if threatType in {"apt", "ransomware"} then 1 else 0)
    ensures |tags| == 4 ==> tags[2] == "urgent"
  {
    var urgent := if riskLevel == "critical" || riskLevel == "high" then ["urgent"] else [];
    var sophisticated := if threatType == "apt" || threatType == "ransomware" then ["sophisticated"] else [];
    var tags := [threatType, "risk:" + riskLevel] + urgent + sophisticated;
    assert tags[2..] == urgent + sophisticated;
    assert "urgent" != "sophisticated";
    tags
  }

  /** The text around the risk level in the description of a type. */
  function DescriptionTemplate(threatType: string): (string, string) {
    match threatType
    case "malware" => ("Malicious software detected with ", " risk level. Immediate investigation required.")
    case "phishing" => ("Phishing campaign targeting organization with ", " severity. User awareness training recommended.")
    case "ddos" => ("Distributed denial of service attack detected with ", " impact. Mitigation measures activated.")
    case "botnet" => ("Botnet activity identified with ", " threat level. Network isolation recommended.")
    case "ransomware" => ("Ransomware attack in progress with ", " severity. Incident response team activated.")
    case "apt" => ("Advanced persistent threat detected with ", " sophistication. Long-term monitoring required.")
    case "insider" => ("Insider threat activity identified with ", " risk. HR and security team notified.")
    case _ => ("Unknown threat type with ", " risk level.")
  }

  /** `getThreatDescription`: whatever the type, the description mentions the risk level. */
  function ThreatDescription(threatType: string, riskLevel: string): (d: string)
    ensures Contains(d, riskLevel)
    ensures threatType !in {"malware", "phishing", "ddos", "botnet", "ransomware", "apt", "insider"} ==>
      d == "Unknown threat type with " + riskLevel + " risk level."
  {
    var (before, after) := DescriptionTemplate(threatType);
    ContainsMiddle(before, riskLevel, after);
    before + riskLevel + after
  }

  /**
   * `isCacheExpired`: strictly more than the TTL in minutes has passed.
   * With a non-negative TTL nothing stamped now or later is expired; with
   * a TTL of zero or less everything older than now is.
   */
  function IsCacheExpired(timestamp: int, minutesTtl: int, now: int): (expired: bool)
    ensures minutesTtl >= 0 && expired ==> timestamp < now
    ensures minutesTtl <= 0 && timestamp < now ==> expired
  {
    now - timestamp > minutesTtl * 60 * 1000
  }

  /** An expired entry stays expired as time goes on. */
  lemma ExpiryIsPermanent(timestamp: int, minutesTtl: int, now: int, later: int)
    requires now <= later && IsCacheExpired(timestamp, minutesTtl, now)
    ensures IsCacheExpired(timestamp, minutesTtl, later)
  {
  }

  /** An entry exactly one TTL old is still fresh; one millisecond later it is expired. */
  lemma ExpiryBoundary(timestamp: int, minutesTtl: int)
    ensures !IsCacheExpired(timestamp, minutesTtl, timestamp + minutesTtl * 60000)
    ensures IsCacheExpired(timestamp, minutesTtl, timestamp + minutesTtl * 60000 + 1)
  {
  }
}
