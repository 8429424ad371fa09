/**
 * The threat database durable object. One storage holds threat records
 * under "threat_" keys, cache entries under "cache_" keys and three indexes
 * ("index:type", "index:risk", "index:time"). Storing a threat enriches it
 * with a risk score and tags and maintains the indexes; search, the recent
 * view and correlation read the threat records, falling back to two fixed
 * sample threats when none is stored.
 */
module Threats {
  import opened Js
  import opened Listing

  /** The fields of a threat as the caller sends them; `extra` holds every other field. */
  datatype ThreatData = ThreatData(
    id: Option<string>,
    threatType: Option<string>,
    ip: Option<string>,
    domain: Option<string>,
    hash: Option<string>,
    riskLevel: Option<string>,
    source: Option<string>,
    confidence: Option<real>,
    indicators: Option<seq<string>>,
    timestamp: Option<int>,
    extra: map<string, Json>)

  datatype ThreatMetadata = ThreatMetadata(source: string, confidence: real, lastSeen: int)

  /** The fields `storeThreat` computes. */
  datatype Enrichment = Enrichment(riskScore: real, tags: seq<string>, metadata: ThreatMetadata)

  /**
   * A threat record: the caller's fields in `data`, overridden by the
   * record's own `id`, `timestamp` and `status`. The sample threats carry
   * no enrichment.
   */
  datatype Threat = Threat(id: string, data: ThreatData, timestamp: int, status: string, enrichment: Option<Enrichment>)

  datatype CacheEntry = CacheEntry(data: Json, timestamp: Json)

  /** Whatever a key of the storage holds. */
  datatype Stored = StoredThreat(threat: Threat) | StoredCache(entry: CacheEntry) | StoredIndex

  datatype TimeEntry = TimeEntry(id: string, timestamp: int)

  /** A correlated threat and its score in tenths. */
  datatype Correlation = Correlation(threat: Threat, score: nat)

  datatype SearchResult = SearchResult(threats: seq<Threat>, total: nat)

  const ThreatPrefix := "threat_"
  const CachePrefix := "cache_"
  const TimeIndexCap := 1000

  // ---------------------------------------------------------------------------
  // Risk score and tags
  // ---------------------------------------------------------------------------

  const TypeScores: map<string, real> := map[
    "malware" := 0.8, "phishing" := 0.7, "ddos" := 0.6, "botnet" := 0.9,
    "ransomware" := 0.95, "apt" := 0.85, "insider" := 0.7, "unknown" := 0.3]

  /** `typeScores[type] || 0.5`. */
  function TypeBase(threatType: Option<string>): (b: real)
    ensures 0.3 <= b < 1.0
  {
    if threatType.Some? && threatType.value in TypeScores then TypeScores[threatType.value] else 0.5
  }

  /** The type base plus 0.1 per indicator. */
  function IndicatorBase(data: ThreatData): real {
    TypeBase(data.threatType) + (if data.indicators.Some? then |data.indicators.value| as real * 0.1 else 0.0)
  }

  /** `score *= confidence` for a truthy confidence. */
  function Scale(base: real, confidence: Option<real>): real {
    if confidence.Some? && confidence.value != 0.0 then base * confidence.value else base
  }

  /** The score before the cap. */
  function RawScore(data: ThreatData): real {
    Scale(IndicatorBase(data), data.confidence)
  }

  /**
   * `calculateRiskScore`: never above 1.0; without a truthy confidence at
   * least the smallest type base 0.3, and never negative unless the
   * confidence is.
   */
  function RiskScore(data: ThreatData): (s: real)
    ensures s <= 1.0
    ensures data.confidence.None? || data.confidence.value >= 0.0 ==> s >= 0.0
    ensures data.confidence.None? || data.confidence.value == 0.0 ==> s >= 0.3
  {
    var raw := RawScore(data);
    if raw < 1.0 then raw else 1.0
  }

  /** With a non-negative confidence, more indicators never lower the score. */
  lemma RiskScoreMonotone(data: ThreatData, more: seq<string>)
    requires data.indicators.Some? && |data.indicators.value| <= |more|
    requires data.confidence.None? || data.confidence.value >= 0.0
    ensures RiskScore(data) <= RiskScore(data.(indicators := Some(more)))
  {
    var bigger := data.(indicators := Some(more));
    assert IndicatorBase(data) <= IndicatorBase(bigger) by {
      assert |data.indicators.value| as real <= |more| as real;
    }
    ScaleMonotone(IndicatorBase(data), IndicatorBase(bigger), data.confidence);
  }

  /** Scaling by a non-negative confidence keeps the order of two bases. */
  lemma ScaleMonotone(a: real, b: real, confidence: Option<real>)
    requires a <= b && (confidence.None? || confidence.value >= 0.0)
    ensures Scale(a, confidence) <= Scale(b, confidence)
  {
    if confidence.Some? && confidence.value != 0.0 {
      var c := confidence.value;
      assert b * c - a * c == (b - a) * c;
    }
  }

  /** The risk bucket of `updateIndexes`: above 0.8 high, above 0.5 medium, otherwise low. */
  function RiskBucket(score: real): (bucket: string)
    ensures bucket in {"high", "medium", "low"}
    ensures bucket == "high" <==> score > 0.8
    ensures bucket == "low" <==> score <= 0.5
  {
    if score > 0.8 then "high" else if score > 0.5 then "medium" else "low"
  }

  /** The risk tag of `generateTags`; it names the same bucket as the risk index. */
  function RiskTag(score: real): (tag: string)
    ensures tag == RiskBucket(score) + "-risk"
    ensures tag in {"high-risk", "medium-risk", "low-risk"}
  {
    if score > 0.8 then "high-risk" else if score > 0.5 then "medium-risk" else "low-risk"
  }

  /**
   * The age tag for an age in milliseconds: under one hour "recent", under
   * a day "today", under a week "this-week", and none for anything older.
   */
  function AgeTag(ageMs: int): (tag: Option<string>)
    ensures tag.None? <==> ageMs >= 168 * 3600000
    ensures tag.Some? ==> tag.value in {"recent", "today", "this-week"}
    ensures tag == Some("recent") <==> ageMs < 3600000
  {
    if ageMs < 3600000 then Some("recent")
    else if ageMs < 24 * 3600000 then Some("today")
    else if ageMs < 168 * 3600000 then Some("this-week")
    else None
  }

  /** The time the age tag is measured from: `threatData.timestamp || now`. */
  function TagTime(data: ThreatData, now: int): int {
    if data.timestamp.Some? && data.timestamp.value != 0 then data.timestamp.value else now
  }

  /** How many tags come before the risk tag: the type tag and the source tag, when given. */
  function RiskTagAt(data: ThreatData): nat {
    (if Given(data.threatType) then 1 else 0) + (if Given(data.source) then 1 else 0)
  }

  /**
   * `generateTags` of the threat database: the type first when given, then
   * the source tag, exactly one risk tag, and at most one age tag measured
   * from the caller's timestamp (or now).
   */
  function ThreatTags(data: ThreatData, now: int): (tags: seq<string>)
    ensures RiskTagAt(data) < |tags| <= RiskTagAt(data) + 2
    ensures Given(data.threatType) ==> tags[0] == data.threatType.value
    ensures Given(data.source) ==> tags[RiskTagAt(data) - 1] == "source:" + data.source.value
    ensures tags[RiskTagAt(data)] == RiskTag(RiskScore(data))
    ensures |tags| == RiskTagAt(data) + 2 <==> AgeTag(now - TagTime(data, now)).Some?
    ensures |tags| == RiskTagAt(data) + 2 ==> tags[|tags| - 1] == AgeTag(now - TagTime(data, now)).value
    ensures forall i :: 0 <= i < |tags| && i != RiskTagAt(data) && !(i == 0 && Given(data.threatType)) ==>
      tags[i] !in {"high-risk", "medium-risk", "low-risk"}
    ensures |tags| == RiskTagAt(data) + 2 ==> tags[|tags| - 1] in {"recent", "today", "this-week"}
  {
    var threatTime := TagTime(data, now);
    var typeTag := if Given(data.threatType) then [data.threatType.value] else [];
    var sourceTag := if Given(data.source) then ["source:" + data.source.value] else [];
    var ageTag := if AgeTag(now - threatTime).Some? then [AgeTag(now - threatTime).value] else [];
    var tags := typeTag + sourceTag + [RiskTag(RiskScore(data))] + ageTag;
    forall i | 0 <= i < |tags| && i != RiskTagAt(data) && !(i == 0 && Given(data.threatType))
      ensures tags[i] !in {"high-risk", "medium-risk", "low-risk"}
    {
      if i < RiskTagAt(data) {
        assert tags[i] == sourceTag[0] && tags[i][0] == 's';
      } else {
        assert tags[i] == ageTag[0];
      }
    }
    tags
  }

  /**
   * The record `storeThreat` writes under `key`: the caller's fields with
   * a caller-supplied `id` winning over the generated one, while the
   * timestamp, status, score, tags and metadata are always the server's.
   */
  function Enhanced(data: ThreatData, key: string, now: int): (t: Threat)
    ensures data.id.Some? ==> t.id == data.id.value
    ensures data.id.None? ==> t.id == key
    ensures t.data == data && t.timestamp == now && t.status == "active"
    ensures t.enrichment.Some? && t.enrichment.value.riskScore == RiskScore(data) <= 1.0
    ensures t.enrichment.value.tags == ThreatTags(data, now)
    ensures t.enrichment.value.metadata.source != "" && t.enrichment.value.metadata.confidence != 0.0
    ensures Given(data.source) ==> t.enrichment.value.metadata.source == data.source.value
    ensures !Given(data.source) ==> t.enrichment.value.metadata.source == "unknown"
    ensures data.confidence.Some? && data.confidence.value != 0.0 ==> t.enrichment.value.metadata.confidence == data.confidence.value
    ensures data.confidence.None? || data.confidence.value == 0.0 ==> t.enrichment.value.metadata.confidence == 0.5
    ensures t.enrichment.value.metadata.lastSeen == now
  {
    Threat(
      if data.id.Some? then data.id.value else key,
      data,
      now,
      "active",
      Some(Enrichment(
        RiskScore(data),
        ThreatTags(data, now),
        ThreatMetadata(
          if Given(data.source) then data.source.value else "unknown",
          if data.confidence.Some? && data.confidence.value != 0.0 then data.confidence.value else 0.5,
          now))))
  }

  /**
   * The two sample threats `getAllThreats` answers with when no threat is
   * stored: an active malware threat an hour old and an active phishing
   * threat two hours old, with distinct ids, neither enriched.
   */
  function Samples(now: int): (s: seq<Threat>)
    ensures |s| == 2 && s[0].id != s[1].id
    ensures s[0].timestamp == now - 3600000 && s[1].timestamp == now - 7200000
    ensures s[0].data.threatType == Some("malware") && s[1].data.threatType == Some("phishing")
    ensures forall t :: t in s ==> t.status == "active" && t.enrichment.None? && t.data.timestamp == Some(t.timestamp)
  {
    [ Threat("sample_threat_1",
             ThreatData(Some("sample_threat_1"), Some("malware"), Some("192.168.1.100"), Some("suspicious-site.com"),
                        None, Some("high"), None, None, None, Some(now - 3600000), map[]),
             now - 3600000, "active", None),
      Threat("sample_threat_2",
             ThreatData(Some("sample_threat_2"), Some("phishing"), Some("192.168.1.101"), Some("phishing-site.com"),
                        None, Some("medium"), None, None, None, Some(now - 7200000), map[]),
             now - 7200000, "active", None) ]
  }

  // ---------------------------------------------------------------------------
  // Indexes
  // ---------------------------------------------------------------------------

  /** The type index key: `threat.type`, which JavaScript spells "undefined" when absent. */
  function TypeKey(threatType: Option<string>): (k: string)
    ensures threatType.Some? ==> k == threatType.value
    ensures threatType.None? ==> k == "undefined"
  {
    if threatType.Some? then threatType.value else "undefined"
  }

  /** The risk bucket of a record; a record without a score falls to "low". */
  function IndexRisk(t: Threat): string {
    if t.enrichment.Some? then RiskBucket(t.enrichment.value.riskScore) else "low"
  }

  /** Append `id` to bucket `k`, creating the bucket when missing; other buckets stay. */
  function AddToBucket(index: map<string, seq<string>>, k: string, id: string): (r: map<string, seq<string>>)
    ensures r.Keys == index.Keys + {k}
    ensures k in index ==> r[k] == index[k] + [id]
    ensures k !in index ==> r[k] == [id]
    ensures forall j :: j in index && j != k ==> r[j] == index[j]
  {
    index[k := (if k in index then index[k] else []) + [id]]
  }

  function EntryTime(e: TimeEntry): int {
    e.timestamp
  }

  /**
   * The new time index: push, sort newest first, keep the first 1000. It
   * holds the 1000 newest entries of the old index and the new entry, copies
   * counted: every one while they fit, and no dropped entry newer than a
   * kept one.
   */
  function NextTimeIndex(index: seq<TimeEntry>, e: TimeEntry): (r: seq<TimeEntry>)
    ensures |r| == if |index| < TimeIndexCap then |index| + 1 else TimeIndexCap
    ensures SortedDesc(r, EntryTime)
    ensures NewestOf(r, multiset(index) + multiset{e}, EntryTime)
    ensures |index| < TimeIndexCap ==> multiset(r) == multiset(index) + multiset{e}
    ensures forall x :: x in index + [e] && x !in r ==> forall y :: y in r ==> y.timestamp >= x.timestamp
  {
    var sorted := SortDesc(index + [e], EntryTime);
    assert |sorted| <= TimeIndexCap ==> Take(sorted, TimeIndexCap) == sorted;
    assert multiset(index + [e]) == multiset(index) + multiset{e};
    PrefixOfSorted(index + [e], sorted, Take(sorted, TimeIndexCap), EntryTime);
    Take(sorted, TimeIndexCap)
  }

  // ---------------------------------------------------------------------------
  // Correlation
  // ---------------------------------------------------------------------------

  /** Both values present (truthy) and equal. */
  predicate Same(a: Option<string>, b: Option<string>) {
    Given(a) && Given(b) && a == b
  }

  function AbsDiff(a: int, b: int): nat {
    if a >= b then a - b else b - a
  }

  predicate WithinDay(a: int, b: int) {
    AbsDiff(a, b) < 24 * 60 * 60 * 1000
  }

  /**
   * `correlationScore` in tenths: 8 for the same ip, 7 for the same domain,
   * 9 for the same hash, 3 for the same type, 2 when within 24 hours. It
   * passes the threshold 3 exactly when the ip, domain or hash agree, or
   * the type agrees and the times are within a day; a type match alone or
   * the time alone never does.
   */
  function CorrelationScore(target: Threat, t: Threat): (s: nat)
    ensures s <= 29
    ensures s > 3 <==>
      || Same(target.data.ip, t.data.ip)
      || Same(target.data.domain, t.data.domain)
      || Same(target.data.hash, t.data.hash)
      || (Same(target.data.threatType, t.data.threatType) && WithinDay(target.timestamp, t.timestamp))
  {
    (if Same(target.data.ip, t.data.ip) then 8 else 0)
    + (if Same(target.data.domain, t.data.domain) then 7 else 0)
    + (if Same(target.data.hash, t.data.hash) then 9 else 0)
    + (if Same(target.data.threatType, t.data.threatType) then 3 else 0)
    + (if WithinDay(target.timestamp, t.timestamp) then 2 else 0)
  }

  /** Included in the correlation of `targetId`: another id and a score above 0.3. */
  predicate Correlates(target: Threat, targetId: string, t: Threat) {
    t.id != targetId && CorrelationScore(target, t) > 3
  }

  function CorrelationFilter(target: Threat, targetId: string): Threat -> bool {
    t => Correlates(target, targetId, t)
  }

  function ScoreKey(target: Threat): Threat -> int {
    t => CorrelationScore(target, t)
  }

  function ThreatsOf(cs: seq<Correlation>): (ts: seq<Threat>)
    ensures |ts| == |cs|
    ensures forall i :: 0 <= i < |cs| ==> ts[i] == cs[i].threat
  {
    seq(|cs|, i requires 0 <= i < |cs| => cs[i].threat)
  }

  /** The loop of `correlateThreats`: the threats of `all`, in order, that correlate with the target. */
  method CollectCorrelated(all: seq<Threat>, target: Threat, targetId: string) returns (matched: seq<Threat>)
    ensures matched == Filter(all, CorrelationFilter(target, targetId))
  {
    var p := CorrelationFilter(target, targetId);
    matched := [];
    for i := 0 to |all|
      invariant matched == Filter(all[..i], p)
    {
      assert all[..i + 1] == all[..i] + [all[i]];
      FilterAppend(all[..i], all[i], p);
      var t := all[i];
      if t.id != targetId {
        var score := CorrelationScore(target, t);
        if score > 3 {
          matched := matched + [t];
        }
      }
    }
    assert all[..|all|] == all;
  }

  /** `{...threat, correlationScore}` for every threat, in order. */
  function Scored(target: Threat, ts: seq<Threat>): (cs: seq<Correlation>)
    ensures ThreatsOf(cs) == ts
    ensures forall c :: c in cs ==> c.threat in ts && c.score == CorrelationScore(target, c.threat)
  {
    var cs := seq(|ts|, i requires 0 <= i < |ts| => Correlation(ts[i], CorrelationScore(target, ts[i])));
    assert ThreatsOf(cs) == ts;
    cs
  }

  /**
   * The matches of a prefix listing, sorted by score, are every correlated
   * stored threat, highest score first.
   */
  lemma CorrelatedOfStore(m: map<string, Threat>, all: seq<Threat>, keys: seq<string>, target: Threat, targetId: string)
    requires ListedUnder(m, ThreatPrefix, all, keys)
    ensures var p := CorrelationFilter(target, targetId);
      var sorted := SortDesc(Filter(all, p), ScoreKey(target));
      && IsTopOfStore(sorted, m, ThreatPrefix, p, ScoreKey(target), MatchCount(m, ThreatPrefix, p))
      && (forall k :: k in m && StartsWith(k, ThreatPrefix) && Correlates(target, targetId, m[k]) ==> m[k] in sorted)
      && (forall t :: t in sorted ==> Correlates(target, targetId, t))
  {
    var p := CorrelationFilter(target, targetId);
    var matched := Filter(all, p);
    var sorted := SortDesc(matched, ScoreKey(target));
    ListedTopN(m, ThreatPrefix, all, keys, p, ScoreKey(target), |matched|);
    TopNKeepsAll(all, p, ScoreKey(target));
    assert TopN(all, p, ScoreKey(target), |matched|) == sorted;
    forall k | k in m && StartsWith(k, ThreatPrefix) && Correlates(target, targetId, m[k]) ensures m[k] in sorted {
      assert k in keys;
      var i :| 0 <= i < |keys| && keys[i] == k;
      assert all[i] in all;
    }
    forall t | t in sorted ensures Correlates(target, targetId, t) {
      assert t in multiset(matched);
    }
  }

  /**
   * Skipping by the requested key, as written, a stored threat correlates
   * with itself exactly when the caller gave it an `id` other than its key
   * and it has an ip, a domain, a hash or a type: the time term and any
   * of those lift its score above the threshold.
   */
  lemma SelfCorrelation(data: ThreatData, key: string, now: int)
    ensures var t := Enhanced(data, key, now);
      Correlates(t, key, t) <==>
        && data.id.Some? && data.id.value != key
        && (Given(data.ip) || Given(data.domain) || Given(data.hash) || Given(data.threatType))
  {
    var t := Enhanced(data, key, now);
    assert WithinDay(t.timestamp, t.timestamp);
  }

  // ---------------------------------------------------------------------------
  // Search
  // ---------------------------------------------------------------------------

  /**
   * The limit of `searchThreats`, `parseInt(limit || '50')`. Here `None`
   * stands for an absent or empty parameter, both falsy, which give 50; a
   * present parameter that does not parse gives NaN, which behaves as 0 in
   * `slice`.
   */
  function SearchLimit(limit: Option<ParsedInt>): (n: int)
    ensures limit.None? ==> n == 50
    ensures limit == Some(NaN) ==> n == 0
    ensures limit.Some? && limit.value.Int? ==> n == limit.value.i
  {
    match limit
    case None => 50
    case Some(NaN) => 0
    case Some(Int(i)) => i
  }

  /**
   * The conjunction of the supplied search filters: the query as a
   * case-folded substring of the record's serialised form, and the type and
   * risk level by equality.
   */
  predicate MatchesSearch(t: Threat, q: Option<string>, threatType: Option<string>, riskLevel: Option<string>,
                          serialize: Threat -> string) {
    && (Given(q) ==> Contains(Lower(serialize(t)), Lower(q.value)))
    && (Given(threatType) ==> t.data.threatType == threatType)
    && (Given(riskLevel) ==> t.data.riskLevel == riskLevel)
  }

  function SearchFilter(q: Option<string>, threatType: Option<string>, riskLevel: Option<string>,
                        serialize: Threat -> string): Threat -> bool {
    t => MatchesSearch(t, q, threatType, riskLevel, serialize)
  }

  function Timestamp(t: Threat): int {
    t.timestamp
  }

  predicate AnyThreat(t: Threat) {
    true
  }

  // ---------------------------------------------------------------------------
  // The durable object
  // ---------------------------------------------------------------------------

  class ThreatDatabase {
    /** The threat records of the storage, by key. */
    var threats: map<string, Threat>
    /** The cache entries of the storage, by key. */
    var cache: map<string, CacheEntry>
    /** The three indexes; absent until the first threat is stored. */
    var typeIndex: Option<map<string, seq<string>>>
    var riskIndex: Option<map<string, seq<string>>>
    var timeIndex: Option<seq<TimeEntry>>

    /**
     * The key families never overlap, and the time index stays sorted
     * newest first with at most 1000 entries.
     */
    ghost predicate Valid()
      reads this
    {
      && (forall k :: k in threats ==> StartsWith(k, ThreatPrefix))
      && (forall k :: k in cache ==> StartsWith(k, CachePrefix))
      && (timeIndex.Some? ==> |timeIndex.value| <= TimeIndexCap && SortedDesc(timeIndex.value, EntryTime))
    }

    constructor()
      ensures Valid()
      ensures threats == map[] && cache == map[]
      ensures typeIndex == None && riskIndex == None && timeIndex == None
    {
      threats := map[];
      cache := map[];
      typeIndex := None;
      riskIndex := None;
      timeIndex := None;
    }

    /** `storage.get(key)` over the whole storage. */
    function Lookup(key: string): Option<Stored>
      reads this
    {
      if key in threats then Some(StoredThreat(threats[key]))
      else if key in cache then Some(StoredCache(cache[key]))
      else if (key == "index:type" && typeIndex.Some?) || (key == "index:risk" && riskIndex.Some?)
              || (key == "index:time" && timeIndex.Some?) then Some(StoredIndex)
      else None
    }

    predicate NoThreats()
      reads this
    {
      forall k :: k in threats ==> !StartsWith(k, ThreatPrefix)
    }

    /**
     * `storeThreat`: the enhanced record under the fresh key
     * "threat_" + `suffix`, readable at once through `getThreat`, and the
     * indexes updated; the cache is untouched.
     */
    method StoreThreat(data: ThreatData, suffix: string, now: int) returns (threatId: string)
      requires Valid()
      modifies this
      ensures Valid()
      ensures threatId == ThreatPrefix + suffix
      ensures threats == old(threats)[threatId := Enhanced(data, threatId, now)]
      ensures GetThreat(Some(threatId)) == Ok(StoredThreat(Enhanced(data, threatId, now)))
      ensures cache == old(cache)
      ensures var t := Enhanced(data, threatId, now);
        && typeIndex == Some(AddToBucket(old(typeIndex).GetOr(map[]), TypeKey(data.threatType), t.id))
        && riskIndex == Some(AddToBucket(old(riskIndex).GetOr(map[]), RiskBucket(RiskScore(data)), t.id))
        && timeIndex == Some(NextTimeIndex(old(timeIndex).GetOr([]), TimeEntry(t.id, now)))
    {
      threatId := ThreatPrefix + suffix;
      var threat := Enhanced(data, threatId, now);
      threats := threats[threatId := threat];
      UpdateIndexes(threat);
    }

    /**
     * `updateIndexes`: the id goes to the end of its type bucket and of
     * exactly one risk bucket, and into the time index, which stays sorted
     * and capped.
     */
    method UpdateIndexes(t: Threat)
      requires Valid()
      modifies this
      ensures Valid()
      ensures threats == old(threats) && cache == old(cache)
      ensures typeIndex == Some(AddToBucket(old(typeIndex).GetOr(map[]), TypeKey(t.data.threatType), t.id))
      ensures riskIndex == Some(AddToBucket(old(riskIndex).GetOr(map[]), IndexRisk(t), t.id))
      ensures timeIndex == Some(NextTimeIndex(old(timeIndex).GetOr([]), TimeEntry(t.id, t.timestamp)))
    {
      var byType := AddToBucket(typeIndex.GetOr(map[]), TypeKey(t.data.threatType), t.id);
      var byRisk := AddToBucket(riskIndex.GetOr(map[]), IndexRisk(t), t.id);
      var byTime := NextTimeIndex(timeIndex.GetOr([]), TimeEntry(t.id, t.timestamp));
      typeIndex, riskIndex, timeIndex := Some(byType), Some(byRisk), Some(byTime);
    }

    /** `getThreat`: 400 without an id, 404 when the key holds nothing, otherwise what it holds. */
    function GetThreat(threatId: Option<string>): (r: Reply<Stored>)
      reads this
      ensures !Given(threatId) ==> r == Err(400, "Threat ID required")
      ensures Given(threatId) && Lookup(threatId.value).None? ==> r == Err(404, "Threat not found")
      ensures r.Ok? <==> Given(threatId) && Lookup(threatId.value).Some?
      ensures r.Ok? ==> r.value == Lookup(threatId.value).value
    {
      if !Given(threatId) then Err(400, "Threat ID required")
      else if Lookup(threatId.value).None? then Err(404, "Threat not found")
      else Ok(Lookup(threatId.value).value)
    }

    /** `getAllThreats`: the records under "threat_", or the two samples when there are none. */
    method GetAllThreats(now: int) returns (all: seq<Threat>, ghost keys: seq<string>)
      ensures NoThreats() ==> all == Samples(now)
      ensures !NoThreats() ==> ListedUnder(threats, ThreatPrefix, all, keys)
    {
      all, keys := ListPrefix(threats, ThreatPrefix);
      if |all| == 0 {
        assert NoThreats() by {
          forall k | k in threats ensures !StartsWith(k, ThreatPrefix) {
            assert k !in keys;
          }
        }
        all := Samples(now);
      } else {
        assert keys[0] in keys;
      }
    }

    /**
     * `searchThreats`: the records meeting every supplied filter, newest
     * first, cut to the limit; `total` is the number returned.
     */
    method SearchThreats(q: Option<string>, threatType: Option<string>, riskLevel: Option<string>,
                         limit: Option<ParsedInt>, serialize: Threat -> string, now: int) returns (r: SearchResult)
      ensures var p := SearchFilter(q, threatType, riskLevel, serialize);
        !NoThreats() ==> IsTopOfStore(r.threats, threats, ThreatPrefix, p, Timestamp, SearchLimit(limit))
      ensures NoThreats() ==>
        r.threats == TopN(Samples(now), SearchFilter(q, threatType, riskLevel, serialize), Timestamp, SearchLimit(limit))
      ensures forall t :: t in r.threats ==> MatchesSearch(t, q, threatType, riskLevel, serialize)
      ensures r.total == |r.threats|
    {
      var p := SearchFilter(q, threatType, riskLevel, serialize);
      var all, keys := GetAllThreats(now);
      if !NoThreats() {
        ListedTopN(threats, ThreatPrefix, all, keys, p, Timestamp, SearchLimit(limit));
      }
      TopNSpec(all, p, Timestamp, SearchLimit(limit));
      var found := TopN(all, p, Timestamp, SearchLimit(limit));
      r := SearchResult(found, |found|);
    }

    /** `getRecentThreats`: the newest records, cut to `parseInt(limit) || 50`. */
    method GetRecentThreats(limit: Option<ParsedInt>, now: int) returns (recent: seq<Threat>)
      ensures !NoThreats() ==> IsTopOfStore(recent, threats, ThreatPrefix, AnyThreat, Timestamp, LimitOr(limit, 50))
      ensures NoThreats() ==> recent == TopN(Samples(now), AnyThreat, Timestamp, LimitOr(limit, 50))
    {
      var all, keys := GetAllThreats(now);
      if !NoThreats() {
        ListedTopN(threats, ThreatPrefix, all, keys, AnyThreat, Timestamp, LimitOr(limit, 50));
      }
      recent := TopN(all, AnyThreat, Timestamp, LimitOr(limit, 50));
    }

    /**
     * The loop and sort of `correlateThreats` for a stored target: every
     * other stored threat (by `id`, against `excludedId`) scoring above 0.3,
     * once each with its score, highest score first.
     */
    method CorrelatedWith(target: Threat, excludedId: string, now: int) returns (cs: seq<Correlation>)
      requires !NoThreats()
      ensures var p := CorrelationFilter(target, excludedId);
        && IsTopOfStore(ThreatsOf(cs), threats, ThreatPrefix, p, ScoreKey(target), MatchCount(threats, ThreatPrefix, p))
        && (forall k :: k in threats && StartsWith(k, ThreatPrefix) && Correlates(target, excludedId, threats[k]) ==>
              threats[k] in ThreatsOf(cs))
        && (forall c :: c in cs ==> c.threat.id != excludedId && c.score == CorrelationScore(target, c.threat) && c.score > 3)
    {
      var all, keys := GetAllThreats(now);
      var matched := CollectCorrelated(all, target, excludedId);
      var sorted := SortDesc(matched, ScoreKey(target));
      CorrelatedOfStore(threats, all, keys, target, excludedId);
      cs := Scored(target, sorted);
    }

    /**
     * `correlateThreats` as written: 404 when the id holds nothing. A cache
     * entry or an index has no ip, domain, hash or type, so nothing but the
     * time term could score against it and nothing reaches the threshold.
     * For a threat, every stored threat whose `id` differs from the
     * requested key and that scores above 0.3 is returned once with its
     * score, highest score first. A target stored with a caller-supplied
     * `id` is not skipped (see `SelfCorrelation`).
     */
    method CorrelateThreatsAsWritten(threatId: string, now: int) returns (r: Reply<seq<Correlation>>)
      requires Valid()
      ensures r == Err(404, "Threat not found") <==> Lookup(threatId).None?
      ensures Lookup(threatId).Some? && !Lookup(threatId).value.StoredThreat? ==> r == Ok([])
      ensures threatId in threats ==>
        var target := threats[threatId];
        var p := CorrelationFilter(target, threatId);
        && r.Ok?
        && IsTopOfStore(ThreatsOf(r.value), threats, ThreatPrefix, p, ScoreKey(target), MatchCount(threats, ThreatPrefix, p))
        && (forall k :: k in threats && Correlates(target, threatId, threats[k]) ==> threats[k] in ThreatsOf(r.value))
        && (forall c :: c in r.value ==> c.threat.id != threatId && c.score == CorrelationScore(target, c.threat) && c.score > 3)
    {
      var found := Lookup(threatId);
      if found.None? {
        return Err(404, "Threat not found");
      }
      if !found.value.StoredThreat? {
        return Ok([]);
      }
      assert StartsWith(threatId, ThreatPrefix);
      var cs := CorrelatedWith(found.value.threat, threatId, now);
      r := Ok(cs);
    }

    /**
     * `correlateThreats` skipping the target by its own `id`: the same
     * answers, but the target never appears in its own correlation.
     */
    method CorrelateThreats(threatId: string, now: int) returns (r: Reply<seq<Correlation>>)
      requires Valid()
      ensures r == Err(404, "Threat not found") <==> Lookup(threatId).None?
      ensures Lookup(threatId).Some? && !Lookup(threatId).value.StoredThreat? ==> r == Ok([])
      ensures threatId in threats ==>
        var target := threats[threatId];
        var p := CorrelationFilter(target, target.id);
        && r.Ok?
        && target !in ThreatsOf(r.value)
        && IsTopOfStore(ThreatsOf(r.value), threats, ThreatPrefix, p, ScoreKey(target), MatchCount(threats, ThreatPrefix, p))
        && (forall k :: k in threats && Correlates(target, target.id, threats[k]) ==> threats[k] in ThreatsOf(r.value))
        && (forall c :: c in r.value ==> c.threat.id != target.id && c.score == CorrelationScore(target, c.threat) && c.score > 3)
    {
      var found := Lookup(threatId);
      if found.None? {
        return Err(404, "Threat not found");
      }
      if !found.value.StoredThreat? {
        return Ok([]);
      }
      assert StartsWith(threatId, ThreatPrefix);
      var target := found.value.threat;
      var cs := CorrelatedWith(target, target.id, now);
      forall t | t in ThreatsOf(cs) ensures t.id != target.id {
        var i :| 0 <= i < |cs| && ThreatsOf(cs)[i] == t;
        assert cs[i] in cs;
      }
      r := Ok(cs);
    }

    /** `storeCacheData`: the entry under "cache_" + key, readable at once through `getCacheData`. */
    method StoreCacheData(key: Option<string>, data: Json, timestamp: Json) returns (message: string)
      requires Valid()
      modifies this
      ensures Valid()
      ensures message == "Cache data stored successfully"
      ensures cache == old(cache)[CacheKey(key) := CacheEntry(data, timestamp)]
      ensures threats == old(threats) && typeIndex == old(typeIndex) && riskIndex == old(riskIndex) && timeIndex == old(timeIndex)
      ensures Given(key) ==> GetCacheData(key) == Ok(CacheEntry(data, timestamp))
    {
      cache := cache[CacheKey(key) := CacheEntry(data, timestamp)];
      message := "Cache data stored successfully";
    }

    /** `getCacheData`: 400 without a key, 404 for an absent entry, otherwise the entry. */
    function GetCacheData(key: Option<string>): (r: Reply<CacheEntry>)
      reads this
      ensures !Given(key) ==> r == Err(400, "Cache key is required")
      ensures Given(key) && CacheKey(key) !in cache ==> r == Err(404, "Cache data not found")
      ensures r.Ok? <==> Given(key) && CacheKey(key) in cache
      ensures r.Ok? ==> r.value == cache[CacheKey(key)]
    {
      if !Given(key) then Err(400, "Cache key is required")
      else if CacheKey(key) !in cache then Err(404, "Cache data not found")
      else Ok(cache[CacheKey(key)])
    }
  }

  /** `cache_${key}`: an absent key is spelled "undefined". */
  function CacheKey(key: Option<string>): string {
    CachePrefix + (if key.Some? then key.value else "undefined")
  }
}
