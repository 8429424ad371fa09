# Threat-intelligence back end: stores and helpers

This project models the core of a Cloudflare-Workers threat-intelligence
application in Dafny and proves properties of the model. The core is three
Durable Objects, each a keyed-record store, plus the pure helpers of the
worker that fronts them:

- **Workflow engine** (`workflow_engine.dfy`, module `Workflows`). Workflow
  records live under `"workflow_" + id`. Triggering stores a `running`
  record and runs the fixed step sequence of its type. Each step appends a
  `running` entry and then a `completed` entry to the step log, and the run
  ends by marking the record `completed`, or `failed` when a storage
  operation faults. The engine also has status reads, cancellation guarded
  by status, and newest-first list and history views.
- **Threat database** (`threat_database.dfy`, module `Threats`).
  - Threats are stored under `"threat_"` keys, enriched with a capped risk
    score, tags and metadata.
  - Storing a threat maintains a type index, a risk index and a time index
    capped at 1000 entries.
  - Search is a conjunctive filter, then a newest-first sort, then a cut.
  - Correlation is an additive similarity score in tenths, with an inclusion
    threshold.
  - A `"cache_"` key family serves as a small cache.
- **Session manager** (`session_manager.dfy`, module `Sessions`).
  - Sessions are stored under `"session_" + id`.
  - Reads refresh `lastAccessed`, updates shallow-merge `data`, and deletes
    are idempotent.
  - The list view filters on the user.
- **Worker helpers** (`main_simple.dfy`, module `Worker`):
  - validation of chat and ingest requests;
  - the keyword routing that picks a specialised prompt;
  - the mapping of NVD CVE records to threats with their CVSS risk level;
  - the newest-ten selection;
  - text sanitisation;
  - tag and description generation;
  - the cache-expiry test.

Two shared modules support these. `Js` (`js.dfy`) holds the JavaScript
semantics the handlers rely on: truthiness, `parseInt(x) || d`,
`slice(0, n)` with negative `n`, `startsWith`, `includes` and ASCII
`toLowerCase`. `Listing` (`listing.dfy`) holds the filter, stable
newest-first sort and truncation pipeline that every list endpoint runs. It
also holds the prefix listing of a storage that feeds the pipeline, and
proves the pipeline's result correct against the storage itself
(`IsTopOfStore`).

The three stores are classes. The workflow and session storages are one
`map` field each. The threat database splits its storage into a map of
threat records, a map of cache entries and three optional index fields.
The methods reassign these fields, and every state-changing method states
the whole new state. Handler answers are `Reply` values: `Ok(payload)`, or
`Err(status, message)` for the error paths. Most of these are 400 or 404;
the chat guard answers with status 200, because the source sets no status
there. Clocks, random ids and storage faults are parameters.

## Model

| member | source | states |
|---|---|---|
| Js.LimitOr | src/durable-objects/workflow-engine.js:316 | `parseInt(limit) \|\| d`: an absent limit, NaN or 0 gives the default; any other parsed value is kept |
| Js.SliceEnd | src/durable-objects/workflow-engine.js:328 | the length `slice(0, n)` keeps: at most the list length, counting from the end for a negative `n` |
| Listing.SortDesc | src/durable-objects/workflow-engine.js:327 | the newest-first sort returns a permutation of its input that is sorted by the key |
| Listing.TopNSpec | src/durable-objects/session-manager.js:225-233 | filter, sort, slice: sorted, exactly `slice(0, n)` of the matches in number, and the newest of them with copies counted (`NewestOf`): each at most as often as it matches, and nothing left over newer than a returned element |
| Listing.ListPrefix | src/durable-objects/workflow-engine.js:450-455 | the prefix listing holds the value of every key under the prefix exactly once, and nothing else |
| Listing.ListedTopN | src/durable-objects/workflow-engine.js:318-332 | the list pipeline on a prefix listing meets `IsTopOfStore` for the storage: matching stored values, newest first, `slice(0, n)` of the matches, and the newest of the matching stored values with copies counted, so two keys holding equal values both count; the filtered count is the number of matching keys |
| Workflows.StepsFor | src/durable-objects/workflow-engine.js:101-235 | five step definitions for each of the four named types; any other type gets the four-step generic sequence |
| Workflows.StepLog | src/durable-objects/workflow-engine.js:132-138 | a complete run logs two entries per definition, in order: a `running` entry, then a `completed` entry with the same name |
| Workflows.Triggered | src/durable-objects/workflow-engine.js:55-70 | a new record is `running` with no steps, no results and no `completedAt`; `parameters` defaults to `{}`, `triggeredBy` to "system" and `priority` to "normal" |
| Workflows.WithStatus | src/durable-objects/workflow-engine.js:252-264 | replaces the status; merges results with new keys winning and old keys kept; sets `completedAt` only for `completed` and `failed`; changes nothing else |
| Workflows.Run | src/durable-objects/workflow-engine.js:96-144 | a run keeps the existing log and appends a prefix of the step log, all of it unless a fault strikes; ends `completed` with the message, or `failed` with the fault's message; every other field and every other result key is kept |
| Workflows.Ran | src/durable-objects/workflow-engine.js:96-121 | `executeWorkflow`'s dispatch: the run of the type's sequence, `completed` with that type's message without a fault, `failed` with `{error}` when a fault strikes within the run |
| Workflows.RanAppendsStepPairs | src/durable-objects/workflow-engine.js:101-235 | without a fault a run appends 10 entries for a named type and 8 otherwise; appended entry `i` is the `running` (even `i`) or `completed` (odd `i`) entry of step `i / 2` |
| Workflows.WorkflowEngine.TriggerWorkflow | src/durable-objects/workflow-engine.js:41-94 | an empty type gives 400 and writes nothing; otherwise the reply is the created record, and the storage holds that record after its run under `"workflow_" + id` |
| Workflows.WorkflowEngine.ExecuteWorkflow | src/durable-objects/workflow-engine.js:96-121 | does nothing on an absent record; otherwise the stored record becomes its run, `failed` with `{error}` on a fault |
| Workflows.WorkflowEngine.RunSequence | src/durable-objects/workflow-engine.js:123-144 | the step loop: reports completion exactly when no fault interrupts; the record gains the logged prefix and, when complete, the `completed` status |
| Workflows.WorkflowEngine.AddWorkflowStep | src/durable-objects/workflow-engine.js:237-250 | does nothing on an absent record; otherwise appends exactly one entry at the end and changes nothing else |
| Workflows.WorkflowEngine.UpdateWorkflowStatus | src/durable-objects/workflow-engine.js:252-264 | does nothing on an absent record; otherwise stores `WithStatus` of it |
| Workflows.WorkflowEngine.GetWorkflowStatus | src/durable-objects/workflow-engine.js:266-310 | 400 without an id, 404 for an absent record, otherwise the stored record |
| Workflows.WorkflowEngine.CancelWorkflow | src/durable-objects/workflow-engine.js:350-408 | succeeds exactly for a present record that is neither `completed` nor `failed`; then the record is `cancelled` with "Workflow cancelled by user"; every error (400, 404, 400) leaves the storage unchanged |
| Workflows.WorkflowEngine.GetAllWorkflows | src/durable-objects/workflow-engine.js:448-457 | exactly the records under `"workflow_"` |
| Workflows.WorkflowEngine.ListWorkflows | src/durable-objects/workflow-engine.js:312-348 | stored records matching the status filter, none more often than keys hold it, newest `createdAt` first, `slice(0, parseInt(limit) \|\| 50)` of all matches with no left-out match newer; `total` counts the matches before the cut |
| Workflows.WorkflowEngine.GetWorkflowHistory | src/durable-objects/workflow-engine.js:410-446 | the same (stored, no duplicates, newest first, nothing newer left out), for the type filter and default 100 |
| Sessions.NewSession | src/durable-objects/session-manager.js:46-57 | a new session has `userId` (defaulting to "anonymous"), `data` (defaulting to `{}`) and both timestamps set to now; caller metadata overrides the `userAgent`/`ipAddress` headers |
| Sessions.Merged | src/durable-objects/session-manager.js:157-159 | the data is merged with new keys winning and untouched keys kept, `lastAccessed` is refreshed, and nothing else changes |
| Sessions.MergedTwice | src/durable-objects/session-manager.js:157-159 | two updates equal one update with the second data merged over the first |
| Sessions.SessionManager.CreateSession | src/durable-objects/session-manager.js:41-79 | stores `NewSession` under `"session_" + id` and answers with it |
| Sessions.SessionManager.GetSession | src/durable-objects/session-manager.js:81-129 | 400 without an id and 404 for an absent session, neither writing; otherwise the session with only `lastAccessed` refreshed, written back |
| Sessions.SessionManager.UpdateSession | src/durable-objects/session-manager.js:131-180 | the same 400/404 paths; otherwise the session is `Merged` and written back |
| Sessions.SessionManager.DeleteSession | src/durable-objects/session-manager.js:182-216 | 400 only without an id; otherwise succeeds whether or not the session existed, and the key is absent afterwards |
| Sessions.SessionManager.GetAllSessions | src/durable-objects/session-manager.js:256-265 | exactly the records under `"session_"` |
| Sessions.SessionManager.ListSessions | src/durable-objects/session-manager.js:218-254 | stored sessions of the user, none more often than keys hold it, newest `lastAccessed` first, `slice(0, parseInt(limit) \|\| 50)` of all matches with no left-out match newer; `total` counts the matches before the cut |
| Threats.TypeBase | src/durable-objects/threat-database.js:340-351 | `typeScores[type] \|\| 0.5` lies in [0.3, 1.0) |
| Threats.RiskBucket | src/durable-objects/threat-database.js:417-418 | the risk index bucket: "high" exactly above 0.8, "low" exactly at 0.5 or below, else "medium" |
| Threats.RiskScore | src/durable-objects/threat-database.js:336-365 | never above 1.0; non-negative for a non-negative confidence; at least 0.3 without a truthy confidence |
| Threats.RiskScoreMonotone | src/durable-objects/threat-database.js:351-364 | for a non-negative confidence, more indicators never lower the score |
| Threats.RiskTag | src/durable-objects/threat-database.js:381-388 | exactly one of the three risk tags, naming the same bucket (>0.8 high, >0.5 medium) as the risk index |
| Threats.AgeTag | src/durable-objects/threat-database.js:391-401 | "recent" under an hour, then "today", then "this-week"; no tag from a week on |
| Threats.ThreatTags | src/durable-objects/threat-database.js:367-404 | the type tag first when given, then "source:" + source when given, exactly one risk tag (that of `RiskScore`), and an age tag exactly when `AgeTag` of the age since `timestamp \|\| now` gives one, as the last tag |
| Threats.Enhanced | src/durable-objects/threat-database.js:42-54 | caller fields kept, a caller `id` overriding the generated one; timestamp now, status "active", `riskScore` = `RiskScore`, `tags` = `ThreatTags`, metadata source (default "unknown"), confidence (default 0.5) and lastSeen now |
| Threats.AddToBucket | src/durable-objects/threat-database.js:407-423 | appends the id to one bucket, creating it when missing; every other bucket is unchanged |
| Threats.TypeKey | src/durable-objects/threat-database.js:409-412 | the type bucket is the type, or "undefined" for a threat without one |
| Threats.NextTimeIndex | src/durable-objects/threat-database.js:425-432 | the new time index is sorted newest first and holds min(old length + 1, 1000) entries: the newest of the old index plus the new entry with copies counted, all of them below the cap |
| Threats.CorrelationScore | src/durable-objects/threat-database.js:240-268 | the score in tenths is above the 0.3 threshold exactly when ip, domain or hash agree, or the types agree within a day; a type match alone or the time alone never passes |
| Threats.CollectCorrelated | src/durable-objects/threat-database.js:237-273 | the loop keeps, in order, exactly the threats with another id that pass the threshold |
| Threats.Scored | src/durable-objects/threat-database.js:268-273 | each threat is paired with its own correlation score, in order |
| Threats.CorrelatedOfStore | src/durable-objects/threat-database.js:234-277 | sorting the matches of a listing gives every correlated stored threat, highest score first, and only those |
| Threats.SearchLimit | src/durable-objects/threat-database.js:134 | `parseInt(limit \|\| '50')`: 50 when the parameter is absent or empty, the parsed value otherwise, NaN acting as 0 |
| Threats.ThreatDatabase.StoreThreat | src/durable-objects/threat-database.js:34-80 | stores `Enhanced` under the fresh `"threat_"` key, readable at once through `getThreat`; updates the three indexes and leaves the cache alone |
| Threats.ThreatDatabase.UpdateIndexes | src/durable-objects/threat-database.js:406-433 | adds the id to its type bucket, to one risk bucket and to the capped, sorted time index; keeps the store valid |
| Threats.ThreatDatabase.GetThreat | src/durable-objects/threat-database.js:82-126 | 400 without an id, 404 when the key holds nothing, otherwise what it holds |
| Threats.ThreatDatabase.GetAllThreats | src/durable-objects/threat-database.js:299-334 | exactly the records under `"threat_"`, or the two sample threats when there are none |
| Threats.Samples | src/durable-objects/threat-database.js:310-330 | two active, unenriched sample threats with distinct ids: malware an hour old, phishing two hours old |
| Threats.ThreatDatabase.SearchThreats | src/durable-objects/threat-database.js:128-184 | `IsTopOfStore`: stored threats meeting every supplied filter, newest first, cut to the limit, the newest matches with copies counted, so equal threats under two keys are both kept before an older one (the samples when the store is empty); `total` is the returned length |
| Threats.ThreatDatabase.GetRecentThreats | src/durable-objects/threat-database.js:186-216 | `IsTopOfStore`: the newest stored threats with copies counted, cut to `parseInt(limit) \|\| 50` (the samples when the store is empty) |
| Threats.ThreatDatabase.CorrelateThreatsAsWritten | src/durable-objects/threat-database.js:218-297 | 404 exactly for an absent key; every stored threat whose `id` is not the requested key and that passes the threshold appears once with its score, highest first |
| Threats.SelfCorrelation | src/durable-objects/threat-database.js:43-44 | skipping by the requested key, a stored threat correlates with itself exactly when the caller gave it another `id` and it has an ip, domain, hash or type |
| Threats.ThreatDatabase.CorrelatedWith | src/durable-objects/threat-database.js:234-277 | the loop and sort for a stored target: every correlated stored threat other than the excluded id, once, with its score, highest first |
| Threats.ThreatDatabase.CorrelateThreats | src/durable-objects/threat-database.js:218-297 | as written, but skipping by the target's own `id`: the target never appears in its own result |
| Threats.ThreatDatabase.StoreCacheData | src/durable-objects/threat-database.js:436-463 | stores the entry under `"cache_" + key`; a following `getCacheData` returns the same data and timestamp |
| Threats.ThreatDatabase.GetCacheData | src/durable-objects/threat-database.js:465-510 | 400 without a key, 404 for an absent entry, otherwise the entry |
| Worker.Trim | src/workers/main-simple.js:769 | `trim()` leaves no white space at either end, and is empty exactly for an all-white-space string |
| Worker.ValidateChat | src/workers/main-simple.js:767-779 | rejects exactly a missing or white-space-only message, before any model is asked |
| Worker.ValidateIngest | src/workers/main-simple.js:1740-1752 | 400 exactly when `type` is falsy or `indicators` is missing |
| Worker.IngestedThreatIsTyped | src/workers/main-simple.js:1740-1760 | an accepted ingest stores its type as the first tag and as its type bucket; without confidence, the score is the capped base plus the indicators |
| Worker.Category | src/workers/main-simple.js:782-1064 | the branches are tried in order and the first match wins; greeting only without analyze/check/investigate; IP needs "ip" and one of them |
| Worker.SubstringGreeting | src/workers/main-simple.js:786-790 | the keywords match as substrings: "this malware" is routed to the greeting prompt |
| Worker.CvssScore | src/workers/main-simple.js:1450-1452 | the base score falls back from v3.1 to v3.0 to v2 to 0, a 0 counting as missing |
| Worker.CvssRiskLevel | src/workers/main-simple.js:1457 | critical from 9, low below 4, high and medium between |
| Worker.RiskLevelFollowsCvssScale | src/workers/main-simple.js:1457 | the risk level is the qualitative rating of section 5 of the CVSS v3.1 specification for every score 0.1-10.0 |
| Worker.CveToThreat | src/workers/main-simple.js:1448-1474 | risk level from the score; `riskScore` is the score over 10; "cvss-high" exactly from 7, else "cvss-medium"; a non-empty description |
| Worker.CveDescription | src/workers/main-simple.js:1462 | the description through the corrected sanitiser (see "## Left out"), or "No description available", and never empty |
| Worker.RecentCves | src/workers/main-simple.js:1434-1474 | at most ten threats; the exact count and the newest-with-copies property are stated by `Worker.RecentCvesNewest` |
| Worker.RecentCvesNewest | src/workers/main-simple.js:1434-1474 | min(count, 10) threats, the newest of the input CVEs mapped to threats with copies counted, every one the threat of an input CVE, and no omitted CVE newer than a returned one |
| Worker.RealWorldThreats | src/workers/main-simple.js:1380-1385 | at most ten threats, sorted newest first |
| Worker.RealWorldThreatsAreNewest | src/workers/main-simple.js:1363-1387 | min(count, 10) threats, newest first, the newest of the input CVEs mapped to threats with copies counted (so a CVE listed twice is returned twice before an older one); no omitted CVE is newer than a returned one |
| Worker.Finish | src/workers/main-simple.js:1358-1359 | stripping non-ASCII and trimming leaves ASCII with no white space at either end |
| Worker.StripNonAscii | src/workers/main-simple.js:1358 | keeps exactly the ASCII characters: the result is ASCII and every ASCII character of the input remains |
| Worker.ReplaceAllChars | src/workers/main-simple.js:1350-1357 | `replace(/pat/g, rep)` introduces no character found in neither the text nor the replacement |
| Worker.ReplaceAllAbsent | src/workers/main-simple.js:1350-1357 | a text without the pattern's first character passes a replacement unchanged |
| Worker.SanitizeAsWritten | src/workers/main-simple.js:1345-1360 | the chain in source order: falsy input gives "", and the output is ASCII and trimmed |
| Worker.ApostropheCounterexample | src/workers/main-simple.js:1350-1352 | the mis-decoded apostrophe comes out as `"` from the chain as written, and as `'` from the corrected chain |
| Worker.SanitizeBackendText | src/workers/main-simple.js:1345-1360 | the corrected chain: falsy input gives "", and the output is ASCII and trimmed |
| Worker.GenerateTags | src/workers/main-simple.js:1721-1733 | the type and "risk:" + level, then "urgent" exactly for critical/high and "sophisticated" exactly for apt/ransomware, in that order and nothing else |
| Worker.ThreatDescription | src/workers/main-simple.js:1707-1719 | the description always mentions the risk level; an unknown type gets the generic sentence |
| Worker.IsCacheExpired | src/workers/main-simple.js:1337-1342 | with a non-negative TTL nothing stamped now or later is expired; with a TTL of zero or less everything older than now is |
| Worker.ExpiryIsPermanent | src/workers/main-simple.js:1337-1342 | an expired entry stays expired as time passes |
| Worker.ExpiryBoundary | src/workers/main-simple.js:1337-1342 | the comparison is strict: exactly one TTL old is fresh, one millisecond more is expired |

## Left out

- HTTP plumbing is not modelled: request parsing, `Response` construction, CORS headers, JSON (de)serialisation and the 500 paths of the `catch` blocks. `searchThreats` serialises a record to match `q`; that is a `serialize` parameter.
- Clocks and random ids (`Date.now`, `toISOString`, `Math.random`) are parameters. Timestamps are integer milliseconds, so the ISO-string round trip through `Date` is not modelled.
- Workflows.WorkflowEngine.TriggerWorkflow: the `setTimeout` delays and the fire-and-forget `executeWorkflow` are not modelled; the run finishes before the method returns. The source never re-checks the status, so a run that finishes late could overwrite a `cancelled` status. No claim is made that terminal statuses are final.
- Storage faults are a `Fault` parameter naming the step at which a write fails. Faults in other storage calls are not modelled.
- `storage.list` key order is not modelled: the listing takes keys in an arbitrary order. No claim is made about the order of equal sort keys.
- Threats.RiskScore: uses exact reals, so IEEE rounding of the 0.1 steps and the confidence product is not modelled.
- Caller JSON values are scalars (`Json`). Nested arrays and objects inside `parameters`, `data` and `metadata` are opaque.
- `toLowerCase` is modelled on ASCII letters only.
- A non-string `type` or `id` is not modelled. An optional string stands for the field, and `""` for a falsy one.
- Threats.TypeBase: a `type` naming an `Object.prototype` member ("constructor", "toString", "valueOf", "hasOwnProperty", "__proto__" and the like) is not modelled; there `typeScores[type] || 0.5` yields the inherited function or object, not 0.5.
- Threats.RiskScore: for a `type` naming an `Object.prototype` member the source's score is NaN (the inherited value in the arithmetic), so its risk tag is "low-risk"; the model gives such a type the base 0.5 and the stated bounds.
- Threats.ThreatDatabase.StoreThreat: for a `type` naming an `Object.prototype` member the source writes the record, then throws a TypeError in `updateIndexes` and answers 500 with no index updated; the model promises success and all three index updates.
- Threats.ThreatDatabase.UpdateIndexes: for a `type` naming an `Object.prototype` member, `typeIndex[type]` is inherited and truthy, so no bucket is created and `.push` throws; the model adds the id to a bucket of that name.
- Worker.IngestedThreatIsTyped: an accepted `type` naming an `Object.prototype` member is not modelled; the source's store then fails with 500 and no type bucket, so the stated tag and bucket do not follow.
- Worker.ThreatDescription: for a `type` naming an `Object.prototype` member, `descriptions[type]` is the inherited function, which the source returns in place of the generic sentence; the model returns the generic sentence.
- Worker.CveDescription: uses the corrected sanitiser `SanitizeBackendText`; the program as written turns a mis-decoded apostrophe in a CVE description into `"` (first row of "## Findings"), which `CveToThreat`, `RecentCves` and `RealWorldThreats` therefore do not reproduce.
- Worker.SanitizeBackendText: lines 1355 and 1356 have identical patterns, so the em-dash step never fires even in the corrected chain; the model keeps the two dash steps as written.
- Threats.ThreatDatabase.CorrelateThreats: skipping by the target's `id` also skips any other record that carries the same caller-supplied `id`.
- Threats.ThreatDatabase.CorrelateThreats: a target key holding a cache entry or an index gives an empty result. Those values have no ip, domain, hash or type, so only the 0.2 time term could score against them, and that never passes the threshold.
- Worker.CveToThreat: the `metadata` block (severity, published, lastModified) is not modelled. Neither is an unparsable publication date (NaN in the sort).
- Worker.Category: models which prompt is chosen, not the prompt text.
- Sessions.SessionManager.DeleteSession: idempotence follows from its contract (the key is absent after any successful delete); there is no separate lemma.
- External calls are not modelled: Workers AI, the NVD `fetch`, Durable Object stub calls and the WebSocket handlers.
- `src/workers/main.js`, the browser front end, the HTML held in string literals, the random threat generators, the average-risk level of the threat feed and the test suite are not part of this model.
- The data-driven step-executor registry is not part of this model. The engine modelled is the fixed-sequence one in `workflow-engine.js`.

## Findings

| source | as written | input that shows it | evidently intended | confidence | as-written member | corrected member |
|---|---|---|---|---|---|---|
| src/workers/main-simple.js:1350-1357 | line 1351 replaces the bare two-character sequence "â€" with `"` before the three-character sequences that begin with it, so the apostrophe (1352), opening-quote (1353) and ellipsis (1357) steps never match; 1354 repeats the pattern of 1351 and is dead as well | "â€™" (the mis-decoded apostrophe of "it’s") sanitises to `"` | each three-character sequence is replaced before the bare prefix, so the apostrophe becomes `'` | not executed | Worker.SanitizeAsWritten, Worker.ApostropheCounterexample | Worker.SanitizeBackendText |
| src/durable-objects/threat-database.js:238 | `correlateThreats` skips records whose `id` equals the requested key, but `storeThreat` (43-44) lets a caller's `id` override the record's `id` | a threat stored with a caller `id` other than its key and a `type`: it scores 0.3 + 0.2 against itself and is returned in its own correlation | the target is skipped, e.g. by comparing with the target's own `id` | not executed | Threats.ThreatDatabase.CorrelateThreatsAsWritten, Threats.SelfCorrelation | Threats.ThreatDatabase.CorrelateThreats |
