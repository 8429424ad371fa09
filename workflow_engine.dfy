/**
 * The workflow engine durable object. Workflow records live in the object's
 * storage under "workflow_" + id. Triggering stores a `running` record and
 * runs the fixed step sequence of the workflow's type: every step appends a
 * `running` entry and then a `completed` entry to the record's step log, and
 * the run ends by marking the record `completed` (or `failed` when a storage
 * operation faults). Status reads, cancellation and the newest-first list and
 * history views work on the same records.
 */
module Workflows {
  import opened Js
  import opened Listing

  datatype Status = Running | Completed | Failed | Cancelled {
    function Name(): string {
      match this
      case Running => "running"
      case Completed => "completed"
      case Failed => "failed"
      case Cancelled => "cancelled"
    }
  }

  datatype StepDef = StepDef(name: string, description: string)

  /** One entry of a record's step log. */
  datatype StepEntry = StepEntry(name: string, status: Status, description: string, timestamp: int)

  datatype WorkflowMetadata = WorkflowMetadata(triggeredBy: Json, priority: Json)

  /** A stored workflow record; timestamps are milliseconds since the epoch. */
  datatype Workflow = Workflow(
    id: string,
    workflowType: string,
    status: Status,
    parameters: map<string, Json>,
    createdAt: int,
    startedAt: int,
    steps: seq<StepEntry>,
    results: map<string, string>,
    completedAt: Option<int>,
    metadata: WorkflowMetadata)

  /**
   * A fault raised by a storage operation during a run: it strikes once
   * `after` step entries have been written, either before the next entry is
   * written or, when every entry has been written, in the final status update.
   */
  datatype Fault = Fault(after: nat, message: string)

  datatype WorkflowList = WorkflowList(workflows: seq<Workflow>, total: nat)

  const WorkflowPrefix := "workflow_"

  function WorkflowKey(workflowId: string): string {
    WorkflowPrefix + workflowId
  }

  // ---------------------------------------------------------------------------
  // The fixed step sequences
  // ---------------------------------------------------------------------------

  predicate IsNamedType(workflowType: string) {
    workflowType in {"incident-response", "threat-analysis", "security-report", "vulnerability-scan"}
  }

  /** The step definitions `executeWorkflow` runs for a type; any other type runs the generic sequence. */
  function StepsFor(workflowType: string): (defs: seq<StepDef>)
    ensures |defs| == if IsNamedType(workflowType) then 5 else 4
  {
    match workflowType
    case "incident-response" =>
      [ StepDef("assess", "Assess incident severity"),
        StepDef("contain", "Contain the threat"),
        StepDef("eradicate", "Remove threat from environment"),
        StepDef("recover", "Restore normal operations"),
        StepDef("lessons", "Document lessons learned") ]
    case "threat-analysis" =>
      [ StepDef("collect", "Collect threat indicators"),
        StepDef("analyze", "Analyze threat patterns"),
        StepDef("correlate", "Correlate with known threats"),
        StepDef("assess", "Assess risk level"),
        StepDef("recommend", "Generate recommendations") ]
    case "security-report" =>
      [ StepDef("gather", "Gather security data"),
        StepDef("analyze", "Analyze security metrics"),
        StepDef("generate", "Generate report content"),
        StepDef("format", "Format report output"),
        StepDef("deliver", "Deliver report to stakeholders") ]
    case "vulnerability-scan" =>
      [ StepDef("discovery", "Discover assets and services"),
        StepDef("scan", "Scan for vulnerabilities"),
        StepDef("validate", "Validate findings"),
        StepDef("prioritize", "Prioritize vulnerabilities"),
        StepDef("report", "Generate vulnerability report") ]
    case _ =>
      [ StepDef("initialize", "Initialize workflow"),
        StepDef("process", "Process parameters"),
        StepDef("execute", "Execute main logic"),
        StepDef("finalize", "Finalize results") ]
  }

  /** The `message` a successful run merges into the record's results. */
  function CompletionMessage(workflowType: string): string {
    match workflowType
    case "incident-response" => "Incident response workflow completed successfully"
    case "threat-analysis" => "Threat analysis workflow completed successfully"
    case "security-report" => "Security report workflow completed successfully"
    case "vulnerability-scan" => "Vulnerability scan workflow completed successfully"
    case _ => "Generic workflow completed successfully"
  }

  /**
   * The entries a complete run appends: for every definition, in order, a
   * `running` entry and then a `completed` entry with its name.
   */
  function StepLog(defs: seq<StepDef>, now: int): (log: seq<StepEntry>)
    ensures |log| == 2 * |defs|
    ensures forall i :: 0 <= i < |defs| ==>
      && log[2 * i] == StepEntry(defs[i].name, Running, defs[i].description, now)
      && log[2 * i + 1] == StepEntry(defs[i].name, Completed, defs[i].description, now)
    decreases |defs|
  {
    if defs == [] then []
    else
      [ StepEntry(defs[0].name, Running, defs[0].description, now),
        StepEntry(defs[0].name, Completed, defs[0].description, now) ]
      + StepLog(defs[1..], now)
  }

  // ---------------------------------------------------------------------------
  // Record transformations
  // ---------------------------------------------------------------------------

  /**
   * The record `triggerWorkflow` creates: `running`, no steps, no results,
   * started when created; `triggeredBy` and `priority` are always truthy,
   * falling back to "system" and "normal" when the parameters give no
   * truthy value.
   */
  function Triggered(workflowId: string, workflowType: string, parameters: Option<map<string, Json>>, now: int): (w: Workflow)
    ensures w.id == workflowId && w.workflowType == workflowType
    ensures w.status == Running && w.steps == [] && w.results == map[] && w.completedAt == None
    ensures w.createdAt == now && w.startedAt == now
    ensures parameters.None? ==> w.parameters == map[]
    ensures parameters.Some? ==> w.parameters == parameters.value
    ensures w.metadata.triggeredBy.Truthy() && w.metadata.priority.Truthy()
    ensures "userId" in w.parameters && w.parameters["userId"].Truthy() ==> w.metadata.triggeredBy == w.parameters["userId"]
    ensures !("userId" in w.parameters && w.parameters["userId"].Truthy()) ==> w.metadata.triggeredBy == JStr("system")
    ensures "priority" in w.parameters && w.parameters["priority"].Truthy() ==> w.metadata.priority == w.parameters["priority"]
    ensures !("priority" in w.parameters && w.parameters["priority"].Truthy()) ==> w.metadata.priority == JStr("normal")
  {
    var params := parameters.GetOr(map[]);
    var userId := if "userId" in params then params["userId"] else JNull;
    var priority := if "priority" in params then params["priority"] else JNull;
    Workflow(
      workflowId, workflowType, Running, params, now, now, [], map[], None,
      WorkflowMetadata(
        if userId.Truthy() then userId else JStr("system"),
        if priority.Truthy() then priority else JStr("normal")))
  }

  /**
   * `updateWorkflowStatus` on a present record: replace the status, merge
   * the results with the new keys winning, and stamp `completedAt` only for
   * `completed` and `failed`.
   */
  function WithStatus(w: Workflow, status: Status, results: map<string, string>, now: int): (r: Workflow)
    ensures r.status == status
    ensures r.results.Keys == w.results.Keys + results.Keys
    ensures forall k :: k in results ==> r.results[k] == results[k]
    ensures forall k :: k in w.results && k !in results ==> r.results[k] == w.results[k]
    ensures status in {Completed, Failed} ==> r.completedAt == Some(now)
    ensures status !in {Completed, Failed} ==> r.completedAt == w.completedAt
    ensures r.(status := w.status, results := w.results, completedAt := w.completedAt) == w
  {
    w.(status := status,
       results := w.results + results,
       completedAt := if status == Completed || status == Failed then Some(now) else w.completedAt)
  }

  /** True when the fault strikes before the run of `defs` could finish. */
  predicate Interrupts(fault: Option<Fault>, defs: seq<StepDef>) {
    fault.Some? && fault.value.after <= 2 * |defs|
  }

  /** How many entries a run of `defs` appends before it stops. */
  function Written(fault: Option<Fault>, defs: seq<StepDef>): nat {
    if Interrupts(fault, defs) then fault.value.after else 2 * |defs|
  }

  /**
   * The record after a run of `defs` to the end: either every entry
   * appended and `completed` with `message`, or the entries written before
   * a fault and `failed` with the fault's message. Every other field and
   * every other result key is kept. One `now` stands for
   * every clock reading of the run, so the entries and `completedAt` share
   * it (and, after a trigger, equal `createdAt`); the run's own duration is
   * not modelled.
   */
  function Run(w: Workflow, defs: seq<StepDef>, message: string, fault: Option<Fault>, now: int): (r: Workflow)
    ensures w.steps <= r.steps
    ensures |r.steps| == |w.steps| + Written(fault, defs)
    ensures r.steps[|w.steps|..] == StepLog(defs, now)[..Written(fault, defs)]
    ensures !Interrupts(fault, defs) ==>
      r.status == Completed && "message" in r.results && r.results["message"] == message
    ensures Interrupts(fault, defs) ==>
      r.status == Failed && "error" in r.results && r.results["error"] == fault.value.message
    ensures r.completedAt == Some(now)
    ensures r.results.Keys == w.results.Keys + {if Interrupts(fault, defs) then "error" else "message"}
    ensures forall k :: k in w.results && k != (if Interrupts(fault, defs) then "error" else "message") ==>
      r.results[k] == w.results[k]
    ensures r.id == w.id && r.workflowType == w.workflowType && r.createdAt == w.createdAt
    ensures r.(steps := w.steps, status := w.status, results := w.results, completedAt := w.completedAt) == w
  {
    var log := StepLog(defs, now);
    if Interrupts(fault, defs) then
      WithStatus(w.(steps := w.steps + log[..fault.value.after]), Failed, map["error" := fault.value.message], now)
    else
      assert log[..2 * |defs|] == log;
      WithStatus(w.(steps := w.steps + log), Completed, map["message" := message], now)
  }

  /** `executeWorkflow` on a record: the run of the sequence of its type, with that type's message. */
  function Ran(w: Workflow, workflowType: string, fault: Option<Fault>, now: int): (r: Workflow)
    ensures fault.None? ==>
      r.status == Completed && "message" in r.results && r.results["message"] == CompletionMessage(workflowType)
    ensures fault.Some? && fault.value.after <= 2 * |StepsFor(workflowType)| ==>
      r.status == Failed && "error" in r.results && r.results["error"] == fault.value.message
    ensures fault.Some? && fault.value.after > 2 * |StepsFor(workflowType)| ==> r.status == Completed
  {
    Run(w, StepsFor(workflowType), CompletionMessage(workflowType), fault, now)
  }

  /**
   * A run of a named type appends ten entries and any other type eight when
   * nothing faults; the `i`-th appended entry belongs to step `i / 2` of the
   * sequence and is its `running` entry for even `i`, its `completed` entry
   * for odd `i`.
   */
  lemma RanAppendsStepPairs(w: Workflow, workflowType: string, fault: Option<Fault>, now: int)
    ensures var r := Ran(w, workflowType, fault, now);
      && (fault.None? ==> |r.steps| == |w.steps| + if IsNamedType(workflowType) then 10 else 8)
      && forall i :: 0 <= i < |r.steps| - |w.steps| ==>
           var d := StepsFor(workflowType)[i / 2];
           r.steps[|w.steps| + i] == StepEntry(d.name, if i % 2 == 0 then Running else Completed, d.description, now)
  {
    var defs := StepsFor(workflowType);
    RunAppendsStepPairs(w, defs, CompletionMessage(workflowType), fault, now);
  }

  /** The entries a run appends are the `running`/`completed` pairs of its definitions, in order. */
  lemma RunAppendsStepPairs(w: Workflow, defs: seq<StepDef>, message: string, fault: Option<Fault>, now: int)
    ensures var r := Run(w, defs, message, fault, now);
      forall i :: 0 <= i < |r.steps| - |w.steps| ==>
        r.steps[|w.steps| + i] == StepEntry(defs[i / 2].name, if i % 2 == 0 then Running else Completed, defs[i / 2].description, now)
  {
    var r := Run(w, defs, message, fault, now);
    var log := StepLog(defs, now);
    forall i | 0 <= i < |r.steps| - |w.steps|
      ensures r.steps[|w.steps| + i] == StepEntry(defs[i / 2].name, if i % 2 == 0 then Running else Completed, defs[i / 2].description, now)
    {
      assert r.steps[|w.steps| + i] == r.steps[|w.steps|..][i] == log[i];
      StepLogEntry(defs, now, i);
    }
  }

  /** Entry `i` of a step log belongs to definition `i / 2`: its `running` entry for even `i`, else its `completed` one. */
  lemma StepLogEntry(defs: seq<StepDef>, now: int, i: nat)
    requires i < 2 * |defs|
    ensures StepLog(defs, now)[i] == StepEntry(defs[i / 2].name, if i % 2 == 0 then Running else Completed, defs[i / 2].description, now)
  {
    var j := i / 2;
    if i % 2 == 0 {
      assert i == 2 * j;
    } else {
      assert i == 2 * j + 1;
    }
  }

  predicate MatchesStatus(w: Workflow, statusFilter: string) {
    statusFilter == "" || w.status.Name() == statusFilter
  }

  predicate MatchesType(w: Workflow, typeFilter: string) {
    typeFilter == "" || w.workflowType == typeFilter
  }

  function StatusFilter(statusFilter: string): Workflow -> bool {
    w => MatchesStatus(w, statusFilter)
  }

  function TypeFilter(typeFilter: string): Workflow -> bool {
    w => MatchesType(w, typeFilter)
  }

  function CreatedAt(w: Workflow): int {
    w.createdAt
  }

  /** Writing a key twice leaves the second value. */
  lemma Overwritten<K, V>(m: map<K, V>, k: K, a: V, b: V)
    ensures m[k := a][k := b] == m[k := b]
  {
  }

  // ---------------------------------------------------------------------------
  // The durable object
  // ---------------------------------------------------------------------------

  class WorkflowEngine {
    /** The object's storage: key "workflow_" + id to record. */
    var storage: map<string, Workflow>

    constructor()
      ensures storage == map[]
    {
      storage := map[];
    }

    /**
     * `triggerWorkflow`: refuse a missing or empty type with 400 and write
     * nothing; otherwise store a fresh `running` record, run its sequence
     * to the end, and answer with the record as it was created.
     */
    method TriggerWorkflow(workflowType: string, parameters: Option<map<string, Json>>, workflowId: string, now: int, fault: Option<Fault>)
      returns (r: Reply<Workflow>)
      modifies this
      ensures workflowType == "" ==> r == Err(400, "Workflow type is required") && storage == old(storage)
      ensures workflowType != "" ==>
        && r == Ok(Triggered(workflowId, workflowType, parameters, now))
        && storage == old(storage)[WorkflowKey(workflowId) := Ran(r.value, workflowType, fault, now)]
    {
      if workflowType == "" {
        return Err(400, "Workflow type is required");
      }
      var key := WorkflowKey(workflowId);
      var workflow := Triggered(workflowId, workflowType, parameters, now);
      storage := storage[key := workflow];
      ExecuteWorkflow(workflowId, workflowType, fault, now);
      Overwritten(old(storage), key, workflow, Ran(workflow, workflowType, fault, now));
      r := Ok(workflow);
    }

    /**
     * `executeWorkflow`: nothing happens to an absent record; otherwise the
     * sequence of the type runs, and a fault inside it marks the record
     * `failed` with the fault's message.
     */
    method ExecuteWorkflow(workflowId: string, workflowType: string, fault: Option<Fault>, now: int)
      modifies this
      ensures WorkflowKey(workflowId) !in old(storage) ==> storage == old(storage)
      ensures WorkflowKey(workflowId) in old(storage) ==>
        storage == old(storage)[WorkflowKey(workflowId) := Ran(old(storage)[WorkflowKey(workflowId)], workflowType, fault, now)]
    {
      var key := WorkflowKey(workflowId);
      if key !in storage {
        return;
      }
      var completed := RunSequence(workflowId, StepsFor(workflowType), CompletionMessage(workflowType), fault, now);
      if !completed {
        UpdateWorkflowStatus(workflowId, Failed, map["error" := fault.value.message], now);
      }
    }

    /**
     * The loop of the `execute...Workflow` methods, which differ only in
     * their step definitions and final message. `completed` is false when
     * the fault interrupted it; the entries written before stay in the log.
     */
    method RunSequence(workflowId: string, defs: seq<StepDef>, message: string, fault: Option<Fault>, now: int)
      returns (completed: bool)
      requires WorkflowKey(workflowId) in storage
      modifies this
      ensures completed == !Interrupts(fault, defs)
      ensures var key := WorkflowKey(workflowId);
        var w := old(storage)[key];
        storage == old(storage)[key :=
          if completed then WithStatus(w.(steps := w.steps + StepLog(defs, now)), Completed, map["message" := message], now)
          else w.(steps := w.steps + StepLog(defs, now)[..fault.value.after])]
    {
      var key := WorkflowKey(workflowId);
      ghost var w := storage[key];
      ghost var log := StepLog(defs, now);
      assert w.(steps := w.steps + log[..0]) == w;
      for i := 0 to |defs|
        invariant !(fault.Some? && fault.value.after < 2 * i)
        invariant storage == old(storage)[key := w.(steps := w.steps + log[..2 * i])]
      {
        if fault.Some? && fault.value.after == 2 * i {
          assert log[..fault.value.after] == log[..2 * i];
          return false;
        }
        AddWorkflowStep(workflowId, defs[i].name, Running, defs[i].description, now);
        assert log[..2 * i + 1] == log[..2 * i] + [log[2 * i]];
        assert w.steps + log[..2 * i + 1] == (w.steps + log[..2 * i]) + [log[2 * i]];
        if fault.Some? && fault.value.after == 2 * i + 1 {
          return false;
        }
        AddWorkflowStep(workflowId, defs[i].name, Completed, defs[i].description, now);
        assert log[..2 * i + 2] == log[..2 * i + 1] + [log[2 * i + 1]];
        assert w.steps + log[..2 * i + 2] == (w.steps + log[..2 * i + 1]) + [log[2 * i + 1]];
      }
      assert log[..2 * |defs|] == log;
      if fault.Some? && fault.value.after == 2 * |defs| {
        return false;
      }
      UpdateWorkflowStatus(workflowId, Completed, map["message" := message], now);
      completed := true;
    }

    /** `addWorkflowStep`: append exactly one entry to a present record's log; nothing else changes. */
    method AddWorkflowStep(workflowId: string, stepName: string, status: Status, description: string, now: int)
      modifies this
      ensures var key := WorkflowKey(workflowId);
        && (key !in old(storage) ==> storage == old(storage))
        && (key in old(storage) ==>
              storage == old(storage)[key := old(storage)[key].(steps := old(storage)[key].steps + [StepEntry(stepName, status, description, now)])])
    {
      var key := WorkflowKey(workflowId);
      if key !in storage {
        return;
      }
      var workflow := storage[key];
      workflow := workflow.(steps := workflow.steps + [StepEntry(stepName, status, description, now)]);
      storage := storage[key := workflow];
    }

    /** `updateWorkflowStatus`: `WithStatus` on a present record; nothing on an absent one. */
    method UpdateWorkflowStatus(workflowId: string, status: Status, results: map<string, string>, now: int)
      modifies this
      ensures var key := WorkflowKey(workflowId);
        && (key !in old(storage) ==> storage == old(storage))
        && (key in old(storage) ==> storage == old(storage)[key := WithStatus(old(storage)[key], status, results, now)])
    {
      var key := WorkflowKey(workflowId);
      if key !in storage {
        return;
      }
      storage := storage[key := WithStatus(storage[key], status, results, now)];
    }

    /** `getWorkflowStatus`: 400 without an id, 404 for an absent record, otherwise the record. */
    function GetWorkflowStatus(workflowId: string): (r: Reply<Workflow>)
      reads this
      ensures r.Ok? <==> workflowId != "" && WorkflowKey(workflowId) in storage
      ensures r.Ok? ==> r.value == storage[WorkflowKey(workflowId)]
      ensures workflowId == "" ==> r == Err(400, "Workflow ID is required")
      ensures workflowId != "" && WorkflowKey(workflowId) !in storage ==> r == Err(404, "Workflow not found")
    {
      if workflowId == "" then Err(400, "Workflow ID is required")
      else if WorkflowKey(workflowId) !in storage then Err(404, "Workflow not found")
      else Ok(storage[WorkflowKey(workflowId)])
    }

    /**
     * `cancelWorkflow`: 400 without an id, 404 for an absent record, 400 and
     * no change for a `completed` or `failed` record; any other record,
     * an already cancelled one included, becomes `cancelled`.
     */
    method CancelWorkflow(workflowId: string, now: int) returns (r: Reply<string>)
      modifies this
      ensures var key := WorkflowKey(workflowId);
        r.Ok? <==> workflowId != "" && key in old(storage) && old(storage)[key].status !in {Completed, Failed}
      ensures workflowId == "" ==> r == Err(400, "Workflow ID is required")
      ensures workflowId != "" && WorkflowKey(workflowId) !in old(storage) ==> r == Err(404, "Workflow not found")
      ensures var key := WorkflowKey(workflowId);
        workflowId != "" && key in old(storage) && old(storage)[key].status in {Completed, Failed} ==>
          r == Err(400, "Cannot cancel completed or failed workflow")
      ensures !r.Ok? ==> storage == old(storage)
      ensures var key := WorkflowKey(workflowId);
        r.Ok? ==>
          && r.value == "Workflow cancelled successfully"
          && storage == old(storage)[key := WithStatus(old(storage)[key], Cancelled, map["message" := "Workflow cancelled by user"], now)]
    {
      if workflowId == "" {
        return Err(400, "Workflow ID is required");
      }
      var key := WorkflowKey(workflowId);
      if key !in storage {
        return Err(404, "Workflow not found");
      }
      var workflow := storage[key];
      if workflow.status == Completed || workflow.status == Failed {
        return Err(400, "Cannot cancel completed or failed workflow");
      }
      UpdateWorkflowStatus(workflowId, Cancelled, map["message" := "Workflow cancelled by user"], now);
      r := Ok("Workflow cancelled successfully");
    }

    /** `getAllWorkflows`: the values under the "workflow_" prefix. */
    method GetAllWorkflows() returns (workflows: seq<Workflow>, ghost keys: seq<string>)
      ensures ListedUnder(storage, WorkflowPrefix, workflows, keys)
    {
      workflows, keys := ListPrefix(storage, WorkflowPrefix);
    }

    /**
     * `listWorkflows`: the records with the requested status (all when the
     * filter is empty), newest `createdAt` first, cut to `parseInt(limit) || 50`;
     * `total` counts the matches before the cut.
     */
    method ListWorkflows(statusFilter: string, limit: Option<ParsedInt>) returns (r: WorkflowList)
      ensures IsTopOfStore(r.workflows, storage, WorkflowPrefix, StatusFilter(statusFilter), CreatedAt, LimitOr(limit, 50))
      ensures r.total == MatchCount(storage, WorkflowPrefix, StatusFilter(statusFilter))
    {
      var all, keys := GetAllWorkflows();
      ListedTopN(storage, WorkflowPrefix, all, keys, StatusFilter(statusFilter), CreatedAt, LimitOr(limit, 50));
      r := WorkflowList(TopN(all, StatusFilter(statusFilter), CreatedAt, LimitOr(limit, 50)),
                        |Filter(all, StatusFilter(statusFilter))|);
    }

    /**
     * `getWorkflowHistory`: as `listWorkflows`, filtering on the type and
     * with `parseInt(limit) || 100`.
     */
    method GetWorkflowHistory(typeFilter: string, limit: Option<ParsedInt>) returns (r: WorkflowList)
      ensures IsTopOfStore(r.workflows, storage, WorkflowPrefix, TypeFilter(typeFilter), CreatedAt, LimitOr(limit, 100))
      ensures r.total == MatchCount(storage, WorkflowPrefix, TypeFilter(typeFilter))
    {
      var all, keys := GetAllWorkflows();
      ListedTopN(storage, WorkflowPrefix, all, keys, TypeFilter(typeFilter), CreatedAt, LimitOr(limit, 100));
      r := WorkflowList(TopN(all, TypeFilter(typeFilter), CreatedAt, LimitOr(limit, 100)),
                        |Filter(all, TypeFilter(typeFilter))|);
    }
  }
}
