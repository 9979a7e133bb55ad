/**
 * components/script-list.tsx: the scripts of one warehouse with their
 * schedules, run-now, pause/resume and the logs dialog. The awaited request
 * outcomes are inputs of the methods; toasts are recorded in `toasts` in the
 * order they are shown. `fetchJobs` is split into `BeginFetchJobs` (the
 * request goes out and the list shows its loading card) and
 * `FinishFetchJobs` (the response arrives).
 */
module ScriptList {
  import opened Wrappers
  import opened Text
  import opened Types
  import opened Config
  import opened Toasts

  const ScheduledPrefix: string := "script_"

  // --------------------------------------------------- scheduled jobs

  /** A job is the schedule of a script when it belongs to it and its id has the scheduler's prefix. */
  predicate IsScheduleOf(job: Job, scriptId: int) {
    job.scriptId == scriptId && StartsWith(job.jobId, ScheduledPrefix)
  }

  /** `findScheduledJob`: the first schedule of the script, if any. */
  function FindScheduledJob(jobs: seq<Job>, scriptId: int): Option<Job>
    decreases |jobs|
  {
    if jobs == [] then None
    else if IsScheduleOf(jobs[0], scriptId) then Some(jobs[0])
    else FindScheduledJob(jobs[1..], scriptId)
  }

  /**
   * No job is found exactly when none of the jobs is a schedule of the
   * script; a found job is a schedule of the script and no earlier job is.
   */
  lemma {:induction false} FindScheduledJobMeaning(jobs: seq<Job>, scriptId: int)
    ensures FindScheduledJob(jobs, scriptId).None? <==>
      forall i :: 0 <= i < |jobs| ==> !IsScheduleOf(jobs[i], scriptId)
    ensures FindScheduledJob(jobs, scriptId).Some? ==>
      exists k :: 0 <= k < |jobs| && jobs[k] == FindScheduledJob(jobs, scriptId).value
        && IsScheduleOf(jobs[k], scriptId)
        && forall i :: 0 <= i < k ==> !IsScheduleOf(jobs[i], scriptId)
    decreases |jobs|
  {
    if jobs != [] && !IsScheduleOf(jobs[0], scriptId) {
      FindScheduledJobMeaning(jobs[1..], scriptId);
      if FindScheduledJob(jobs, scriptId).Some? {
        var k :| 0 <= k < |jobs[1..]| && jobs[1..][k] == FindScheduledJob(jobs, scriptId).value
          && IsScheduleOf(jobs[1..][k], scriptId)
          && forall i :: 0 <= i < k ==> !IsScheduleOf(jobs[1..][i], scriptId);
        assert jobs[k + 1] == jobs[1..][k];
        assert forall i :: 1 <= i < k + 1 ==> jobs[i] == jobs[1..][i - 1];
      }
    }
  }

  /** A manual run (a job id without the prefix) is never taken for a schedule. */
  lemma ManualRunsIgnored(jobs: seq<Job>, scriptId: int, manual: Job)
    requires !StartsWith(manual.jobId, ScheduledPrefix)
    ensures FindScheduledJob([manual] + jobs, scriptId) == FindScheduledJob(jobs, scriptId)
  {
    assert ([manual] + jobs)[1..] == jobs;
  }

  // ------------------------------------------------ warehouse scripts

  /** `SCRIPTS.filter(script => script.warehouse === warehouse)` */
  function WarehouseScripts(scripts: seq<Script>, warehouse: Warehouse): seq<Script>
    decreases |scripts|
  {
    if scripts == [] then []
    else
      var head := if scripts[0].warehouse == warehouse then [scripts[0]] else [];
      head + WarehouseScripts(scripts[1..], warehouse)
  }

  /** The filtered list holds exactly the scripts of the warehouse. */
  lemma {:induction false} WarehouseScriptsMembers(scripts: seq<Script>, warehouse: Warehouse)
    ensures forall s :: s in WarehouseScripts(scripts, warehouse) <==> s in scripts && s.warehouse == warehouse
    decreases |scripts|
  {
    if scripts != [] {
      WarehouseScriptsMembers(scripts[1..], warehouse);
      assert scripts == [scripts[0]] + scripts[1..];
    }
  }

  /** Filtering a concatenation filters each part and keeps them in order, so the original order is kept. */
  lemma {:induction false} WarehouseScriptsConcat(a: seq<Script>, b: seq<Script>, warehouse: Warehouse)
    ensures WarehouseScripts(a + b, warehouse) == WarehouseScripts(a, warehouse) + WarehouseScripts(b, warehouse)
    decreases |a|
  {
    if a == [] {
      assert a + b == b;
    } else {
      assert (a + b)[0] == a[0];
      assert (a + b)[1..] == a[1..] + b;
      WarehouseScriptsConcat(a[1..], b, warehouse);
      var head := if a[0].warehouse == warehouse then [a[0]] else [];
      PrefixRegroup(head, WarehouseScripts(a + b, warehouse), WarehouseScripts(a[1..] + b, warehouse),
        WarehouseScripts(a, warehouse), WarehouseScripts(a[1..], warehouse), WarehouseScripts(b, warehouse));
    }
  }

  // ------------------------------------------------------ the requests

  /** The URL `fetchJobs` is meant to request: the scheduled jobs. */
  function FetchJobsUrl(base: string): string {
    Jobs(base, Some(true))
  }

  lemma FetchJobsUrlRoute(base: string)
    ensures ParseRoute(base, FetchJobsUrl(base)) == Some(Route(["api", "jobs"], [("scheduled_only", "true")]))
  {
    JobsRoute(base, Some(true));
  }

  /**
   * The URL as written: `jobs` is a function, so the template interpolates
   * its source text `jobsText` and not a URL.
   */
  function FetchJobsUrlAsWritten(jobsText: string): string {
    jobsText + "?scheduled_only=true"
  }

  /**
   * A function's source text does not start like the base URL (an arrow
   * function's text starts with its parameter list), so the request does not
   * go to the API at all.
   */
  lemma FetchJobsUrlAsWrittenMisses(base: string, jobsText: string)
    requires base != "" && jobsText != "" && jobsText[0] != base[0]
    ensures ParseRoute(base, FetchJobsUrlAsWritten(jobsText)) == None
  {
    var url := FetchJobsUrlAsWritten(jobsText);
    assert url[0] == jobsText[0];
    assert !StartsWith(url, base) by {
      if |base| <= |url| {
        assert url[..|base|][0] == url[0];
      }
    }
  }

  /** With the default base URL, the text of `({ scheduledOnly } = {}) => ...` is not under it. */
  lemma FetchJobsDefaultBaseMisses(jobsText: string)
    requires jobsText != "" && jobsText[0] == '('
    ensures ParseRoute(DefaultBaseUrl, FetchJobsUrlAsWritten(jobsText)) == None
  {
    FetchJobsUrlAsWrittenMisses(DefaultBaseUrl, jobsText);
  }

  // ---------------------------------------------------- run outcomes

  /** `response.error || 'Script execution failed'` */
  function RunFailureMessage(error: Option<string>): string {
    if error.Some? && error.value != "" then error.value else "Script execution failed"
  }

  lemma RunFailureMessageMeaning(error: Option<string>)
    ensures RunFailureMessage(error) != ""
    ensures error.Some? && error.value != "" ==> RunFailureMessage(error) == error.value
  {
  }

  /** The execution map after a run-now response: a completed run is recorded under its script. */
  function RecordRun(executions: map<int, ScriptExecution>, scriptId: int,
                     response: Outcome<RunScriptResponse>, now: string): map<int, ScriptExecution>
  {
    if response.Ok? && response.value.status == RunCompleted then
      executions[scriptId := ScriptExecution(response.value.executionId, scriptId, now, Completed)]
    else executions
  }

  /** Every entry is filed under the script it belongs to. */
  predicate ExecutionsKeyed(executions: map<int, ScriptExecution>) {
    forall id :: id in executions ==> executions[id].scriptId == id
  }

  /**
   * A completed run adds or replaces the entry of its own script, with the
   * response's execution id; every other entry is kept, and any other
   * response records nothing. Entries stay filed under their scripts.
   */
  lemma RecordRunMeaning(executions: map<int, ScriptExecution>, scriptId: int,
                         response: Outcome<RunScriptResponse>, now: string)
    ensures var m := RecordRun(executions, scriptId, response, now);
      (response.Ok? && response.value.status == RunCompleted ==>
        m.Keys == executions.Keys + {scriptId}
        && m[scriptId].executionId == response.value.executionId
        && m[scriptId].scriptId == scriptId && m[scriptId].status == Completed && m[scriptId].timestamp == now)
      && (!(response.Ok? && response.value.status == RunCompleted) ==> m == executions)
      && (forall id :: id != scriptId && id in executions ==> id in m && m[id] == executions[id])
      && (forall id :: id != scriptId && id in m ==> id in executions)
      && (ExecutionsKeyed(executions) ==> ExecutionsKeyed(m))
  {
  }

  /** `scriptExecutions[script.id]` is an object, so `!!` of it is membership. */
  predicate HasRecentExecution(executions: map<int, ScriptExecution>, scriptId: int) {
    scriptId in executions
  }

  /** The script shown in the logs dialog, if `handleViewLogs` opens it. */
  function ViewLogsScript(executions: map<int, ScriptExecution>, script: Script): Option<Script> {
    if script.id in executions then Some(script.(lastExecution := Some(executions[script.id]))) else None
  }

  /**
   * The logs dialog opens exactly when the logs button is enabled; it shows
   * the same script with its recorded execution, which belongs to that script.
   */
  lemma ViewLogsMeaning(executions: map<int, ScriptExecution>, script: Script)
    requires ExecutionsKeyed(executions)
    ensures ViewLogsScript(executions, script).Some? <==> HasRecentExecution(executions, script.id)
    ensures ViewLogsScript(executions, script).Some? ==>
      var s := ViewLogsScript(executions, script).value;
      s.id == script.id && s.name == script.name && s.warehouse == script.warehouse
      && s.lastExecution == Some(executions[script.id]) && s.lastExecution.value.scriptId == script.id
  {
  }

  /** After a completed run the script's logs button is enabled and the dialog shows that run. */
  lemma RunThenViewLogs(executions: map<int, ScriptExecution>, script: Script,
                        response: Outcome<RunScriptResponse>, now: string)
    requires response.Ok? && response.value.status == RunCompleted
    ensures HasRecentExecution(RecordRun(executions, script.id, response, now), script.id)
    ensures ViewLogsScript(RecordRun(executions, script.id, response, now), script).Some?
    ensures ViewLogsScript(RecordRun(executions, script.id, response, now), script).value.lastExecution.value.executionId
      == response.value.executionId
  {
  }

  // -------------------------------------------------------- one row

  /** What a script's card shows besides its name and description. */
  datatype Row = Row(schedule: Option<Job>, logsDisabled: bool, toggleTooltip: Option<string>)

  function RowFor(jobs: seq<Job>, executions: map<int, ScriptExecution>, script: Script): Row {
    var job := FindScheduledJob(jobs, script.id);
    Row(job, !HasRecentExecution(executions, script.id),
        if job.None? then None else Some(if job.value.enabled then "Pause schedule" else "Resume schedule"))
  }

  /**
   * The pause/resume button exists exactly when the script has a schedule,
   * and offers to pause exactly when the schedule is enabled; the logs button
   * is disabled exactly when no run is recorded.
   */
  lemma RowMeaning(jobs: seq<Job>, executions: map<int, ScriptExecution>, script: Script)
    ensures RowFor(jobs, executions, script).toggleTooltip.Some? <==> FindScheduledJob(jobs, script.id).Some?
    ensures RowFor(jobs, executions, script).toggleTooltip == Some("Pause schedule") <==>
      FindScheduledJob(jobs, script.id).Some? && FindScheduledJob(jobs, script.id).value.enabled
    ensures RowFor(jobs, executions, script).logsDisabled <==> ViewLogsScript(executions, script).None?
  {
  }

  // ------------------------------------------------------- the component

  class ScriptListView {
    const base: string
    const warehouse: Warehouse
    var jobs: seq<Job>
    var loading: bool
    var selectedScript: Option<Script>
    var showScheduleModal: bool
    var showLogsModal: bool
    var scriptExecutions: map<int, ScriptExecution>
    var toasts: seq<Toast>

    predicate Valid()
      reads this
    {
      ExecutionsKeyed(scriptExecutions)
    }

    constructor (base: string, warehouse: Warehouse)
      ensures this.base == base && this.warehouse == warehouse
      ensures jobs == [] && loading && selectedScript == None
      ensures !showScheduleModal && !showLogsModal && scriptExecutions == map[] && toasts == []
      ensures Valid()
    {
      this.base := base;
      this.warehouse := warehouse;
      jobs := [];
      loading := true;
      selectedScript := None;
      showScheduleModal := false;
      showLogsModal := false;
      scriptExecutions := map[];
      toasts := [];
    }

    /** The first half of `fetchJobs`: the loading card shows and the jobs are requested. */
    method BeginFetchJobs() returns (requested: string)
      modifies this
      ensures loading && requested == FetchJobsUrl(base)
      ensures jobs == old(jobs) && toasts == old(toasts) && scriptExecutions == old(scriptExecutions)
      ensures selectedScript == old(selectedScript)
      ensures showScheduleModal == old(showScheduleModal) && showLogsModal == old(showLogsModal)
    {
      loading := true;
      requested := FetchJobsUrl(base);
    }

    /** The second half of `fetchJobs`: the jobs are replaced or an error is shown, and loading ends. */
    method FinishFetchJobs(fetched: Outcome<seq<Job>>)
      modifies this
      ensures !loading
      ensures fetched.Ok? ==> jobs == fetched.value && toasts == old(toasts)
      ensures fetched.Thrown? ==>
        jobs == old(jobs) && toasts == old(toasts) + [ErrorToast(MessageOr(fetched, "Failed to load scheduled jobs"))]
      ensures scriptExecutions == old(scriptExecutions) && selectedScript == old(selectedScript)
      ensures showScheduleModal == old(showScheduleModal) && showLogsModal == old(showLogsModal)
    {
      match fetched {
        case Ok(data) =>
          jobs := data;
        case Thrown(_) =>
          toasts := toasts + [ErrorToast(MessageOr(fetched, "Failed to load scheduled jobs"))];
      }
      loading := false;
    }

    /**
     * `handleRunNow`: posts to the run-now route; a completed run is recorded
     * and announced; a failed run is reported and nothing is refetched; any
     * other status starts a refetch of the jobs without waiting for it.
     */
    method RunNow(scriptId: int, response: Outcome<RunScriptResponse>, now: string)
      returns (requested: string, refetch: Option<string>)
      modifies this
      ensures requested == RunScript(base, IntToString(scriptId))
      ensures scriptExecutions == RecordRun(old(scriptExecutions), scriptId, response, now)
      ensures refetch.Some? <==> response.Ok? && response.value.status != RunFailed
      ensures refetch.Some? ==> refetch.value == FetchJobsUrl(base) && loading
      ensures refetch.None? ==> loading == old(loading)
      ensures response.Ok? && response.value.status == RunCompleted ==>
        toasts == old(toasts) + [SuccessToast("Script execution started")]
      ensures response.Ok? && response.value.status == RunFailed ==>
        toasts == old(toasts) + [ErrorToast(RunFailureMessage(response.value.error))]
      ensures response.Ok? && response.value.status.RunOther? ==> toasts == old(toasts)
      ensures response.Thrown? ==> toasts == old(toasts) + [ErrorToast(MessageOr(response, "Failed to run script"))]
      ensures jobs == old(jobs) && selectedScript == old(selectedScript)
      ensures showScheduleModal == old(showScheduleModal) && showLogsModal == old(showLogsModal)
      ensures old(Valid()) ==> Valid()
    {
      requested := RunScript(base, IntToString(scriptId));
      RecordRunMeaning(scriptExecutions, scriptId, response, now);
      refetch := None;
      match response {
        case Thrown(_) =>
          toasts := toasts + [ErrorToast(MessageOr(response, "Failed to run script"))];
        case Ok(r) =>
          if r.status == RunCompleted {
            scriptExecutions := scriptExecutions[scriptId := ScriptExecution(r.executionId, scriptId, now, Completed)];
            toasts := toasts + [SuccessToast("Script execution started")];
          } else if r.status == RunFailed {
            toasts := toasts + [ErrorToast(RunFailureMessage(r.error))];
            return;
          }
          var url := BeginFetchJobs();
          refetch := Some(url);
      }
    }

    /**
     * `handleToggleStatus`: posts the toggle, then waits for the jobs to be
     * refetched and announces the update. The job's `enabled` flag is never
     * changed here: the jobs change only through the refetch.
     */
    method ToggleStatus(jobId: string, posted: Outcome<()>, fetched: Outcome<seq<Job>>)
      returns (requested: string, refetch: Option<string>)
      modifies this
      ensures requested == ToggleJob(base, jobId)
      ensures refetch.Some? <==> posted.Ok?
      ensures refetch.Some? ==> refetch.value == FetchJobsUrl(base)
      ensures posted.Thrown? ==>
        jobs == old(jobs) && loading == old(loading)
        && toasts == old(toasts) + [ErrorToast(MessageOr(posted, "Failed to update job status"))]
      ensures posted.Ok? && fetched.Ok? ==>
        jobs == fetched.value && !loading && toasts == old(toasts) + [SuccessToast("Job status updated")]
      ensures posted.Ok? && fetched.Thrown? ==>
        jobs == old(jobs) && !loading
        && toasts == old(toasts) + [ErrorToast(MessageOr(fetched, "Failed to load scheduled jobs")),
                                    SuccessToast("Job status updated")]
      ensures scriptExecutions == old(scriptExecutions) && selectedScript == old(selectedScript)
      ensures showScheduleModal == old(showScheduleModal) && showLogsModal == old(showLogsModal)
    {
      requested := ToggleJob(base, jobId);
      if posted.Thrown? {
        toasts := toasts + [ErrorToast(MessageOr(posted, "Failed to update job status"))];
        refetch := None;
        return;
      }
      var url := BeginFetchJobs();
      refetch := Some(url);
      FinishFetchJobs(fetched);
      toasts := toasts + [SuccessToast("Job status updated")];
    }

    /** `handleViewLogs` */
    method ViewLogs(script: Script)
      modifies this
      ensures ViewLogsScript(old(scriptExecutions), script).None? ==>
        toasts == old(toasts) + [ErrorToast("No recent execution found for this script")]
        && selectedScript == old(selectedScript) && showLogsModal == old(showLogsModal)
      ensures ViewLogsScript(old(scriptExecutions), script).Some? ==>
        selectedScript == ViewLogsScript(old(scriptExecutions), script) && showLogsModal && toasts == old(toasts)
      ensures jobs == old(jobs) && loading == old(loading) && scriptExecutions == old(scriptExecutions)
      ensures showScheduleModal == old(showScheduleModal)
    {
      if script.id !in scriptExecutions {
        toasts := toasts + [ErrorToast("No recent execution found for this script")];
        return;
      }
      selectedScript := Some(script.(lastExecution := Some(scriptExecutions[script.id])));
      showLogsModal := true;
    }

    /** The calendar button: select the script and open the schedule dialog. */
    method OpenSchedule(script: Script)
      modifies this
      ensures selectedScript == Some(script) && showScheduleModal
      ensures jobs == old(jobs) && loading == old(loading) && scriptExecutions == old(scriptExecutions)
      ensures toasts == old(toasts) && showLogsModal == old(showLogsModal)
    {
      selectedScript := Some(script);
      showScheduleModal := true;
    }
  }
}
