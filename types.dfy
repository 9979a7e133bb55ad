/** The records of lib/types.ts that the script components exchange with the backend. */
module Types {
  import opened Wrappers

  /** `type Warehouse = 'byggmakker' | 'monter' | 'maxbo'` */
  datatype Warehouse = Byggmakker | Monter | Maxbo

  datatype ExecutionStatus = Pending | Completed | Failed

  /** One run of a script as the client records it. */
  datatype ScriptExecution = ScriptExecution(
    executionId: int,
    scriptId: int,
    timestamp: string,
    status: ExecutionStatus)

  datatype Script = Script(
    id: int,
    name: string,
    description: string,
    warehouse: Warehouse,
    filename: string,
    lastExecution: Option<ScriptExecution>)

  /** A recurring schedule binding a script to a cron expression. */
  datatype Job = Job(
    id: int,
    jobId: string,
    scriptId: int,
    cronExpression: string,
    enabled: bool,
    createdAt: string)

  /**
   * The `status` of a run-now response. The declared type admits only
   * `completed` and `failed`; any other string the backend sends is kept.
   */
  datatype RunStatus = RunCompleted | RunFailed | RunOther(text: string)

  datatype RunScriptResponse = RunScriptResponse(
    message: string,
    jobId: int,
    executionId: int,
    status: RunStatus,
    error: Option<string>)
}
