/**
 * components/schedule-modal.tsx: the dialog that sets a script's cron
 * schedule from a predefined choice or a typed expression. The awaited PUT
 * outcome is an input of `Submit`; the parent's `onSchedule` and
 * `onOpenChange(false)` calls are returned as flags.
 */
module ScheduleModal {
  import opened Wrappers
  import opened Text
  import opened Toasts

  /** `COMMON_SCHEDULES` of lib/constants.ts: label and cron expression. */
  const CommonSchedules: seq<(string, string)> := [
    ("Every hour", "0 * * * *"),
    ("Every 6 hours", "0 */6 * * *"),
    ("Daily at midnight", "0 0 * * *"),
    ("Weekly on Sunday", "0 0 * * 0"),
    ("Monthly", "0 0 1 * *")
  ]

  /** `schedule || customSchedule` */
  function SubmittedExpression(schedule: string, customSchedule: string): string {
    if schedule != "" then schedule else customSchedule
  }

  /** `!schedule && !customSchedule` */
  predicate SaveDisabled(schedule: string, customSchedule: string) {
    schedule == "" && customSchedule == ""
  }

  /** At most one of the two inputs holds a value. */
  predicate Exclusive(schedule: string, customSchedule: string) {
    schedule == "" || customSchedule == ""
  }

  /**
   * Save is enabled exactly when there is an expression to submit; while the
   * inputs are exclusive the submitted expression is whichever one is filled.
   */
  lemma SubmittedExpressionMeaning(schedule: string, customSchedule: string)
    ensures SaveDisabled(schedule, customSchedule) <==> SubmittedExpression(schedule, customSchedule) == ""
    ensures schedule != "" ==> SubmittedExpression(schedule, customSchedule) == schedule
    ensures schedule == "" ==> SubmittedExpression(schedule, customSchedule) == customSchedule
    ensures Exclusive(schedule, customSchedule) ==>
      SubmittedExpression(schedule, customSchedule) == schedule + customSchedule
  {
  }

  /** Every predefined choice is a non-empty expression, so choosing one enables Save. */
  lemma PredefinedEnablesSave(i: nat)
    requires i < |CommonSchedules|
    ensures CommonSchedules[i].1 != ""
    ensures !SaveDisabled(CommonSchedules[i].1, "")
  {
  }

  /** The request `handleSubmit` sends: `PUT /api/jobs/{script.id}` with the expression. */
  datatype ScheduleRequest = ScheduleRequest(path: string, cronExpression: string)

  class ScheduleForm {
    const scriptId: int
    var schedule: string
    var customSchedule: string
    var toasts: seq<Toast>

    predicate Valid()
      reads this
    {
      Exclusive(schedule, customSchedule)
    }

    constructor (scriptId: int)
      ensures this.scriptId == scriptId && schedule == "" && customSchedule == "" && toasts == []
      ensures Valid() && SaveDisabled(schedule, customSchedule)
    {
      this.scriptId := scriptId;
      schedule := "";
      customSchedule := "";
      toasts := [];
    }

    /** The select's `onValueChange`: the choice replaces the typed expression. */
    method ChoosePredefined(value: string)
      modifies this
      ensures schedule == value && customSchedule == "" && toasts == old(toasts)
      ensures Valid()
    {
      schedule := value;
      customSchedule := "";
    }

    /** The input's `onChange`: the typed expression replaces the choice. */
    method TypeCustom(value: string)
      modifies this
      ensures customSchedule == value && schedule == "" && toasts == old(toasts)
      ensures Valid()
    {
      customSchedule := value;
      schedule := "";
    }

    /**
     * `handleSubmit`: sends the expression; an ok response is announced, then
     * `onSchedule` runs and the dialog closes; a non-ok response or a thrown
     * error shows the failure toast and does neither. The inputs are kept.
     */
    method Submit(response: Outcome<bool>)
      returns (request: ScheduleRequest, scheduled: bool, closed: bool)
      modifies this
      ensures request == ScheduleRequest("/api/jobs/" + IntToString(scriptId), SubmittedExpression(old(schedule), old(customSchedule)))
      ensures scheduled <==> response == Ok(true)
      ensures closed <==> scheduled
      ensures scheduled ==> toasts == old(toasts) + [SuccessToast("Schedule updated successfully")]
      ensures !scheduled ==> toasts == old(toasts) + [ErrorToast("Failed to update schedule")]
      ensures schedule == old(schedule) && customSchedule == old(customSchedule)
    {
      request := ScheduleRequest("/api/jobs/" + IntToString(scriptId), SubmittedExpression(schedule, customSchedule));
      if response == Ok(true) {
        toasts := toasts + [SuccessToast("Schedule updated successfully")];
        scheduled := true;
        closed := true;
      } else {
        toasts := toasts + [ErrorToast("Failed to update schedule")];
        scheduled := false;
        closed := false;
      }
    }
  }
}
