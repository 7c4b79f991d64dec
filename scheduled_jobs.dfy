/**
 * Rows of the scheduled bulk-generation table and the pure rules the
 * scheduler applies to them: the next-run clock rule, the cron expression,
 * the payload sent to the unified generator and the run bookkeeping that
 * the executor writes onto a row.
 *
 * Times are integers in milliseconds on the server's local clock; a local
 * day starts at a multiple of `DayMs`.
 */
module ScheduledJobs {
  import opened Wrappers
  import opened Text

  const MinuteMs: int := 60_000
  const HourMs: int := 3_600_000
  const DayMs: int := 86_400_000

  /** A `scheduleTime` of the form "HH:MM" after `split(':').map(Number)`. */
  datatype TimeOfDay = TimeOfDay(hours: int, minutes: int)

  predicate WellFormedTime(t: TimeOfDay) {
    0 <= t.hours < 24 && 0 <= t.minutes < 60
  }

  /** Milliseconds after local midnight that `setHours(hours, minutes, 0, 0)` selects. */
  function MsOfDay(t: TimeOfDay): int {
    t.hours * HourMs + t.minutes * MinuteMs
  }

  /** The part of a job row that callers create and update. */
  datatype JobConfig = JobConfig(
    name: string,
    scheduleTime: TimeOfDay,
    timezone: string,
    isActive: bool,
    selectedNiches: seq<string>,
    tones: seq<string>,
    templates: seq<string>,
    platforms: seq<string>,
    useExistingProducts: bool,
    generateAffiliateLinks: bool,
    useSpartanFormat: bool,
    useSmartStyle: bool,
    aiModel: string,          // "" stands for an absent model
    affiliateId: string,
    webhookUrl: string,
    sendToMakeWebhook: bool)

  /** One persisted scheduled job, with the run-bookkeeping fields the executor writes. */
  datatype Job = Job(
    id: int,
    userId: int,
    config: JobConfig,
    lastRunAt: Option<int>,
    nextRunAt: Option<int>,
    totalRuns: nat,
    consecutiveFailures: nat,
    lastError: Option<string>,
    createdAt: int,
    updatedAt: int)

  /** The headers of the synthetic request a background caller shows to the safeguard module. */
  datatype SyntheticRequest = SyntheticRequest(userAgent: string, generationSource: string)

  /** The request the cron runner and the executor build. */
  const RunnerRequest := SyntheticRequest("scheduled-job-runner", "scheduled_job")
  /** The request start-up initialisation builds. */
  const InitRequest := SyntheticRequest("scheduled-job-init", "scheduled_job")

  /** What `validateGenerationRequest(detectGenerationContext(request))` answers. */
  datatype Verdict = Allowed | Blocked(reason: string, source: string)

  /** The safeguard module, which is not part of this model: a pure decision per request. */
  type Gate = SyntheticRequest -> Verdict

  /**
   * `calculateNextRunTime`: today at HH:MM, or tomorrow at HH:MM when that
   * instant is not strictly after `now`. The timezone is not consulted.
   */
  function CalculateNextRunTime(t: TimeOfDay, timezone: string, now: int): (r: int)
    ensures WellFormedTime(t) ==> now < r <= now + DayMs
    ensures WellFormedTime(t) ==> r % DayMs == MsOfDay(t)
  {
    var midnight := now - now % DayMs;
    var candidate := midnight + MsOfDay(t);
    DayMultiplePlus(now / DayMs, MsOfDay(t));
    DayMultiplePlus(now / DayMs + 1, MsOfDay(t));
    if candidate <= now then candidate + DayMs else candidate
  }

  lemma DayMultiplePlus(q: int, x: int)
    ensures (q * DayMs + x) % DayMs == x % DayMs
  {
  }

  /** The next run lies at the scheduled hour and minute, with zero seconds. */
  lemma NextRunHasScheduledClockTime(t: TimeOfDay, timezone: string, now: int)
    requires WellFormedTime(t)
    ensures var r := CalculateNextRunTime(t, timezone, now);
      (r % DayMs) / HourMs == t.hours && (r % HourMs) / MinuteMs == t.minutes && r % MinuteMs == 0
  {
    var r := CalculateNextRunTime(t, timezone, now);
    var q := r / DayMs;
    assert r == q * DayMs + MsOfDay(t);
    assert r % HourMs == t.minutes * MinuteMs by {
      assert r == (q * 24 + t.hours) * HourMs + t.minutes * MinuteMs;
    }
    assert r % MinuteMs == 0 by {
      assert r == (q * 1440 + t.hours * 60 + t.minutes) * MinuteMs;
    }
  }

  /** The timezone argument has no effect on the next run. */
  lemma NextRunIgnoresTimezone(t: TimeOfDay, tz1: string, tz2: string, now: int)
    ensures CalculateNextRunTime(t, tz1, now) == CalculateNextRunTime(t, tz2, now)
  {
  }

  /** 09:00 asked at 08:00 is today at 09:00; asked at 09:01 it is tomorrow at 09:00. */
  lemma NextRunTodayOrTomorrow(day: int)
    ensures CalculateNextRunTime(TimeOfDay(9, 0), "UTC", day * DayMs + 8 * HourMs) == day * DayMs + 9 * HourMs
    ensures CalculateNextRunTime(TimeOfDay(9, 0), "UTC", day * DayMs + 9 * HourMs + MinuteMs) == (day + 1) * DayMs + 9 * HourMs
  {
    DayMultiplePlus(day, 8 * HourMs);
    DayMultiplePlus(day, 9 * HourMs + MinuteMs);
  }

  /** The node-cron expression `"<minutes> <hours> * * *"`. */
  function CronExpression(t: TimeOfDay): (r: string)
    ensures var m, h := IntToString(t.minutes), IntToString(t.hours);
      && |r| == |m| + 1 + |h| + 6
      && r[..|m|] == m && r[|m|] == ' '
      && r[|m| + 1..|m| + 1 + |h|] == h
      && r[|r| - 6..] == " * * *"
  {
    IntToString(t.minutes) + " " + IntToString(t.hours) + " * * *"
  }

  /** The body posted to the unified generator. */
  datatype Payload = Payload(
    mode: string,
    selectedNiches: seq<string>,
    tones: seq<string>,
    templates: seq<string>,
    platforms: seq<string>,
    useExistingProducts: bool,
    generateAffiliateLinks: bool,
    useSpartanFormat: bool,
    useSmartStyle: bool,
    aiModel: string,
    affiliateId: string,
    webhookUrl: string,
    sendToMakeWebhook: bool,
    userId: int,
    scheduledJobId: int,
    scheduledJobName: string)

  /** The payload built from a job: automated mode, the job's fan-out, and an AI model that defaults to "claude". */
  function BuildPayload(job: Job): (p: Payload)
    ensures p.mode == "automated" && p.aiModel != ""
    ensures job.config.aiModel != "" ==> p.aiModel == job.config.aiModel
    ensures job.config.aiModel == "" ==> p.aiModel == "claude"
    ensures p.useExistingProducts == job.config.useExistingProducts && p.generateAffiliateLinks == job.config.generateAffiliateLinks
    ensures p.useSpartanFormat == job.config.useSpartanFormat && p.useSmartStyle == job.config.useSmartStyle
    ensures p.affiliateId == job.config.affiliateId && p.webhookUrl == job.config.webhookUrl
    ensures p.sendToMakeWebhook == job.config.sendToMakeWebhook
    ensures p.selectedNiches == job.config.selectedNiches && p.tones == job.config.tones
    ensures p.templates == job.config.templates && p.platforms == job.config.platforms
    ensures p.scheduledJobId == job.id && p.userId == job.userId && p.scheduledJobName == job.config.name
  {
    var c := job.config;
    Payload("automated", c.selectedNiches, c.tones, c.templates, c.platforms,
      c.useExistingProducts, c.generateAffiliateLinks, c.useSpartanFormat, c.useSmartStyle,
      if c.aiModel == "" then "claude" else c.aiModel,
      c.affiliateId, c.webhookUrl, c.sendToMakeWebhook, job.userId, job.id, c.name)
  }

  /**
   * What the POST to the unified generator gives back: a JSON body whose
   * `error` is "" when absent, or a failure of the request itself.
   */
  datatype PipelineReply = Replied(success: bool, error: string, body: string) | TransportFailure(message: string)

  /** The executor's result: the generator's reply, or the message of the error it rethrows. */
  datatype RunOutcome = RunSucceeded(reply: PipelineReply) | RunFailed(message: string)

  function BlockedMessage(reason: string): string {
    "Scheduled job blocked by safeguards: " + reason
  }

  /** The message of the error thrown for a generator reply that is not a success. */
  function PipelineFailureMessage(reply: PipelineReply): string {
    match reply
    case TransportFailure(m) => m
    case Replied(_, error, _) => if error == "" then "Content generation failed" else error
  }

  predicate PipelineSucceeded(reply: PipelineReply) {
    reply.Replied? && reply.success
  }

  /** The first write on a safeguard block; counters come from the snapshot. */
  function BlockedWrite(row: Job, snapshot: Job, reason: string, now: int): Job {
    row.(lastRunAt := Some(now), lastError := Some("Blocked by safeguards: " + reason),
      consecutiveFailures := snapshot.consecutiveFailures + 1)
  }

  /** The write made before the generator is called; counters come from the snapshot. */
  function StartWrite(row: Job, snapshot: Job, now: int): Job {
    row.(lastRunAt := Some(now), totalRuns := snapshot.totalRuns + 1,
      nextRunAt := Some(CalculateNextRunTime(snapshot.config.scheduleTime, snapshot.config.timezone, now)),
      consecutiveFailures := 0, lastError := None)
  }

  /** The write of the outer catch; counters come from the snapshot. */
  function FailureWrite(row: Job, snapshot: Job, message: string): Job {
    row.(consecutiveFailures := snapshot.consecutiveFailures + 1, lastError := Some(message))
  }

  /** The outcome of one execution of `snapshot`. */
  function ExecutionOutcome(verdict: Verdict, reply: PipelineReply): RunOutcome {
    if verdict.Blocked? then RunFailed(BlockedMessage(verdict.reason))
    else if PipelineSucceeded(reply) then RunSucceeded(reply)
    else RunFailed(PipelineFailureMessage(reply))
  }

  /**
   * The row `row` after one execution of `snapshot`, all writes applied in
   * order. `reply` is not consulted when the safeguard blocks.
   */
  function ExecutedRow(row: Job, snapshot: Job, verdict: Verdict, reply: PipelineReply, now: int): (r: Job)
    ensures r.id == row.id && r.userId == row.userId && r.config == row.config && r.createdAt == row.createdAt
    ensures r.lastRunAt == Some(now)
  {
    if verdict.Blocked? then
      FailureWrite(BlockedWrite(row, snapshot, verdict.reason, now), snapshot, BlockedMessage(verdict.reason))
    else if PipelineSucceeded(reply) then
      StartWrite(row, snapshot, now)
    else
      FailureWrite(StartWrite(row, snapshot, now), snapshot, PipelineFailureMessage(reply))
  }

  /** The bookkeeping of one execution, case by case. */
  lemma ExecutionBookkeeping(row: Job, snapshot: Job, verdict: Verdict, reply: PipelineReply, now: int)
    ensures var r := ExecutedRow(row, snapshot, verdict, reply, now);
      && r.id == row.id && r.userId == row.userId && r.config == row.config && r.createdAt == row.createdAt
      && r.lastRunAt == Some(now)
      && (verdict.Blocked? ==>
            && r.consecutiveFailures == snapshot.consecutiveFailures + 1
            && r.totalRuns == row.totalRuns && r.nextRunAt == row.nextRunAt
            && r.lastError == Some(BlockedMessage(verdict.reason)))
      && (verdict.Allowed? ==>
            && r.totalRuns == snapshot.totalRuns + 1
            && r.nextRunAt == Some(CalculateNextRunTime(snapshot.config.scheduleTime, snapshot.config.timezone, now)))
      && (verdict.Allowed? && PipelineSucceeded(reply) ==>
            r.consecutiveFailures == 0 && r.lastError == None)
      && (verdict.Allowed? && !PipelineSucceeded(reply) ==>
            r.consecutiveFailures == snapshot.consecutiveFailures + 1
            && r.lastError == Some(PipelineFailureMessage(reply)))
  {
  }

  /** Every failure leaves an error message behind; a success clears it. */
  lemma FailuresAreRecorded(row: Job, snapshot: Job, verdict: Verdict, reply: PipelineReply, now: int)
    ensures ExecutionOutcome(verdict, reply).RunFailed? <==>
      ExecutedRow(row, snapshot, verdict, reply, now).lastError.Some?
    ensures ExecutionOutcome(verdict, reply).RunFailed? ==>
      ExecutedRow(row, snapshot, verdict, reply, now).lastError == Some(ExecutionOutcome(verdict, reply).message)
  {
  }

  // ---------------------------------------------------------------------
  // Repeated runs. A cron task executes the row it captured when it was
  // installed; a manual trigger executes the row as currently stored.

  /** `k` executions, each of the same install-time `snapshot`, all with the same verdict and reply. */
  function RunsFromSnapshot(row: Job, snapshot: Job, verdict: Verdict, reply: PipelineReply, now: int, k: nat): Job
    decreases k
  {
    if k == 0 then row
    else ExecutedRow(RunsFromSnapshot(row, snapshot, verdict, reply, now, k - 1), snapshot, verdict, reply, now)
  }

  /** `k` executions, each of the row as it stands before that execution. */
  function RunsFromCurrentRow(row: Job, verdict: Verdict, reply: PipelineReply, now: int, k: nat): Job
    decreases k
  {
    if k == 0 then row
    else
      var before := RunsFromCurrentRow(row, verdict, reply, now, k - 1);
      ExecutedRow(before, before, verdict, reply, now)
  }

  /**
   * As written, a cron task counts from its install-time snapshot: however
   * many runs it makes, `totalRuns` and `consecutiveFailures` never get past
   * the snapshot's value plus one.
   */
  lemma {:induction false} SnapshotRunsUndercount(row: Job, snapshot: Job, verdict: Verdict, reply: PipelineReply, now: int, k: nat)
    requires k >= 1
    ensures var r := RunsFromSnapshot(row, snapshot, verdict, reply, now, k);
      && (verdict.Allowed? ==> r.totalRuns == snapshot.totalRuns + 1)
      && (ExecutionOutcome(verdict, reply).RunFailed? ==> r.consecutiveFailures == snapshot.consecutiveFailures + 1)
  {
  }

  /** Two failing cron runs from one installation leave a streak of one, not two. */
  lemma TwoFailingSnapshotRunsCountOnce(row: Job, reason: string, now: int)
    requires row.consecutiveFailures == 0
    ensures RunsFromSnapshot(row, row, Blocked(reason, ""), TransportFailure(""), now, 2).consecutiveFailures == 1
  {
    assert RunsFromSnapshot(row, row, Blocked(reason, ""), TransportFailure(""), now, 1).consecutiveFailures == 1;
  }

  /**
   * Counting from the current row, `k` failing runs leave a streak of `k`
   * more with the last error recorded, and `k` allowed runs add `k` to
   * `totalRuns`.
   */
  lemma {:induction false} CurrentRowRunsCount(row: Job, verdict: Verdict, reply: PipelineReply, now: int, k: nat)
    ensures var r := RunsFromCurrentRow(row, verdict, reply, now, k);
      && (ExecutionOutcome(verdict, reply).RunFailed? ==>
            r.consecutiveFailures == row.consecutiveFailures + k
            && (k >= 1 ==> r.lastError == Some(ExecutionOutcome(verdict, reply).message)))
      && (verdict.Allowed? ==> r.totalRuns == row.totalRuns + k)
      && (ExecutionOutcome(verdict, reply).RunSucceeded? && k >= 1 ==> r.consecutiveFailures == 0 && r.lastError == None)
    decreases k
  {
    if k > 0 {
      CurrentRowRunsCount(row, verdict, reply, now, k - 1);
    }
  }
}
