/**
 * The cron lifecycle manager, the single-flight tick wrapper, the executor
 * and the HTTP handlers of the scheduled bulk-generation API.
 *
 * The two module-level maps of the server (`activeCronJobs` and
 * `executionLocks`) and the persisted job table are the fields of one
 * `Scheduler`. Every handler runs as one atomic step of the event loop;
 * the only interleaving modelled is a tick whose lock is still held
 * (`BeginTick` without its `EndTick`).
 */
module CronLifecycle {
  import opened Wrappers
  import opened Text
  import opened ScheduledJobs
  import opened Collections

  /** The user every handler acts for. */
  const CurrentUser: int := 1

  /**
   * A node-cron task handle. The tick body closes over `snapshot`, the job
   * object as it was when the cron task was installed.
   */
  datatype Task = Task(snapshot: Job, expression: string, timezone: string, running: bool, destroyed: bool)

  /** The cron task `startCronJob` installs for `job`. */
  function Installed(job: Job): Task {
    Task(job, CronExpression(job.config.scheduleTime), job.config.timezone, true, false)
  }

  datatype StatusEntry = StatusEntry(jobId: int, running: bool, destroyed: bool)

  function StatusOf(jobId: int, task: Task): StatusEntry {
    StatusEntry(jobId, task.running, task.destroyed)
  }

  /** What a tick reports to node-cron: nothing is ever rethrown. */
  datatype TickOutcome = Skipped | Completed | Caught(message: string)

  /** The JSON answer of a CRUD or trigger handler (status 200, 404 or 500). */
  datatype Reply =
    | JobSaved(job: Job)
    | JobDeleted
    | Triggered(result: PipelineReply)
    | StopCompleted(message: string, stoppedCount: nat)
    | NotFound
    | ServerError(error: string)
  {
    function Status(): int {
      if NotFound? then 404 else if ServerError? then 500 else 200
    }
  }

  /** A partial update body: each present field replaces the stored one. */
  datatype ConfigPatch = ConfigPatch(
    name: Option<string>,
    scheduleTime: Option<TimeOfDay>,
    timezone: Option<string>,
    isActive: Option<bool>,
    selectedNiches: Option<seq<string>>,
    tones: Option<seq<string>>,
    templates: Option<seq<string>>,
    platforms: Option<seq<string>>,
    useExistingProducts: Option<bool>,
    generateAffiliateLinks: Option<bool>,
    useSpartanFormat: Option<bool>,
    useSmartStyle: Option<bool>,
    aiModel: Option<string>,
    affiliateId: Option<string>,
    webhookUrl: Option<string>,
    sendToMakeWebhook: Option<bool>)

  function ApplyPatch(c: JobConfig, p: ConfigPatch): JobConfig {
    JobConfig(
      p.name.GetOr(c.name), p.scheduleTime.GetOr(c.scheduleTime), p.timezone.GetOr(c.timezone),
      p.isActive.GetOr(c.isActive), p.selectedNiches.GetOr(c.selectedNiches), p.tones.GetOr(c.tones),
      p.templates.GetOr(c.templates), p.platforms.GetOr(c.platforms),
      p.useExistingProducts.GetOr(c.useExistingProducts), p.generateAffiliateLinks.GetOr(c.generateAffiliateLinks),
      p.useSpartanFormat.GetOr(c.useSpartanFormat), p.useSmartStyle.GetOr(c.useSmartStyle),
      p.aiModel.GetOr(c.aiModel), p.affiliateId.GetOr(c.affiliateId), p.webhookUrl.GetOr(c.webhookUrl),
      p.sendToMakeWebhook.GetOr(c.sendToMakeWebhook))
  }

  /**
   * The row an update writes: the patched configuration, `updatedAt`, and a
   * new `nextRunAt` only when the body carries a `scheduleTime` (its timezone
   * defaulting to "America/New_York").
   */
  function UpdatedRow(row: Job, p: ConfigPatch, now: int): (r: Job)
    ensures r.id == row.id && r.userId == row.userId && r.config == ApplyPatch(row.config, p)
    ensures p.scheduleTime.None? ==> r.nextRunAt == row.nextRunAt
    ensures p.scheduleTime.Some? ==>
      r.nextRunAt == Some(CalculateNextRunTime(p.scheduleTime.value, OrDefaultZone(p.timezone), now))
    ensures r.totalRuns == row.totalRuns && r.consecutiveFailures == row.consecutiveFailures
    ensures r.lastRunAt == row.lastRunAt && r.lastError == row.lastError && r.updatedAt == now
  {
    row.(config := ApplyPatch(row.config, p),
      nextRunAt := if p.scheduleTime.Some?
        then Some(CalculateNextRunTime(p.scheduleTime.value, OrDefaultZone(p.timezone), now))
        else row.nextRunAt,
      updatedAt := now)
  }

  /** A freshly installed task for each of `ids`. */
  function InstalledTasks(rows: map<int, Job>, ids: set<int>): map<int, Task>
    requires ids <= rows.Keys
  {
    map id | id in ids :: Installed(rows[id])
  }

  lemma InstalledTasksStep(tasks: map<int, Task>, rows: map<int, Job>, started: set<int>, id: int, allowed: bool)
    requires started + {id} <= rows.Keys
    requires tasks == if allowed then InstalledTasks(rows, started) else map[]
    ensures (if allowed then tasks[id := Installed(rows[id])] else tasks - {id})
      == if allowed then InstalledTasks(rows, started + {id}) else map[]
  {
  }

  lemma MapMinusStep(locks: map<int, bool>, cleared: map<int, bool>, started: set<int>, id: int)
    requires locks == cleared - started
    ensures locks - {id} == cleared - (started + {id})
  {
  }

  /** `req.body.timezone || 'America/New_York'`. */
  function OrDefaultZone(tz: Option<string>): string {
    if tz.Some? && tz.value != "" then tz.value else "America/New_York"
  }

  /** The ids of the rows the start-up query `isActive = true` selects. */
  function ActiveIds(rows: map<int, Job>): set<int> {
    set id | id in rows && rows[id].config.isActive
  }

  /**
   * The body of the stop loop, over the registered ids: each task's
   * `stop()` and `destroy()` run inside a `try`; `failing` holds the ids
   * whose calls throw. The count is the number of tasks that stopped
   * cleanly.
   */
  method StopEach(keys: set<int>, failing: set<int>) returns (stoppedCount: nat)
    ensures stoppedCount == |keys - failing|
  {
    var pending := keys;
    ghost var stopped: set<int> := {};
    stoppedCount := 0;
    while pending != {}
      invariant pending <= keys
      invariant stopped == (keys - pending) - failing
      invariant stoppedCount == |stopped|
      decreases pending
    {
      NonemptyHasMember(pending);
      var jobId :| jobId in pending;
      if jobId !in failing {
        stopped := stopped + {jobId};
        stoppedCount := stoppedCount + 1;
      }
      pending := pending - {jobId};
    }
  }

  /** The job ids an answer lists. */
  function JobIds(entries: seq<StatusEntry>): set<int> {
    set i | 0 <= i < |entries| :: entries[i].jobId
  }

  lemma JobIdsAppend(entries: seq<StatusEntry>, e: StatusEntry)
    ensures JobIds(entries + [e]) == JobIds(entries) + {e.jobId}
  {
    var longer := entries + [e];
    assert forall i :: 0 <= i < |entries| ==> longer[i] == entries[i];
    assert longer[|entries|] == e;
  }

  /** Entries with pairwise different ids list as many ids as there are entries. */
  lemma {:induction false} DistinctJobIdsCount(entries: seq<StatusEntry>)
    requires forall i, j :: 0 <= i < j < |entries| ==> entries[i].jobId != entries[j].jobId
    ensures |JobIds(entries)| == |entries|
  {
    if entries != [] {
      var init := entries[..|entries| - 1];
      var last := entries[|entries| - 1];
      assert entries == init + [last];
      DistinctJobIdsCount(init);
      JobIdsAppend(init, last);
      assert last.jobId !in JobIds(init);
    }
  }

  lemma EntriesCoverKeys(entries: seq<StatusEntry>, m: map<int, Task>)
    requires JobIds(entries) == m.Keys
    requires forall i, j :: 0 <= i < j < |entries| ==> entries[i].jobId != entries[j].jobId
    ensures |entries| == |m|
  {
    DistinctJobIdsCount(entries);
  }

  /** The status entries of `m`, one per id, in some order of its keys. */
  method StatusEntries(m: map<int, Task>) returns (entries: seq<StatusEntry>)
    ensures JobIds(entries) == m.Keys
    ensures forall i, j :: 0 <= i < j < |entries| ==> entries[i].jobId != entries[j].jobId
    ensures forall i :: 0 <= i < |entries| ==>
      entries[i].jobId in m && entries[i] == StatusOf(entries[i].jobId, m[entries[i].jobId])
  {
    var pending := m.Keys;
    entries := [];
    while pending != {}
      invariant pending <= m.Keys
      invariant JobIds(entries) == m.Keys - pending
      invariant forall i :: 0 <= i < |entries| ==> entries[i].jobId !in pending
      invariant forall i, j :: 0 <= i < j < |entries| ==> entries[i].jobId != entries[j].jobId
      invariant forall i :: 0 <= i < |entries| ==>
        entries[i].jobId in m && entries[i] == StatusOf(entries[i].jobId, m[entries[i].jobId])
      decreases pending
    {
      NonemptyHasMember(pending);
      var jobId :| jobId in pending;
      ghost var prev := entries;
      assert m.Keys - (pending - {jobId}) == (m.Keys - pending) + {jobId};
      var entry := StatusOf(jobId, m[jobId]);
      entries := entries + [entry];
      assert forall i :: 0 <= i < |prev| ==> entries[i] == prev[i];
      pending := pending - {jobId};
      JobIdsAppend(prev, entry);
    }
  }

  class Scheduler {
    /** `activeCronJobs`: job id to the live task. */
    var tasks: map<int, Task>
    /** `executionLocks`: job id to a held lock. */
    var locks: map<int, bool>
    /** The persisted job table, by id. */
    var rows: map<int, Job>
    /** The id the table's serial column assigns next. */
    var nextId: int

    /**
     * Rows are stored under their own id; every live task belongs to a
     * stored, active row and was installed for that id.
     */
    ghost predicate Valid()
      reads this
    {
      && (forall id :: id in rows ==> rows[id].id == id && id < nextId)
      && (forall id :: id in tasks ==> id in rows && rows[id].config.isActive && tasks[id].snapshot.id == id)
    }

    constructor (stored: map<int, Job>, serial: int)
      requires forall id :: id in stored ==> stored[id].id == id && id < serial
      ensures Valid()
      ensures rows == stored && nextId == serial && tasks == map[] && locks == map[]
    {
      rows, nextId := stored, serial;
      tasks, locks := map[], map[];
    }

    /**
     * `stopAndDestroyCronJob`: afterwards neither map has an entry for the
     * id, whether a task existed or not and whether `stop()`/`destroy()`
     * threw (which only logs, since the delete sits outside the try).
     */
    method StopAndDestroyCronJob(jobId: int)
      requires Valid()
      modifies this
      ensures Valid()
      ensures tasks == old(tasks) - {jobId} && locks == old(locks) - {jobId}
      ensures rows == old(rows) && nextId == old(nextId)
    {
      if jobId in tasks {
        tasks := tasks - {jobId};
      }
      if jobId in locks {
        locks := locks - {jobId};
      }
    }

    /**
     * `startCronJob`: nothing happens for an inactive job. Otherwise the old
     * task and lock are removed; if the safeguard then blocks, no task is
     * registered, else exactly one task, running `"<minutes> <hours> * * *"`
     * over this job object.
     */
    method StartCronJob(job: Job, gate: Gate)
      requires Valid() && job.id in rows && rows[job.id] == job
      modifies this
      ensures Valid()
      ensures !job.config.isActive ==> tasks == old(tasks) && locks == old(locks)
      ensures job.config.isActive ==> locks == old(locks) - {job.id}
      ensures job.config.isActive && gate(RunnerRequest).Blocked? ==> tasks == old(tasks) - {job.id}
      ensures job.config.isActive && gate(RunnerRequest).Allowed? ==> tasks == old(tasks)[job.id := Installed(job)]
      ensures rows == old(rows) && nextId == old(nextId)
    {
      if !job.config.isActive {
        return;
      }
      StopAndDestroyCronJob(job.id);
      var validation := gate(RunnerRequest);
      if validation.Blocked? {
        return;
      }
      tasks := tasks[job.id := Installed(job)];
    }

    /**
     * The stop loop of `stopAllCronJobs`: every task is stopped and
     * destroyed in turn; `failing` holds the ids whose `stop()` or
     * `destroy()` throws, which is caught per task. The map is then cleared.
     */
    method StopAllCronJobs(failing: set<int>) returns (stoppedCount: nat)
      requires Valid()
      modifies this
      ensures Valid()
      ensures tasks == map[]
      ensures stoppedCount == |old(tasks).Keys - failing| && stoppedCount <= |old(tasks)|
      ensures locks == old(locks) && rows == old(rows) && nextId == old(nextId)
    {
      stoppedCount := StopEach(tasks.Keys, failing);
      SubsetCardinality(tasks.Keys - failing, tasks.Keys);
      tasks := map[];
    }

    /** `emergencyStopAllCronJobs`: the same stop loop, answered with the count. */
    method EmergencyStopAllCronJobs(failing: set<int>) returns (reply: Reply)
      requires Valid()
      modifies this
      ensures Valid()
      ensures tasks == map[] && locks == old(locks) && rows == old(rows)
      ensures reply.StopCompleted? && reply.stoppedCount == |old(tasks).Keys - failing|
      ensures old(tasks) == map[] ==> reply.stoppedCount == 0
    {
      var stoppedCount := StopAllCronJobs(failing);
      reply := StopCompleted("Emergency stop completed: " + NatToString(stoppedCount) + " cron jobs stopped", stoppedCount);
    }

    /**
     * `getActiveCronJobsStatus`: one entry per registered task, carrying its
     * flags, and the total; nothing changes.
     */
    method GetActiveCronJobsStatus() returns (entries: seq<StatusEntry>, total: nat)
      ensures total == |tasks| == |entries|
      ensures JobIds(entries) == tasks.Keys
      ensures forall i, j :: 0 <= i < j < |entries| ==> entries[i].jobId != entries[j].jobId
      ensures forall i :: 0 <= i < |entries| ==>
        entries[i].jobId in tasks && entries[i] == StatusOf(entries[i].jobId, tasks[entries[i].jobId])
    {
      entries := StatusEntries(tasks);
      EntriesCoverKeys(entries, tasks);
      total := |tasks|;
    }

    /** The lock check of the tick wrapper: take the lock unless it is held. */
    method BeginTick(jobId: int) returns (acquired: bool)
      requires Valid()
      modifies this
      ensures Valid()
      ensures acquired == (jobId !in old(locks))
      ensures locks == if acquired then old(locks)[jobId := true] else old(locks)
      ensures tasks == old(tasks) && rows == old(rows) && nextId == old(nextId)
    {
      if jobId in locks {
        return false;
      }
      locks := locks[jobId := true];
      acquired := true;
    }

    /** The `finally` block of the tick wrapper. */
    method EndTick(jobId: int)
      requires Valid()
      modifies this
      ensures Valid()
      ensures locks == old(locks) - {jobId}
      ensures tasks == old(tasks) && rows == old(rows) && nextId == old(nextId)
    {
      locks := locks - {jobId};
    }

    /**
     * `executeScheduledJob(job)`: bookkeeping is computed from `job`, the
     * object the caller passes, and written onto the stored row with that id
     * (an update of a missing row writes nothing). The generator is called
     * only when the safeguard allows.
     */
    method ExecuteScheduledJob(job: Job, gate: Gate, generate: Payload -> PipelineReply, now: int)
      returns (outcome: RunOutcome, sent: Option<Payload>)
      requires Valid()
      modifies this
      ensures Valid()
      ensures var verdict := gate(RunnerRequest);
        && sent == (if verdict.Allowed? then Some(BuildPayload(job)) else None)
        && outcome == ExecutionOutcome(verdict, generate(BuildPayload(job)))
        && rows == (if job.id in old(rows)
                    then old(rows)[job.id := ExecutedRow(old(rows)[job.id], job, verdict, generate(BuildPayload(job)), now)]
                    else old(rows))
      ensures tasks == old(tasks) && locks == old(locks) && nextId == old(nextId)
    {
      var validation := gate(RunnerRequest);
      if validation.Blocked? {
        if job.id in rows {
          rows := rows[job.id := BlockedWrite(rows[job.id], job, validation.reason, now)];
        }
        var message := BlockedMessage(validation.reason);
        // the outer catch
        if job.id in rows {
          rows := rows[job.id := FailureWrite(rows[job.id], job, message)];
        }
        return RunFailed(message), None;
      }
      if job.id in rows {
        rows := rows[job.id := StartWrite(rows[job.id], job, now)];
      }
      var payload := BuildPayload(job);
      sent := Some(payload);
      var reply := generate(payload);
      if PipelineSucceeded(reply) {
        return RunSucceeded(reply), sent;
      }
      var message := PipelineFailureMessage(reply);
      // the outer catch
      if job.id in rows {
        rows := rows[job.id := FailureWrite(rows[job.id], job, message)];
      }
      outcome := RunFailed(message);
    }

    /**
     * One firing of the cron task registered for `jobId`, executing the snapshot
     * the cron task captured. A held lock skips the tick and changes nothing;
     * otherwise the lock is taken, the executor runs, its error is caught,
     * and the lock is released whatever the outcome.
     */
    method Tick(jobId: int, gate: Gate, generate: Payload -> PipelineReply, now: int)
      returns (result: TickOutcome, sent: Option<Payload>)
      requires Valid() && jobId in tasks
      modifies this
      ensures Valid()
      ensures tasks == old(tasks) && nextId == old(nextId)
      ensures jobId in old(locks) ==> result == Skipped && sent == None && locks == old(locks) && rows == old(rows)
      ensures jobId !in old(locks) ==>
        var snapshot := old(tasks)[jobId].snapshot;
        var outcome := ExecutionOutcome(gate(RunnerRequest), generate(BuildPayload(snapshot)));
        && locks == old(locks) - {jobId}
        && rows == old(rows)[jobId := ExecutedRow(old(rows)[jobId], snapshot, gate(RunnerRequest), generate(BuildPayload(snapshot)), now)]
        && result == (if outcome.RunSucceeded? then Completed else Caught(outcome.message))
        && sent == (if gate(RunnerRequest).Allowed? then Some(BuildPayload(snapshot)) else None)
    {
      var job := tasks[jobId].snapshot;
      var acquired := BeginTick(job.id);
      if !acquired {
        return Skipped, None;
      }
      assert locks[jobId];
      var outcome;
      outcome, sent := ExecuteScheduledJob(job, gate, generate, now);
      result := if outcome.RunSucceeded? then Completed else Caught(outcome.message);
      EndTick(job.id);
    }

    /**
     * The corrected tick: it executes the row as currently stored, so
     * `totalRuns` and `consecutiveFailures` count every run.
     */
    method TickCurrentRow(jobId: int, gate: Gate, generate: Payload -> PipelineReply, now: int)
      returns (result: TickOutcome)
      requires Valid() && jobId in tasks
      modifies this
      ensures Valid()
      ensures tasks == old(tasks) && nextId == old(nextId)
      ensures jobId in old(locks) ==> result == Skipped && locks == old(locks) && rows == old(rows)
      ensures jobId !in old(locks) ==>
        var current := old(rows)[jobId];
        && locks == old(locks) - {jobId}
        && rows == old(rows)[jobId := ExecutedRow(current, current, gate(RunnerRequest), generate(BuildPayload(current)), now)]
    {
      var acquired := BeginTick(jobId);
      if !acquired {
        return Skipped;
      }
      var outcome, _ := ExecuteScheduledJob(rows[jobId], gate, generate, now);
      result := if outcome.RunSucceeded? then Completed else Caught(outcome.message);
      EndTick(jobId);
    }

    /**
     * `createScheduledJob`: `body` is what the insert schema accepted (None
     * when it threw, answered with 500). The row gets the next serial id and
     * its first `nextRunAt`; then its task is started.
     */
    method CreateScheduledJob(body: Option<JobConfig>, gate: Gate, now: int) returns (reply: Reply)
      requires Valid()
      modifies this
      ensures Valid()
      ensures body.None? ==>
        && reply == ServerError("Failed to create scheduled job")
        && tasks == old(tasks) && locks == old(locks) && rows == old(rows) && nextId == old(nextId)
      ensures body.Some? ==>
        var row := Job(old(nextId), CurrentUser, body.value, None,
          Some(CalculateNextRunTime(body.value.scheduleTime, body.value.timezone, now)), 0, 0, None, now, now);
        && old(nextId) !in old(rows)
        && reply == JobSaved(row) && rows == old(rows)[row.id := row] && nextId == old(nextId) + 1
        && (body.value.isActive && gate(RunnerRequest).Allowed? ==> tasks == old(tasks)[row.id := Installed(row)])
        && (!(body.value.isActive && gate(RunnerRequest).Allowed?) ==> tasks == old(tasks))
        && locks == (if body.value.isActive then old(locks) - {row.id} else old(locks))
    {
      if body.None? {
        return ServerError("Failed to create scheduled job");
      }
      var config := body.value;
      var nextRunAt := CalculateNextRunTime(config.scheduleTime, config.timezone, now);
      var newJob := Job(nextId, CurrentUser, config, None, Some(nextRunAt), 0, 0, None, now, now);
      assert newJob.id !in tasks;
      rows := rows[newJob.id := newJob];
      nextId := nextId + 1;
      StartCronJob(newJob, gate);
      reply := JobSaved(newJob);
    }

    /**
     * `updateScheduledJob`: the cron task and lock are removed before the row is
     * touched, so a 404 still leaves no task; a task is reinstalled only when
     * the updated row is active.
     */
    method UpdateScheduledJob(jobId: int, patch: ConfigPatch, gate: Gate, now: int) returns (reply: Reply)
      requires Valid()
      modifies this
      ensures Valid()
      ensures locks == old(locks) - {jobId} && nextId == old(nextId)
      ensures var found := jobId in old(rows) && old(rows)[jobId].userId == CurrentUser;
        && (!found ==> reply == NotFound && rows == old(rows) && tasks == old(tasks) - {jobId})
        && (found ==>
              var updated := UpdatedRow(old(rows)[jobId], patch, now);
              && reply == JobSaved(updated)
              && rows == old(rows)[jobId := updated]
              && (updated.config.isActive && gate(RunnerRequest).Allowed? ==> tasks == old(tasks)[jobId := Installed(updated)])
              && (!(updated.config.isActive && gate(RunnerRequest).Allowed?) ==> tasks == old(tasks) - {jobId}))
    {
      StopAndDestroyCronJob(jobId);
      if !(jobId in rows && rows[jobId].userId == CurrentUser) {
        return NotFound;
      }
      var updatedJob := UpdatedRow(rows[jobId], patch, now);
      rows := rows[jobId := updatedJob];
      if updatedJob.config.isActive {
        StartCronJob(updatedJob, gate);
      }
      reply := JobSaved(updatedJob);
    }

    /** `deleteScheduledJob`: the cron task goes first, then the row; a 404 still leaves no task. */
    method DeleteScheduledJob(jobId: int) returns (reply: Reply)
      requires Valid()
      modifies this
      ensures Valid()
      ensures tasks == old(tasks) - {jobId} && locks == old(locks) - {jobId} && nextId == old(nextId)
      ensures var found := jobId in old(rows) && old(rows)[jobId].userId == CurrentUser;
        && (found ==> reply == JobDeleted && rows == old(rows) - {jobId})
        && (!found ==> reply == NotFound && rows == old(rows))
    {
      StopAndDestroyCronJob(jobId);
      if !(jobId in rows && rows[jobId].userId == CurrentUser) {
        return NotFound;
      }
      rows := rows - {jobId};
      reply := JobDeleted;
    }

    /**
     * `triggerScheduledJob`: the stored row is executed directly, without
     * the execution lock, so it may run while a tick of the same job holds
     * the lock.
     */
    method TriggerScheduledJob(jobId: int, gate: Gate, generate: Payload -> PipelineReply, now: int) returns (reply: Reply)
      requires Valid()
      modifies this
      ensures Valid()
      ensures tasks == old(tasks) && locks == old(locks) && nextId == old(nextId)
      ensures var found := jobId in old(rows) && old(rows)[jobId].userId == CurrentUser;
        && (!found ==> reply == NotFound && rows == old(rows))
        && (found ==>
              var row := old(rows)[jobId];
              var outcome := ExecutionOutcome(gate(RunnerRequest), generate(BuildPayload(row)));
              && rows == old(rows)[jobId := ExecutedRow(row, row, gate(RunnerRequest), generate(BuildPayload(row)), now)]
              && reply == (if outcome.RunSucceeded? then Triggered(outcome.reply) else ServerError("Failed to trigger scheduled job")))
    {
      if !(jobId in rows && rows[jobId].userId == CurrentUser) {
        return NotFound;
      }
      var outcome, _ := ExecuteScheduledJob(rows[jobId], gate, generate, now);
      reply := if outcome.RunSucceeded? then Triggered(outcome.reply) else ServerError("Failed to trigger scheduled job");
    }

    /**
     * `initializeScheduledJobs`: when the start-up safeguard blocks, nothing
     * changes, not even stale tasks. Otherwise every task is stopped and the
     * map cleared, then a task is started for every active row (each start
     * consults the safeguard again, with the runner's request).
     */
    method InitializeScheduledJobs(gate: Gate, failing: set<int>)
      requires Valid()
      modifies this
      ensures Valid()
      ensures rows == old(rows) && nextId == old(nextId)
      ensures gate(InitRequest).Blocked? ==> tasks == old(tasks) && locks == old(locks)
      ensures gate(InitRequest).Allowed? ==>
        && locks == old(locks) - ActiveIds(rows)
        && tasks == if gate(RunnerRequest).Allowed? then InstalledTasks(rows, ActiveIds(rows)) else map[]
    {
      if gate(InitRequest).Blocked? {
        return;
      }
      var _ := StopAllCronJobs(failing);
      var active := ActiveIds(rows);
      var pending := active;
      ghost var started: set<int> := {};
      ghost var cleared := locks;
      while pending != {}
        invariant Valid()
        invariant started + pending == active && started !! pending
        invariant rows == old(rows) && nextId == old(nextId)
        invariant locks == cleared - started
        invariant tasks == if gate(RunnerRequest).Allowed? then InstalledTasks(rows, started) else map[]
        decreases pending
      {
        NonemptyHasMember(pending);
        var jobId :| jobId in pending;
        assert rows[jobId].config.isActive;
        MapMinusStep(locks, cleared, started, jobId);
        InstalledTasksStep(tasks, rows, started, jobId, gate(RunnerRequest).Allowed?);
        StartCronJob(rows[jobId], gate);
        pending := pending - {jobId};
        started := started + {jobId};
      }
    }
  }

  /**
   * While a tick of a job is in flight (its lock held), a second tick of the
   * same job is skipped, but a manual trigger still executes the job.
   */
  method OverlappingRuns(s: Scheduler, jobId: int, gate: Gate, generate: Payload -> PipelineReply, now: int)
    returns (second: TickOutcome, sent: Option<Payload>)
    requires s.Valid() && jobId in s.tasks && jobId !in s.locks
    requires s.rows[jobId].userId == CurrentUser && gate(RunnerRequest).Allowed?
    modifies s
    ensures second == Skipped && sent == None
    ensures s.Valid() && jobId in s.rows && s.rows[jobId].lastRunAt == Some(now)
    ensures jobId !in s.locks
  {
    var acquired := s.BeginTick(jobId);
    assert acquired;
    second, sent := s.Tick(jobId, gate, generate, now);
    var manual := s.TriggerScheduledJob(jobId, gate, generate, now);
    s.EndTick(jobId);
  }

  /** Starting the same job twice leaves exactly one task for it. */
  method StartTwice(s: Scheduler, jobId: int, gate: Gate)
    requires s.Valid() && jobId in s.rows && s.rows[jobId].config.isActive && gate(RunnerRequest).Allowed?
    modifies s
    ensures jobId in s.rows && s.tasks == old(s.tasks - {jobId})[jobId := Installed(s.rows[jobId])]
  {
    s.StartCronJob(s.rows[jobId], gate);
    s.StartCronJob(s.rows[jobId], gate);
  }

  /** After a delete, status lists no task for the id and the row is gone. */
  method DeleteLeavesNoTrace(s: Scheduler, jobId: int) returns (reply: Reply, entries: seq<StatusEntry>)
    requires s.Valid() && jobId in s.rows && s.rows[jobId].userId == CurrentUser
    modifies s
    ensures jobId !in s.rows && reply.Status() == 200
    ensures forall i :: 0 <= i < |entries| ==> entries[i].jobId != jobId
  {
    reply := s.DeleteScheduledJob(jobId);
    var total;
    entries, total := s.GetActiveCronJobsStatus();
  }
}
