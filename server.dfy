/**
 * The job service of backend/server.py: an in-memory store of job records keyed
 * by job id, a bounded queue of the jobs being worked on (`deque(maxlen=10)`),
 * and the endpoints and worker that read and change them. Clock readings, fresh
 * ids, environment variables and the report graph's outcome are parameters.
 * Progress is kept in tenths (0.3 is 3).
 */
module Server {
  import opened Wrappers
  import opened Strings
  import Deque

  type JobId = string

  datatype JobStatus = Queued | Processing | Completed | Failed

  /** The status string stored in a record and sent to clients. */
  function StatusText(s: JobStatus): string
  {
    match s
    case Queued => "queued"
    case Processing => "processing"
    case Completed => "completed"
    case Failed => "failed"
  }

  /** Distinct statuses go out as distinct strings, so a client can tell every status apart. */
  lemma StatusTextInjective(a: JobStatus, b: JobStatus)
    ensures StatusText(a) == StatusText(b) <==> a == b
  {
  }

  const MaxActiveJobs: nat := 10
  const MaxJobAgeSeconds: real := 3600.0
  const WarmUpSeconds: real := 30.0
  const SecondsPerQueuedJob: int := 60

  const PlanningProgress: int := 1
  const CompletedProgress: int := 10

  datatype ProgressStep = ProgressStep(progress: int, message: string)

  /** The mock progress ladder the worker walks before running the graph. */
  const ProgressSteps: seq<ProgressStep> := [
    ProgressStep(2, "Generating search queries..."),
    ProgressStep(3, "Searching for relevant information..."),
    ProgressStep(5, "Analyzing search results..."),
    ProgressStep(7, "Writing report sections..."),
    ProgressStep(9, "Reviewing and refining content...")
  ]

  /** Every progress value a job that has not completed can show. */
  const UnfinishedProgress: set<int> := {0, 1, 2, 3, 5, 7, 9}

  /** A configuration value: JSON null, a string, or any other JSON value kept as its text. */
  datatype ConfigValue = Null | Str(text: string) | OtherJson(repr: string)

  datatype ReportRequest = ReportRequest(topic: string, configOverrides: Option<map<string, ConfigValue>>)

  datatype ReportResponse = ReportResponse(topic: string, content: string)

  /** A record of `JOBS`; an optional key that is absent is `None`. */
  datatype JobRecord = JobRecord(
    status: JobStatus,
    progress: int,
    message: string,
    createdAt: real,
    request: ReportRequest,
    positionInQueue: Option<int>,
    estimatedTime: Option<int>,
    report: Option<ReportResponse>,
    error: Option<string>)

  /** The `JobResult` response model. */
  datatype JobResult = JobResult(
    jobId: JobId,
    status: string,
    progress: int,
    message: string,
    report: Option<ReportResponse>,
    positionInQueue: Option<int>,
    estimatedTime: Option<int>,
    error: Option<string>)

  datatype HttpError = HttpError(statusCode: int, detail: string)

  datatype HealthReport = HealthReport(
    status: string, serverStatus: string, currentLoad: nat, maxCapacity: nat, isWarmingUp: bool)

  /** The environment variables the worker reads; `None` when unset. */
  datatype Env = Env(
    searchApi: Option<string>, plannerProvider: Option<string>, plannerModel: Option<string>,
    writerProvider: Option<string>, writerModel: Option<string>)

  /** How running the report graph ended: it returned (with or without `final_report`) or raised. */
  datatype GraphOutcome = Returned(finalReport: Option<string>) | Raised(message: string)

  // ---------------------------------------------------------------- API key

  const ApiKeyError := HttpError(401, "Invalid or missing API Key")

  /**
   * `get_api_key`: the header must equal the configured key, where an absent one counts as
   * `None`. `header` is the value after FastAPI's `APIKeyHeader(auto_error=False)` extraction,
   * which passes an absent or empty `X-API-Key` as `None`, so `Some("")` never arrives here.
   */
  function GetApiKey(header: Option<string>, configured: Option<string>): (r: Result<Option<string>, HttpError>)
    ensures r.Success? <==> header == configured
    ensures r.Success? ==> r.value == header
    ensures r.Failure? ==> r.error == ApiKeyError
  {
    if header == configured then Success(header) else Failure(ApiKeyError)
  }

  /** With no key configured, exactly the requests that send no key are let in. */
  lemma UnsetKeyAdmitsOnlyKeylessRequests(header: Option<string>)
    ensures GetApiKey(header, None).Success? <==> header.None?
  {
  }

  // ---------------------------------------------------------------- health

  /** Whether the service still counts as starting up at time `now`. */
  function IsWarmingUp(startupTime: Option<real>, now: real): bool
  {
    match startupTime
    case None => true
    case Some(t) => now - t < WarmUpSeconds
  }

  /** The `/health` payload for the given queue length. */
  function HealthReportOf(load: nat, startupTime: Option<real>, now: real): (h: HealthReport)
    ensures h.status == "ok" && h.currentLoad == load && h.maxCapacity == MaxActiveJobs
    ensures h.serverStatus == "busy" || h.serverStatus == "ready"
    ensures h.serverStatus == "busy" <==> load >= MaxActiveJobs
    ensures h.isWarmingUp <==> startupTime.None? || now - startupTime.value < WarmUpSeconds
  {
    HealthReport("ok", if load >= MaxActiveJobs then "busy" else "ready", load, MaxActiveJobs, IsWarmingUp(startupTime, now))
  }

  /** Once the warm-up is over it stays over. */
  lemma WarmUpEndsForGood(startupTime: Option<real>, now: real, later: real)
    requires !IsWarmingUp(startupTime, now) && now <= later
    ensures !IsWarmingUp(startupTime, later)
  {
  }

  // ---------------------------------------------------------------- admission

  /** Place given to a request that arrives while the active queue holds `load` jobs. */
  function QueuePosition(load: nat): int
  {
    load + 1
  }

  // ---------------------------------------------------------------- configuration

  function EnvValue(v: Option<string>): ConfigValue
  {
    match v
    case None => Null
    case Some(s) => Str(s)
  }

  /** The worker's base `configurable` dictionary. */
  function BaseConfig(env: Env, threadId: string): map<string, ConfigValue>
  {
    map[
      "search_api" := EnvValue(env.searchApi),
      "planner_provider" := EnvValue(env.plannerProvider),
      "planner_model" := EnvValue(env.plannerModel),
      "writer_provider" := EnvValue(env.writerProvider),
      "writer_model" := EnvValue(env.writerModel),
      "thread_id" := Str(threadId)]
  }

  /** Writes every override into the configuration, one key at a time. */
  method ApplyOverrides(base: map<string, ConfigValue>, overrides: Option<map<string, ConfigValue>>)
    returns (config: map<string, ConfigValue>)
    ensures overrides.None? ==> config == base
    ensures overrides.Some? ==> config.Keys == base.Keys + overrides.value.Keys
    ensures overrides.Some? ==> forall k :: k in overrides.value ==> config[k] == overrides.value[k]
    ensures forall k :: k in base && (overrides.None? || k !in overrides.value) ==> k in config && config[k] == base[k]
  {
    config := base;
    if overrides.Some? && overrides.value != map[] {
      var named := overrides.value;
      var pending := named.Keys;
      while pending != {}
        invariant pending <= named.Keys
        invariant config.Keys == base.Keys + (named.Keys - pending)
        invariant forall k :: k in named && k !in pending ==> config[k] == named[k]
        invariant forall k :: k in base && k !in named ==> config[k] == base[k]
        decreases pending
      {
        var key :| key in pending;
        config := config[key := named[key]];
        pending := pending - {key};
      }
    }
  }

  // ---------------------------------------------------------------- records

  /** What a record of each status always carries. */
  predicate WellFormed(rec: JobRecord)
  {
    match rec.status
    case Queued =>
      && rec.progress == 0 && rec.positionInQueue.Some?
      && rec.estimatedTime == Some(SecondsPerQueuedJob * rec.positionInQueue.value)
      && rec.report.None? && rec.error.None?
    case Processing =>
      && rec.progress in UnfinishedProgress
      && rec.positionInQueue.None? && rec.estimatedTime.None? && rec.report.None? && rec.error.None?
    case Completed =>
      && rec.progress == CompletedProgress
      && rec.report.Some? && rec.report.value.topic == rec.request.topic
      && rec.positionInQueue.None? && rec.estimatedTime.None? && rec.error.None?
    case Failed =>
      && rec.progress in UnfinishedProgress
      && rec.error.Some?
      && rec.positionInQueue.None? && rec.estimatedTime.None? && rec.report.None?
  }

  predicate StoreWellFormed(jobs: map<JobId, JobRecord>)
  {
    forall id :: id in jobs ==> WellFormed(jobs[id])
  }

  /**
   * How any operation may change a record that it keeps: progress never goes down, and a
   * queued, completed or failed record never changes at all.
   */
  ghost predicate StoreStep(before: map<JobId, JobRecord>, after: map<JobId, JobRecord>)
  {
    forall id :: id in before && id in after ==>
      && before[id].progress <= after[id].progress
      && (before[id].status != Processing ==> after[id] == before[id])
  }

  /** Steps compose: any sequence of operations keeps the same guarantees from its start. */
  lemma StoreStepTransitive(a: map<JobId, JobRecord>, b: map<JobId, JobRecord>, c: map<JobId, JobRecord>)
    requires StoreStep(a, b) && StoreStep(b, c)
    requires forall id :: id in a && id in c ==> id in b
    ensures StoreStep(a, c)
  {
  }

  /** The status response for a record. */
  function StatusView(jobId: JobId, rec: JobRecord): JobResult
  {
    JobResult(jobId, StatusText(rec.status), rec.progress, rec.message, rec.report,
              rec.positionInQueue, rec.estimatedTime, rec.error)
  }

  /**
   * What a poller can rely on in a status response: a completed job carries its report and
   * progress 1.0, a failed one its error, a queued one its position and estimate.
   */
  lemma StatusViewContract(jobId: JobId, rec: JobRecord)
    requires WellFormed(rec)
    ensures var v := StatusView(jobId, rec);
      && 0 <= v.progress <= CompletedProgress
      && (v.status == StatusText(Completed) ==> v.report.Some? && v.report.value.topic == rec.request.topic && v.progress == CompletedProgress && v.error.None?)
      && (v.status == StatusText(Failed) ==> v.error.Some? && v.report.None? && v.progress < CompletedProgress)
      && (v.status == StatusText(Queued) ==>
            v.progress == 0 && v.positionInQueue.Some? && v.estimatedTime == Some(SecondsPerQueuedJob * v.positionInQueue.value))
      && (v.status == StatusText(Processing) ==> v.report.None? && v.error.None?)
  {
  }

  // ---------------------------------------------------------------- cleanup

  predicate Expired(rec: JobRecord, now: real)
  {
    now - rec.createdAt > MaxJobAgeSeconds
  }

  /** The records cleanup keeps. */
  function Survivors(jobs: map<JobId, JobRecord>, now: real): (kept: map<JobId, JobRecord>)
    ensures forall id :: id in kept <==> id in jobs && !Expired(jobs[id], now)
    ensures forall id :: id in kept ==> kept[id] == jobs[id]
  {
    map id | id in jobs && !Expired(jobs[id], now) :: jobs[id]
  }

  /** A second cleanup at the same time removes nothing more. */
  lemma CleanupIdempotent(jobs: map<JobId, JobRecord>, now: real)
    ensures Survivors(Survivors(jobs, now), now) == Survivors(jobs, now)
  {
  }

  /** The first loop of `cleanup_old_jobs`: the ids of every record older than the limit. */
  method CollectExpired(jobs: map<JobId, JobRecord>, now: real) returns (ids: seq<JobId>)
    ensures forall id :: id in ids <==> id in jobs && Expired(jobs[id], now)
    ensures forall i, j :: 0 <= i < j < |ids| ==> ids[i] != ids[j]
  {
    ids := [];
    var unvisited := jobs.Keys;
    while unvisited != {}
      invariant unvisited <= jobs.Keys
      invariant forall id :: id in ids <==> id in jobs && id !in unvisited && Expired(jobs[id], now)
      invariant forall i, j :: 0 <= i < j < |ids| ==> ids[i] != ids[j]
      decreases unvisited
    {
      var id :| id in unvisited;
      if Expired(jobs[id], now) {
        ids := ids + [id];
      }
      unvisited := unvisited - {id};
    }
  }

  // ---------------------------------------------------------------- the store

  class JobStore {
    var jobs: map<JobId, JobRecord>
    var active: seq<JobId>
    var startupTime: Option<real>

    ghost predicate Valid()
      reads this
    {
      |active| <= MaxActiveJobs && StoreWellFormed(jobs)
    }

    /** The store as the module is imported: no jobs, an empty queue, no startup time yet. */
    constructor ()
      ensures Valid()
      ensures jobs == map[] && active == [] && startupTime == None
    {
      jobs := map[];
      active := [];
      startupTime := None;
    }

    /** `startup_event`: records the startup time (the cleanup task it spawns is `CleanupOldJobs`). */
    method Startup(now: real)
      requires Valid()
      modifies this`startupTime
      ensures Valid() && startupTime == Some(now)
    {
      startupTime := Some(now);
    }

    /** `health_check`. */
    method HealthCheck(now: real) returns (h: HealthReport)
      requires Valid()
      ensures h == HealthReportOf(|active|, startupTime, now)
      ensures h.serverStatus == "busy" <==> |active| == MaxActiveJobs
    {
      var load := |active|;
      var serverStatus := if load >= MaxActiveJobs then "busy" else "ready";
      var cold := if startupTime.Some? then now - startupTime.value < WarmUpSeconds else true;
      h := HealthReport("ok", serverStatus, load, MaxActiveJobs, cold);
    }

    /**
     * `start_report_generation`: checks the key, then parks the job as queued when the
     * active queue is full or records it as processing and asks for a worker.
     */
    method StartReportGeneration(apiKeyHeader: Option<string>, configuredKey: Option<string>,
                                 request: ReportRequest, jobId: JobId, now: real)
      returns (r: Result<JobResult, HttpError>, startWorker: bool)
      requires Valid() && jobId !in jobs
      modifies this`jobs
      ensures Valid() && StoreStep(old(jobs), jobs)
      ensures GetApiKey(apiKeyHeader, configuredKey).Failure? ==>
        r == Failure(ApiKeyError) && jobs == old(jobs) && !startWorker
      ensures GetApiKey(apiKeyHeader, configuredKey).Success? ==>
        && jobs.Keys == old(jobs).Keys + {jobId}
        && jobs == old(jobs)[jobId := jobs[jobId]]
        && jobs[jobId].progress == 0 && jobs[jobId].createdAt == now && jobs[jobId].request == request
        && r.Success? && r.value.jobId == jobId && r.value.status == StatusText(jobs[jobId].status)
        && (startWorker <==> HealthReportOf(|active|, startupTime, now).serverStatus == "ready")
      ensures GetApiKey(apiKeyHeader, configuredKey).Success? && |active| >= MaxActiveJobs ==>
        var position := QueuePosition(|active|);
        && jobs[jobId] == JobRecord(Queued, 0, "Queued (position " + NatToString(position) + ")", now, request,
                                    Some(position), Some(SecondsPerQueuedJob * position), None, None)
        && r.value == JobResult(jobId, StatusText(Queued), 0, "Your request is queued (position " + NatToString(position) + ")",
                                None, Some(position), Some(SecondsPerQueuedJob * position), None)
      ensures GetApiKey(apiKeyHeader, configuredKey).Success? && |active| >= MaxActiveJobs ==>
        && jobs[jobId].positionInQueue == Some(11) && jobs[jobId].estimatedTime == Some(660)
        && jobs[jobId].message == "Queued (position 11)"
        && r.value.message == "Your request is queued (position 11)"
      ensures GetApiKey(apiKeyHeader, configuredKey).Success? && |active| < MaxActiveJobs ==>
        && jobs[jobId] == JobRecord(Processing, 0, "Starting research...", now, request, None, None, None, None)
        && r.value == JobResult(jobId, StatusText(Processing), 0,
                                "Research started. Please check job status to monitor progress.", None, None, None, None)
    {
      var auth := GetApiKey(apiKeyHeader, configuredKey);
      if auth.Failure? {
        return Failure(auth.error), false;
      }
      if |active| >= MaxActiveJobs {
        var position := |active| + 1;
        jobs := jobs[jobId := JobRecord(Queued, 0, "Queued (position " + NatToString(position) + ")", now, request,
                                        Some(position), Some(position * 60), None, None)];
        r := Success(JobResult(jobId, StatusText(Queued), 0, "Your request is queued (position " + NatToString(position) + ")",
                               None, Some(position), Some(position * 60), None));
        startWorker := false;
        return;
      }
      jobs := jobs[jobId := JobRecord(Processing, 0, "Starting research...", now, request, None, None, None, None)];
      startWorker := true;
      r := Success(JobResult(jobId, StatusText(Processing), 0,
                             "Research started. Please check job status to monitor progress.", None, None, None, None));
    }

    /**
     * First part of `process_report_job`: joins the active queue, marks the job as planning
     * and builds the graph configuration with the request's overrides applied.
     */
    method BeginProcessing(jobId: JobId, request: ReportRequest, env: Env, threadId: string)
      returns (config: map<string, ConfigValue>)
      requires Valid() && jobId in jobs && jobs[jobId].status == Processing && jobs[jobId].progress == 0
      modifies this`jobs, this`active
      ensures Valid() && StoreStep(old(jobs), jobs)
      ensures active == Deque.Append(old(active), jobId, MaxActiveJobs)
      ensures jobs == old(jobs)[jobId := old(jobs)[jobId].(progress := PlanningProgress, message := "Planning report structure...")]
      ensures request.configOverrides.None? ==> config == BaseConfig(env, threadId)
      ensures request.configOverrides.Some? ==>
        config.Keys == BaseConfig(env, threadId).Keys + request.configOverrides.value.Keys
        && forall k :: k in request.configOverrides.value ==> config[k] == request.configOverrides.value[k]
      ensures forall k :: k in BaseConfig(env, threadId) && (request.configOverrides.None? || k !in request.configOverrides.value) ==>
        k in config && config[k] == BaseConfig(env, threadId)[k]
    {
      active := Deque.Append(active, jobId, MaxActiveJobs);
      var rec := jobs[jobId];
      jobs := jobs[jobId := rec.(status := Processing, progress := PlanningProgress, message := "Planning report structure...")];
      config := ApplyOverrides(BaseConfig(env, threadId), request.configOverrides);
    }

    /** One rung of the progress ladder: overwrites progress and message. */
    method ReportProgress(jobId: JobId, step: nat)
      requires Valid() && jobId in jobs && jobs[jobId].status == Processing
      requires step < |ProgressSteps| && jobs[jobId].progress <= ProgressSteps[step].progress
      modifies this`jobs
      ensures Valid() && StoreStep(old(jobs), jobs)
      ensures jobs == old(jobs)[jobId := old(jobs)[jobId].(progress := ProgressSteps[step].progress,
                                                         message := ProgressSteps[step].message)]
    {
      var rec := jobs[jobId];
      jobs := jobs[jobId := rec.(progress := ProgressSteps[step].progress)];
      jobs := jobs[jobId := jobs[jobId].(message := ProgressSteps[step].message)];
    }

    /**
     * Last part of `process_report_job`: records the graph's outcome, then (the `finally`
     * block) takes the job out of the active queue if it is still there.
     */
    method FinishProcessing(jobId: JobId, request: ReportRequest, outcome: GraphOutcome)
      requires Valid() && jobId in jobs && jobs[jobId].status == Processing && jobs[jobId].request == request
      modifies this`jobs, this`active
      ensures Valid() && StoreStep(old(jobs), jobs)
      ensures active == if jobId in old(active) then Deque.RemoveFirst(old(active), jobId) else old(active)
      ensures jobId in jobs && jobs == old(jobs)[jobId := jobs[jobId]]
      ensures outcome.Returned? && outcome.finalReport.Some? ==>
        jobs[jobId] == old(jobs)[jobId].(status := Completed, progress := CompletedProgress, message := "Report completed",
                                         report := Some(ReportResponse(request.topic, outcome.finalReport.value)))
      ensures outcome.Returned? && outcome.finalReport.None? ==>
        jobs[jobId] == old(jobs)[jobId].(status := Failed, message := "Failed to generate report",
                                         error := Some("Graph finished but did not return a final report"))
      ensures outcome.Raised? ==>
        jobs[jobId] == old(jobs)[jobId].(status := Failed, message := "Error occurred during report generation",
                                         error := Some(outcome.message))
    {
      var rec := jobs[jobId];
      match outcome {
        case Returned(Some(finalReport)) =>
          jobs := jobs[jobId := rec.(status := Completed, progress := CompletedProgress, message := "Report completed",
                                     report := Some(ReportResponse(request.topic, finalReport)))];
        case Returned(None) =>
          jobs := jobs[jobId := rec.(status := Failed, message := "Failed to generate report",
                                     error := Some("Graph finished but did not return a final report"))];
        case Raised(e) =>
          jobs := jobs[jobId := rec.(status := Failed, message := "Error occurred during report generation",
                                     error := Some(e))];
      }
      if jobId in active {
        Deque.RemoveFirstCount(active, jobId);
        active := Deque.RemoveFirst(active, jobId);
      }
    }

    /** The five ladder rungs in order; `shown` lists the progress values written. */
    method WalkProgressLadder(jobId: JobId) returns (ghost shown: seq<int>)
      requires Valid() && jobId in jobs && jobs[jobId].status == Processing
      requires jobs[jobId].progress == PlanningProgress
      modifies this`jobs
      ensures Valid() && StoreStep(old(jobs), jobs)
      ensures jobs == old(jobs)[jobId := old(jobs)[jobId].(progress := ProgressSteps[|ProgressSteps| - 1].progress,
                                                         message := ProgressSteps[|ProgressSteps| - 1].message)]
      ensures shown == [2, 3, 5, 7, 9]
    {
      shown := [];
      for i := 0 to |ProgressSteps|
        invariant Valid() && jobId in jobs && jobs[jobId].status == Processing
        invariant i == 0 ==> jobs == old(jobs)
        invariant 0 < i ==> jobs == old(jobs)[jobId := old(jobs)[jobId].(progress := ProgressSteps[i - 1].progress,
                                                                      message := ProgressSteps[i - 1].message)]
        invariant shown == [2, 3, 5, 7, 9][..i]
      {
        ReportProgress(jobId, i);
        shown := shown + [jobs[jobId].progress];
      }
    }

    /**
     * `process_report_job`, start to finish: planning, the five ladder rungs, then the outcome.
     * `progressTrace` lists the progress values the record shows, in order.
     */
    method ProcessReportJob(jobId: JobId, request: ReportRequest, env: Env, threadId: string, outcome: GraphOutcome)
      returns (config: map<string, ConfigValue>, ghost progressTrace: seq<int>)
      requires Valid() && jobId in jobs && jobs[jobId].status == Processing
      requires jobs[jobId].progress == 0 && jobs[jobId].request == request
      modifies this`jobs, this`active
      ensures Valid() && StoreStep(old(jobs), jobs)
      ensures jobId in jobs && jobs == old(jobs)[jobId := jobs[jobId]]
      ensures active == Deque.RemoveFirst(Deque.Append(old(active), jobId, MaxActiveJobs), jobId)
      ensures request.configOverrides.None? ==> config == BaseConfig(env, threadId)
      ensures request.configOverrides.Some? ==>
        config.Keys == BaseConfig(env, threadId).Keys + request.configOverrides.value.Keys
        && forall k :: k in request.configOverrides.value ==> config[k] == request.configOverrides.value[k]
      ensures forall k :: k in BaseConfig(env, threadId) && (request.configOverrides.None? || k !in request.configOverrides.value) ==>
        k in config && config[k] == BaseConfig(env, threadId)[k]
      ensures outcome.Returned? && outcome.finalReport.Some? ==>
        && jobs[jobId] == old(jobs)[jobId].(status := Completed, progress := CompletedProgress, message := "Report completed",
                                            report := Some(ReportResponse(request.topic, outcome.finalReport.value)))
        && progressTrace == [1, 2, 3, 5, 7, 9, 10]
      ensures outcome.Returned? && outcome.finalReport.None? ==>
        && jobs[jobId] == old(jobs)[jobId].(status := Failed, progress := 9, message := "Failed to generate report",
                                            error := Some("Graph finished but did not return a final report"))
        && progressTrace == [1, 2, 3, 5, 7, 9]
      ensures outcome.Raised? ==>
        && jobs[jobId] == old(jobs)[jobId].(status := Failed, progress := 9, message := "Error occurred during report generation",
                                            error := Some(outcome.message))
        && progressTrace == [1, 2, 3, 5, 7, 9]
      ensures forall i, j :: 0 <= i < j < |progressTrace| ==> progressTrace[i] < progressTrace[j]
      ensures progressTrace[|progressTrace| - 1] == jobs[jobId].progress
    {
      ghost var initial := jobs;
      config := BeginProcessing(jobId, request, env, threadId);
      ghost var planning := jobs;
      var shown := WalkProgressLadder(jobId);
      ghost var reviewing := jobs;
      StoreStepTransitive(initial, planning, reviewing);
      assert jobId in active by {
        assert active[|active| - 1] == jobId;
      }
      FinishProcessing(jobId, request, outcome);
      StoreStepTransitive(initial, reviewing, jobs);
      progressTrace := [PlanningProgress] + shown;
      if outcome.Returned? && outcome.finalReport.Some? {
        progressTrace := progressTrace + [jobs[jobId].progress];
      }
    }

    /** One pass of `cleanup_old_jobs`: collects the stale ids, then deletes them. */
    method CleanupOldJobs(now: real)
      requires Valid()
      modifies this`jobs
      ensures Valid() && StoreStep(old(jobs), jobs)
      ensures jobs == Survivors(old(jobs), now)
    {
      var stale := CollectExpired(jobs, now);
      for i := 0 to |stale|
        invariant forall k :: i <= k < |stale| ==> stale[k] in jobs
        invariant jobs == old(jobs) - set k | 0 <= k < i :: stale[k]
      {
        jobs := jobs - {stale[i]};
      }
      assert (set k | 0 <= k < |stale| :: stale[k]) == set id | id in old(jobs) && Expired(old(jobs)[id], now);
    }

    /** `get_job_status`: 401 on a bad key, 404 on an unknown id, else the record's view. */
    method GetJobStatus(apiKeyHeader: Option<string>, configuredKey: Option<string>, jobId: JobId)
      returns (r: Result<JobResult, HttpError>)
      ensures GetApiKey(apiKeyHeader, configuredKey).Failure? ==> r == Failure(ApiKeyError)
      ensures GetApiKey(apiKeyHeader, configuredKey).Success? && jobId !in jobs ==>
        r == Failure(HttpError(404, "Job with ID " + jobId + " not found"))
      ensures GetApiKey(apiKeyHeader, configuredKey).Success? && jobId in jobs ==>
        r == Success(StatusView(jobId, jobs[jobId]))
    {
      var auth := GetApiKey(apiKeyHeader, configuredKey);
      if auth.Failure? {
        return Failure(auth.error);
      }
      if jobId !in jobs {
        return Failure(HttpError(404, "Job with ID " + jobId + " not found"));
      }
      var rec := jobs[jobId];
      var result := JobResult(jobId, StatusText(rec.status), rec.progress, rec.message, None, None, None, None);
      if rec.positionInQueue.Some? {
        result := result.(positionInQueue := rec.positionInQueue);
      }
      if rec.estimatedTime.Some? {
        result := result.(estimatedTime := rec.estimatedTime);
      }
      if rec.error.Some? {
        result := result.(error := rec.error);
      }
      if rec.report.Some? {
        result := result.(report := rec.report);
      }
      r := Success(result);
    }
  }

  /**
   * The worker's queue effect: a job that was not in a queue with room leaves it as it was;
   * on a full queue its own `append` evicted the oldest active job, which stays evicted.
   */
  lemma WorkerQueueEffect(q: seq<JobId>, jobId: JobId)
    requires |q| <= MaxActiveJobs && jobId !in q
    ensures |q| < MaxActiveJobs ==> Deque.RemoveFirst(Deque.Append(q, jobId, MaxActiveJobs), jobId) == q
    ensures |q| == MaxActiveJobs ==> Deque.RemoveFirst(Deque.Append(q, jobId, MaxActiveJobs), jobId) == q[1..]
  {
    var appended := Deque.Append(q, jobId, MaxActiveJobs);
    Deque.RemoveFirstSplices(appended, jobId);
    var i := Deque.FirstIndex(appended, jobId);
    assert i == |appended| - 1;
  }
}
