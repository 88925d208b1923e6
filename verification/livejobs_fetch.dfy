/**
 * The snapshot fetch (`fetchJobs` in `internal/ui/livejobs.go`): loading the
 * configuration and calling the daemon are parameters, and what is left is
 * the conversion of the daemon's active and recent records into jobs, with
 * every failure collapsing into an empty snapshot.
 */
module JobsFetch {
  import opened Runtime
  import opened Clock
  import opened LiveJobs

  /** One job record as the daemon reports it; the duration is in milliseconds. */
  datatype WireJob = WireJob(
    id: string,
    model: string,
    modelType: string,
    status: string,
    progress: real,
    startTime: string,
    durationMs: int,
    nodeId: string)

  datatype LiveJobsResponse = LiveJobsResponse(active: seq<WireJob>, recent: seq<WireJob>)

  /** `time.Parse` with the `time.RFC3339Nano` layout: the instant, or nothing on failure. */
  type TimeParser = string -> Option<Instant>

  /** The daemon call for a base URL: the response, or nothing on any
      transport or decoding failure. */
  type LiveJobsCall = string -> Option<LiveJobsResponse>

  /** One wire record as a job. A start time that does not parse becomes
      the zero time (the parse error is ignored); milliseconds become an
      int64 count of nanoseconds. */
  function ToJob(w: WireJob, parse: TimeParser): (j: Job)
    ensures j.id == w.id && j.model == w.model && j.modelType == w.modelType
    ensures j.status == w.status && j.progress == w.progress && j.nodeId == w.nodeId
    ensures parse(w.startTime).Some? ==> j.startTime == parse(w.startTime).value
    ensures parse(w.startTime).None? ==> j.startTime == ZeroTime
    ensures InInt64(j.duration)
    ensures InInt64(w.durationMs * Millisecond) ==> j.duration == w.durationMs * Millisecond
  {
    var start := match parse(w.startTime) case Some(t) => t case None => ZeroTime;
    Job(w.id, w.model, w.modelType, w.status, w.progress, start, FromMillis(w.durationMs), w.nodeId)
  }

  /** The conversion loops: the active records, then the recent ones, one
      job each and in order. */
  method ConvertResponse(resp: LiveJobsResponse, parse: TimeParser) returns (jobs: seq<Job>)
    ensures |jobs| == |resp.active| + |resp.recent|
    ensures forall i :: 0 <= i < |resp.active| ==> jobs[i] == ToJob(resp.active[i], parse)
    ensures forall i :: 0 <= i < |resp.recent| ==> jobs[|resp.active| + i] == ToJob(resp.recent[i], parse)
  {
    jobs := [];
    for i := 0 to |resp.active|
      invariant |jobs| == i
      invariant forall k :: 0 <= k < i ==> jobs[k] == ToJob(resp.active[k], parse)
    {
      jobs := jobs + [ToJob(resp.active[i], parse)];
    }
    for i := 0 to |resp.recent|
      invariant |jobs| == |resp.active| + i
      invariant forall k :: 0 <= k < |resp.active| ==> jobs[k] == ToJob(resp.active[k], parse)
      invariant forall k :: 0 <= k < i ==> jobs[|resp.active| + k] == ToJob(resp.recent[k], parse)
    {
      jobs := jobs + [ToJob(resp.recent[i], parse)];
    }
  }

  /** The whole fetch. `config` is the daemon URL from the configuration,
      or nothing when it failed to load; every failure yields an empty
      snapshot, indistinguishable from an idle daemon. */
  method FetchJobs(config: Option<string>, call: LiveJobsCall, parse: TimeParser) returns (msg: Msg)
    ensures msg.JobUpdateMsg?
    ensures config.None? ==> msg.jobs == []
    ensures config.Some? && call(config.value).None? ==> msg.jobs == []
    ensures config.Some? && call(config.value).Some? ==>
              var resp := call(config.value).value;
              && |msg.jobs| == |resp.active| + |resp.recent|
              && (forall i :: 0 <= i < |resp.active| ==> msg.jobs[i] == ToJob(resp.active[i], parse))
              && (forall i :: 0 <= i < |resp.recent| ==> msg.jobs[|resp.active| + i] == ToJob(resp.recent[i], parse))
  {
    if config.None? {
      return JobUpdateMsg([]);
    }
    var response := call(config.value);
    if response.None? {
      return JobUpdateMsg([]);
    }
    var jobs := ConvertResponse(response.value, parse);
    return JobUpdateMsg(jobs);
  }

  /** A reported duration that fits in int64 nanoseconds arrives unchanged
      in milliseconds; one beyond about 292 years wraps around. */
  lemma DurationWrapsBeyondInt64()
    ensures FromMillis(9_223_372_036_854) == 9_223_372_036_854 * Millisecond
    ensures FromMillis(9_223_372_036_855) < 0
  {
  }
}
