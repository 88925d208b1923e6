/**
 * The live job monitor's state machine (`internal/ui/livejobs.go`): the
 * job record, the monitor state, the messages it consumes, the commands it
 * issues, and `Update` as a pure step. The spinner component is opaque: its
 * state is carried along and its own update is a parameter.
 */
module LiveJobs {
  import opened Runtime
  import opened Clock

  const Queued: string := "queued"
  const Running: string := "running"
  const Completed: string := "completed"
  const Failed: string := "failed"

  /** The only key that asks for a fresh snapshot. */
  const RefreshKey: string := "r"

  /** Interval of the monitor's own tick. */
  const TickInterval: Duration := 500 * Millisecond

  /** Simulated progress added per tick, and the bound below which it is added. */
  const ProgressStep: real := 0.05
  const ProgressCeiling: real := 0.95

  datatype Job = Job(
    id: string,
    model: string,
    modelType: string,
    status: string,
    progress: real,
    startTime: Instant,
    duration: Duration,
    nodeId: string)

  /** The spinner component's state; this model does not look inside it. */
  datatype Spinner = Spinner(frame: nat)

  const InitialSpinner: Spinner := Spinner(0)

  datatype Monitor = Monitor(
    jobs: seq<Job>,
    spinner: Spinner,
    quitting: bool,
    lastUpdate: Instant)

  datatype Msg =
    | KeyMsg(key: string)
    | JobUpdateMsg(jobs: seq<Job>)
    | JobsTickMsg(at: Instant)
    | OtherMsg(payload: string)

  datatype Cmd =
    | NoCmd
    | QuitCmd
    | FetchJobsCmd
    | JobsTickCmd(interval: Duration)
    | SpinnerTickCmd
    | Batch(cmds: seq<Cmd>)

  /** The spinner's own update for a message the monitor does not handle. */
  type SpinnerUpdate = (Spinner, string) -> (Spinner, Cmd)

  /** A command, or one of the commands batched inside it, is `target`. */
  predicate Issues(c: Cmd, target: Cmd)
    decreases c
  {
    c == target || (c.Batch? && exists i :: 0 <= i < |c.cmds| && Issues(c.cmds[i], target))
  }

  predicate IsQuitKey(key: string) {
    key == "q" || key == "esc" || key == "ctrl+c"
  }

  /** The state the monitor starts in, created at `now`. */
  function InitialJobsModel(now: Instant): (m: Monitor)
    ensures m.jobs == [] && !m.quitting
    ensures m.lastUpdate == now
  {
    Monitor([], InitialSpinner, false, now)
  }

  /** The commands issued at start: the spinner's tick and the monitor's
      tick, nothing else, and in particular no fetch. */
  function Init(m: Monitor): (c: Cmd)
    ensures c.Batch? && |c.cmds| == 2
    ensures Issues(c, SpinnerTickCmd)
    ensures Issues(c, JobsTickCmd(TickInterval))
    ensures forall t :: Issues(c, t) && !t.Batch? ==> t == SpinnerTickCmd || t == JobsTickCmd(TickInterval)
    ensures !Issues(c, FetchJobsCmd) && !Issues(c, QuitCmd)
  {
    var c := Batch([SpinnerTickCmd, JobsTickCmd(TickInterval)]);
    assert c.cmds[0] == SpinnerTickCmd;
    assert c.cmds[1] == JobsTickCmd(TickInterval);
    c
  }

  /** What a tick may do to one job, stated field by field. */
  predicate TickedJob(before: Job, after: Job, now: Instant) {
    && after.id == before.id
    && after.model == before.model
    && after.modelType == before.modelType
    && after.status == before.status
    && after.startTime == before.startTime
    && after.nodeId == before.nodeId
    && (before.status != Running ==> after == before)
    && (before.status == Running ==>
          && after.duration == Since(now, before.startTime)
          && (before.progress < ProgressCeiling ==> after.progress == before.progress + ProgressStep)
          && (before.progress >= ProgressCeiling ==> after.progress == before.progress))
  }

  function TickJob(j: Job, now: Instant): (t: Job)
    ensures TickedJob(j, t, now)
  {
    if j.status != Running then j
    else
      var p := if j.progress < ProgressCeiling then j.progress + ProgressStep else j.progress;
      j.(duration := Since(now, j.startTime), progress := p)
  }

  /** The tick loop over every job, in place. */
  function TickJobs(jobs: seq<Job>, now: Instant): (r: seq<Job>)
    ensures |r| == |jobs|
    ensures forall i :: 0 <= i < |jobs| ==> TickedJob(jobs[i], r[i], now)
  {
    if |jobs| == 0 then []
    else [TickJob(jobs[0], now)] + TickJobs(jobs[1..], now)
  }

  /** One step of the event loop. `now` is the wall clock when the message is
      handled; `spin` is the spinner's own update. */
  function Update(m: Monitor, msg: Msg, now: Instant, spin: SpinnerUpdate): (r: (Monitor, Cmd))
    ensures r.0.quitting == (m.quitting || (msg.KeyMsg? && IsQuitKey(msg.key)))
    ensures msg.KeyMsg? && IsQuitKey(msg.key) ==> r == (m.(quitting := true), QuitCmd)
    ensures msg.KeyMsg? && !IsQuitKey(msg.key) ==>
              r.0 == m && r.1 == (if msg.key == RefreshKey then FetchJobsCmd else NoCmd)
    ensures msg.JobUpdateMsg? ==>
              r.0 == m.(jobs := msg.jobs, lastUpdate := now) && r.1 == NoCmd
    ensures msg.JobsTickMsg? ==>
              && r.0.spinner == m.spinner && r.0.lastUpdate == m.lastUpdate
              && |r.0.jobs| == |m.jobs|
              && (forall i :: 0 <= i < |m.jobs| ==> TickedJob(m.jobs[i], r.0.jobs[i], now))
              && r.1 == JobsTickCmd(TickInterval)
    ensures msg.OtherMsg? ==>
              && r.0.jobs == m.jobs && r.0.lastUpdate == m.lastUpdate
              && (r.0.spinner, r.1) == spin(m.spinner, msg.payload)
  {
    match msg
    case KeyMsg(key) =>
      if IsQuitKey(key) then (m.(quitting := true), QuitCmd)
      else if key == RefreshKey then (m, FetchJobsCmd)
      else (m, NoCmd)
    case JobUpdateMsg(jobs) =>
      (m.(jobs := jobs, lastUpdate := now), NoCmd)
    case JobsTickMsg(_) =>
      (m.(jobs := TickJobs(m.jobs, now)), JobsTickCmd(TickInterval))
    case OtherMsg(payload) =>
      var (s, c) := spin(m.spinner, payload);
      (m.(spinner := s), c)
  }

  /** A message together with the wall clock at which it is handled. */
  datatype Event = Event(msg: Msg, now: Instant)

  /** The loop consuming events one at a time, in order. */
  function Run(m: Monitor, events: seq<Event>, spin: SpinnerUpdate): Monitor
    decreases |events|
  {
    if |events| == 0 then m
    else Run(Update(m, events[0].msg, events[0].now, spin).0, events[1..], spin)
  }

  predicate ProgressInRange(jobs: seq<Job>) {
    forall i :: 0 <= i < |jobs| ==> 0.0 <= jobs[i].progress <= 1.0
  }

  predicate SnapshotsInRange(events: seq<Event>) {
    forall i :: 0 <= i < |events| && events[i].msg.JobUpdateMsg? ==> ProgressInRange(events[i].msg.jobs)
  }

  /** Simulated progress never decreases, and never goes past 1 from a
      value at most 1; below the ceiling it rises by exactly one step. */
  lemma TickProgressBounds(j: Job, now: Instant)
    ensures TickJob(j, now).progress >= j.progress
    ensures j.progress <= 1.0 ==> TickJob(j, now).progress <= 1.0
    ensures j.status == Running && j.progress < ProgressCeiling ==> TickJob(j, now).progress < 1.0
  {
  }

  /** There is no cap at the ceiling itself: a running job at 0.94 moves to 0.99. */
  lemma TickPassesCeiling(j: Job, now: Instant)
    requires j.status == Running && j.progress == 0.94
    ensures TickJob(j, now).progress == 0.99 > ProgressCeiling
  {
  }

  /** A tick leaves a list holding no running job exactly as it was. */
  lemma TickIdleJobsUnchanged(jobs: seq<Job>, now: Instant)
    requires forall i :: 0 <= i < |jobs| ==> jobs[i].status != Running
    ensures TickJobs(jobs, now) == jobs
  {
  }

  /** A running job whose start time did not parse shows the largest
      duration after a tick, because `Time.Sub` saturates. */
  lemma UnparsedStartSaturates(j: Job, now: Instant)
    requires j.status == Running && j.startTime == ZeroTime
    requires now > MaxInt64
    ensures TickJob(j, now).duration == MaxInt64
  {
  }

  /** Quitting is sticky: no later message clears the flag. */
  lemma {:induction false} QuittingIsSticky(m: Monitor, events: seq<Event>, spin: SpinnerUpdate)
    requires m.quitting
    ensures Run(m, events, spin).quitting
    decreases |events|
  {
    if |events| > 0 {
      QuittingIsSticky(Update(m, events[0].msg, events[0].now, spin).0, events[1..], spin);
    }
  }

  /** Every job's progress stays in [0, 1] across any run whose snapshots
      report progress in [0, 1]. */
  lemma {:induction false} RunKeepsProgressInRange(m: Monitor, events: seq<Event>, spin: SpinnerUpdate)
    requires ProgressInRange(m.jobs)
    requires SnapshotsInRange(events)
    ensures ProgressInRange(Run(m, events, spin).jobs)
    decreases |events|
  {
    if |events| > 0 {
      var next := Update(m, events[0].msg, events[0].now, spin).0;
      if events[0].msg.JobsTickMsg? {
        forall i | 0 <= i < |next.jobs|
          ensures 0.0 <= next.jobs[i].progress <= 1.0
        {
          assert TickedJob(m.jobs[i], next.jobs[i], events[0].now);
        }
      } else if events[0].msg.JobUpdateMsg? {
        assert ProgressInRange(events[0].msg.jobs);
      }
      assert SnapshotsInRange(events[1..]) by {
        forall i | 0 <= i < |events[1..]| && events[1..][i].msg.JobUpdateMsg?
          ensures ProgressInRange(events[1..][i].msg.jobs)
        {
          assert events[1..][i] == events[i + 1];
        }
      }
      RunKeepsProgressInRange(next, events[1..], spin);
    }
  }
}
