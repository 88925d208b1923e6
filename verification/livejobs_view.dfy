/**
 * What the live job monitor shows (`View` and `renderJob` in
 * `internal/ui/livejobs.go`), as a structured frame rather than styled text:
 * the status counts, the empty-list line or one card per job, and nothing
 * at all once quitting.
 */
module JobsView {
  import opened Runtime
  import opened Clock
  import opened LiveJobs

  /** The closed set of statuses the header counts. */
  const KnownStatuses: set<string> := {Running, Queued, Completed, Failed}

  /** Characters of the id shown on a card (`ID[:8]`). */
  const ShortIdLength: nat := 8

  /** Width the progress component is given for a running job. */
  const ProgressWidth: nat := 70

  const Onnx: string := "onnx"

  datatype StatusCounts = StatusCounts(running: nat, queued: nat, completed: nat, failed: nat)

  /** Icon and label per status; an unknown status renders both empty. */
  datatype Badge = RunningBadge(spinner: Spinner) | QueuedBadge | CompletedBadge | FailedBadge | NoBadge

  datatype ModelIcon = RobotIcon | MicroscopeIcon

  /** The duration shown in brackets: the elapsed time, or "-" for a queued job. */
  datatype DurationLabel = Elapsed(d: Duration) | Dash

  /** The progress bar drawn at `width` for `fraction`, and the percentage label. */
  datatype ProgressLine = ProgressLine(width: nat, fraction: real, percent: real)

  datatype JobCard = JobCard(
    badge: Badge,
    modelIcon: ModelIcon,
    model: string,
    duration: DurationLabel,
    shortId: string,
    nodeId: string,
    bar: Option<ProgressLine>)

  datatype Body = NoJobs(lastChecked: Instant) | Cards(cards: seq<JobCard>)

  datatype Screen = Blank | Frame(counts: StatusCounts, body: Body)

  function Total(c: StatusCounts): nat {
    c.running + c.queued + c.completed + c.failed
  }

  function CountStatus(jobs: seq<Job>, status: string): (n: nat)
    ensures n <= |jobs|
  {
    if |jobs| == 0 then 0
    else (if jobs[0].status == status then 1 else 0) + CountStatus(jobs[1..], status)
  }

  function Counts(jobs: seq<Job>): StatusCounts {
    StatusCounts(CountStatus(jobs, Running), CountStatus(jobs, Queued),
                 CountStatus(jobs, Completed), CountStatus(jobs, Failed))
  }

  /** The four counts never exceed the number of jobs, and add up to it
      exactly when every status is one of the four known ones. */
  lemma {:induction false} CountsCoverJobs(jobs: seq<Job>)
    ensures Total(Counts(jobs)) <= |jobs|
    ensures Total(Counts(jobs)) == |jobs| <==>
              forall i :: 0 <= i < |jobs| ==> jobs[i].status in KnownStatuses
  {
    if |jobs| > 0 {
      var tail := jobs[1..];
      CountsCoverJobs(tail);
      assert Total(Counts(jobs)) == (if jobs[0].status in KnownStatuses then 1 else 0) + Total(Counts(tail));
      if forall i :: 0 <= i < |jobs| ==> jobs[i].status in KnownStatuses {
        assert forall i :: 0 <= i < |tail| ==> tail[i].status in KnownStatuses by {
          forall i | 0 <= i < |tail| ensures tail[i].status in KnownStatuses {
            assert tail[i] == jobs[i + 1];
          }
        }
      } else {
        var k :| 0 <= k < |jobs| && jobs[k].status !in KnownStatuses;
        if k > 0 {
          assert tail[k - 1] == jobs[k];
        }
      }
    }
  }

  /** Two lists with the same statuses, position by position, have the same counts. */
  lemma {:induction false} SameStatusesSameCounts(a: seq<Job>, b: seq<Job>, status: string)
    requires |a| == |b|
    requires forall i :: 0 <= i < |a| ==> a[i].status == b[i].status
    ensures CountStatus(a, status) == CountStatus(b, status)
  {
    if |a| > 0 {
      assert forall i :: 0 <= i < |a| - 1 ==> a[1..][i].status == b[1..][i].status by {
        forall i | 0 <= i < |a| - 1 ensures a[1..][i].status == b[1..][i].status {
          assert a[1..][i] == a[i + 1] && b[1..][i] == b[i + 1];
        }
      }
      SameStatusesSameCounts(a[1..], b[1..], status);
    }
  }

  /** A tick changes no count in the header. */
  lemma TickKeepsCounts(jobs: seq<Job>, now: Instant)
    ensures Counts(TickJobs(jobs, now)) == Counts(jobs)
  {
    var t := TickJobs(jobs, now);
    assert forall i :: 0 <= i < |jobs| ==> t[i].status == jobs[i].status by {
      forall i | 0 <= i < |jobs| ensures t[i].status == jobs[i].status {
        assert TickedJob(jobs[i], t[i], now);
      }
    }
    SameStatusesSameCounts(t, jobs, Running);
    SameStatusesSameCounts(t, jobs, Queued);
    SameStatusesSameCounts(t, jobs, Completed);
    SameStatusesSameCounts(t, jobs, Failed);
  }

  function BadgeFor(status: string, spin: Spinner): Badge {
    if status == Running then RunningBadge(spin)
    else if status == Queued then QueuedBadge
    else if status == Completed then CompletedBadge
    else if status == Failed then FailedBadge
    else NoBadge
  }

  /** One job's card. Slicing the id to eight characters panics on a shorter id. */
  function RenderJob(j: Job, spin: Spinner): (r: Outcome<JobCard>)
    ensures r.Panicked? <==> |j.id| < ShortIdLength
    ensures r.Returned? ==> j.id == r.value.shortId + j.id[ShortIdLength..] && |r.value.shortId| == ShortIdLength
    ensures r.Returned? ==> (r.value.duration == Dash <==> j.status == Queued)
    ensures r.Returned? && j.status != Queued ==> r.value.duration == Elapsed(j.duration)
    ensures r.Returned? ==> (r.value.bar.Some? <==> j.status == Running)
    ensures r.Returned? && j.status == Running ==>
              && r.value.bar.value.width == ProgressWidth
              && r.value.bar.value.fraction == j.progress
              && r.value.bar.value.percent == j.progress * 100.0
    ensures r.Returned? ==> (r.value.modelIcon == MicroscopeIcon <==> j.modelType == Onnx)
    ensures r.Returned? ==> (r.value.badge == NoBadge <==> j.status !in KnownStatuses)
    ensures r.Returned? && j.status == Running ==> r.value.badge == RunningBadge(spin)
    ensures r.Returned? && j.status == Queued ==> r.value.badge == QueuedBadge
    ensures r.Returned? && j.status == Completed ==> r.value.badge == CompletedBadge
    ensures r.Returned? && j.status == Failed ==> r.value.badge == FailedBadge
    ensures r.Returned? ==> r.value.model == j.model && r.value.nodeId == j.nodeId
  {
    var icon := if j.modelType == Onnx then MicroscopeIcon else RobotIcon;
    var duration := if j.status == Queued then Dash else Elapsed(j.duration);
    if |j.id| < ShortIdLength then Panicked
    else
      var bar := if j.status == Running
                 then Some(ProgressLine(ProgressWidth, j.progress, j.progress * 100.0))
                 else None;
      Returned(JobCard(BadgeFor(j.status, spin), icon, j.model, duration, j.id[..ShortIdLength], j.nodeId, bar))
  }

  /** The cards of all jobs in order; a single short id panics the whole render. */
  function RenderJobs(jobs: seq<Job>, spin: Spinner): (r: Outcome<seq<JobCard>>)
    ensures r.Panicked? <==> exists i :: 0 <= i < |jobs| && |jobs[i].id| < ShortIdLength
    ensures r.Returned? ==> |r.value| == |jobs|
    ensures r.Returned? ==> forall i :: 0 <= i < |jobs| ==> RenderJob(jobs[i], spin) == Returned(r.value[i])
  {
    if |jobs| == 0 then Returned([])
    else
      match RenderJob(jobs[0], spin)
      case Panicked => Panicked
      case Returned(card) =>
        match RenderJobs(jobs[1..], spin)
        case Panicked => Panicked
        case Returned(rest) => Returned([card] + rest)
  }

  /** The whole screen: blank once quitting, else the counts and either the
      empty-list line with the last refresh time or one card per job. */
  function View(m: Monitor): (r: Outcome<Screen>)
    ensures m.quitting ==> r == Returned(Blank)
    ensures !m.quitting ==>
              (r.Panicked? <==> exists i :: 0 <= i < |m.jobs| && |m.jobs[i].id| < ShortIdLength)
    ensures !m.quitting && r.Returned? ==>
              && r.value.Frame?
              && r.value.counts == Counts(m.jobs)
              && (r.value.body.NoJobs? <==> |m.jobs| == 0)
    ensures !m.quitting && |m.jobs| == 0 ==> r == Returned(Frame(StatusCounts(0, 0, 0, 0), NoJobs(m.lastUpdate)))
    ensures !m.quitting && r.Returned? && r.value.body.Cards? ==>
              && |r.value.body.cards| == |m.jobs|
              && forall i :: 0 <= i < |m.jobs| ==> RenderJob(m.jobs[i], m.spinner) == Returned(r.value.body.cards[i])
  {
    if m.quitting then Returned(Blank)
    else
      var counts := Counts(m.jobs);
      if |m.jobs| == 0 then Returned(Frame(counts, NoJobs(m.lastUpdate)))
      else
        match RenderJobs(m.jobs, m.spinner)
        case Panicked => Panicked
        case Returned(cards) => Returned(Frame(counts, Cards(cards)))
  }

  /** Once a quit key is handled, every later render is blank, whatever
      messages arrive after it. */
  lemma QuitBlanksEveryLaterView(m: Monitor, key: string, now: Instant, events: seq<Event>, spin: SpinnerUpdate)
    requires IsQuitKey(key)
    ensures View(Run(Update(m, KeyMsg(key), now, spin).0, events, spin)) == Returned(Blank)
  {
    QuittingIsSticky(Update(m, KeyMsg(key), now, spin).0, events, spin);
  }

  /** A snapshot replaces the shown jobs: after it the screen lists exactly
      the snapshot's jobs, and an empty snapshot shows the empty-list line
      stamped with the time it arrived. */
  lemma SnapshotReplacesScreen(m: Monitor, jobs: seq<Job>, now: Instant, spin: SpinnerUpdate)
    requires !m.quitting
    requires forall i :: 0 <= i < |jobs| ==> |jobs[i].id| >= ShortIdLength
    ensures var v := View(Update(m, JobUpdateMsg(jobs), now, spin).0);
            && v.Returned? && v.value.Frame?
            && v.value.counts == Counts(jobs)
            && (|jobs| == 0 ==> v.value.body == NoJobs(now))
            && (|jobs| > 0 ==>
                  && v.value.body.Cards?
                  && |v.value.body.cards| == |jobs|
                  && forall i :: 0 <= i < |jobs| ==> RenderJob(jobs[i], m.spinner) == Returned(v.value.body.cards[i]))
  {
  }

  /** The scenario of a running and a queued job: the header counts one of
      each, and one tick moves the running job from 0.3 to 0.35 while the
      queued job stays as it was. */
  lemma RunningAndQueuedScenario(start: Instant, now: Instant, later: Instant, spin: SpinnerUpdate)
    ensures var a := Job("abc12345", "llama3.2:3b", "ollama", Running, 0.3, start, 0, "node-1");
            var b := Job("def45678", "llama3.2:3b", "ollama", Queued, 0.0, start, 0, "node-1");
            var m1 := Update(InitialJobsModel(start), JobUpdateMsg([a, b]), now, spin).0;
            var m2 := Update(m1, JobsTickMsg(later), later, spin).0;
            && Counts(m1.jobs) == StatusCounts(1, 1, 0, 0)
            && m2.jobs[0].progress == 0.35
            && m2.jobs[1] == b
  {
    var a := Job("abc12345", "llama3.2:3b", "ollama", Running, 0.3, start, 0, "node-1");
    var b := Job("def45678", "llama3.2:3b", "ollama", Queued, 0.0, start, 0, "node-1");
    assert Counts([a, b]) == StatusCounts(1, 1, 0, 0) by {
      assert [a, b][1..] == [b];
      assert [b][1..] == [];
      assert Running != Queued && Running != Completed && Running != Failed;
      assert Queued != Completed && Queued != Failed;
      assert CountStatus([b], Running) == 0 && CountStatus([b], Queued) == 1;
      assert CountStatus([b], Completed) == 0 && CountStatus([b], Failed) == 0;
      assert CountStatus([a, b], Running) == 1 + CountStatus([b], Running);
      assert CountStatus([a, b], Queued) == CountStatus([b], Queued);
      assert CountStatus([a, b], Completed) == CountStatus([b], Completed);
      assert CountStatus([a, b], Failed) == CountStatus([b], Failed);
    }
  }
}
