/**
 * Selection logic of the `reign` command (`cmd/reign/main.go`) with the
 * printing taken out: which commands skip the daemon check, the eight-character
 * commit, which dashboards `status` shows for a role, and how `models network`
 * groups models by type and a model's locations by kind.
 */
module ReignCli {
  import opened Runtime
  import opened Dashboard

  /** The type tag of Ollama models on the wire. */
  const ModelTypeOllama: string := "ollama"

  /** Commands that run without making sure the daemon is up. */
  const DaemonFreeCommands: set<string> := {"version", "help", "completion"}

  /** Characters of the commit hash `version` prints (`Commit[:8]`). */
  const ShortCommitLength: nat := 8

  // ----------------------------------------------------------- filtering

  /** The elements of `s` satisfying `keep`, in their original order. */
  function Keep<T>(s: seq<T>, keep: T -> bool): (r: seq<T>)
    ensures |r| <= |s|
    decreases |s|
  {
    if |s| == 0 then []
    else Keep(s[..|s| - 1], keep) + (if keep(s[|s| - 1]) then [s[|s| - 1]] else [])
  }

  /** Filtering distributes over concatenation, so relative order is kept. */
  lemma {:induction false} KeepAppend<T>(a: seq<T>, b: seq<T>, keep: T -> bool)
    ensures Keep(a + b, keep) == Keep(a, keep) + Keep(b, keep)
    decreases |b|
  {
    if |b| > 0 {
      var b' := b[..|b| - 1];
      var last := b[|b| - 1];
      var tail := if keep(last) then [last] else [];
      assert (a + b)[..|a + b| - 1] == a + b';
      assert (a + b)[|a + b| - 1] == last;
      assert Keep(a + b, keep) == Keep(a + b', keep) + tail;
      KeepAppend(a, b', keep);
      assert Keep(b, keep) == Keep(b', keep) + tail;
      assert Keep(a, keep) + Keep(b', keep) + tail == Keep(a, keep) + (Keep(b', keep) + tail);
    } else {
      assert a + b == a;
    }
  }

  /** What survives the filter is exactly the elements satisfying it. */
  lemma {:induction false} KeepMembers<T>(s: seq<T>, keep: T -> bool, x: T)
    ensures x in Keep(s, keep) <==> x in s && keep(x)
    decreases |s|
  {
    if |s| > 0 {
      var init := s[..|s| - 1];
      KeepMembers(init, keep, x);
      assert s == init + [s[|s| - 1]];
    }
  }

  /** A filter and its complement split a sequence: the two parts hold every
      element exactly once between them. */
  lemma {:induction false} KeepSplits<T>(s: seq<T>, keep: T -> bool, drop: T -> bool)
    requires forall x :: drop(x) == !keep(x)
    ensures |Keep(s, keep)| + |Keep(s, drop)| == |s|
    ensures multiset(Keep(s, keep)) + multiset(Keep(s, drop)) == multiset(s)
    decreases |s|
  {
    if |s| > 0 {
      var init := s[..|s| - 1];
      var last := s[|s| - 1];
      KeepSplits(init, keep, drop);
      assert s == init + [last];
      assert multiset(s) == multiset(init) + multiset{last};
      if keep(last) {
        assert Keep(s, keep) == Keep(init, keep) + [last];
        assert Keep(s, drop) == Keep(init, drop);
      } else {
        assert Keep(s, keep) == Keep(init, keep);
        assert Keep(s, drop) == Keep(init, drop) + [last];
      }
    }
  }

  // -------------------------------------------------------------- models

  datatype ModelLocation = ModelLocation(kind: string, trackerName: string, nodeId: string)

  datatype NetworkModel = NetworkModel(
    name: string,
    modelType: string,
    category: string,
    trackerCount: int,
    peerCount: int,
    locations: seq<ModelLocation>,
    pullCommand: string)

  predicate IsOllama(m: NetworkModel) {
    m.modelType == ModelTypeOllama
  }

  predicate IsOnnx(m: NetworkModel) {
    !IsOllama(m)
  }

  predicate IsTracker(l: ModelLocation) {
    l.kind == "tracker"
  }

  predicate IsLocal(l: ModelLocation) {
    l.kind == "local"
  }

  predicate IsRemote(l: ModelLocation) {
    !IsTracker(l) && !IsLocal(l)
  }

  /** The local location the loop keeps: the last one in the list, as with
      Go's per-iteration loop variable. Only whether it is present is ever
      printed, so the choice of which local location does not show. */
  function LastLocal(locs: seq<ModelLocation>): (r: Option<ModelLocation>)
    ensures r.Some? <==> exists i :: 0 <= i < |locs| && IsLocal(locs[i])
    ensures r.Some? ==> IsLocal(r.value) && r.value in locs
    decreases |locs|
  {
    if |locs| == 0 then None
    else if IsLocal(locs[|locs| - 1]) then Some(locs[|locs| - 1])
    else
      var r := LastLocal(locs[..|locs| - 1]);
      assert forall i :: 0 <= i < |locs| - 1 ==> locs[..|locs| - 1][i] == locs[i];
      r
  }

  /** The grouping loop: Ollama models in one list, every other type in the
      other, each in its original order. */
  method PartitionByType(models: seq<NetworkModel>) returns (ollama: seq<NetworkModel>, onnx: seq<NetworkModel>)
    ensures ollama == Keep(models, IsOllama)
    ensures onnx == Keep(models, IsOnnx)
    ensures |ollama| + |onnx| == |models|
    ensures multiset(ollama) + multiset(onnx) == multiset(models)
  {
    ollama, onnx := [], [];
    for i := 0 to |models|
      invariant ollama == Keep(models[..i], IsOllama)
      invariant onnx == Keep(models[..i], IsOnnx)
    {
      assert models[..i + 1][..i] == models[..i];
      if models[i].modelType == ModelTypeOllama {
        ollama := ollama + [models[i]];
      } else {
        onnx := onnx + [models[i]];
      }
    }
    assert models[..|models|] == models;
    KeepSplits(models, IsOllama, IsOnnx);
  }

  /** The location loop: trackers and remotes in order, and the last local
      location, if any. */
  method ClassifyLocations(locs: seq<ModelLocation>)
    returns (trackers: seq<ModelLocation>, local: Option<ModelLocation>, remotes: seq<ModelLocation>)
    ensures trackers == Keep(locs, IsTracker)
    ensures remotes == Keep(locs, IsRemote)
    ensures local == LastLocal(locs)
    ensures |trackers| + |Keep(locs, IsLocal)| + |remotes| == |locs|
  {
    trackers, local, remotes := [], None, [];
    for i := 0 to |locs|
      invariant trackers == Keep(locs[..i], IsTracker)
      invariant remotes == Keep(locs[..i], IsRemote)
      invariant local == LastLocal(locs[..i])
    {
      assert locs[..i + 1][..i] == locs[..i];
      if locs[i].kind == "tracker" {
        trackers := trackers + [locs[i]];
      } else if locs[i].kind == "local" {
        local := Some(locs[i]);
      } else {
        remotes := remotes + [locs[i]];
      }
    }
    assert locs[..|locs|] == locs;
    LocationKindsCover(locs);
  }

  /** Every location is a tracker, a local one or a remote one, and only one. */
  lemma {:induction false} LocationKindsCover(locs: seq<ModelLocation>)
    ensures |Keep(locs, IsTracker)| + |Keep(locs, IsLocal)| + |Keep(locs, IsRemote)| == |locs|
    decreases |locs|
  {
    if |locs| > 0 {
      LocationKindsCover(locs[..|locs| - 1]);
    }
  }

  /** One model's block in the listing. */
  datatype ModelEntry = ModelEntry(
    name: string,
    category: string,
    trackers: Option<int>,
    peerCount: int,
    local: bool,
    trackerNames: seq<string>,
    remoteNodes: seq<string>,
    pull: Option<string>)

  /** One model's block: the tracker count when positive, the peer count, the
      local line when some location is local, tracker names and remote nodes
      in location order, and the pull command when there is one. The location
      parts are what `ClassifyLocations` collects. */
  function DescribeModel(m: NetworkModel): (e: ModelEntry)
    ensures e.name == m.name && e.category == m.category && e.peerCount == m.peerCount
    ensures e.trackers.Some? <==> m.trackerCount > 0
    ensures e.trackers.Some? ==> e.trackers.value == m.trackerCount
    ensures e.local <==> exists i :: 0 <= i < |m.locations| && IsLocal(m.locations[i])
    ensures |e.trackerNames| == |Keep(m.locations, IsTracker)|
    ensures forall i :: 0 <= i < |e.trackerNames| ==> e.trackerNames[i] == Keep(m.locations, IsTracker)[i].trackerName
    ensures |e.remoteNodes| == |Keep(m.locations, IsRemote)|
    ensures forall i :: 0 <= i < |e.remoteNodes| ==> e.remoteNodes[i] == Keep(m.locations, IsRemote)[i].nodeId
    ensures e.pull.Some? <==> m.pullCommand != ""
    ensures e.pull.Some? ==> e.pull.value == m.pullCommand
  {
    var trackers := Keep(m.locations, IsTracker);
    var remotes := Keep(m.locations, IsRemote);
    ModelEntry(
      m.name, m.category,
      if m.trackerCount > 0 then Some(m.trackerCount) else None,
      m.peerCount, LastLocal(m.locations).Some?,
      seq(|trackers|, i requires 0 <= i < |trackers| => trackers[i].trackerName),
      seq(|remotes|, i requires 0 <= i < |remotes| => remotes[i].nodeId),
      if m.pullCommand != "" then Some(m.pullCommand) else None)
  }

  /** The printing loop of one group: one block per model, in order. */
  method DescribeAll(models: seq<NetworkModel>) returns (entries: seq<ModelEntry>)
    ensures |entries| == |models|
    ensures forall i :: 0 <= i < |models| ==> entries[i] == DescribeModel(models[i])
  {
    entries := [];
    for i := 0 to |models|
      invariant |entries| == i
      invariant forall k :: 0 <= k < i ==> entries[k] == DescribeModel(models[k])
    {
      entries := entries + [DescribeModel(models[i])];
    }
  }

  /** What `models network` prints: a notice for an empty list, otherwise the
      Ollama group, the ONNX group and the totals. */
  datatype NetworkListing =
    | NoModelsFound
    | Grouped(ollama: seq<ModelEntry>, onnx: seq<ModelEntry>, total: nat, ollamaCount: nat, onnxCount: nat)

  method ListNetworkModels(models: seq<NetworkModel>) returns (r: NetworkListing)
    ensures r.NoModelsFound? <==> |models| == 0
    ensures r.Grouped? ==> r.total == |models| == r.ollamaCount + r.onnxCount
    ensures r.Grouped? ==> |r.ollama| == r.ollamaCount == |Keep(models, IsOllama)|
    ensures r.Grouped? ==> |r.onnx| == r.onnxCount == |Keep(models, IsOnnx)|
    ensures r.Grouped? ==> forall i :: 0 <= i < |r.ollama| ==> r.ollama[i] == DescribeModel(Keep(models, IsOllama)[i])
    ensures r.Grouped? ==> forall i :: 0 <= i < |r.onnx| ==> r.onnx[i] == DescribeModel(Keep(models, IsOnnx)[i])
  {
    if |models| == 0 {
      return NoModelsFound;
    }
    var ollama, onnx := PartitionByType(models);
    var ollamaEntries := DescribeAll(ollama);
    var onnxEntries := DescribeAll(onnx);
    r := Grouped(ollamaEntries, onnxEntries, |models|, |ollama|, |onnx|);
  }

  // ------------------------------------------------------ command choices

  /** Whether the pre-run hook skips ensuring the daemon is running. */
  function SkipsDaemonCheck(command: string): bool {
    command in DaemonFreeCommands
  }

  /** The pre-run hook: no error for the daemon-free commands, otherwise
      whatever ensuring the daemon reports (`None` for success). */
  function PreRun(command: string, ensureDaemon: Option<string>): (err: Option<string>)
    ensures command == "version" || command == "help" || command == "completion" ==> err == None
    ensures command != "version" && command != "help" && command != "completion" ==> err == ensureDaemon
  {
    if SkipsDaemonCheck(command) then None else ensureDaemon
  }

  /** The commit hash as `version` prints it; a shorter hash panics. */
  function ShortCommit(commit: string): (r: Outcome<string>)
    ensures r.Panicked? <==> |commit| < ShortCommitLength
    ensures r.Returned? ==> |r.value| == ShortCommitLength && commit == r.value + commit[ShortCommitLength..]
  {
    if |commit| < ShortCommitLength then Panicked else Returned(commit[..ShortCommitLength])
  }

  /** The parts of the dashboard response `status` looks at: the role,
      which sections are present, and the operator's reputation score. */
  datatype DashboardStats = DashboardStats(
    role: string,
    hasDeveloper: bool,
    hasOperator: bool,
    score: real,
    maxScore: real)

  datatype Screen = DeveloperDashboard | OperatorDashboard | BlankLine | SimpleStatus

  /** What `status` printed, in order, and whether it then panicked. */
  datatype StatusOutput = StatusOutput(printed: seq<Screen>, panicked: bool)

  /** Everything a role prints when no dashboard panics. */
  function RoleScreens(role: string): seq<Screen> {
    if role == "developer" then [DeveloperDashboard]
    else if role == "operator" then [OperatorDashboard]
    else if role == "both" then [DeveloperDashboard, BlankLine, OperatorDashboard]
    else [SimpleStatus]
  }

  /** Whether a role renders the operator dashboard's reputation stars: it
      shows the operator dashboard, the section is present, and for "both"
      the developer dashboard before it rendered. */
  predicate RendersStars(s: DashboardStats) {
    && s.hasOperator
    && (s.role == "operator" || (s.role == "both" && s.hasDeveloper))
  }

  /** Rendering the operator dashboard panics: a missing operator section
      is a nil dereference, and a reputation whose star counts come out
      negative panics in the repeat. */
  predicate OperatorPanics(s: DashboardStats)
    requires s.hasOperator ==> s.maxScore != 0.0
  {
    !s.hasOperator || RenderStars(s.score, s.maxScore).Panicked?
  }

  /** The screens `status` prints. Without a dashboard response, or for an
      unknown role, it falls back to the simple status. A dashboard is
      rendered in full before it is printed, so a dashboard that panics
      (a missing section, or for the operator a reputation score at most
      minus a fifth of the maximum or at least 1.1 times it)
      stops the command after the screens printed so far and before its
      own. */
  function StatusScreens(stats: Option<DashboardStats>): (r: StatusOutput)
    requires stats.Some? && RendersStars(stats.value) ==> stats.value.maxScore != 0.0
    ensures stats.None? ==> r == StatusOutput([SimpleStatus], false)
    ensures stats.Some? ==> r.printed <= RoleScreens(stats.value.role)
    ensures stats.Some? ==> (!r.panicked <==> r.printed == RoleScreens(stats.value.role))
    ensures stats.Some? && stats.value.role !in {"developer", "operator", "both"} ==>
              r == StatusOutput([SimpleStatus], false)
    ensures stats.Some? && stats.value.role == "developer" ==> (r.panicked <==> !stats.value.hasDeveloper)
    ensures stats.Some? && stats.value.role == "operator" ==> (r.panicked <==> OperatorPanics(stats.value))
    ensures stats.Some? && stats.value.role == "both" ==>
              && (r.panicked <==> !stats.value.hasDeveloper || OperatorPanics(stats.value))
              && (DeveloperDashboard in r.printed <==> stats.value.hasDeveloper)
              && (stats.value.hasDeveloper && OperatorPanics(stats.value) ==>
                    r.printed == [DeveloperDashboard, BlankLine])
    ensures SimpleStatus in r.printed <==> r.printed == [SimpleStatus]
  {
    match stats
    case None => StatusOutput([SimpleStatus], false)
    case Some(s) =>
      if s.role == "developer" then
        (if s.hasDeveloper then StatusOutput([DeveloperDashboard], false) else StatusOutput([], true))
      else if s.role == "operator" then
        (if OperatorPanics(s) then StatusOutput([], true) else StatusOutput([OperatorDashboard], false))
      else if s.role == "both" then
        (if !s.hasDeveloper then StatusOutput([], true)
         else if OperatorPanics(s) then StatusOutput([DeveloperDashboard, BlankLine], true)
         else StatusOutput([DeveloperDashboard, BlankLine, OperatorDashboard], false))
      else StatusOutput([SimpleStatus], false)
  }

  /** An operator whose reputation lies between zero and a positive maximum
      sees the operator dashboard without a panic. */
  lemma OperatorInRangeShows(s: DashboardStats)
    requires s.role == "operator" && s.hasOperator
    requires 0.0 < s.maxScore && 0.0 <= s.score <= s.maxScore
    ensures StatusScreens(Some(s)) == StatusOutput([OperatorDashboard], false)
  {
    StarsWellFormed(s.score, s.maxScore);
  }

  /** A reputation of 11 out of 10 panics the operator dashboard: with the
      role "both", the developer dashboard and the blank line are printed
      first. */
  lemma OverfullReputationPanics(dev: bool)
    ensures StatusScreens(Some(DashboardStats("both", true, true, 11.0, 10.0)))
              == StatusOutput([DeveloperDashboard, BlankLine], true)
    ensures StatusScreens(Some(DashboardStats("operator", dev, true, 11.0, 10.0)))
              == StatusOutput([], true)
  {
    StarsAboveMaximumPanic();
  }
}
