/** The App component's handlers: selecting installations, selecting a preset,
    and installing a preset to every selected installation one after another. */
module App {
  import opened Wrappers
  import opened Backend
  import opened Text
  import Selection
  import opened AppStore

  /** `handleInstallationSelection`: copy the stored set, add or delete the
      path in the copy, store the copy. */
  method HandleInstallationSelection(store: Store, path: string, selected: bool)
    modifies store
    ensures store.Snapshot() == old(store.Snapshot()).(
      selectedInstallations := Selection.Toggled(old(store.selectedInstallations), path, selected))
  {
    var newSet := store.selectedInstallations;
    if selected {
      newSet := newSet + {path};
    } else {
      newSet := newSet - {path};
    }
    store.SetSelectedInstallations(newSet);
  }

  /** `handlePresetSelection`. */
  method HandlePresetSelection(store: Store, uuid: string, selected: bool)
    modifies store
    ensures store.Snapshot() == old(store.Snapshot()).(selectedPreset := Selection.PresetChoice(uuid, selected))
  {
    store.SetSelectedPreset(if selected then Some(uuid) else None);
  }

  /** `order` lists the members of `sel` once each: the order in which a
      JavaScript Set iterates over them (insertion order, which the store does
      not record). */
  ghost predicate IterationOrder(order: seq<string>, sel: set<string>)
  {
    && (forall i, j :: 0 <= i < j < |order| ==> order[i] != order[j])
    && (forall p :: p in order <==> p in sel)
  }

  /** The index of the first failed call, or |results| when none failed. */
  function FirstFailure(results: seq<Result<()>>): (k: nat)
    ensures k <= |results|
    ensures forall j :: 0 <= j < k ==> results[j].Ok?
    ensures k < |results| ==> results[k].Err?
  {
    if results == [] then 0
    else if results[0].Err? then 0
    else 1 + FirstFailure(results[1..])
  }

  const NoSelectionStatus := "Please select at least one installation"
  const InstallCompleteLine := "Installation completed successfully"

  function InstallingLine(uuid: string, n: nat): string {
    "Installing preset " + uuid + " to " + NatToString(n) + " installation(s)"
  }

  function InstallErrorStatus(error: string): string {
    "Error installing preset: " + error
  }

  /** One `Installed to: <path>` entry per path, in order. */
  function InstalledLines(time: string, paths: seq<string>): (lines: seq<string>)
    ensures |lines| == |paths|
    ensures forall i :: 0 <= i < |paths| ==> lines[i] == Stamp(time, "Installed to: " + paths[i])
  {
    if paths == [] then []
    else InstalledLines(time, paths[..|paths| - 1]) + [Stamp(time, "Installed to: " + paths[|paths| - 1])]
  }

  /** One `install_preset` call per path, in order. */
  function InstallCalls(uuid: string, paths: seq<string>): (calls: seq<Call>)
    ensures |calls| == |paths|
    ensures forall i :: 0 <= i < |paths| ==> calls[i] == InstallPreset(uuid, paths[i])
  {
    if paths == [] then []
    else InstallCalls(uuid, paths[..|paths| - 1]) + [InstallPreset(uuid, paths[|paths| - 1])]
  }

  /** The backend calls `handlePresetInstall` makes: none for an empty
      selection; otherwise one `install_preset` per path up to and including
      the first that fails, and `list_installations` only when none failed. */
  function PresetInstallCalls(uuid: string, order: seq<string>, results: seq<Result<()>>): (calls: seq<Call>)
    requires |results| == |order|
    ensures order == [] ==> calls == []
    ensures order != [] && FirstFailure(results) < |order| ==>
      && |calls| == FirstFailure(results) + 1
      && (forall i :: 0 <= i < |calls| ==> calls[i] == InstallPreset(uuid, order[i]))
      && ListInstallations !in calls
    ensures order != [] && FirstFailure(results) == |order| ==>
      && |calls| == |order| + 1
      && (forall i :: 0 <= i < |order| ==> calls[i] == InstallPreset(uuid, order[i]))
      && calls[|order|] == ListInstallations
  {
    if order == [] then []
    else
      var k := FirstFailure(results);
      if k < |order| then InstallCalls(uuid, order[..k + 1])
      else InstallCalls(uuid, order) + [ListInstallations]
  }

  /** The store after `handlePresetInstall(uuid)`, when the selection iterates
      as `order`, the i-th `install_preset` call would produce `results[i]`,
      and the closing refresh's `list_installations` produces `refresh`. */
  function AfterPresetInstall(s: StoreState, uuid: string, order: seq<string>, results: seq<Result<()>>,
                              refresh: Result<seq<Installation>>, time: string): (r: StoreState)
    requires IterationOrder(order, s.selectedInstallations) && |results| == |order|
    // an empty selection: an error status and nothing else
    ensures s.selectedInstallations == {} ==> r == s.(status := NoSelectionStatus, isError := true)
    // the first failure aborts: its error is the status and the last entry; the busy flag stays set
    ensures s.selectedInstallations != {} && FirstFailure(results) < |order| ==>
      var k := FirstFailure(results);
      var msg := InstallErrorStatus(results[k].error);
      r == s.(status := msg, isError := true, isLoading := true,
              consoleOutput := s.consoleOutput + [Stamp(time, InstallingLine(uuid, |order|))]
                               + InstalledLines(time, order[..k]) + [Stamp(time, msg)])
  {
    if s.selectedInstallations == {} then
      s.(status := NoSelectionStatus, isError := true)
    else
      assert |order| == |s.selectedInstallations| by { SizeOfIterationOrder(order, s.selectedInstallations); }
      var k := FirstFailure(results);
      var started := Started(s, uuid, order, k, time);
      if k < |order| then
        var msg := InstallErrorStatus(results[k].error);
        started.(status := msg, isError := true, consoleOutput := started.consoleOutput + [Stamp(time, msg)])
      else
        assert order[..k] == order;
        AfterRefreshInstallations(
          started.(status := "Preset installed successfully",
                   consoleOutput := started.consoleOutput + [Stamp(time, InstallCompleteLine)]),
          refresh, time)
  }

  /** A fully successful install: every path logged, then the completion
      line, then one refresh whose outcome decides the installations and the
      error flag; the busy flag ends cleared. */
  lemma PresetInstallSucceeds(s: StoreState, uuid: string, order: seq<string>, results: seq<Result<()>>,
                              refresh: Result<seq<Installation>>, time: string)
    requires IterationOrder(order, s.selectedInstallations) && |results| == |order|
    requires s.selectedInstallations != {} && FirstFailure(results) == |order|
    ensures var r := AfterPresetInstall(s, uuid, order, results, refresh, time);
      && !r.isLoading
      && |r.consoleOutput| == |s.consoleOutput| + |order| + 4
      && r.consoleOutput[..|s.consoleOutput| + |order| + 3]
         == s.consoleOutput + [Stamp(time, InstallingLine(uuid, |order|))]
            + InstalledLines(time, order) + [Stamp(time, InstallCompleteLine), Stamp(time, "Scanning for Minecraft installations...")]
      && r.presets == s.presets && r.selectedInstallations == s.selectedInstallations
      && r.selectedPreset == s.selectedPreset && r.activeTab == s.activeTab && r.toolbarOpen == s.toolbarOpen
      && (refresh.Ok? ==>
            && r.installations == refresh.value && !r.isError
            && r.status == FoundInstallationsStatus(|refresh.value|)
            && r.consoleOutput[|s.consoleOutput| + |order| + 3]
               == Stamp(time, "Found " + NatToString(|refresh.value|) + " installations"))
      && (refresh.Err? ==>
            && r.installations == s.installations && r.isError
            && r.status == "Error loading installations: " + refresh.error
            && r.consoleOutput[|s.consoleOutput| + |order| + 3] == Stamp(time, r.status))
  {
    SuccessIsRefresh(s, uuid, order, results, refresh, time);
  }

  /** The successful install hands the logged store to the refresh. */
  lemma SuccessIsRefresh(s: StoreState, uuid: string, order: seq<string>, results: seq<Result<()>>,
                         refresh: Result<seq<Installation>>, time: string)
    requires IterationOrder(order, s.selectedInstallations) && |results| == |order|
    requires s.selectedInstallations != {} && FirstFailure(results) == |order|
    ensures AfterPresetInstall(s, uuid, order, results, refresh, time)
         == AfterRefreshInstallations(
              s.(status := "Preset installed successfully", isLoading := true, isError := false,
                 consoleOutput := s.consoleOutput + [Stamp(time, InstallingLine(uuid, |order|))]
                                  + InstalledLines(time, order) + [Stamp(time, InstallCompleteLine)]),
              refresh, time)
  {
    SizeOfIterationOrder(order, s.selectedInstallations);
    assert order[..|order|] == order;
  }

  /** The store once the install has started and the first `k` paths are
      installed. */
  function Started(s: StoreState, uuid: string, order: seq<string>, k: nat, time: string): StoreState
    requires k <= |order|
  {
    s.(status := "Installing preset...", isLoading := true, isError := false,
       consoleOutput := s.consoleOutput + [Stamp(time, InstallingLine(uuid, |s.selectedInstallations|))]
                        + InstalledLines(time, order[..k]))
  }

  /** A duplicate-free listing of a set is as long as the set is large. */
  lemma {:induction false} SizeOfIterationOrder(order: seq<string>, sel: set<string>)
    requires IterationOrder(order, sel)
    ensures |order| == |sel|
    decreases |order|
  {
    if order != [] {
      var last := order[|order| - 1];
      var rest := order[..|order| - 1];
      assert IterationOrder(rest, sel - {last}) by {
        forall p ensures p in rest <==> p in sel - {last} {
          if p in rest {
            var i :| 0 <= i < |rest| && rest[i] == p;
            assert order[i] == p;
          }
          if p in order && p != last {
            var i :| 0 <= i < |order| && order[i] == p;
            assert i < |order| - 1 && rest[i] == p;
          }
        }
      }
      SizeOfIterationOrder(rest, sel - {last});
    } else {
      assert forall p :: p !in sel;
    }
  }

  /** `handlePresetInstall(uuid)`. The selection is iterated as `order`; the
      i-th `install_preset` call produces `results[i]` and the closing
      refresh's `list_installations` produces `refresh`. Returns the backend
      calls made, in order. */
  method HandlePresetInstall(store: Store, uuid: string, order: seq<string>, results: seq<Result<()>>,
                             refresh: Result<seq<Installation>>, time: string) returns (calls: seq<Call>)
    requires IterationOrder(order, store.selectedInstallations) && |results| == |order|
    modifies store
    ensures calls == PresetInstallCalls(uuid, order, results)
    ensures store.Snapshot() == AfterPresetInstall(old(store.Snapshot()), uuid, order, results, refresh, time)
  {
    SizeOfIterationOrder(order, store.selectedInstallations);
    if |store.selectedInstallations| == 0 {
      store.SetStatus(NoSelectionStatus);
      store.SetIsError(true);
      return [];
    }
    ghost var s0 := store.Snapshot();
    ghost var k := FirstFailure(results);
    StartInstall(store, uuid, time);
    var failure;
    calls, failure := InstallEach(store, uuid, order, results, time);
    assert store.Snapshot() == Started(s0, uuid, order, k, time);
    match failure {
      case Some(error) =>
        ghost var started := store.Snapshot();
        ReportInstallError(store, error, time);
        assert store.Snapshot() == started.(status := InstallErrorStatus(error), isError := true,
          consoleOutput := started.consoleOutput + [Stamp(time, InstallErrorStatus(error))]);
      case None =>
        assert order[..k] == order;
        var refreshCalls := CompleteInstall(store, refresh, time);
        calls := calls + refreshCalls;
    }
  }

  /** The bookkeeping before the loop: busy, no error, one log line. */
  method StartInstall(store: Store, uuid: string, time: string)
    modifies store
    ensures store.Snapshot() == old(store.Snapshot()).(
      status := "Installing preset...", isLoading := true, isError := false,
      consoleOutput := old(store.consoleOutput) + [Stamp(time, InstallingLine(uuid, |old(store.selectedInstallations)|))])
  {
    store.SetStatus("Installing preset...");
    store.SetIsLoading(true);
    store.SetIsError(false);
    store.AddConsoleOutput(time, InstallingLine(uuid, |store.selectedInstallations|));
  }

  /** The `catch` block: the error becomes the status and a log line; the
      busy flag is left as it is. */
  method ReportInstallError(store: Store, error: string, time: string)
    modifies store
    ensures store.Snapshot() == old(store.Snapshot()).(
      status := InstallErrorStatus(error), isError := true,
      consoleOutput := old(store.consoleOutput) + [Stamp(time, InstallErrorStatus(error))])
  {
    var msg := InstallErrorStatus(error);
    store.SetStatus(msg);
    store.SetIsError(true);
    store.AddConsoleOutput(time, msg);
  }

  /** After the loop succeeded: a success status and log line, then one
      `refreshInstallations()`. */
  method CompleteInstall(store: Store, refresh: Result<seq<Installation>>, time: string) returns (calls: seq<Call>)
    modifies store
    ensures calls == [ListInstallations]
    ensures store.Snapshot() == AfterRefreshInstallations(
      old(store.Snapshot()).(status := "Preset installed successfully",
                             consoleOutput := old(store.consoleOutput) + [Stamp(time, InstallCompleteLine)]),
      refresh, time)
  {
    store.SetStatus("Preset installed successfully");
    store.AddConsoleOutput(time, InstallCompleteLine);
    calls := store.RefreshInstallations(refresh, time);
  }

  /** The loop stops at the first failure: every earlier result succeeded
      and this one failed, or there is none. */
  lemma FirstFailureAt(results: seq<Result<()>>, i: nat)
    requires i <= |results|
    requires forall j :: 0 <= j < i ==> results[j].Ok?
    requires i < |results| ==> results[i].Err?
    ensures FirstFailure(results) == i
  {
  }

  /** Extending the prefix of paths by one path extends both the calls and
      the log lines by that path's entry. */
  lemma PrefixStep(uuid: string, time: string, order: seq<string>, i: nat)
    requires i < |order|
    ensures InstallCalls(uuid, order[..i + 1]) == InstallCalls(uuid, order[..i]) + [InstallPreset(uuid, order[i])]
    ensures InstalledLines(time, order[..i + 1]) == InstalledLines(time, order[..i]) + [Stamp(time, "Installed to: " + order[i])]
  {
  }

  /** The loop of `handlePresetInstall`: one `install_preset` call per path in
      order, each success logged, stopping at the first failure, whose error
      is returned. */
  method InstallEach(store: Store, uuid: string, order: seq<string>, results: seq<Result<()>>, time: string)
    returns (calls: seq<Call>, failure: Option<string>)
    requires |results| == |order|
    modifies store
    ensures failure.None? <==> FirstFailure(results) == |order|
    ensures failure.Some? ==> failure == Some(results[FirstFailure(results)].error)
    ensures calls == InstallCalls(uuid, order[..if failure.None? then |order| else FirstFailure(results) + 1])
    ensures store.Snapshot() == old(store.Snapshot()).(
      consoleOutput := old(store.consoleOutput) + InstalledLines(time, order[..FirstFailure(results)]))
  {
    calls := [];
    var i := 0;
    while i < |order| && results[i].Ok?
      invariant 0 <= i <= |order|
      invariant forall j :: 0 <= j < i ==> results[j].Ok?
      invariant calls == InstallCalls(uuid, order[..i])
      invariant store.consoleOutput == old(store.consoleOutput) + InstalledLines(time, order[..i])
      invariant store.Snapshot() == old(store.Snapshot()).(consoleOutput := store.consoleOutput)
    {
      PrefixStep(uuid, time, order, i);
      calls := calls + [InstallPreset(uuid, order[i])];
      store.AddConsoleOutput(time, "Installed to: " + order[i]);
      assert store.consoleOutput == old(store.consoleOutput) + InstalledLines(time, order[..i + 1]);
      i := i + 1;
    }
    FirstFailureAt(results, i);
    if i < |order| {
      // the failing call was made before its error ended the loop
      PrefixStep(uuid, time, order, i);
      calls := calls + [InstallPreset(uuid, order[i])];
      failure := Some(results[i].error);
    } else {
      assert order[..i] == order;
      failure := None;
    }
  }
}
