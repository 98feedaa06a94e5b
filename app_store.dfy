/** The application store: installations, presets, the selections, the status
    line with its loading and error flags, the console transcript and the two
    UI cursors, with single-field setters and three actions that wrap one
    backend command each in start / success / failure / finally bookkeeping.

    Each action is a method on the Store object that performs the source's
    setter calls in order; its effect is stated as a function of the state it
    started from (`After…`), and those functions carry what the actions promise. */
module AppStore {
  import opened Wrappers
  import opened Backend
  import opened Text

  /** The `installed_preset` record of an installation. `installedAt` is the
      instant `installed_at` denotes; `isCreator` stands for the `is_creator`
      property that the installed-presets list reads although the declared
      interface has no such property (None when the backend leaves it out). */
  datatype InstalledPreset = InstalledPreset(uuid: string, name: string, installedAt: int, isCreator: Option<bool>)

  datatype Installation = Installation(
    friendlyName: string,
    installLocation: string,
    preview: bool,
    installedPreset: Option<InstalledPreset>)

  datatype PackInfo = PackInfo(name: string, uuid: string, stub: string, tonemapping: string, bloom: string)

  /** The tab cursor. The store declares only the first three; the header
      nevertheless sets `Creator`, and the setter does not check. */
  datatype Tab = Installations | Presets | Actions | Creator

  /** The whole store as a value. */
  datatype StoreState = StoreState(
    installations: seq<Installation>,
    presets: seq<PackInfo>,
    selectedInstallations: set<string>,
    selectedPreset: Option<string>,
    status: string,
    isLoading: bool,
    isError: bool,
    consoleOutput: seq<string>,
    activeTab: Tab,
    toolbarOpen: bool)

  /** A console entry: `[${timestamp}] ${message}`. */
  function Stamp(time: string, message: string): (line: string)
    ensures |line| == |time| + |message| + 3
    ensures line[0] == '[' && line[|time| + 1..|time| + 3] == "] "
    ensures line[1..|time| + 1] == time && line[|time| + 3..] == message
  {
    "[" + time + "] " + message
  }

  function FoundInstallationsStatus(n: nat): string {
    "Found " + NatToString(n) + " Minecraft installation(s)"
  }

  function LoadedPresetsStatus(n: nat): string {
    "Loaded " + NatToString(n) + " RTX preset(s)"
  }

  /** The state `refreshInstallations` leaves behind when `list_installations`
      produced `outcome`. */
  function AfterRefreshInstallations(s: StoreState, outcome: Result<seq<Installation>>, time: string): (r: StoreState)
    ensures !r.isLoading
    ensures |r.consoleOutput| == |s.consoleOutput| + 2
    ensures r.consoleOutput[..|s.consoleOutput| + 1] == s.consoleOutput + [Stamp(time, "Scanning for Minecraft installations...")]
    ensures r.presets == s.presets && r.selectedInstallations == s.selectedInstallations
    ensures r.selectedPreset == s.selectedPreset && r.activeTab == s.activeTab && r.toolbarOpen == s.toolbarOpen
    ensures outcome.Ok? ==>
      && r.installations == outcome.value
      && !r.isError
      && r.status == FoundInstallationsStatus(|outcome.value|)
      && r.consoleOutput[|s.consoleOutput| + 1] == Stamp(time, "Found " + NatToString(|outcome.value|) + " installations")
    ensures outcome.Err? ==>
      && r.installations == s.installations
      && r.isError
      && r.status == "Error loading installations: " + outcome.error
      && r.consoleOutput[|s.consoleOutput| + 1] == Stamp(time, r.status)
  {
    var started := s.(status := "Loading Minecraft installations...", isLoading := true, isError := false,
                      consoleOutput := s.consoleOutput + [Stamp(time, "Scanning for Minecraft installations...")]);
    var settled :=
      match outcome
      case Ok(data) =>
        started.(installations := data, status := FoundInstallationsStatus(|data|),
                 consoleOutput := started.consoleOutput + [Stamp(time, "Found " + NatToString(|data|) + " installations")])
      case Err(error) =>
        var msg := "Error loading installations: " + error;
        started.(status := msg, isError := true, consoleOutput := started.consoleOutput + [Stamp(time, msg)]);
    settled.(isLoading := false)
  }

  /** The state `refreshPresets` leaves behind when `list_presets` produced
      `outcome`; the mirror image of AfterRefreshInstallations on `presets`. */
  function AfterRefreshPresets(s: StoreState, outcome: Result<seq<PackInfo>>, time: string): (r: StoreState)
    ensures !r.isLoading
    ensures |r.consoleOutput| == |s.consoleOutput| + 2
    ensures r.consoleOutput[..|s.consoleOutput| + 1] == s.consoleOutput + [Stamp(time, "Fetching RTX presets...")]
    ensures r.installations == s.installations && r.selectedInstallations == s.selectedInstallations
    ensures r.selectedPreset == s.selectedPreset && r.activeTab == s.activeTab && r.toolbarOpen == s.toolbarOpen
    ensures outcome.Ok? ==>
      && r.presets == outcome.value
      && !r.isError
      && r.status == LoadedPresetsStatus(|outcome.value|)
      && r.consoleOutput[|s.consoleOutput| + 1] == Stamp(time, "Loaded " + NatToString(|outcome.value|) + " presets")
    ensures outcome.Err? ==>
      && r.presets == s.presets
      && r.isError
      && r.status == "Error loading presets: " + outcome.error
      && r.consoleOutput[|s.consoleOutput| + 1] == Stamp(time, r.status)
  {
    var started := s.(status := "Loading RTX presets...", isLoading := true, isError := false,
                      consoleOutput := s.consoleOutput + [Stamp(time, "Fetching RTX presets...")]);
    var settled :=
      match outcome
      case Ok(data) =>
        started.(presets := data, status := LoadedPresetsStatus(|data|),
                 consoleOutput := started.consoleOutput + [Stamp(time, "Loaded " + NatToString(|data|) + " presets")])
      case Err(error) =>
        var msg := "Error loading presets: " + error;
        started.(status := msg, isError := true, consoleOutput := started.consoleOutput + [Stamp(time, msg)]);
    settled.(isLoading := false)
  }

  /** The state `clearCache` leaves behind when `clear_cache` produced
      `outcome`: two console lines and a status, and nothing else. */
  function AfterClearCache(s: StoreState, outcome: Result<()>, time: string): (r: StoreState)
    ensures r == s.(status := r.status, consoleOutput := r.consoleOutput)
    ensures |r.consoleOutput| == |s.consoleOutput| + 2
    ensures r.consoleOutput[..|s.consoleOutput| + 1] == s.consoleOutput + [Stamp(time, "Clearing cache...")]
    ensures outcome.Ok? ==>
      r.status == "Cache cleared" && r.consoleOutput[|s.consoleOutput| + 1] == Stamp(time, "Cache cleared successfully")
    ensures outcome.Err? ==>
      r.status == "Error clearing cache: " + outcome.error && r.consoleOutput[|s.consoleOutput| + 1] == Stamp(time, r.status)
  {
    var started := s.(consoleOutput := s.consoleOutput + [Stamp(time, "Clearing cache...")]);
    match outcome
    case Ok(_) =>
      started.(consoleOutput := started.consoleOutput + [Stamp(time, "Cache cleared successfully")], status := "Cache cleared")
    case Err(error) =>
      var msg := "Error clearing cache: " + error;
      started.(consoleOutput := started.consoleOutput + [Stamp(time, msg)], status := msg)
  }

  /** A refresh that succeeds reports its count in the status line: two
      different counts never give the same status. */
  lemma FoundStatusDeterminesCount(m: nat, n: nat)
    requires FoundInstallationsStatus(m) == FoundInstallationsStatus(n)
    ensures m == n
  {
    var a, b := FoundInstallationsStatus(m), FoundInstallationsStatus(n);
    var k := |a| - |" Minecraft installation(s)"|;
    assert a[6..k] == NatToString(m);
    assert b[6..k] == NatToString(n);
    NatToStringInjective(m, n);
  }

  /** The zustand store object. */
  class Store {
    var installations: seq<Installation>
    var presets: seq<PackInfo>
    var selectedInstallations: set<string>
    var selectedPreset: Option<string>
    var status: string
    var isLoading: bool
    var isError: bool
    var consoleOutput: seq<string>
    var activeTab: Tab
    var toolbarOpen: bool

    function Snapshot(): StoreState
      reads this
    {
      StoreState(installations, presets, selectedInstallations, selectedPreset, status,
                 isLoading, isError, consoleOutput, activeTab, toolbarOpen)
    }

    /** The initial state: nothing loaded, nothing selected, "Ready". */
    constructor ()
      ensures installations == [] && presets == []
      ensures selectedInstallations == {} && selectedPreset == None
      ensures status == "Ready" && !isLoading && !isError
      ensures consoleOutput == [] && activeTab == Installations && !toolbarOpen
    {
      installations := [];
      presets := [];
      selectedInstallations := {};
      selectedPreset := None;
      status := "Ready";
      isLoading := false;
      isError := false;
      consoleOutput := [];
      activeTab := Installations;
      toolbarOpen := false;
    }

    method SetInstallations(xs: seq<Installation>)
      modifies this
      ensures Snapshot() == old(Snapshot()).(installations := xs)
    {
      installations := xs;
    }

    method SetPresets(xs: seq<PackInfo>)
      modifies this
      ensures Snapshot() == old(Snapshot()).(presets := xs)
    {
      presets := xs;
    }

    method SetSelectedInstallations(selected: set<string>)
      modifies this
      ensures Snapshot() == old(Snapshot()).(selectedInstallations := selected)
    {
      selectedInstallations := selected;
    }

    method SetSelectedPreset(preset: Option<string>)
      modifies this
      ensures Snapshot() == old(Snapshot()).(selectedPreset := preset)
    {
      selectedPreset := preset;
    }

    method SetStatus(message: string)
      modifies this
      ensures Snapshot() == old(Snapshot()).(status := message)
    {
      status := message;
    }

    method SetIsLoading(loading: bool)
      modifies this
      ensures Snapshot() == old(Snapshot()).(isLoading := loading)
    {
      isLoading := loading;
    }

    method SetIsError(error: bool)
      modifies this
      ensures Snapshot() == old(Snapshot()).(isError := error)
    {
      isError := error;
    }

    /** No check that `tab` is one of the declared tabs. */
    method SetActiveTab(tab: Tab)
      modifies this
      ensures Snapshot() == old(Snapshot()).(activeTab := tab)
    {
      activeTab := tab;
    }

    method SetToolbarOpen(open: bool)
      modifies this
      ensures Snapshot() == old(Snapshot()).(toolbarOpen := open)
    {
      toolbarOpen := open;
    }

    /** Appends one stamped entry; the earlier entries stay as they were. */
    method AddConsoleOutput(time: string, message: string)
      modifies this
      ensures Snapshot() == old(Snapshot()).(consoleOutput := old(consoleOutput) + [Stamp(time, message)])
    {
      consoleOutput := consoleOutput + [Stamp(time, message)];
    }

    method ClearConsole()
      modifies this
      ensures Snapshot() == old(Snapshot()).(consoleOutput := [])
    {
      consoleOutput := [];
    }

    /** `refreshInstallations()`, given what `list_installations` produced. */
    method RefreshInstallations(outcome: Result<seq<Installation>>, time: string) returns (calls: seq<Call>)
      modifies this
      ensures calls == [ListInstallations]
      ensures Snapshot() == AfterRefreshInstallations(old(Snapshot()), outcome, time)
    {
      SetStatus("Loading Minecraft installations...");
      SetIsLoading(true);
      SetIsError(false);
      AddConsoleOutput(time, "Scanning for Minecraft installations...");
      calls := [ListInstallations];
      match outcome {
        case Ok(data) =>
          SetInstallations(data);
          SetStatus(FoundInstallationsStatus(|data|));
          AddConsoleOutput(time, "Found " + NatToString(|data|) + " installations");
        case Err(error) =>
          var msg := "Error loading installations: " + error;
          SetStatus(msg);
          SetIsError(true);
          AddConsoleOutput(time, msg);
      }
      SetIsLoading(false);
    }

    /** `refreshPresets(forceRefresh)`, given what `list_presets` produced; the
        flag goes to the backend unchanged and defaults to false. */
    method RefreshPresets(outcome: Result<seq<PackInfo>>, time: string, forceRefresh: bool := false) returns (calls: seq<Call>)
      modifies this
      ensures calls == [ListPresets(forceRefresh)]
      ensures Snapshot() == AfterRefreshPresets(old(Snapshot()), outcome, time)
    {
      SetStatus("Loading RTX presets...");
      SetIsLoading(true);
      SetIsError(false);
      AddConsoleOutput(time, "Fetching RTX presets...");
      calls := [ListPresets(forceRefresh)];
      match outcome {
        case Ok(data) =>
          SetPresets(data);
          SetStatus(LoadedPresetsStatus(|data|));
          AddConsoleOutput(time, "Loaded " + NatToString(|data|) + " presets");
        case Err(error) =>
          var msg := "Error loading presets: " + error;
          SetStatus(msg);
          SetIsError(true);
          AddConsoleOutput(time, msg);
      }
      SetIsLoading(false);
    }

    /** `clearCache()`, given what `clear_cache` produced. */
    method ClearCache(outcome: Result<()>, time: string) returns (calls: seq<Call>)
      modifies this
      ensures calls == [Call.ClearCache]
      ensures Snapshot() == AfterClearCache(old(Snapshot()), outcome, time)
    {
      AddConsoleOutput(time, "Clearing cache...");
      calls := [Call.ClearCache];
      match outcome {
        case Ok(_) =>
          AddConsoleOutput(time, "Cache cleared successfully");
          SetStatus("Cache cleared");
        case Err(error) =>
          var msg := "Error clearing cache: " + error;
          AddConsoleOutput(time, msg);
          SetStatus(msg);
      }
    }
  }
}
