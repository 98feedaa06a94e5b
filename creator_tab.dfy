/** The creator tab: a settings-hash form whose install goes through an
    installation picker and then a name prompt, and a material-file list
    whose install goes through the same two steps. The component's state is
    the class below; the app store and the status-message list are the
    objects its handlers reach. */
module Creator {
  import opened Wrappers
  import opened Backend
  import opened Text
  import opened Notices
  import Seqs
  import opened AppStore

  // Translation keys of the texts the tab posts and logs.
  const CreatorFileRemoved := "creator_file_removed"
  const CreatorFileUploaded := "creator_file_uploaded"
  const CreatorInstallError := "creator_install_error"
  const CreatorInstallSuccess := "creator_install_success"
  const CreatorMaterialsInstallError := "creator_materials_install_error"
  const CreatorMaterialsInstallSuccess := "creator_materials_install_success"
  const CreatorNoMaterialsUploaded := "creator_no_materials_uploaded"
  const CreatorPleaseEnterHash := "creator_please_enter_hash"
  const CreatorUploadError := "creator_upload_error"
  const LogCreatorInstallComplete := "log_creator_install_complete"
  const LogCreatorInstallError := "log_creator_install_error"
  const LogInstallingCreatorPreset := "log_installing_creator_preset"
  const LogInstallingMaterialPreset := "log_installing_material_preset"
  const LogMaterialInstallComplete := "log_material_install_complete"
  const LogMaterialInstallError := "log_material_install_error"
  const StatusSelectInstallationWarning := "status_select_installation_warning"

  /** What the name prompt will install once confirmed. */
  datatype Pending = Pending(selectedNames: seq<string>, presetName: string)

  datatype CreatorState = CreatorState(
    settingsHash: string,
    uploadedFiles: seq<string>,
    isProcessing: bool,
    isModalOpen: bool,
    isNameModalOpen: bool,
    pendingInstallData: Option<Pending>,
    isMaterialModalOpen: bool,
    isMaterialNameModalOpen: bool,
    pendingMaterialData: Option<Pending>)

  /** How the tab is between handlers: no handler is processing, and each
      name prompt is open exactly while it has pending data to install. */
  predicate Settled(c: CreatorState) {
    && !c.isProcessing
    && (c.pendingInstallData.Some? <==> c.isNameModalOpen)
    && (c.pendingMaterialData.Some? <==> c.isMaterialNameModalOpen)
  }

  /** The name the settings prompt proposes: the first eight characters of the hash. */
  function DefaultSettingsName(hash: string): (name: string)
    ensures |name| == 9 + (if |hash| < 8 then |hash| else 8)
    ensures name[..9] == "Settings " && name[9..] <= hash
  {
    "Settings " + Prefix(hash, 8)
  }

  /** The name the materials prompt proposes, counting the uploaded files. */
  function DefaultMaterialsName(count: nat): (name: string)
    ensures |name| == 18 + |NatToString(count)|
    ensures name[..11] == "Materials ("
    ensures name[|name| - 7..] == " files)"
    ensures AllDigits(name[11..|name| - 7]) && ParseNat(name[11..|name| - 7]) == count
  {
    var digits := NatToString(count);
    var name := "Materials (" + digits + " files)";
    assert name[11..|name| - 7] == digits;
    ParseNatToString(count);
    name
  }

  /** The uuid a creator preset is installed under. */
  function CreatorUuid(hash: string): (uuid: string)
    ensures |uuid| == 8 + |Trim(hash)|
    ensures uuid[..8] == "creator-" && uuid[8..] == Trim(hash)
  {
    "creator-" + Trim(hash)
  }

  /** The submit button's test: the trimmed hash has at least 8 characters. */
  function IsValidHash(hash: string): (valid: bool)
    ensures valid <==> |Trim(hash)| >= 8
    ensures valid ==> exists k :: 0 <= k < |hash| && !IsJsWhitespace(hash[k])
  {
    |Trim(hash)| >= 8
  }

  /** Whitespace typed around a hash changes neither its validity nor the
      hash and uuid the download is made with. */
  lemma HashIgnoresPadding(before: string, hash: string, after: string)
    requires forall k :: 0 <= k < |before| ==> IsJsWhitespace(before[k])
    requires forall k :: 0 <= k < |after| ==> IsJsWhitespace(after[k])
    ensures IsValidHash(before + hash + after) == IsValidHash(hash)
    ensures CreatorUuid(before + hash + after) == CreatorUuid(hash)
  {
    TrimPadded(before, hash, after);
  }

  /** The submit button is enabled when nothing is processing and the hash is valid. */
  function SubmitEnabled(c: CreatorState): (enabled: bool)
    ensures enabled <==> !c.isProcessing && |Trim(c.settingsHash)| >= 8
    ensures enabled ==> Trim(c.settingsHash) != []
  {
    !c.isProcessing && IsValidHash(c.settingsHash)
  }

  /** A dialog that returned nothing, or an empty path, counts as cancelled. */
  predicate DialogCancelled(picked: Option<string>) {
    picked.None? || picked.value == ""
  }

  function Differs(filename: string): string -> bool {
    f => f != filename
  }

  /** `prev.filter(f => f !== filename)`. */
  function Without(files: seq<string>, filename: string): (r: seq<string>)
    ensures filename !in r
    ensures forall f :: f in files && f != filename ==> f in r
    ensures forall f :: f in r ==> f in files
  {
    Seqs.Filter(Differs(filename), files)
  }

  /** Removing a file keeps every other entry, as often as it occurred and in
      its order. */
  lemma WithoutKeepsOthers(files: seq<string>, filename: string)
    ensures Seqs.IsSubsequence(Without(files, filename), files)
    ensures forall f :: f != filename ==> multiset(Without(files, filename))[f] == multiset(files)[f]
    ensures multiset(Without(files, filename))[filename] == 0
  {
    Seqs.FilterIsSubsequence(Differs(filename), files);
    forall f ensures multiset(Without(files, filename))[f] == if f != filename then multiset(files)[f] else 0 {
      Seqs.FilterCount(Differs(filename), files, f);
    }
  }

  /** The store after the `try`/`catch` tail both name prompts share, once
      the backend call has returned: on success a completion line and then a
      refresh of the installations; on failure one error line carrying the
      error. */
  function AfterReport(s: StoreState, outcome: Result<()>, refresh: Result<seq<Installation>>, time: string,
                       completeLine: string, errorLogKey: string): (r: StoreState)
    ensures |r.consoleOutput| == |s.consoleOutput| + (if outcome.Ok? then 3 else 1)
    ensures r.consoleOutput[..|s.consoleOutput|] == s.consoleOutput
    ensures outcome.Ok? ==> r.consoleOutput[|s.consoleOutput|] == Stamp(time, completeLine)
    ensures outcome.Err? ==> r == s.(consoleOutput := s.consoleOutput + [Stamp(time, T(errorLogKey, outcome.error))])
    ensures r.selectedInstallations == s.selectedInstallations && r.presets == s.presets
    ensures r.selectedPreset == s.selectedPreset && r.activeTab == s.activeTab && r.toolbarOpen == s.toolbarOpen
    // on success the refresh settles the store: loading ends, and the list is replaced or the error is shown
    ensures outcome.Ok? ==> !r.isLoading
    ensures outcome.Ok? && refresh.Ok? ==>
      r.installations == refresh.value && !r.isError && r.status == FoundInstallationsStatus(|refresh.value|)
    ensures outcome.Ok? && refresh.Err? ==>
      r.installations == s.installations && r.isError && r.status == "Error loading installations: " + refresh.error
  {
    match outcome
    case Ok(_) =>
      var logged := s.(consoleOutput := s.consoleOutput + [Stamp(time, completeLine)]);
      var r := AfterRefreshInstallations(logged, refresh, time);
      assert r.consoleOutput[..|s.consoleOutput|] == logged.consoleOutput[..|s.consoleOutput|];
      r
    case Err(e) => s.(consoleOutput := s.consoleOutput + [Stamp(time, T(errorLogKey, e))])
  }

  /** The notice the tail posts. */
  function ReportNotice(outcome: Result<()>, success: Notice, errorKey: string): Notice {
    match outcome
    case Ok(_) => success
    case Err(e) => Notice(T(errorKey, e), Error)
  }

  method ReportOutcome(outcome: Result<()>, refresh: Result<seq<Installation>>, store: Store, messages: StatusMessages,
                       time: string, success: Notice, completeLine: string, errorKey: string, errorLogKey: string)
    returns (calls: seq<Call>)
    modifies store, messages
    ensures calls == if outcome.Ok? then [ListInstallations] else []
    ensures messages.messages == old(messages.messages) + [ReportNotice(outcome, success, errorKey)]
    ensures store.Snapshot() == AfterReport(old(store.Snapshot()), outcome, refresh, time, completeLine, errorLogKey)
  {
    match outcome {
      case Ok(_) =>
        messages.AddMessage(success);
        store.AddConsoleOutput(time, completeLine);
        calls := store.RefreshInstallations(refresh, time);
      case Err(error) =>
        messages.AddMessage(Notice(T(errorKey, error), Error));
        store.AddConsoleOutput(time, T(errorLogKey, error));
        calls := [];
    }
  }

  class CreatorTab {
    var settingsHash: string
    var uploadedFiles: seq<string>
    var isProcessing: bool
    var isModalOpen: bool
    var isNameModalOpen: bool
    var pendingInstallData: Option<Pending>
    var isMaterialModalOpen: bool
    var isMaterialNameModalOpen: bool
    var pendingMaterialData: Option<Pending>

    function State(): CreatorState
      reads this
    {
      CreatorState(settingsHash, uploadedFiles, isProcessing, isModalOpen, isNameModalOpen,
                   pendingInstallData, isMaterialModalOpen, isMaterialNameModalOpen, pendingMaterialData)
    }

    /** Empty hash, no files, every modal closed, nothing pending. */
    constructor ()
      ensures State() == CreatorState("", [], false, false, false, None, false, false, None)
      ensures Settled(State())
    {
      settingsHash := "";
      uploadedFiles := [];
      isProcessing := false;
      isModalOpen := false;
      isNameModalOpen := false;
      pendingInstallData := None;
      isMaterialModalOpen := false;
      isMaterialNameModalOpen := false;
      pendingMaterialData := None;
    }

    /** `handleInstall`: the picker's choice; no names is an error and changes
      nothing, otherwise the picker closes and the name prompt opens. */
    method HandleInstall(selectedNames: seq<string>, messages: StatusMessages)
      modifies this, messages
      ensures selectedNames == [] ==>
        && State() == old(State())
        && messages.messages == old(messages.messages) + [Notice(StatusSelectInstallationWarning, Error)]
      ensures selectedNames != [] ==>
        && State() == old(State()).(
             pendingInstallData := Some(Pending(selectedNames, DefaultSettingsName(old(settingsHash)))),
             isModalOpen := false, isNameModalOpen := true)
        && messages.messages == old(messages.messages)
      ensures old(Settled(State())) ==> Settled(State())
    {
      if |selectedNames| == 0 {
        messages.AddMessage(Notice(StatusSelectInstallationWarning, Error));
        return;
      }
      var defaultName := "Settings " + Prefix(settingsHash, 8);
      pendingInstallData := Some(Pending(selectedNames, defaultName));
      isModalOpen := false;
      isNameModalOpen := true;
    }

    /** `handleNameConfirm`, given the outcomes of `download_creator_settings`
      and of the refresh that follows a success. */
    method HandleNameConfirm(presetName: string, download: Result<()>, refresh: Result<seq<Installation>>,
                             store: Store, messages: StatusMessages, time: string) returns (calls: seq<Call>)
      modifies this, store, messages
      ensures old(pendingInstallData).None? ==>
        && calls == [] && State() == old(State())
        && store.Snapshot() == old(store.Snapshot()) && messages.messages == old(messages.messages)
      ensures old(pendingInstallData).Some? ==>
        && calls == [DownloadCreatorSettings(Trim(old(settingsHash)), old(pendingInstallData).value.selectedNames,
                                             Some(presetName), Some(CreatorUuid(old(settingsHash))))]
                    + (if download.Ok? then [ListInstallations] else [])
        && State() == old(State()).(
             isProcessing := false, isNameModalOpen := false, pendingInstallData := None,
             settingsHash := if download.Ok? then "" else old(settingsHash))
        && messages.messages == old(messages.messages)
             + [ReportNotice(download, Notice(T(CreatorInstallSuccess, presetName), Success), CreatorInstallError)]
        && store.Snapshot() == AfterReport(
             old(store.Snapshot()).(consoleOutput :=
               old(store.consoleOutput) + [Stamp(time, T(LogInstallingCreatorPreset, presetName))]),
             download, refresh, time, LogCreatorInstallComplete, LogCreatorInstallError)
      ensures old(Settled(State())) ==> Settled(State())
    {
      if pendingInstallData.None? {
        return [];
      }
      var call := BeginNameConfirm(presetName, store, time);
      var more := FinishNameConfirm(presetName, download, refresh, store, messages, time);
      calls := [call] + more;
    }

    /** The `try` tail and the `finally` of `handleNameConfirm`: report the
      outcome, clear the hash on success, and settle. */
    method FinishNameConfirm(presetName: string, download: Result<()>, refresh: Result<seq<Installation>>,
                             store: Store, messages: StatusMessages, time: string) returns (calls: seq<Call>)
      modifies this, store, messages
      ensures calls == if download.Ok? then [ListInstallations] else []
      ensures State() == old(State()).(
        isProcessing := false, pendingInstallData := None,
        settingsHash := if download.Ok? then "" else old(settingsHash))
      ensures messages.messages == old(messages.messages)
        + [ReportNotice(download, Notice(T(CreatorInstallSuccess, presetName), Success), CreatorInstallError)]
      ensures store.Snapshot() == AfterReport(old(store.Snapshot()), download, refresh, time,
                                              LogCreatorInstallComplete, LogCreatorInstallError)
    {
      calls := ReportOutcome(download, refresh, store, messages, time,
        Notice(T(CreatorInstallSuccess, presetName), Success), LogCreatorInstallComplete,
        CreatorInstallError, LogCreatorInstallError);
      if download.Ok? {
        settingsHash := "";
      }
      isProcessing := false;
      pendingInstallData := None;
    }

    /** The part of `handleNameConfirm` before the download returns: mark
      processing, close the prompt, log, and build the download request from
      the trimmed hash. */
    method BeginNameConfirm(presetName: string, store: Store, time: string) returns (call: Call)
      requires pendingInstallData.Some?
      modifies this, store
      ensures call == DownloadCreatorSettings(Trim(old(settingsHash)), old(pendingInstallData).value.selectedNames,
                                              Some(presetName), Some(CreatorUuid(old(settingsHash))))
      ensures State() == old(State()).(isProcessing := true, isNameModalOpen := false)
      ensures store.Snapshot() == old(store.Snapshot()).(consoleOutput :=
        old(store.consoleOutput) + [Stamp(time, T(LogInstallingCreatorPreset, presetName))])
    {
      isProcessing := true;
      isNameModalOpen := false;
      store.AddConsoleOutput(time, T(LogInstallingCreatorPreset, presetName));
      var hash := Trim(settingsHash);
      call := DownloadCreatorSettings(hash, pendingInstallData.value.selectedNames, Some(presetName), Some("creator-" + hash));
    }

    /** `handleMaterialInstall`: no names is an error, then no uploaded files is
      an error; otherwise the picker closes and the name prompt opens. */
    method HandleMaterialInstall(selectedNames: seq<string>, messages: StatusMessages)
      modifies this, messages
      ensures selectedNames == [] ==>
        && State() == old(State())
        && messages.messages == old(messages.messages) + [Notice(StatusSelectInstallationWarning, Error)]
      ensures selectedNames != [] && old(uploadedFiles) == [] ==>
        && State() == old(State())
        && messages.messages == old(messages.messages) + [Notice(CreatorNoMaterialsUploaded, Error)]
      ensures selectedNames != [] && old(uploadedFiles) != [] ==>
        && State() == old(State()).(
             pendingMaterialData := Some(Pending(selectedNames, DefaultMaterialsName(|old(uploadedFiles)|))),
             isMaterialModalOpen := false, isMaterialNameModalOpen := true)
        && messages.messages == old(messages.messages)
      ensures old(Settled(State())) ==> Settled(State())
    {
      if |selectedNames| == 0 {
        messages.AddMessage(Notice(StatusSelectInstallationWarning, Error));
        return;
      }
      if |uploadedFiles| == 0 {
        messages.AddMessage(Notice(CreatorNoMaterialsUploaded, Error));
        return;
      }
      var defaultName := "Materials (" + NatToString(|uploadedFiles|) + " files)";
      pendingMaterialData := Some(Pending(selectedNames, defaultName));
      isMaterialModalOpen := false;
      isMaterialNameModalOpen := true;
    }

    /** `handleMaterialNameConfirm`, given the outcomes of
      `install_uploaded_materials` and of the refresh after a success. */
    method HandleMaterialNameConfirm(presetName: string, install: Result<()>, refresh: Result<seq<Installation>>,
                                     store: Store, messages: StatusMessages, time: string) returns (calls: seq<Call>)
      modifies this, store, messages
      ensures old(pendingMaterialData).None? ==>
        && calls == [] && State() == old(State())
        && store.Snapshot() == old(store.Snapshot()) && messages.messages == old(messages.messages)
      ensures old(pendingMaterialData).Some? ==>
        && calls == [InstallUploadedMaterials(old(pendingMaterialData).value.selectedNames, presetName)]
                    + (if install.Ok? then [ListInstallations] else [])
        && State() == old(State()).(
             isProcessing := false, isMaterialNameModalOpen := false, pendingMaterialData := None,
             uploadedFiles := if install.Ok? then [] else old(uploadedFiles))
        && messages.messages == old(messages.messages)
             + [ReportNotice(install, Notice(T(CreatorMaterialsInstallSuccess, presetName), Success),
                             CreatorMaterialsInstallError)]
        && store.Snapshot() == AfterReport(
             old(store.Snapshot()).(consoleOutput :=
               old(store.consoleOutput) + [Stamp(time, T(LogInstallingMaterialPreset, presetName))]),
             install, refresh, time, LogMaterialInstallComplete, LogMaterialInstallError)
      ensures old(Settled(State())) ==> Settled(State())
    {
      if pendingMaterialData.None? {
        return [];
      }
      var call := BeginMaterialNameConfirm(presetName, store, time);
      var more := FinishMaterialNameConfirm(presetName, install, refresh, store, messages, time);
      calls := [call] + more;
    }

    /** The `try` tail and the `finally` of `handleMaterialNameConfirm`:
      report the outcome, clear the uploaded files on success, and settle. */
    method FinishMaterialNameConfirm(presetName: string, install: Result<()>, refresh: Result<seq<Installation>>,
                                     store: Store, messages: StatusMessages, time: string) returns (calls: seq<Call>)
      modifies this, store, messages
      ensures calls == if install.Ok? then [ListInstallations] else []
      ensures State() == old(State()).(
        isProcessing := false, pendingMaterialData := None,
        uploadedFiles := if install.Ok? then [] else old(uploadedFiles))
      ensures messages.messages == old(messages.messages)
        + [ReportNotice(install, Notice(T(CreatorMaterialsInstallSuccess, presetName), Success),
                        CreatorMaterialsInstallError)]
      ensures store.Snapshot() == AfterReport(old(store.Snapshot()), install, refresh, time,
                                              LogMaterialInstallComplete, LogMaterialInstallError)
    {
      calls := ReportOutcome(install, refresh, store, messages, time,
        Notice(T(CreatorMaterialsInstallSuccess, presetName), Success), LogMaterialInstallComplete,
        CreatorMaterialsInstallError, LogMaterialInstallError);
      if install.Ok? {
        uploadedFiles := [];
      }
      isProcessing := false;
      pendingMaterialData := None;
    }

    /** The part of `handleMaterialNameConfirm` before the install returns. */
    method BeginMaterialNameConfirm(presetName: string, store: Store, time: string) returns (call: Call)
      requires pendingMaterialData.Some?
      modifies this, store
      ensures call == InstallUploadedMaterials(old(pendingMaterialData).value.selectedNames, presetName)
      ensures State() == old(State()).(isProcessing := true, isMaterialNameModalOpen := false)
      ensures store.Snapshot() == old(store.Snapshot()).(consoleOutput :=
        old(store.consoleOutput) + [Stamp(time, T(LogInstallingMaterialPreset, presetName))])
    {
      isProcessing := true;
      isMaterialNameModalOpen := false;
      store.AddConsoleOutput(time, T(LogInstallingMaterialPreset, presetName));
      call := InstallUploadedMaterials(pendingMaterialData.value.selectedNames, presetName);
    }

    /** `handleSubmit`: a blank hash is an error; any other opens the picker
      (the handler does not ask for the 8 characters the button does). */
    method HandleSubmit(messages: StatusMessages)
      modifies this, messages
      ensures Trim(old(settingsHash)) == [] ==>
        && State() == old(State())
        && messages.messages == old(messages.messages) + [Notice(CreatorPleaseEnterHash, Error)]
      ensures Trim(old(settingsHash)) != [] ==>
        State() == old(State()).(isModalOpen := true) && messages.messages == old(messages.messages)
      ensures old(Settled(State())) ==> Settled(State())
    {
      if |Trim(settingsHash)| == 0 {
        messages.AddMessage(Notice(CreatorPleaseEnterHash, Error));
        return;
      }
      isModalOpen := true;
    }

    method HandleHashChange(value: string)
      modifies this
      ensures State() == old(State()).(settingsHash := value)
      ensures old(Settled(State())) ==> Settled(State())
    {
      settingsHash := value;
    }

    /** `handleFileUpload`, given what the file dialog returned and what
      `upload_material_file` returned. */
    method HandleFileUpload(dialog: Result<Option<string>>, upload: Result<string>, messages: StatusMessages)
      returns (calls: seq<Call>)
      modifies this, messages
      ensures !isProcessing
      ensures dialog.Err? ==>
        && calls == []
        && State() == old(State()).(isProcessing := false)
        && messages.messages == old(messages.messages) + [Notice(T(CreatorUploadError, dialog.error), Error)]
      ensures dialog.Ok? && DialogCancelled(dialog.value) ==>
        && calls == []
        && State() == old(State()).(isProcessing := false)
        && messages.messages == old(messages.messages)
      ensures dialog.Ok? && !DialogCancelled(dialog.value) ==>
        && calls == [UploadMaterialFile(dialog.value.value)]
        && match upload
           case Ok(filename) =>
             && State() == old(State()).(isProcessing := false, uploadedFiles := old(uploadedFiles) + [filename])
             && messages.messages == old(messages.messages) + [Notice(T(CreatorFileUploaded, filename), Success)]
           case Err(e) =>
             && State() == old(State()).(isProcessing := false)
             && messages.messages == old(messages.messages) + [Notice(T(CreatorUploadError, e), Error)]
      ensures old(Settled(State())) ==> Settled(State())
    {
      isProcessing := true;
      calls := [];
      match dialog {
        case Err(error) =>
          messages.AddMessage(Notice(T(CreatorUploadError, error), Error));
        case Ok(picked) =>
          if picked.None? || picked.value == "" {
            isProcessing := false;
            return;
          }
          calls := [UploadMaterialFile(picked.value)];
          match upload {
            case Ok(filename) =>
              messages.AddMessage(Notice(T(CreatorFileUploaded, filename), Success));
              uploadedFiles := uploadedFiles + [filename];
            case Err(error) =>
              messages.AddMessage(Notice(T(CreatorUploadError, error), Error));
          }
      }
      isProcessing := false;
    }

    /** `handleRemoveFile`: every entry equal to `filename` goes; an info
      message is posted whether or not there was one. */
    method HandleRemoveFile(filename: string, messages: StatusMessages)
      modifies this, messages
      ensures State() == old(State()).(uploadedFiles := Without(old(uploadedFiles), filename))
      ensures messages.messages == old(messages.messages) + [Notice(T(CreatorFileRemoved, filename), Info)]
      ensures old(Settled(State())) ==> Settled(State())
    {
      uploadedFiles := Without(uploadedFiles, filename);
      messages.AddMessage(Notice(T(CreatorFileRemoved, filename), Info));
    }

    /** The picker's close button for the settings install. */
    method CloseModal()
      modifies this
      ensures State() == old(State()).(isModalOpen := false)
      ensures old(Settled(State())) ==> Settled(State())
    {
      isModalOpen := false;
    }

    /** The settings name prompt's close button drops the pending install. */
    method CloseNameModal()
      modifies this
      ensures State() == old(State()).(isNameModalOpen := false, pendingInstallData := None)
      ensures old(Settled(State())) ==> Settled(State())
    {
      isNameModalOpen := false;
      pendingInstallData := None;
    }

    /** The "install materials" button under the file list. */
    method OpenMaterialModal()
      modifies this
      ensures State() == old(State()).(isMaterialModalOpen := true)
      ensures old(Settled(State())) ==> Settled(State())
    {
      isMaterialModalOpen := true;
    }

    method CloseMaterialModal()
      modifies this
      ensures State() == old(State()).(isMaterialModalOpen := false)
      ensures old(Settled(State())) ==> Settled(State())
    {
      isMaterialModalOpen := false;
    }

    /** The materials name prompt's close button drops the pending install. */
    method CloseMaterialNameModal()
      modifies this
      ensures State() == old(State()).(isMaterialNameModalOpen := false, pendingMaterialData := None)
      ensures old(Settled(State())) ==> Settled(State())
    {
      isMaterialNameModalOpen := false;
      pendingMaterialData := None;
    }
  }
}
