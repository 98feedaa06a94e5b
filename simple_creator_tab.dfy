/** The single-form creator tab: a settings hash typed into one field and
    installed, in one backend call, to every installation selected in the app
    store. The form's state is the class below; the selection is read from the
    store and the notices go to the status-message list. */
module SimpleCreator {
  import opened Wrappers
  import opened Backend
  import opened Text
  import opened Notices
  import App

  const PleaseEnterHash := "Please enter a settings hash"
  const PleaseSelectInstallation := "Please select at least one installation"
  const SuccessLead := "Successfully installed creator settings "
  const FailureLead := "Installation failed: "

  /** The success notice names the first eight characters of the hash as it
      was typed (untrimmed), followed by an ellipsis. */
  function SuccessMessage(hash: string): (m: string)
    ensures |m| == |SuccessLead| + |Prefix(hash, 8)| + 3
    ensures m[..|SuccessLead|] == SuccessLead
    ensures m[|SuccessLead|..|m| - 3] == Prefix(hash, 8) && Prefix(hash, 8) <= hash
    ensures m[|m| - 3..] == "..."
  {
    SuccessLead + Prefix(hash, 8) + "..."
  }

  /** The failure notice carries the backend's error text whole. */
  function FailureMessage(error: string): (m: string)
    ensures |m| == |FailureLead| + |error|
    ensures m[..|FailureLead|] == FailureLead && m[|FailureLead|..] == error
  {
    FailureLead + error
  }

  /** The form's state: the hash field and the busy flag. */
  datatype Form = Form(settingsHash: string, isProcessing: bool)

  /** What one submit leaves behind: the form, the backend calls made and
      the one notice posted. */
  datatype Submit = Submit(form: Form, calls: seq<Call>, notice: Notice)

  /** `handleSubmit`, when the selection is `selected`, iterating as `order`,
      and the download produces `outcome`. */
  function AfterSubmit(f: Form, selected: set<string>, order: seq<string>, outcome: Result<()>): (r: Submit)
    requires App.IterationOrder(order, selected)
    // a blank hash is refused first, whatever the selection
    ensures Trim(f.settingsHash) == [] ==> r == Submit(f, [], Notice(PleaseEnterHash, Error))
    // then an empty selection
    ensures Trim(f.settingsHash) != [] && selected == {} ==> r == Submit(f, [], Notice(PleaseSelectInstallation, Error))
    // otherwise one download of the trimmed hash to the whole selection, and the busy flag ends cleared
    ensures Trim(f.settingsHash) != [] && selected != {} ==>
      && r.calls == [DownloadCreatorSettings(Trim(f.settingsHash), order, None, None)]
      && !r.form.isProcessing
      && (outcome.Ok? ==> r.form.settingsHash == [] && r.notice == Notice(SuccessMessage(f.settingsHash), Success))
      && (outcome.Err? ==> r.form.settingsHash == f.settingsHash && r.notice == Notice(FailureMessage(outcome.error), Error))
  {
    if Trim(f.settingsHash) == [] then
      Submit(f, [], Notice(PleaseEnterHash, Error))
    else if |selected| == 0 then
      Submit(f, [], Notice(PleaseSelectInstallation, Error))
    else
      var calls := [DownloadCreatorSettings(Trim(f.settingsHash), order, None, None)];
      match outcome
      case Ok(_) => Submit(Form([], false), calls, Notice(SuccessMessage(f.settingsHash), Success))
      case Err(e) => Submit(f.(isProcessing := false), calls, Notice(FailureMessage(e), Error))
  }

  /** The submit button is enabled when nothing is processing, the trimmed
      hash has at least 8 characters and something is selected. */
  function SubmitEnabled(f: Form, selected: set<string>): (enabled: bool)
    ensures enabled <==> !f.isProcessing && |Trim(f.settingsHash)| >= 8 && selected != {}
  {
    !f.isProcessing && |Trim(f.settingsHash)| >= 8 && |selected| != 0
  }

  /** A submit through the enabled button is never refused: it downloads a
      trimmed hash of at least 8 characters to exactly the selected
      installations, each named once. */
  lemma EnabledSubmitDownloads(f: Form, selected: set<string>, order: seq<string>, outcome: Result<()>)
    requires App.IterationOrder(order, selected)
    requires SubmitEnabled(f, selected)
    ensures var r := AfterSubmit(f, selected, order, outcome);
      && |r.calls| == 1 && r.calls[0].DownloadCreatorSettings?
      && |r.calls[0].settingsHash| >= 8
      && (forall p :: p in r.calls[0].selectedNames <==> p in selected)
      && |r.calls[0].selectedNames| == |selected|
  {
    App.SizeOfIterationOrder(order, selected);
  }

  /** The handler's own test is weaker than the button's: a hash with some
      non-whitespace character but fewer than 8 after trimming still
      downloads when submitted, while the button stays disabled. */
  lemma ShortHashPassesHandler(f: Form, selected: set<string>, order: seq<string>, outcome: Result<()>, k: nat)
    requires App.IterationOrder(order, selected) && selected != {}
    requires k < |f.settingsHash| && !IsJsWhitespace(f.settingsHash[k])
    requires |Trim(f.settingsHash)| < 8
    ensures !SubmitEnabled(f, selected)
    ensures AfterSubmit(f, selected, order, outcome).calls != []
  {
  }

  /** A failed install keeps the hash, so submitting again repeats the same
      download. */
  lemma RetryRepeatsDownload(f: Form, selected: set<string>, order: seq<string>, e: string, outcome: Result<()>)
    requires App.IterationOrder(order, selected)
    ensures var first := AfterSubmit(f, selected, order, Err(e));
      AfterSubmit(first.form, selected, order, outcome).calls == first.calls
  {
  }

  /** A successful install clears the field, so submitting again is refused
      for want of a hash and calls nothing. */
  lemma SuccessClearsForm(f: Form, selected: set<string>, order: seq<string>, outcome: Result<()>)
    requires App.IterationOrder(order, selected)
    requires Trim(f.settingsHash) != [] && selected != {}
    ensures var first := AfterSubmit(f, selected, order, Ok(()));
      AfterSubmit(first.form, selected, order, outcome) == Submit(first.form, [], Notice(PleaseEnterHash, Error))
  {
  }

  /** The component's state. */
  class CreatorTab {
    var settingsHash: string
    var isProcessing: bool

    function State(): Form
      reads this
    {
      Form(settingsHash, isProcessing)
    }

    constructor ()
      ensures State() == Form([], false)
    {
      settingsHash := [];
      isProcessing := false;
    }

    /** `handleSubmit`: `selected` is the store's selection and `order` the
        order `Array.from` lists it in; `outcome` is what
        `download_creator_settings` returned. */
    method HandleSubmit(selected: set<string>, order: seq<string>, outcome: Result<()>, messages: StatusMessages)
      returns (calls: seq<Call>)
      requires App.IterationOrder(order, selected)
      modifies this, messages
      ensures var r := AfterSubmit(old(State()), selected, order, outcome);
        && State() == r.form && calls == r.calls
        && messages.messages == old(messages.messages) + [r.notice]
    {
      if |Trim(settingsHash)| == 0 {
        messages.AddMessage(Notice(PleaseEnterHash, Error));
        return [];
      }
      if |selected| == 0 {
        messages.AddMessage(Notice(PleaseSelectInstallation, Error));
        return [];
      }
      isProcessing := true;
      calls := [DownloadCreatorSettings(Trim(settingsHash), order, None, None)];
      match outcome {
        case Ok(_) =>
          messages.AddMessage(Notice(SuccessMessage(settingsHash), Success));
          settingsHash := [];
        case Err(e) =>
          messages.AddMessage(Notice(FailureMessage(e), Error));
      }
      isProcessing := false;
    }

    /** `handleHashChange`: the field takes the typed value as it is. */
    method HandleHashChange(value: string)
      modifies this
      ensures State() == old(State()).(settingsHash := value)
    {
      settingsHash := value;
    }
  }
}
