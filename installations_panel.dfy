/** The installations panel's add-installation form: a path and a name typed
    or browsed in, validated by the backend, and, when valid, announced to the
    parent so that it refreshes its list. */
module InstallationsPanel {
  import opened Wrappers
  import opened Backend
  import opened Text

  const InvalidPathAlert := "Invalid Minecraft installation path"
  const AddErrorLead := "Error adding installation: "

  /** The form's state. */
  datatype Form = Form(showAddForm: bool, newInstallPath: string, newInstallName: string, isAdding: bool)

  /** What one press of the add button leaves behind: the form, the backend
      calls made, whether `onInstallationAdded` was called, and the alert
      shown, if any. */
  datatype Added = Added(form: Form, calls: seq<Call>, notified: bool, alert: Option<string>)

  /** `handleAddInstallation`, when `validate_minecraft_path` produces
      `validation`. */
  function AfterAdd(f: Form, validation: Result<bool>): (r: Added)
    // a blank path: nothing at all happens
    ensures Trim(f.newInstallPath) == [] ==> r == Added(f, [], false, None)
    // otherwise the path as typed (untrimmed) is validated, and the busy flag ends cleared
    ensures Trim(f.newInstallPath) != [] ==>
      && r.calls == [ValidateMinecraftPath(f.newInstallPath)]
      && !r.form.isAdding
      && (r.notified <==> validation == Ok(true))
      && (validation == Ok(true) ==>
            r.form == Form(false, [], [], false) && r.alert == None)
      && (validation == Ok(false) ==>
            r.form == f.(isAdding := false) && r.alert == Some(InvalidPathAlert))
      && (validation.Err? ==>
            r.form == f.(isAdding := false) && r.alert == Some(AddErrorLead + validation.error))
  {
    if Trim(f.newInstallPath) == [] then Added(f, [], false, None)
    else
      var calls := [ValidateMinecraftPath(f.newInstallPath)];
      match validation
      case Ok(valid) =>
        if !valid then Added(f.(isAdding := false), calls, false, Some(InvalidPathAlert))
        else Added(Form(false, [], [], false), calls, true, None)
      case Err(e) => Added(f.(isAdding := false), calls, false, Some(AddErrorLead + e))
  }

  /** The cancel button: hide the form and clear both fields. */
  function Cancelled(f: Form): (g: Form)
    ensures !g.showAddForm && g.newInstallPath == [] && g.newInstallName == [] && g.isAdding == f.isAdding
  {
    f.(showAddForm := false, newInstallPath := [], newInstallName := [])
  }

  /** The add button is disabled when the trimmed path is empty or an add is
      under way. */
  function AddDisabled(f: Form): (disabled: bool)
    ensures disabled <==> f.isAdding || forall k :: 0 <= k < |f.newInstallPath| ==> IsJsWhitespace(f.newInstallPath[k])
  {
    Trim(f.newInstallPath) == [] || f.isAdding
  }

  /** An enabled add button always reaches the backend with the path as typed. */
  lemma EnabledAddValidates(f: Form, validation: Result<bool>)
    requires !AddDisabled(f)
    ensures AfterAdd(f, validation).calls == [ValidateMinecraftPath(f.newInstallPath)]
  {
  }

  /** The name field never reaches the backend and never decides the outcome:
      changing it changes neither the calls, nor the notification, nor the alert. */
  lemma AddIgnoresName(f: Form, name: string, validation: Result<bool>)
    ensures var a := AfterAdd(f, validation);
      var b := AfterAdd(f.(newInstallName := name), validation);
      a.calls == b.calls && a.notified == b.notified && a.alert == b.alert
  {
  }

  /** A successful add resets the form exactly as cancel does, ends the busy
      flag, and leaves the add button disabled until a new path is typed. */
  lemma SuccessResetsLikeCancel(f: Form)
    requires Trim(f.newInstallPath) != []
    ensures AfterAdd(f, Ok(true)).form == Cancelled(f).(isAdding := false)
    ensures AddDisabled(AfterAdd(f, Ok(true)).form)
  {
  }

  /** Whitespace around a path changes nothing about whether it is refused
      as blank. */
  lemma BlankIgnoresPadding(f: Form, before: string, after: string, validation: Result<bool>)
    requires forall k :: 0 <= k < |before| ==> IsJsWhitespace(before[k])
    requires forall k :: 0 <= k < |after| ==> IsJsWhitespace(after[k])
    ensures var g := f.(newInstallPath := before + f.newInstallPath + after);
      AfterAdd(g, validation).calls == [] <==> AfterAdd(f, validation).calls == []
  {
    TrimPadded(before, f.newInstallPath, after);
  }

  /** A folder dialog counts as picked when it returned a non-empty path. */
  predicate Picked(dialog: Result<Option<string>>) {
    dialog.Ok? && dialog.value.Some? && dialog.value.value != []
  }

  /** The component's state. */
  class Panel {
    var showAddForm: bool
    var newInstallPath: string
    var newInstallName: string
    var isAdding: bool

    function State(): Form
      reads this
    {
      Form(showAddForm, newInstallPath, newInstallName, isAdding)
    }

    constructor ()
      ensures State() == Form(false, [], [], false)
    {
      showAddForm := false;
      newInstallPath := [];
      newInstallName := [];
      isAdding := false;
    }

    /** `handleAddInstallation`: `validation` is what `validate_minecraft_path`
        returned, or the error it threw. */
    method HandleAddInstallation(validation: Result<bool>) returns (calls: seq<Call>, notified: bool, alert: Option<string>)
      modifies this
      ensures var r := AfterAdd(old(State()), validation);
        && State() == r.form && calls == r.calls && notified == r.notified && alert == r.alert
    {
      calls, notified, alert := [], false, None;
      if |Trim(newInstallPath)| == 0 {
        return;
      }
      isAdding := true;
      calls := [ValidateMinecraftPath(newInstallPath)];
      match validation {
        case Ok(valid) =>
          if !valid {
            alert := Some(InvalidPathAlert);
          } else {
            notified := true;
            showAddForm := false;
            newInstallPath := [];
            newInstallName := [];
          }
        case Err(e) =>
          alert := Some(AddErrorLead + e);
      }
      isAdding := false;
    }

    /** `handleBrowseFolder`: a picked folder becomes the path; a cancelled or
        failed dialog changes nothing. */
    method HandleBrowseFolder(dialog: Result<Option<string>>)
      modifies this
      ensures Picked(dialog) ==> State() == old(State()).(newInstallPath := dialog.value.value)
      ensures !Picked(dialog) ==> State() == old(State())
    {
      if dialog.Ok? && dialog.value.Some? && |dialog.value.value| != 0 {
        newInstallPath := dialog.value.value;
      }
    }

    /** The toolbar button: show the form when hidden, hide it when shown;
        the fields stay as they were. */
    method ToggleAddForm()
      modifies this
      ensures State() == old(State()).(showAddForm := !old(showAddForm))
    {
      showAddForm := !showAddForm;
    }

    method SetInstallPath(value: string)
      modifies this
      ensures State() == old(State()).(newInstallPath := value)
    {
      newInstallPath := value;
    }

    method SetInstallName(value: string)
      modifies this
      ensures State() == old(State()).(newInstallName := value)
    {
      newInstallName := value;
    }

    /** The form's cancel button. */
    method Cancel()
      modifies this
      ensures State() == Cancelled(old(State()))
    {
      showAddForm := false;
      newInstallPath := [];
      newInstallName := [];
    }
  }
}
