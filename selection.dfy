/** Selection of installations by path (a multi-select set) and of one preset. */
module Selection {
  import opened Wrappers

  /** The set a checkbox change produces: a copy of `sel` with `path` added
      when it was checked and deleted when it was unchecked. */
  function Toggled(sel: set<string>, path: string, selected: bool): (r: set<string>)
    ensures path in r <==> selected
    ensures forall q :: q != path ==> (q in r <==> q in sel)
    ensures (path in sel) == selected ==> r == sel
  {
    if selected then sel + {path} else sel - {path}
  }

  /** The selection after a series of checkbox changes, applied in order. */
  function ApplyToggles(sel: set<string>, changes: seq<(string, bool)>): set<string>
  {
    if changes == [] then sel
    else
      var last := changes[|changes| - 1];
      Toggled(ApplyToggles(sel, changes[..|changes| - 1]), last.0, last.1)
  }

  /** The last choice made for `path` in `changes`, if any. */
  function LastChoice(changes: seq<(string, bool)>, path: string): Option<bool>
  {
    if changes == [] then None
    else if changes[|changes| - 1].0 == path then Some(changes[|changes| - 1].1)
    else LastChoice(changes[..|changes| - 1], path)
  }

  /** After any series of changes a path is selected exactly when the last
      change that named it selected it; a path no change named keeps its
      membership. */
  lemma {:induction false} ApplyTogglesLastChoiceWins(sel: set<string>, changes: seq<(string, bool)>, path: string)
    ensures path in ApplyToggles(sel, changes) <==>
      match LastChoice(changes, path)
      case Some(selected) => selected
      case None => path in sel
  {
    if changes != [] {
      ApplyTogglesLastChoiceWins(sel, changes[..|changes| - 1], path);
    }
  }

  /** `handlePresetSelection`: the preset chosen is the uuid when it was
      selected and nothing otherwise, whatever was chosen before. */
  function PresetChoice(uuid: string, selected: bool): (r: Option<string>)
    ensures r.Some? <==> selected
    ensures r.Some? ==> r.value == uuid
  {
    if selected then Some(uuid) else None
  }
}
