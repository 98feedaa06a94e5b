/** One installation's card: the checkbox id derived from the install path,
    the checkbox forwarding its changes, and the conditional parts of the card. */
module InstallationCard {
  import opened Wrappers
  import Seqs
  import Selection
  import opened AppStore

  /** The characters the id keeps: the complement of `[^a-zA-Z0-9]`. */
  predicate IsAsciiAlnum(c: char) {
    ('a' <= c <= 'z') || ('A' <= c <= 'Z') || ('0' <= c <= '9')
  }

  /** The install path with every character outside `[a-zA-Z0-9]` deleted
      (a global regular-expression replace by the empty string). */
  function Sanitize(path: string): string {
    Seqs.Filter(IsAsciiAlnum, path)
  }

  /** The checkbox's DOM id. */
  function CheckboxId(inst: Installation): (id: string)
    ensures |id| >= 8 && id[..8] == "install-"
    ensures id[8..] == Sanitize(inst.installLocation)
  {
    "install-" + Sanitize(inst.installLocation)
  }

  /** The suffix of the id holds only ASCII letters and digits, is no longer
      than the path, and is the path with characters deleted in place; every
      letter or digit of the path survives as often as it occurs. */
  lemma CheckboxIdSuffix(inst: Installation)
    ensures var suffix := CheckboxId(inst)[8..];
      && (forall i :: 0 <= i < |suffix| ==> IsAsciiAlnum(suffix[i]))
      && |suffix| <= |inst.installLocation|
      && Seqs.IsSubsequence(suffix, inst.installLocation)
      && forall c :: IsAsciiAlnum(c) ==> multiset(suffix)[c] == multiset(inst.installLocation)[c]
  {
    var suffix := CheckboxId(inst)[8..];
    Seqs.FilterIsSubsequence(IsAsciiAlnum, inst.installLocation);
    forall c | IsAsciiAlnum(c) ensures multiset(suffix)[c] == multiset(inst.installLocation)[c] {
      Seqs.FilterCount(IsAsciiAlnum, inst.installLocation, c);
    }
  }

  /** A path of ASCII letters and digits only appears unchanged after the prefix. */
  lemma CheckboxIdOfAlnumPath(inst: Installation)
    requires forall i :: 0 <= i < |inst.installLocation| ==> IsAsciiAlnum(inst.installLocation[i])
    ensures CheckboxId(inst) == "install-" + inst.installLocation
  {
    Seqs.FilterKeepsAll(IsAsciiAlnum, inst.installLocation);
  }

  /** Sanitizing twice is sanitizing once. */
  lemma SanitizeIdempotent(path: string)
    ensures Sanitize(Sanitize(path)) == Sanitize(path)
  {
    Seqs.FilterKeepsAll(IsAsciiAlnum, Sanitize(path));
  }

  /** Deleting a character outside `[a-zA-Z0-9]` from a path does not change
      what sanitizing it gives. */
  lemma SanitizeIgnoresSeparator(x: string, y: string, sep: char)
    requires !IsAsciiAlnum(sep)
    ensures Sanitize(x + [sep] + y) == Sanitize(x + y)
  {
    Seqs.FilterAppend(IsAsciiAlnum, x + [sep], y);
    Seqs.FilterAppend(IsAsciiAlnum, x, [sep]);
    Seqs.FilterAppend(IsAsciiAlnum, x, y);
    assert Sanitize([sep]) == [] by {
      assert [sep][1..] == [];
    }
  }

  /** Two different install paths can share an id: paths that differ by one
      separator, space or colon get the same id. */
  lemma CheckboxIdCollides(a: Installation, b: Installation, x: string, y: string, sep: char)
    requires a.installLocation == x + [sep] + y && b.installLocation == x + y
    requires !IsAsciiAlnum(sep)
    ensures a.installLocation != b.installLocation
    ensures CheckboxId(a) == CheckboxId(b)
  {
    SanitizeIgnoresSeparator(x, y, sep);
    assert |a.installLocation| != |b.installLocation|;
  }

  /** What a checkbox change hands to the optional selection callback: the
      card's own install path and the new checked state; nothing when the
      card was given no callback. */
  function CheckboxChange(inst: Installation, checked: bool, hasCallback: bool): (forwarded: Option<(string, bool)>)
    ensures forwarded.Some? <==> hasCallback
    ensures forwarded.Some? ==> forwarded.value.0 == inst.installLocation && forwarded.value.1 == checked
  {
    if hasCallback then Some((inst.installLocation, checked)) else None
  }

  /** Fed to the selection toggle, a forwarded change selects exactly this
      card's path when the box was checked, and touches no other path. */
  lemma CheckboxChangeSelects(inst: Installation, checked: bool, sel: set<string>)
    ensures var fwd := CheckboxChange(inst, checked, true);
      var after := Selection.Toggled(sel, fwd.value.0, fwd.value.1);
      && (inst.installLocation in after <==> checked)
      && forall q :: q != inst.installLocation ==> (q in after <==> q in sel)
  {
  }

  /** The parts of the card that depend on the installation and on `selected`. */
  datatype CardView = CardView(
    checkboxId: string,
    checked: bool,
    selectedStyle: bool,
    title: string,
    path: string,
    previewBadge: bool,
    presetIcon: Option<string>,
    presetLine: string)

  /** The card for `inst`; `selected` defaults to false in the source. */
  function Card(inst: Installation, selected: bool): (v: CardView)
    ensures v.checkboxId == CheckboxId(inst)
    ensures v.checked == selected && v.selectedStyle == selected
    ensures v.title == inst.friendlyName && v.path == inst.installLocation
    ensures v.previewBadge <==> inst.preview
    ensures v.presetIcon.Some? <==> inst.installedPreset.Some?
    ensures inst.installedPreset.Some? ==>
      v.presetIcon == Some(inst.installedPreset.value.uuid)
      && v.presetLine == "Current preset: " + inst.installedPreset.value.name
    ensures inst.installedPreset.None? ==> v.presetLine == "No preset installed"
  {
    match inst.installedPreset
    case Some(p) =>
      CardView(CheckboxId(inst), selected, selected, inst.friendlyName, inst.installLocation,
               inst.preview, Some(p.uuid), "Current preset: " + p.name)
    case None =>
      CardView(CheckboxId(inst), selected, selected, inst.friendlyName, inst.installLocation,
               inst.preview, None, "No preset installed")
  }
}
