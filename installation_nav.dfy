/** The installed-presets list: every installation that carries an installed
    preset contributes an entry; entries are then deduplicated by preset uuid
    through a Map, keeping the latest installation of each preset. */
module InstallationNav {
  import opened Wrappers
  import opened AppStore
  import Seqs

  /** One element of the extracted list: the preset's uuid, name and install
      time, and the installation it is installed to. */
  datatype PresetEntry = PresetEntry(uuid: string, name: string, installedAt: int, installation: Installation)

  function EntryOf(inst: Installation): PresetEntry
    requires inst.installedPreset.Some?
  {
    var p := inst.installedPreset.value;
    PresetEntry(p.uuid, p.name, p.installedAt, inst)
  }

  predicate HasPreset(inst: Installation) {
    inst.installedPreset.Some?
  }

  /** The map-then-filter extraction: installations without an installed
      preset contribute nothing; the others contribute their entry, in order. */
  function PresetInstallations(insts: seq<Installation>): (r: seq<PresetEntry>)
    ensures |r| <= |insts|
    // exactly one entry per installation with a preset, in the installations' order
    ensures |r| == |Seqs.Filter(HasPreset, insts)|
    ensures forall i :: 0 <= i < |r| ==> r[i] == EntryOf(Seqs.Filter(HasPreset, insts)[i])
  {
    if insts == [] then []
    else
      assert Seqs.Filter(HasPreset, insts)
          == (if HasPreset(insts[0]) then [insts[0]] else []) + Seqs.Filter(HasPreset, insts[1..]);
      (if insts[0].installedPreset.Some? then [EntryOf(insts[0])] else []) + PresetInstallations(insts[1..])
  }

  /** Every extracted entry is the entry of an installation with a preset,
      and every such installation has its entry extracted. */
  lemma PresetInstallationsMembers(insts: seq<Installation>)
    ensures forall e :: e in PresetInstallations(insts) ==>
      e.installation in insts && e.installation.installedPreset.Some? && e == EntryOf(e.installation)
    ensures forall inst :: inst in insts && inst.installedPreset.Some? ==> EntryOf(inst) in PresetInstallations(insts)
  {
    var r, f := PresetInstallations(insts), Seqs.Filter(HasPreset, insts);
    forall e | e in r
      ensures e.installation in insts && e.installation.installedPreset.Some? && e == EntryOf(e.installation)
    {
      var i :| 0 <= i < |r| && r[i] == e;
      assert f[i] in f;
    }
    forall inst | inst in insts && inst.installedPreset.Some?
      ensures EntryOf(inst) in r
    {
      assert HasPreset(inst);
      var i :| 0 <= i < |f| && f[i] == inst;
      assert r[i] == EntryOf(inst);
    }
  }

  /** What the map holds for a uuid after an entry `e` with that uuid arrives
      when it held `kept`: `e` replaces it only when strictly later. */
  function Keep(kept: PresetEntry, e: PresetEntry): PresetEntry {
    if e.installedAt > kept.installedAt then e else kept
  }

  /** The map's values, in insertion order, after `e` is offered: a new uuid
      is added at the end; an existing one keeps its position. */
  function Upsert(acc: seq<PresetEntry>, e: PresetEntry): seq<PresetEntry>
  {
    if acc == [] then [e]
    else if acc[0].uuid == e.uuid then [Keep(acc[0], e)] + acc[1..]
    else [acc[0]] + Upsert(acc[1..], e)
  }

  /** `Array.from(uniquePresetMap.values())` after the `forEach` over `s`. */
  function Dedup(s: seq<PresetEntry>): seq<PresetEntry>
  {
    if s == [] then [] else Upsert(Dedup(s[..|s| - 1]), s[|s| - 1])
  }

  /** The list the navigation renders. */
  function InstalledPresetsView(insts: seq<Installation>): seq<PresetEntry> {
    Dedup(PresetInstallations(insts))
  }

  /** The installed-presets list: the extraction, then the deduplication. */
  method InstalledPresets(insts: seq<Installation>) returns (r: seq<PresetEntry>)
    ensures r == InstalledPresetsView(insts)
    ensures DedupSpec(PresetInstallations(insts), r)
    ensures |r| <= |insts|
    ensures forall x :: x in r ==> x.installation in insts && x.installation.installedPreset.Some?
  {
    r := Deduplicate(PresetInstallations(insts));
    PresetInstallationsMembers(insts);
  }

  /** The `forEach` over the extracted entries, with the JS `Map` held as its
      keys in insertion order and a map from key to value: an entry is stored
      when its uuid is new (the key goes to the end) or when it is strictly
      later than the stored one (the key keeps its place). The result is the
      map's values in key order. */
  method Deduplicate(entries: seq<PresetEntry>) returns (r: seq<PresetEntry>)
    ensures r == Dedup(entries)
    ensures DedupSpec(entries, r)
  {
    var keys: seq<string> := [];
    var values: map<string, PresetEntry> := map[];
    var i := 0;
    while i < |entries|
      invariant 0 <= i <= |entries|
      invariant MapHolds(keys, values, Dedup(entries[..i]))
    {
      var e := entries[i];
      assert entries[..i + 1] == entries[..i] + [e];
      if e.uuid !in values {
        MapStepNew(keys, values, Dedup(entries[..i]), e);
      } else {
        MapStepPresent(keys, values, Dedup(entries[..i]), e);
      }
      if e.uuid !in values || e.installedAt > values[e.uuid].installedAt {
        if e.uuid !in values {
          keys := keys + [e.uuid];
        }
        values := values[e.uuid := e];
      }
      i := i + 1;
    }
    assert entries[..i] == entries;
    r := [];
    var j := 0;
    while j < |keys|
      invariant 0 <= j <= |keys|
      invariant r == Dedup(entries)[..j]
    {
      r := r + [values[keys[j]]];
      j := j + 1;
    }
    DedupMeetsSpec(entries);
  }

  /** The Map given by `keys` and `values` has, in key order, exactly the
      values `d`. */
  ghost predicate MapHolds(keys: seq<string>, values: map<string, PresetEntry>, d: seq<PresetEntry>) {
    && |keys| == |d|
    && (forall j :: 0 <= j < |keys| ==> keys[j] in values && values[keys[j]] == d[j] && d[j].uuid == keys[j])
    && (forall u :: u in values ==> u in keys)
    && (forall a, b :: 0 <= a < b < |keys| ==> keys[a] != keys[b])
  }

  /** A new uuid: its key goes to the end and its entry to the end of the values. */
  lemma MapStepNew(keys: seq<string>, values: map<string, PresetEntry>, d: seq<PresetEntry>, e: PresetEntry)
    requires MapHolds(keys, values, d) && e.uuid !in values
    ensures MapHolds(keys + [e.uuid], values[e.uuid := e], Upsert(d, e))
  {
    UpsertAbsent(d, e);
  }

  /** A stored uuid: the key keeps its place and holds the later entry. */
  lemma MapStepPresent(keys: seq<string>, values: map<string, PresetEntry>, d: seq<PresetEntry>, e: PresetEntry)
    requires MapHolds(keys, values, d) && e.uuid in values
    ensures e.installedAt > values[e.uuid].installedAt ==> MapHolds(keys, values[e.uuid := e], Upsert(d, e))
    ensures e.installedAt <= values[e.uuid].installedAt ==> MapHolds(keys, values, Upsert(d, e))
  {
    var j :| 0 <= j < |keys| && keys[j] == e.uuid;
    UpsertPresent(d, e, j);
    if e.installedAt <= values[e.uuid].installedAt {
      assert Upsert(d, e) == d;
    } else {
      var d', values' := d[j := e], values[e.uuid := e];
      assert Upsert(d, e) == d';
      forall k | 0 <= k < |keys|
        ensures keys[k] in values' && values'[keys[k]] == d'[k] && d'[k].uuid == keys[k]
      {
        if k != j {
          assert keys[k] != e.uuid;
        }
      }
    }
  }

  /** The click handler's target: the preview protocol exactly for a Preview
      installation. */
  function LaunchUrl(inst: Installation): (url: string)
    ensures url == "minecraft-preview://" <==> inst.preview
    ensures url == "minecraft://" <==> !inst.preview
  {
    if inst.preview then "minecraft-preview://" else "minecraft://"
  }

  /** The creator icon is shown for an entry whose installation's preset says
      `is_creator` (a property the declared interface lacks), or for the
      `material-files` uuid; the preset icon otherwise. */
  function UsesCreatorIcon(e: PresetEntry): (creator: bool)
    ensures e.uuid == "material-files" ==> creator
    ensures e.installation.installedPreset.Some? && e.installation.installedPreset.value.isCreator == Some(true) ==> creator
    ensures e.installation.installedPreset.Some? && e.installation.installedPreset.value.isCreator != Some(true) ==>
      (creator <==> e.uuid == "material-files")
  {
    (e.installation.installedPreset.Some? && e.installation.installedPreset.value.isCreator == Some(true))
    || e.uuid == "material-files"
  }

  // ---------------------------------------------------------------------------
  // What the deduplication promises

  ghost predicate DistinctUuids(r: seq<PresetEntry>) {
    forall i, j :: 0 <= i < j < |r| ==> r[i].uuid != r[j].uuid
  }

  ghost function Uuids(s: seq<PresetEntry>): set<string> {
    set i | 0 <= i < |s| :: s[i].uuid
  }

  /** `s[j]` is the entry the map ends up holding for its uuid: no entry with
      that uuid is later, and every earlier one is strictly earlier (so a tie
      goes to the first entry met). */
  ghost predicate KeptAt(s: seq<PresetEntry>, j: int)
    requires 0 <= j < |s|
  {
    forall k :: 0 <= k < |s| && s[k].uuid == s[j].uuid ==>
      s[k].installedAt <= s[j].installedAt && (k < j ==> s[k].installedAt < s[j].installedAt)
  }

  /** Where `u` first occurs in `s`. */
  ghost function FirstIndex(s: seq<PresetEntry>, u: string): (i: nat)
    requires u in Uuids(s)
    ensures i < |s| && s[i].uuid == u
    ensures forall k :: 0 <= k < i ==> s[k].uuid != u
  {
    if s[0].uuid == u then 0
    else
      assert u in Uuids(s[1..]) by {
        var i :| 0 <= i < |s| && s[i].uuid == u;
        assert s[1..][i - 1].uuid == u;
      }
      1 + FirstIndex(s[1..], u)
  }

  /** Everything the derived list promises about the entries `s` it came from. */
  ghost predicate DedupSpec(s: seq<PresetEntry>, r: seq<PresetEntry>) {
    && |r| <= |s|
    && DistinctUuids(r)
    && Uuids(r) == Uuids(s)
    && (forall x :: x in r ==> x in s)
    && (forall i, k :: 0 <= i < |r| && 0 <= k < |s| && s[k].uuid == r[i].uuid ==> s[k].installedAt <= r[i].installedAt)
    && (forall j :: 0 <= j < |s| && KeptAt(s, j) ==> s[j] in r)
    && (forall i, j :: 0 <= i < j < |r| ==>
          r[i].uuid in Uuids(s) && r[j].uuid in Uuids(s) && FirstIndex(s, r[i].uuid) < FirstIndex(s, r[j].uuid))
  }

  // ---------------------------------------------------------------------------
  // Proofs

  /** A uuid the map has not seen is appended. */
  lemma {:induction false} UpsertAbsent(acc: seq<PresetEntry>, e: PresetEntry)
    requires forall k :: 0 <= k < |acc| ==> acc[k].uuid != e.uuid
    ensures Upsert(acc, e) == acc + [e]
  {
    if acc != [] {
      UpsertAbsent(acc[1..], e);
      assert [acc[0]] + (acc[1..] + [e]) == acc + [e];
    }
  }

  /** A uuid the map holds at position `j` is updated in place. */
  lemma {:induction false} UpsertPresent(acc: seq<PresetEntry>, e: PresetEntry, j: nat)
    requires j < |acc| && acc[j].uuid == e.uuid
    requires forall k :: 0 <= k < j ==> acc[k].uuid != e.uuid
    ensures Upsert(acc, e) == acc[j := Keep(acc[j], e)]
  {
    if j > 0 {
      UpsertPresent(acc[1..], e, j - 1);
      assert [acc[0]] + acc[1..][j - 1 := Keep(acc[j], e)] == acc[j := Keep(acc[j], e)];
    }
  }

  lemma UuidsAppend(s: seq<PresetEntry>, e: PresetEntry)
    ensures Uuids(s + [e]) == Uuids(s) + {e.uuid}
  {
    var t := s + [e];
    forall u | u in Uuids(t) ensures u in Uuids(s) + {e.uuid} {
      var i :| 0 <= i < |t| && t[i].uuid == u;
      if i < |s| { assert s[i].uuid == u; }
    }
    forall u | u in Uuids(s) ensures u in Uuids(t) {
      var i :| 0 <= i < |s| && s[i].uuid == u;
      assert t[i].uuid == u;
    }
    assert t[|s|].uuid == e.uuid;
  }

  lemma UuidsUpdate(r: seq<PresetEntry>, j: nat, x: PresetEntry)
    requires j < |r| && x.uuid == r[j].uuid
    ensures Uuids(r[j := x]) == Uuids(r)
  {
    var t := r[j := x];
    forall u | u in Uuids(t) ensures u in Uuids(r) {
      var i :| 0 <= i < |t| && t[i].uuid == u;
      assert r[i].uuid == u;
    }
    forall u | u in Uuids(r) ensures u in Uuids(t) {
      var i :| 0 <= i < |r| && r[i].uuid == u;
      assert t[i].uuid == u;
    }
  }

  /** Appending does not move the first occurrence of a uuid already present;
      a new uuid first occurs at the end. */
  lemma FirstIndexAppend(s: seq<PresetEntry>, e: PresetEntry)
    ensures Uuids(s + [e]) == Uuids(s) + {e.uuid}
    ensures forall u :: u in Uuids(s) ==> FirstIndex(s + [e], u) == FirstIndex(s, u)
    ensures e.uuid !in Uuids(s) ==> FirstIndex(s + [e], e.uuid) == |s|
  {
    UuidsAppend(s, e);
    var t := s + [e];
    forall u | u in Uuids(s) ensures FirstIndex(t, u) == FirstIndex(s, u) {
      var a, b := FirstIndex(t, u), FirstIndex(s, u);
      assert t[b].uuid == u;
      assert a <= b;
      assert s[a] == t[a];
    }
    if e.uuid !in Uuids(s) {
      var a := FirstIndex(t, e.uuid);
      forall k | 0 <= k < |s| ensures s[k].uuid != e.uuid {
        assert s[k].uuid in Uuids(s);
      }
      assert a <= |s| && t[a].uuid == e.uuid;
    }
  }

  lemma KeptAtPrefix(s: seq<PresetEntry>, e: PresetEntry, j: nat)
    requires j < |s| && KeptAt(s + [e], j)
    ensures KeptAt(s, j)
  {
    var t := s + [e];
    forall k | 0 <= k < |s| && s[k].uuid == s[j].uuid
      ensures s[k].installedAt <= s[j].installedAt && (k < j ==> s[k].installedAt < s[j].installedAt)
    {
      assert t[k] == s[k] && t[j] == s[j];
    }
  }

  /** Offering an entry with a new uuid. */
  lemma StepNew(s: seq<PresetEntry>, r: seq<PresetEntry>, e: PresetEntry)
    requires DedupSpec(s, r) && e.uuid !in Uuids(s)
    ensures DedupSpec(s + [e], Upsert(r, e))
  {
    var t, r' := s + [e], Upsert(r, e);
    forall k | 0 <= k < |r| ensures r[k].uuid != e.uuid {
      assert r[k].uuid in Uuids(r);
    }
    UpsertAbsent(r, e);
    FirstIndexAppend(s, e);
    UuidsAppend(r, e);
    NewLatest(s, r, e);
    NewKept(s, r, e);
    NewOrder(s, r, e);
    forall x | x in r' ensures x in t {
      if x in r { assert x in s; }
    }
  }

  lemma NewLatest(s: seq<PresetEntry>, r: seq<PresetEntry>, e: PresetEntry)
    requires DedupSpec(s, r) && e.uuid !in Uuids(s)
    ensures var t, r' := s + [e], r + [e];
      forall i, k :: 0 <= i < |r'| && 0 <= k < |t| && t[k].uuid == r'[i].uuid ==> t[k].installedAt <= r'[i].installedAt
  {
  }

  lemma NewKept(s: seq<PresetEntry>, r: seq<PresetEntry>, e: PresetEntry)
    requires DedupSpec(s, r)
    ensures var t, r' := s + [e], r + [e];
      forall j :: 0 <= j < |t| && KeptAt(t, j) ==> t[j] in r'
  {
    var t, r' := s + [e], r + [e];
    forall j | 0 <= j < |t| && KeptAt(t, j) ensures t[j] in r' {
      if j < |s| {
        KeptAtPrefix(s, e, j);
        assert s[j] in r;
      }
    }
  }

  lemma NewOrder(s: seq<PresetEntry>, r: seq<PresetEntry>, e: PresetEntry)
    requires DedupSpec(s, r) && e.uuid !in Uuids(s)
    requires Uuids(s + [e]) == Uuids(s) + {e.uuid}
    requires forall u :: u in Uuids(s) ==> FirstIndex(s + [e], u) == FirstIndex(s, u)
    requires FirstIndex(s + [e], e.uuid) == |s|
    ensures var t, r' := s + [e], r + [e];
      forall i, j :: 0 <= i < j < |r'| ==>
        r'[i].uuid in Uuids(t) && r'[j].uuid in Uuids(t) && FirstIndex(t, r'[i].uuid) < FirstIndex(t, r'[j].uuid)
  {
  }

  /** Offering an entry whose uuid the map already holds, at position `j0`. */
  lemma StepExisting(s: seq<PresetEntry>, r: seq<PresetEntry>, e: PresetEntry, j0: nat)
    requires DedupSpec(s, r) && j0 < |r| && r[j0].uuid == e.uuid
    ensures DedupSpec(s + [e], Upsert(r, e))
  {
    UpsertPresent(r, e, j0);
    ExistingShape(s, r, e, j0);
    ExistingLatest(s, r, e, j0);
    ExistingKept(s, r, e, j0);
    ExistingOrder(s, r, e, j0);
  }

  lemma ExistingShape(s: seq<PresetEntry>, r: seq<PresetEntry>, e: PresetEntry, j0: nat)
    requires DedupSpec(s, r) && j0 < |r| && r[j0].uuid == e.uuid
    ensures var t, r' := s + [e], r[j0 := Keep(r[j0], e)];
      && |r'| <= |t| && DistinctUuids(r') && Uuids(r') == Uuids(t)
      && (forall x :: x in r' ==> x in t)
  {
    var t, r' := s + [e], r[j0 := Keep(r[j0], e)];
    assert e.uuid in Uuids(s) by { assert r[j0].uuid in Uuids(r); }
    UuidsUpdate(r, j0, Keep(r[j0], e));
    UuidsAppend(s, e);
    forall x | x in r' ensures x in t {
      if x in r { assert x in s; }
    }
  }

  lemma ExistingLatest(s: seq<PresetEntry>, r: seq<PresetEntry>, e: PresetEntry, j0: nat)
    requires DedupSpec(s, r) && j0 < |r| && r[j0].uuid == e.uuid
    ensures var t, r' := s + [e], r[j0 := Keep(r[j0], e)];
      forall i, k :: 0 <= i < |r'| && 0 <= k < |t| && t[k].uuid == r'[i].uuid ==> t[k].installedAt <= r'[i].installedAt
  {
  }

  lemma ExistingKept(s: seq<PresetEntry>, r: seq<PresetEntry>, e: PresetEntry, j0: nat)
    requires DedupSpec(s, r) && j0 < |r| && r[j0].uuid == e.uuid
    ensures var t, r' := s + [e], r[j0 := Keep(r[j0], e)];
      forall j :: 0 <= j < |t| && KeptAt(t, j) ==> t[j] in r'
  {
    var t, r' := s + [e], r[j0 := Keep(r[j0], e)];
    var kept := Keep(r[j0], e);
    assert r[j0] in s;
    var jr :| 0 <= jr < |s| && s[jr] == r[j0];
    forall j | 0 <= j < |t| && KeptAt(t, j) ensures t[j] in r' {
      if j == |s| {
        assert t[jr].uuid == e.uuid;
        assert r'[j0] == e;
      } else {
        KeptAtPrefix(s, e, j);
        var i :| 0 <= i < |r| && r[i] == s[j];
        if i == j0 {
          assert t[|s|].uuid == t[j].uuid;
          assert r'[j0] == s[j];
        } else {
          assert r'[i] == s[j];
        }
      }
    }
  }

  lemma ExistingOrder(s: seq<PresetEntry>, r: seq<PresetEntry>, e: PresetEntry, j0: nat)
    requires DedupSpec(s, r) && j0 < |r| && r[j0].uuid == e.uuid
    ensures var t, r' := s + [e], r[j0 := Keep(r[j0], e)];
      forall i, j :: 0 <= i < j < |r'| ==>
        r'[i].uuid in Uuids(t) && r'[j].uuid in Uuids(t) && FirstIndex(t, r'[i].uuid) < FirstIndex(t, r'[j].uuid)
  {
    var t, r' := s + [e], r[j0 := Keep(r[j0], e)];
    assert e.uuid in Uuids(s) by { assert r[j0].uuid in Uuids(r); }
    FirstIndexAppend(s, e);
    forall i, j | 0 <= i < j < |r'|
      ensures r'[i].uuid in Uuids(t) && r'[j].uuid in Uuids(t) && FirstIndex(t, r'[i].uuid) < FirstIndex(t, r'[j].uuid)
    {
      assert r'[i].uuid == r[i].uuid && r'[j].uuid == r[j].uuid;
    }
  }

  /** The deduplicated list meets DedupSpec. */
  lemma {:induction false} DedupMeetsSpec(s: seq<PresetEntry>)
    ensures DedupSpec(s, Dedup(s))
  {
    if s == [] {
      assert Uuids(s) == {};
      assert Uuids(Dedup(s)) == {};
    } else {
      var s', e := s[..|s| - 1], s[|s| - 1];
      assert s == s' + [e];
      DedupMeetsSpec(s');
      var r := Dedup(s');
      if e.uuid in Uuids(s') {
        assert e.uuid in Uuids(r);
        var j0 :| 0 <= j0 < |r| && r[j0].uuid == e.uuid;
        StepExisting(s', r, e, j0);
      } else {
        StepNew(s', r, e);
      }
    }
  }
}
