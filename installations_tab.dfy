/** The installations tab: the same selection handler as the App component,
    and a refresh whenever the add-installation form reports success. */
module InstallationsTab {
  import opened Wrappers
  import opened Backend
  import Selection
  import opened AppStore

  /** `handleInstallationSelection`: copy, add or delete, store the copy. */
  method HandleInstallationSelection(store: Store, path: string, selected: bool)
    modifies store
    ensures store.Snapshot() == old(store.Snapshot()).(
      selectedInstallations := Selection.Toggled(old(store.selectedInstallations), path, selected))
  {
    var newSet := store.selectedInstallations;
    if selected {
      newSet := newSet + {path};
    } else {
      newSet := newSet - {path};
    }
    store.SetSelectedInstallations(newSet);
  }

  /** `handleInstallationAdded`: exactly one `refreshInstallations()`. */
  method HandleInstallationAdded(store: Store, outcome: Result<seq<Installation>>, time: string) returns (calls: seq<Call>)
    modifies store
    ensures calls == [ListInstallations]
    ensures store.Snapshot() == AfterRefreshInstallations(old(store.Snapshot()), outcome, time)
  {
    calls := store.RefreshInstallations(outcome, time);
  }
}
