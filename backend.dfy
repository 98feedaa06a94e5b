/** The backend command boundary. The commands themselves are opaque: the model
    records which command was invoked, with which arguments, in which order. */
module Backend {
  import opened Wrappers

  datatype Call =
    | ListInstallations
    | ListPresets(forceRefresh: bool)
    | InstallPreset(uuid: string, installPath: string)
    | ClearCache
    | ValidateMinecraftPath(path: string)
      /** The preset name and uuid are absent when the caller does not send them. */
    | DownloadCreatorSettings(settingsHash: string, selectedNames: seq<string>,
                              creatorName: Option<string>, creatorUuid: Option<string>)
    | UploadMaterialFile(sourcePath: string)
    | InstallUploadedMaterials(selectedNames: seq<string>, presetName: string)
}
