/** The skybox helpers (src/skybox.rs): choosing the archive file and the
    move command for a pannellum position, the constant style id, the
    prompt clean-up before a skybox request, and the guard before saving a
    finished skybox. The Blockade Labs calls, the file system and OBS are
    parameters. */
module Skybox {
  import opened Common

  /** The pannellum positions that have a fixed skybox. */
  const SkyboxIdMap: map<string, string> :=
    map["office" := "2443168", "office1" := "2443168", "bar1" := "2451051", "bar" := "2449796"]

  const ArchiveDir := "/home/begin/code/BeginGPT/GoBeginGPT/skybox_archive/"
  const MoveFile := "/home/begin/code/BeginGPT/tmp/current/move.txt"

  /** The archive file of a skybox id. */
  function ArchivePath(skyboxId: string): (p: string)
    ensures |p| == |ArchiveDir| + |skyboxId| + 4
    ensures p[..|ArchiveDir|] == ArchiveDir && p[|ArchiveDir|..|p| - 4] == skyboxId
  {
    ArchiveDir + skyboxId + ".txt"
  }

  /** The id an archive path was built from. */
  function ArchiveIdOf(path: string): string
    requires |path| >= |ArchiveDir| + 4
  {
    path[|ArchiveDir|..|path| - 4]
  }

  /** Distinct ids have distinct archive files. */
  lemma ArchivePathInjective(a: string, b: string)
    ensures ArchiveIdOf(ArchivePath(a)) == a
    ensures ArchivePath(a) == ArchivePath(b) ==> a == b
  {
    if ArchivePath(a) == ArchivePath(b) {
      assert ArchiveIdOf(ArchivePath(a)) == ArchiveIdOf(ArchivePath(b));
    }
  }

  /** The archive file `trigger_scene` looks for: the given id's, or, for
      an empty id, the fixed id of the position; None when the position has
      no fixed id, where indexing the map panics. */
  function ArchiveFor(filterName: string, skyboxId: string): Option<string> {
    if skyboxId != "" then Some(ArchivePath(skyboxId))
    else if filterName in SkyboxIdMap then Some(ArchivePath(SkyboxIdMap[filterName]))
    else None
  }

  /** How `trigger_scene` ends. */
  datatype SceneOutcome =
      /** Enabling the move filter failed; the error is returned. */
    | FilterFailed
      /** The task panicked: the empty id was looked up under a position
          the map does not have, or the archive file exists but cannot be
          read. */
    | Panicked
      /** The move file was (attempted to be) written with this content
          after looking for this archive file; the result is Ok. */
    | Wrote(archivePath: string, content: string)

  /** `trigger_scene(filter_name, skybox_id)`, where `filterEnabled` says
      whether enabling the filter succeeded and `archives` maps each
      existing archive file to its contents, or to None when reading it
      fails. */
  function TriggerScene(filterName: string, skyboxId: string, filterEnabled: bool, archives: map<string, Option<string>>): (r: SceneOutcome)
    ensures r.FilterFailed? <==> !filterEnabled
    ensures r.Panicked? <==> (filterEnabled &&
      (ArchiveFor(filterName, skyboxId).None? ||
       (ArchiveFor(filterName, skyboxId).value in archives && archives[ArchiveFor(filterName, skyboxId).value].None?)))
    ensures r.Wrote? ==> Some(r.archivePath) == ArchiveFor(filterName, skyboxId)
    ensures r.Wrote? ==> r.archivePath in archives ==> r.content == filterName + " " + archives[r.archivePath].value
    ensures r.Wrote? ==> r.archivePath !in archives ==> r.content == filterName
  {
    if !filterEnabled then FilterFailed
    else match ArchiveFor(filterName, skyboxId)
      case None => Panicked
      case Some(path) =>
        if path !in archives then Wrote(path, filterName)
        else match archives[path]
          case None => Panicked
          case Some(url) => Wrote(path, filterName + " " + url)
  }

  /** A given id picks its own archive whatever the name; without one the
      name's fixed id is used, and office and office1 share a skybox. */
  lemma ArchiveSelection(filterName: string, skyboxId: string, archives: map<string, Option<string>>)
    requires forall p | p in archives :: archives[p].Some?
    ensures skyboxId != "" ==> TriggerScene(filterName, skyboxId, true, archives).archivePath == ArchivePath(skyboxId)
    ensures skyboxId == "" && filterName in SkyboxIdMap ==>
      TriggerScene(filterName, skyboxId, true, archives).archivePath == ArchivePath(SkyboxIdMap[filterName])
    ensures TriggerScene("office", "", true, archives).archivePath == TriggerScene("office1", "", true, archives).archivePath
      == ArchivePath("2443168")
    ensures TriggerScene("bar", "", true, archives).archivePath == ArchivePath("2449796")
    ensures TriggerScene("bar1", "", true, archives).archivePath == ArchivePath("2451051")
  {
  }

  /** `find_style_id` ignores the words and always picks style 1. */
  function FindStyleId(words: seq<string>): (r: int)
    ensures r == 1
  {
    1
  }

  /** What `request_skybox` sends and records for one prompt. */
  datatype SkyboxRequestPlan = SkyboxRequestPlan(prompt: string, styleId: int, responsePath: string)

  /** The decision part of `request_skybox`; `writeOk` says whether the raw
      response could be written to `./tmp/skybox_{time}.json`. */
  function RequestSkybox(prompt: string, time: string, writeOk: bool): (r: Result<SkyboxRequestPlan>)
    ensures r.Ok? <==> writeOk
    ensures r.Ok? ==> var p := r.value.prompt;
      && |p| <= |prompt| && p == prompt[|prompt| - |p|..]
      && (p != [] ==> !IsWhitespace(p[0]))
      && (forall i | 0 <= i < |prompt| - |p| :: IsWhitespace(prompt[i]))
      && r.value.styleId == 1
  {
    var trimmed := TrimStart(prompt);
    var words := SplitWhitespace(trimmed);
    var styleId := FindStyleId(words);
    if writeOk then Ok(SkyboxRequestPlan(trimmed, styleId, "./tmp/skybox_" + time + ".json"))
    else Err("could not write the skybox response")
  }

  /** Trimming the front of the prompt does not change its words. */
  lemma {:induction false} TrimStartKeepsWords(s: string)
    ensures SplitWhitespace(TrimStart(s)) == SplitWhitespace(s)
    decreases |s|
  {
    if s != [] && IsWhitespace(s[0]) {
      TrimStartKeepsWords(s[1..]);
    }
  }

  /** The part of a status response the guard looks at. */
  datatype SkyboxStatus = SkyboxStatus(id: int, fileUrl: string)

  /** What is saved for a finished skybox: the image archive file and the
      url written into the skybox page. */
  datatype SavedSkybox = SavedSkybox(archiveFile: string, pageUrl: string)

  function IntToDecimal(n: int): string {
    if n < 0 then "-" + NatToDecimal(-n) else NatToDecimal(n)
  }

  const SkyboxPage := "./build/skybox.html"

  /** The archive file of a finished skybox image. */
  function SkyboxImageFile(timestamp: string, id: int): string {
    "./archive/skybox/" + timestamp + "_" + IntToDecimal(id) + ".png"
  }

  /** How `check_skybox_status_and_save` ends. */
  datatype SaveOutcome =
      /** Ok, with nothing saved. */
    | NothingSaved
      /** Downloading the image failed; the error is returned. */
    | DownloadFailed
      /** Creating or writing a file failed and its `unwrap` panicked,
          after the files listed were written. */
    | SavePanicked(written: seq<string>)
      /** Ok, with the image archived and the page written. */
    | Saved(skybox: SavedSkybox)

  /** `check_skybox_status_and_save`: a failed status request or an empty
      file url end with Ok and nothing saved; otherwise the image download
      (`downloadOk`) must succeed, then the image archive and the skybox
      page are written, each `unwrap`ped; `unwritable` holds the files that
      cannot be created or written. */
  function CheckSkyboxStatusAndSave(status: Result<SkyboxStatus>, downloadOk: bool, timestamp: string, unwritable: set<string>): (r: SaveOutcome)
    ensures status.Err? ==> r == NothingSaved
    ensures status.Ok? && status.value.fileUrl == "" ==> r == NothingSaved
    ensures r.DownloadFailed? <==> status.Ok? && status.value.fileUrl != "" && !downloadOk
    ensures r.SavePanicked? <==> (status.Ok? && status.value.fileUrl != "" && downloadOk &&
      (SkyboxImageFile(timestamp, status.value.id) in unwritable || SkyboxPage in unwritable))
    ensures r.SavePanicked? ==> (r.written ==
      if SkyboxImageFile(timestamp, status.value.id) in unwritable then [] else [SkyboxImageFile(timestamp, status.value.id)])
    ensures r.Saved? ==> status.Ok? && r.skybox == SavedSkybox(SkyboxImageFile(timestamp, status.value.id), status.value.fileUrl)
  {
    match status
    case Err(_) => NothingSaved
    case Ok(request) =>
      if request.fileUrl == "" then NothingSaved
      else if !downloadOk then DownloadFailed
      else
        var image := SkyboxImageFile(timestamp, request.id);
        if image in unwritable then SavePanicked([])
        else if SkyboxPage in unwritable then SavePanicked([image])
        else Saved(SavedSkybox(image, request.fileUrl))
  }
}
