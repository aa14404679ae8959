/** The Suno song client (crates/subd-suno/src/lib.rs): reading a song out
    of a generation response, saving it and starting its download, the
    retry loop that waits for the song file, and queueing a song for
    playback. HTTP, the database, the file system, the UUID parser and the
    audio sink are parameters (their results); each operation returns the
    side effects it performs, in order, with its result. */
module Suno {
  import opened Common
  import opened Events

  /** A JSON value, as far as the client inspects one. */
  datatype Json =
    | JNull
    | JBool(b: bool)
    | JNumber(n: int)
    | JString(s: string)
    | JArray(items: seq<Json>)
    | JObject(fields: map<string, Json>)

  /** `value.get(index)`: an element of an array, None for anything else. */
  function GetIndex(v: Json, index: nat): (r: Option<Json>)
    ensures r.Some? <==> v.JArray? && index < |v.items|
  {
    if v.JArray? && index < |v.items| then Some(v.items[index]) else None
  }

  /** `value.get(key).and_then(|v| v.as_str())`. */
  function GetStr(v: Json, key: string): (r: Option<string>)
    ensures r.Some? <==> v.JObject? && key in v.fields && v.fields[key].JString?
  {
    if v.JObject? && key in v.fields && v.fields[key].JString? then Some(v.fields[key].s) else None
  }

  /** A text field of the song data, or "" when it is missing or not a string. */
  function StrOrEmpty(v: Json, key: string): (r: string)
    ensures GetStr(v, key).Some? ==> r == GetStr(v, key).value
    ensures GetStr(v, key).None? ==> r == ""
  {
    match GetStr(v, key) case Some(s) => s case None => ""
  }

  const ResponseDir := "tmp/suno_responses/"
  const SongDir := "ai_songs/"

  /** The local file of a song, for both download and playback. */
  function SongFile(id: string): (f: string)
    ensures |f| == |SongDir| + |id| + 4
    ensures f[..|SongDir|] == SongDir && f[|SongDir|..|f| - 4] == id && f[|f| - 4..] == ".mp3"
  {
    SongDir + id + ".mp3"
  }

  /** Different songs never share a file. */
  lemma SongFileInjective(a: string, b: string)
    requires SongFile(a) == SongFile(b)
    ensures a == b
  {
    assert SongFile(a)[|SongDir|..|SongFile(a)| - 4] == SongFile(b)[|SongDir|..|SongFile(b)| - 4];
  }

  /** The row saved for a generated song; `songId` is the parsed UUID, in
      the form the UUID type stores and prints. */
  datatype AiSong = AiSong(
    songId: string,
    title: string,
    tags: string,
    prompt: string,
    username: string,
    audioUrl: string,
    lyric: string,
    gptDescriptionPrompt: string)

  /** A side effect of the client, in the order performed. */
  datatype Effect =
    | SaveSong(song: AiSong)
    | CreateDir(path: string)
    | WriteFile(path: string, content: string)
    | StartDownload(id: string, userName: string)
    | SendChat(message: string)
    | OpenFile(path: string)
    | AddToPlaylist(uuid: string)
    | MarkPlayed(uuid: string)
    | AppendToSink(path: string)
    | Emit(event: Event)

  /** Why parsing and saving a song stopped. */
  datatype SunoError =
    | NoSongData | MissingId | InvalidUuid | SaveFailed | CreateDirFailed | WriteFailed
    | SendFailed | OpenFailed | PlaylistFailed | DecodeFailed

  /** The effects performed and how the call ended. */
  datatype Outcome = Outcome(effects: seq<Effect>, result: Option<SunoError>)

  /** The results of the calls `parse_suno_response_download_and_play` makes:
      the UUID parser, as the UUID it reads from each id text it accepts
      (an id outside the map is rejected), and whether saving the row,
      creating the folder and writing the response file succeed. */
  datatype SaveEnv = SaveEnv(uuidOf: map<string, string>, saveOk: bool, createDirOk: bool, writeOk: bool)

  /** The song row built from the song data and its parsed UUID; text
      fields default to "". */
  function SongOf(songData: Json, uuid: string, userName: string): (song: AiSong)
    ensures song.songId == uuid && song.username == userName
    ensures song.title == StrOrEmpty(songData, "title") && song.lyric == StrOrEmpty(songData, "lyric")
    ensures song.prompt == StrOrEmpty(songData, "prompt") && song.tags == StrOrEmpty(songData, "tags")
    ensures song.audioUrl == StrOrEmpty(songData, "audio_url")
    ensures song.gptDescriptionPrompt == StrOrEmpty(songData, "gpt_description_prompt")
  {
    AiSong(uuid, StrOrEmpty(songData, "title"), StrOrEmpty(songData, "tags"), StrOrEmpty(songData, "prompt"),
           userName, StrOrEmpty(songData, "audio_url"), StrOrEmpty(songData, "lyric"),
           StrOrEmpty(songData, "gpt_description_prompt"))
  }

  /** The four effects of a fully successful call, in order: the row holds
      the parsed UUID, while the folder, the response file and the download
      use the id text as it came. */
  function SaveEffects(response: Json, responseText: string, index: nat, userName: string, uuidOf: map<string, string>): seq<Effect>
    requires GetIndex(response, index).Some? && GetStr(GetIndex(response, index).value, "id").Some?
    requires GetStr(GetIndex(response, index).value, "id").value in uuidOf
  {
    var songData := GetIndex(response, index).value;
    var id := GetStr(songData, "id").value;
    [SaveSong(SongOf(songData, uuidOf[id], userName)),
     CreateDir(ResponseDir + id),
     WriteFile(ResponseDir + id + ".json", responseText),
     StartDownload(id, userName)]
  }

  /** `parse_suno_response_download_and_play` up to spawning the download,
      which returns Ok at once; `responseText` is the serialised response. */
  function ParseSunoResponse(response: Json, responseText: string, index: nat, userName: string, env: SaveEnv): (r: Outcome)
    ensures r.result.None? <==>
      && GetIndex(response, index).Some? && GetStr(GetIndex(response, index).value, "id").Some?
      && GetStr(GetIndex(response, index).value, "id").value in env.uuidOf
      && env.saveOk && env.createDirOk && env.writeOk
    ensures r.effects != [] ==>
      && GetIndex(response, index).Some? && GetStr(GetIndex(response, index).value, "id").Some?
      && GetStr(GetIndex(response, index).value, "id").value in env.uuidOf
      && r.effects <= SaveEffects(response, responseText, index, userName, env.uuidOf)
    ensures r.result.None? ==> r.effects == SaveEffects(response, responseText, index, userName, env.uuidOf)
  {
    match GetIndex(response, index)
    case None => Outcome([], Some(NoSongData))
    case Some(songData) =>
      match GetStr(songData, "id")
      case None => Outcome([], Some(MissingId))
      case Some(id) =>
        if id !in env.uuidOf then Outcome([], Some(InvalidUuid))
        else
          var all := SaveEffects(response, responseText, index, userName, env.uuidOf);
          if !env.saveOk then Outcome(all[..1], Some(SaveFailed))
          else if !env.createDirOk then Outcome(all[..2], Some(CreateDirFailed))
          else if !env.writeOk then Outcome(all[..3], Some(WriteFailed))
          else Outcome(all, None)
  }

  /** The error reported is the first failing step, in the order: song data
      at the index, a string id, a valid UUID, then saving, creating the
      folder and writing the response. */
  lemma ErrorOrder(response: Json, responseText: string, index: nat, userName: string, env: SaveEnv)
    ensures var r := ParseSunoResponse(response, responseText, index, userName, env);
      var song := GetIndex(response, index);
      var id := if song.Some? then GetStr(song.value, "id") else None;
      && (r.result == Some(NoSongData) <==> song.None?)
      && (r.result == Some(MissingId) <==> song.Some? && id.None?)
      && (r.result == Some(InvalidUuid) <==> id.Some? && id.value !in env.uuidOf)
      && (r.result == Some(SaveFailed) <==> id.Some? && id.value in env.uuidOf && !env.saveOk)
      && (r.result == Some(CreateDirFailed) <==> id.Some? && id.value in env.uuidOf && env.saveOk && !env.createDirOk)
      && (r.result == Some(WriteFailed) <==>
            id.Some? && id.value in env.uuidOf && env.saveOk && env.createDirOk && !env.writeOk)
  {
  }

  /** A missing index, a missing id or an id that is not a UUID is reported
      before anything is saved or written. */
  lemma NothingSavedBeforeIdChecked(response: Json, responseText: string, index: nat, userName: string, env: SaveEnv)
    requires var r := ParseSunoResponse(response, responseText, index, userName, env);
      r.result in {Some(NoSongData), Some(MissingId), Some(InvalidUuid)}
    ensures ParseSunoResponse(response, responseText, index, userName, env).effects == []
  {
  }

  /** The saved row carries the UUID parsed from the id, the requester, and
      each text field of the song data: its string value when the field
      holds a string, and "" where it is missing or holds anything else.
      The response folder, created next, is named by the id text itself. */
  lemma SavedSongFields(response: Json, responseText: string, index: nat, userName: string, env: SaveEnv)
    requires ParseSunoResponse(response, responseText, index, userName, env).effects != []
    ensures var songData := GetIndex(response, index).value;
      var e := ParseSunoResponse(response, responseText, index, userName, env).effects[0];
      var field := (key: string) =>
        if songData.JObject? && key in songData.fields && songData.fields[key].JString? then songData.fields[key].s else "";
      && songData.JObject? && "id" in songData.fields && songData.fields["id"].JString?
      && songData.fields["id"].s in env.uuidOf
      && e == SaveSong(AiSong(env.uuidOf[songData.fields["id"].s], field("title"), field("tags"), field("prompt"), userName,
                              field("audio_url"), field("lyric"), field("gpt_description_prompt")))
      && (|ParseSunoResponse(response, responseText, index, userName, env).effects| >= 2 ==>
            ParseSunoResponse(response, responseText, index, userName, env).effects[1] == CreateDir(ResponseDir + songData.fields["id"].s))
  {
  }

  // ---------------------------------------------------------------------
  // get_audio_information
  // ---------------------------------------------------------------------

  /** The first entry of the decoded response list, or an error when the
      list is empty; `decoded` is None when the request or decoding fails. */
  function GetAudioInformation<T>(decoded: Option<seq<T>>): (r: Result<T>)
    ensures r.Ok? <==> decoded.Some? && decoded.value != []
    ensures r.Ok? ==> r.value == decoded.value[0]
  {
    match decoded
    case None => Err("request failed")
    case Some(list) => if list == [] then Err("No audio information found") else Ok(list[0])
  }

  // ---------------------------------------------------------------------
  // play_audio
  // ---------------------------------------------------------------------

  /** The chat notice of a queued song. */
  function QueueNotice(userName: string, id: string): string {
    "@" + userName + " added " + id + " to Queue"
  }

  /** The results of the calls `play_audio` makes, in its order; the UUID
      parser is given as the UUID it reads from each id text it accepts. */
  datatype PlayEnv = PlayEnv(sendOk: bool, openOk: bool, uuidOf: map<string, string>, addOk: bool, markOk: bool, decodeOk: bool)

  /** `play_audio`: announce, open the song file, check the id, record it in
      the playlist, mark it played and queue it on the sink; the first
      failing step is the result. */
  function PlayAudio(id: string, userName: string, env: PlayEnv): (r: Outcome)
    ensures r.effects != [] && r.effects[0] == SendChat(QueueNotice(userName, id))
    ensures r.result.None? <==> env.sendOk && env.openOk && id in env.uuidOf && env.addOk && env.markOk && env.decodeOk
    ensures r.result.None? ==> r.effects == [SendChat(QueueNotice(userName, id)), OpenFile(SongFile(id)),
                                             AddToPlaylist(env.uuidOf[id]), MarkPlayed(env.uuidOf[id]), AppendToSink(SongFile(id))]
  {
    var checked := [SendChat(QueueNotice(userName, id)), OpenFile(SongFile(id))];
    if !env.sendOk then Outcome(checked[..1], Some(SendFailed))
    else if !env.openOk then Outcome(checked, Some(OpenFailed))
    else if id !in env.uuidOf then Outcome(checked, Some(InvalidUuid))
    else
      var uuid := env.uuidOf[id];
      var all := checked + [AddToPlaylist(uuid), MarkPlayed(uuid), AppendToSink(SongFile(id))];
      if !env.addOk then Outcome(all[..3], Some(PlaylistFailed))
      else if !env.markOk then Outcome(all[..4], Some(PlaylistFailed))
      else if !env.decodeOk then Outcome(all[..4], Some(DecodeFailed))
      else Outcome(all, None)
  }

  /** A song is only added to the playlist once its file opened and its id
      parsed, and under the parsed UUID; it is only sent to the sink once it
      is marked played. */
  lemma PlaylistAfterChecks(id: string, userName: string, env: PlayEnv)
    ensures var effects := PlayAudio(id, userName, env).effects;
      forall k | 0 <= k < |effects| && effects[k].AddToPlaylist? ::
        env.sendOk && env.openOk && id in env.uuidOf && effects[k] == AddToPlaylist(env.uuidOf[id])
    ensures AppendToSink(SongFile(id)) in PlayAudio(id, userName, env).effects ==>
      id in env.uuidOf && MarkPlayed(env.uuidOf[id]) in PlayAudio(id, userName, env).effects
  {
  }

  // ---------------------------------------------------------------------
  // download_and_play
  // ---------------------------------------------------------------------

  /** One fetch of the song from the CDN: a request error, a response that
      is not a success, or a success, with whether saving it locally works. */
  datatype Attempt = FetchFailed | NotReady | Ready(bytes: string, saveOk: bool)

  /** The effects of the successful fetch: the local copy (when it can be
      written; a failure is only logged), the chat notice, and the "!play"
      message from the bot account. */
  function ReadyEffects(id: string, userName: string, bytes: string, saveOk: bool): seq<Effect> {
    (if saveOk then [WriteFile(SongFile(id), bytes)] else [])
      + [SendChat("@" + userName + "'s song " + id + " added to the Queue."),
         Emit(BotMessage("!play " + id))]
  }

  /** The index of the first successful fetch, if any. */
  function FirstReady(attempts: seq<Attempt>): (r: Option<nat>)
    ensures r.Some? ==> r.value < |attempts| && attempts[r.value].Ready?
    ensures r.Some? ==> forall k | 0 <= k < r.value :: !attempts[k].Ready?
    ensures r.None? ==> forall k | 0 <= k < |attempts| :: !attempts[k].Ready?
  {
    if attempts == [] then None
    else if attempts[0].Ready? then Some(0)
    else match FirstReady(attempts[1..]) case None => None case Some(i) => Some(i + 1)
  }

  /** The spawned task of `download_and_play`, over the fetches it makes
      (one every five seconds): it retries until the first success, then
      performs that success's effects and ends. Returns the effects, the
      number of fetches made and whether the task ended. */
  method DownloadAndPlay(id: string, userName: string, attempts: seq<Attempt>)
    returns (effects: seq<Effect>, fetches: nat, done: bool)
    ensures done <==> FirstReady(attempts).Some?
    ensures done ==> (fetches == FirstReady(attempts).value + 1 &&
      effects == ReadyEffects(id, userName, attempts[fetches - 1].bytes, attempts[fetches - 1].saveOk))
    ensures !done ==> fetches == |attempts| && effects == []
  {
    effects := [];
    fetches := 0;
    done := false;
    while fetches < |attempts|
      invariant 0 <= fetches <= |attempts|
      invariant forall k | 0 <= k < fetches :: !attempts[k].Ready?
      invariant FirstReady(attempts[fetches..]).Some? ==> FirstReady(attempts).value == fetches + FirstReady(attempts[fetches..]).value
      invariant FirstReady(attempts[fetches..]).None? <==> FirstReady(attempts).None?
    {
      var attempt := attempts[fetches];
      assert attempts[fetches..][0] == attempt && attempts[fetches..][1..] == attempts[fetches + 1..];
      fetches := fetches + 1;
      if attempt.Ready? {
        effects := ReadyEffects(id, userName, attempt.bytes, attempt.saveOk);
        done := true;
        break;
      }
    }
  }

  /** Exactly one "!play" message is ever sent, and only once a fetch succeeded. */
  lemma OnePlayMessage(id: string, userName: string, bytes: string, saveOk: bool)
    ensures var effects := ReadyEffects(id, userName, bytes, saveOk);
      && effects[|effects| - 1] == Emit(BotMessage("!play " + id))
      && forall k | 0 <= k < |effects| - 1 :: !effects[k].Emit?
  {
  }
}
