/** The AI music-video handler (src/handlers/ai_music_video_creator_handler.rs):
    its receive loop, the chat-command parser, the preamble of
    `handle_requests` and the image lookup in a song's directory. The
    database, the file system and the video services are parameters. */
module MusicVideo {
  import opened Common
  import opened Events

  // ---------------------------------------------------------------------
  // The receive loop
  // ---------------------------------------------------------------------

  /** The chat messages the loop hands to `handle_requests`: those received
      before the first receive error, which ends the loop with Ok. */
  function MessagesBeforeError(recvs: seq<Recv>): (msgs: seq<UserMessage>)
    ensures |msgs| <= |recvs|
  {
    if recvs == [] || !recvs[0].Received? then []
    else
      var rest := MessagesBeforeError(recvs[1..]);
      match recvs[0].event
      case UserMessageEvent(msg) => [msg] + rest
      case _ => rest
  }

  /** `while let Ok(event) = rx.recv().await`: chat messages are handled,
      each in the world met handling it, and their errors only logged;
      other events are skipped, and the first receive error ends the loop. */
  method HandleEvents(recvs: seq<Recv>, envs: seq<RequestEnv>) returns (handled: seq<UserMessage>, outcomes: seq<RequestOutcome>, consumed: nat)
    requires |envs| == |recvs|
    ensures handled == MessagesBeforeError(recvs)
    ensures outcomes == RequestOutcomes(recvs, envs)
    ensures consumed <= |recvs| && forall k | 0 <= k < consumed :: recvs[k].Received?
    ensures consumed < |recvs| ==> !recvs[consumed].Received?
  {
    handled := [];
    outcomes := [];
    var i := 0;
    while i < |recvs| && recvs[i].Received?
      invariant 0 <= i <= |recvs|
      invariant forall k | 0 <= k < i :: recvs[k].Received?
      invariant handled + MessagesBeforeError(recvs[i..]) == MessagesBeforeError(recvs)
      invariant outcomes + RequestOutcomes(recvs[i..], envs[i..]) == RequestOutcomes(recvs, envs)
    {
      assert recvs[i..][1..] == recvs[i + 1..];
      assert envs[i..][1..] == envs[i + 1..];
      if recvs[i].event.UserMessageEvent? {
        var msg := recvs[i].event.msg;
        ConcatAssoc(outcomes, [HandleRequests(msg, envs[i])], RequestOutcomes(recvs[i + 1..], envs[i + 1..]));
        handled := handled + [msg];
        outcomes := outcomes + [HandleRequests(msg, envs[i])];
      }
      i := i + 1;
    }
    consumed := i;
  }

  // ---------------------------------------------------------------------
  // parse_command
  // ---------------------------------------------------------------------

  datatype Command =
    | CreateMusicVideoVideo(id: string, imageName: string)
    | CreateMusicVideoImage(id: string)
    | CreateMusicVideoImages(id: string)
    | CreateMusicVideo(id: string)
    | Unknown

  /** The id argument: the second word, else the current song id (whose
      lookup may fail). */
  function IdArg(words: seq<string>, currentSong: Result<string>): (r: Result<string>)
    ensures |words| >= 2 ==> r == Ok(words[1])
    ensures |words| < 2 ==> r == currentSong
  {
    if |words| >= 2 then Ok(words[1]) else currentSong
  }

  function MapId(id: Result<string>, make: string -> Command): Result<Command> {
    match id
    case Ok(v) => Ok(make(v))
    case Err(e) => Err(e)
  }

  /** The first words `parse_command` knows. */
  const CommandSpellings := {"!create_music_video_images", "!generate_images", "!generate_video", "!generate_image", "!create_music_video"}

  /** `parse_command`: dispatch on the first whitespace-separated word;
      `currentSong` is what looking up the current song id returns. */
  function ParseCommand(contents: string, currentSong: Result<string>): (r: Result<Command>)
    ensures var words := SplitWhitespace(contents);
      (words == [] || words[0] !in CommandSpellings) ==> r == Ok(Unknown)
    ensures var words := SplitWhitespace(contents);
      r.Err? <==> (
        && words != [] && words[0] in CommandSpellings
        && ((|words| < 2 && (words[0] == "!generate_video" || currentSong.Err?))
            || (|words| >= 2 && words[0] == "!generate_video" && currentSong.Err?)))
  {
    var words := SplitWhitespace(contents);
    if |words| == 0 then Ok(Unknown)
    else
      var first := words[0];
      if first == "!create_music_video_images" || first == "!generate_images" then
        MapId(IdArg(words, currentSong), id => CreateMusicVideoImages(id))
      else if first == "!generate_video" then
        if |words| < 2 then Err("No image name provided for video generation")
        else MapId(currentSong, id => CreateMusicVideoVideo(id, words[1]))
      else if first == "!generate_image" then
        MapId(IdArg(words, currentSong), id => CreateMusicVideoImage(id))
      else if first == "!create_music_video" then
        MapId(IdArg(words, currentSong), id => CreateMusicVideo(id))
      else Ok(Unknown)
  }

  /** The three id-taking commands use the second word when there is one,
      and otherwise the current song, failing when its lookup fails. */
  lemma IdCommands(contents: string, currentSong: Result<string>)
    requires var words := SplitWhitespace(contents);
      |words| > 0 && words[0] in {"!create_music_video_images", "!generate_images", "!generate_image", "!create_music_video"}
    ensures var words := SplitWhitespace(contents);
      var r := ParseCommand(contents, currentSong);
      && (|words| < 2 && currentSong.Err? <==> r.Err?)
      && (r.Ok? ==> r.value.id == (if |words| >= 2 then words[1] else currentSong.value))
      && (r.Ok? ==> !r.value.Unknown? && !r.value.CreateMusicVideoVideo?)
      && (r.Ok? && (words[0] == "!create_music_video_images" || words[0] == "!generate_images") ==> r.value.CreateMusicVideoImages?)
      && (r.Ok? && words[0] == "!generate_image" ==> r.value.CreateMusicVideoImage?)
      && (r.Ok? && words[0] == "!create_music_video" ==> r.value.CreateMusicVideo?)
  {
  }

  /** `!generate_video` needs an image name, and always targets the current
      song, never an id given in chat. */
  lemma GenerateVideoUsesCurrentSong(contents: string, currentSong: Result<string>)
    requires var words := SplitWhitespace(contents); |words| > 0 && words[0] == "!generate_video"
    ensures var words := SplitWhitespace(contents);
      var r := ParseCommand(contents, currentSong);
      && (|words| < 2 ==> r.Err?)
      && (|words| >= 2 ==> (r.Ok? <==> currentSong.Ok?))
      && (|words| >= 2 && r.Ok? ==> r.value == CreateMusicVideoVideo(currentSong.value, words[1]))
  {
  }

  /** Only the first two words matter. */
  lemma LaterWordsIgnored(a: string, b: string, currentSong: Result<string>)
    requires var wa := SplitWhitespace(a); var wb := SplitWhitespace(b);
      |wa| >= 2 && |wb| >= 2 && wa[..2] == wb[..2]
    ensures ParseCommand(a, currentSong) == ParseCommand(b, currentSong)
  {
    var wa := SplitWhitespace(a);
    var wb := SplitWhitespace(b);
    assert wa[0] == wa[..2][0] && wa[1] == wa[..2][1];
    assert wb[0] == wb[..2][0] && wb[1] == wb[..2][1];
  }

  /** Any other first word, or an empty message, is Unknown and needs no lookup. */
  lemma OtherWordsUnknown(contents: string, currentSong: Result<string>)
    requires var words := SplitWhitespace(contents);
      words == [] || words[0] !in {"!create_music_video_images", "!generate_images", "!generate_video", "!generate_image", "!create_music_video"}
    ensures ParseCommand(contents, currentSong) == Ok(Unknown)
  {
  }

  // ---------------------------------------------------------------------
  // find_image_filename
  // ---------------------------------------------------------------------

  const ImageExtensions: set<string> := {"png", "jpeg", "jpg"}

  /** A directory entry as the loop sees it: whether reading it succeeded,
      whether it is a regular file, its extension and stem (None when
      absent or not valid UTF-8), and its path. */
  datatype DirEntry = DirEntry(readOk: bool, isFile: bool, extension: Option<string>, stem: Option<string>, path: string)

  /** The entry is the image sought. */
  predicate IsMatch(e: DirEntry, name: string) {
    e.readOk && e.isFile && e.extension.Some? && e.extension.value in ImageExtensions && e.stem == Some(name)
  }

  /** The loop goes past the entry without stopping. */
  predicate SkipsOver(e: DirEntry, name: string) {
    e.readOk && (!e.isFile
      || (e.extension.Some? && (e.extension.value !in ImageExtensions || (e.stem.Some? && e.stem.value != name))))
  }

  /** The result of the scan over `entries`. */
  function FindImageIn(entries: seq<DirEntry>, name: string): (r: Result<string>)
    ensures r.Ok? ==> exists i | 0 <= i < |entries| :: IsMatch(entries[i], name) && r.value == entries[i].path
    ensures (forall i | 0 <= i < |entries| :: SkipsOver(entries[i], name)) ==> r == Err("No matching image found for: " + name)
  {
    if entries == [] then Err("No matching image found for: " + name)
    else
      var e := entries[0];
      if !e.readOk then Err("Failed to read directory entry")
      else if !e.isFile then FindImageIn(entries[1..], name)
      else if e.extension.None? then Err("Failed to get file extension")
      else if e.extension.value !in ImageExtensions then FindImageIn(entries[1..], name)
      else if e.stem.None? then Err("Failed to get file stem")
      else if e.stem.value == name then Ok(e.path)
      else FindImageIn(entries[1..], name)
  }

  /** `find_image_filename`: `listing` is the directory listing of the
      song's folder, or None when it cannot be read. */
  method FindImageFilename(songId: string, listing: Option<seq<DirEntry>>, name: string) returns (r: Result<string>)
    ensures listing.None? ==> r == Err("Failed to read directory: " + VideoDir(songId))
    ensures listing.Some? ==> r == FindImageIn(listing.value, name)
  {
    if listing.None? {
      return Err("Failed to read directory: " + VideoDir(songId));
    }
    var entries := listing.value;
    var i := 0;
    while i < |entries|
      invariant 0 <= i <= |entries|
      invariant FindImageIn(entries, name) == FindImageIn(entries[i..], name)
    {
      assert entries[i..][1..] == entries[i + 1..];
      var e := entries[i];
      if !e.readOk {
        return Err("Failed to read directory entry");
      }
      if !e.isFile {
        i := i + 1;
        continue;
      }
      if e.extension.None? {
        return Err("Failed to get file extension");
      }
      if e.extension.value !in ImageExtensions {
        i := i + 1;
        continue;
      }
      if e.stem.None? {
        return Err("Failed to get file stem");
      }
      if e.stem.value == name {
        return Ok(e.path);
      }
      i := i + 1;
    }
    return Err("No matching image found for: " + name);
  }

  /** The scan finds an image exactly when some entry matches and every
      entry before it is skipped over; it then returns that entry's path. */
  lemma {:induction false} FindImageCharacterised(entries: seq<DirEntry>, name: string)
    ensures FindImageIn(entries, name).Ok? <==>
      exists i | 0 <= i < |entries| :: IsMatch(entries[i], name) && forall k | 0 <= k < i :: SkipsOver(entries[k], name)
    ensures forall i | 0 <= i < |entries| && IsMatch(entries[i], name) && (forall k | 0 <= k < i :: SkipsOver(entries[k], name)) ::
      FindImageIn(entries, name) == Ok(entries[i].path)
  {
    if entries != [] {
      FindImageCharacterised(entries[1..], name);
      var e := entries[0];
      forall i | 0 <= i < |entries| && IsMatch(entries[i], name) && (forall k | 0 <= k < i :: SkipsOver(entries[k], name))
        ensures FindImageIn(entries, name) == Ok(entries[i].path)
      {
        if i > 0 {
          assert SkipsOver(e, name);
          assert IsMatch(entries[1..][i - 1], name);
          assert forall k | 0 <= k < i - 1 :: SkipsOver(entries[1..][k], name) by {
            forall k | 0 <= k < i - 1 ensures SkipsOver(entries[1..][k], name) {
              assert entries[1..][k] == entries[k + 1];
            }
          }
        }
      }
      if FindImageIn(entries, name).Ok? && !IsMatch(e, name) {
        assert SkipsOver(e, name);
        var j :| 0 <= j < |entries[1..]| && IsMatch(entries[1..][j], name)
          && forall k | 0 <= k < j :: SkipsOver(entries[1..][k], name);
        assert IsMatch(entries[j + 1], name);
        forall k | 0 <= k < j + 1 ensures SkipsOver(entries[k], name) {
          if k > 0 { assert entries[k] == entries[1..][k - 1]; }
        }
      }
    }
  }

  // ---------------------------------------------------------------------
  // handle_requests
  // ---------------------------------------------------------------------

  /** The folder `find_image_filename` lists for a song. */
  function VideoDir(songId: string): string {
    "./tmp/music_videos/" + songId + "/"
  }

  /** What the outside world answers while one message is handled: the
      current-song lookup of the preamble and the one `parse_command` makes
      (two separate queries), the song folders that can be listed, and the
      results of the music-video services and of the OBS update. A file
      name outside `canonical` cannot be made absolute, and
      `canonicalizeError` is the reason the system gives. */
  datatype RequestEnv = RequestEnv(
    preambleSong: Result<string>,
    parseSong: Result<string>,
    listings: map<string, seq<DirEntry>>,
    videoFromImage: Option<string>,
    imagesAndVideo: Result<string>,
    canonical: map<string, string>,
    canonicalizeError: string,
    changeScene: Option<string>,
    images: Option<string>)

  /** The calls `handle_requests` makes, in order. */
  datatype Action =
    | CreateVideoFromImage(songId: string, imageFile: string)
    | SendChat(text: string)
    | CreateImagesAndVideo(songId: string)
    | SetMusicVideoEnabled(enabled: bool)
    | UpdateVideoSource(fullPath: string)
    | ChangeScene(scene: string)
    | CreateImages(songId: string)
    | CreateImage(songId: string)

  /** The calls made and the error returned, if any; the loop only logs it. */
  datatype RequestOutcome = RequestOutcome(actions: seq<Action>, error: Option<string>)

  const VideoScene := "Movie Trailer"

  /** `update_obs_source` on a created video file: the music-video source is
      hidden, pointed at the file's absolute path and shown again (those
      results ignored), and the scene changes, whose result is returned. A
      file whose path cannot be made absolute fails before any call. */
  function UpdateObsSource(filename: string, env: RequestEnv): (r: RequestOutcome)
    ensures filename !in env.canonical <==> r.actions == []
    ensures filename !in env.canonical ==> r.error == Some(env.canonicalizeError)
    ensures filename in env.canonical ==>
      && r.actions == [SetMusicVideoEnabled(false), UpdateVideoSource(env.canonical[filename]),
                       SetMusicVideoEnabled(true), ChangeScene(VideoScene)]
      && r.error == env.changeScene
  {
    if filename !in env.canonical then RequestOutcome([], Some(env.canonicalizeError))
    else
      RequestOutcome([SetMusicVideoEnabled(false), UpdateVideoSource(env.canonical[filename]),
                      SetMusicVideoEnabled(true), ChangeScene(VideoScene)],
                     env.changeScene)
  }

  /** The calls for a parsed command. */
  function RunCommand(c: Command, env: RequestEnv): RequestOutcome {
    match c
    case Unknown => RequestOutcome([], None)
    case CreateMusicVideoVideo(id, imageName) =>
      var listing := if VideoDir(id) in env.listings then Some(env.listings[VideoDir(id)]) else None;
      var found := match listing case None => Err("Failed to read directory: " + VideoDir(id))
                                 case Some(entries) => FindImageIn(entries, imageName);
      if found.Ok? then RequestOutcome([CreateVideoFromImage(id, found.value)], env.videoFromImage)
      else RequestOutcome([SendChat("Error finding Image to create Video from: " + found.msg)], None)
    case CreateMusicVideo(id) =>
      if env.imagesAndVideo.Err? then RequestOutcome([CreateImagesAndVideo(id)], Some(env.imagesAndVideo.msg))
      else
        var update := UpdateObsSource(env.imagesAndVideo.value, env);
        RequestOutcome([CreateImagesAndVideo(id)] + update.actions, update.error)
    case CreateMusicVideoImages(id) => RequestOutcome([CreateImages(id)], env.images)
    case CreateMusicVideoImage(id) => RequestOutcome([CreateImage(id)], None)
  }

  /** `handle_requests` for one chat message. Messages from "nightbot" are
      dropped at once; otherwise the preamble's current-song lookup runs
      first and its failure is the result, whatever the message says; then
      the command is parsed, with the parser's own lookup, and run. */
  function HandleRequests(msg: UserMessage, env: RequestEnv): (r: RequestOutcome)
    ensures msg.userName == "nightbot" ==> r == RequestOutcome([], None)
    ensures msg.userName != "nightbot" && env.preambleSong.Err? ==> r == RequestOutcome([], Some(env.preambleSong.msg))
    ensures msg.userName != "nightbot" && env.preambleSong.Ok? && ParseCommand(msg.contents, env.parseSong).Err? ==>
      r == RequestOutcome([], Some(ParseCommand(msg.contents, env.parseSong).msg))
    ensures r.actions != [] ==>
      && msg.userName != "nightbot" && env.preambleSong.Ok? && ParseCommand(msg.contents, env.parseSong).Ok?
      && !ParseCommand(msg.contents, env.parseSong).value.Unknown?
  {
    if msg.userName == "nightbot" then RequestOutcome([], None)
    else if env.preambleSong.Err? then RequestOutcome([], Some(env.preambleSong.msg))
    else match ParseCommand(msg.contents, env.parseSong)
      case Err(e) => RequestOutcome([], Some(e))
      case Ok(c) => RunCommand(c, env)
  }

  /** `!generate_video` with an image name: the image is looked up in the
      current song's folder; a found image makes the video, whose failure
      is the result, and a missing one is told to chat and is no error. */
  lemma GenerateVideoOutcome(msg: UserMessage, env: RequestEnv)
    requires msg.userName != "nightbot" && env.preambleSong.Ok? && env.parseSong.Ok?
    requires var words := SplitWhitespace(msg.contents); |words| >= 2 && words[0] == "!generate_video"
    ensures var words := SplitWhitespace(msg.contents);
      var dir := VideoDir(env.parseSong.value);
      var r := HandleRequests(msg, env);
      && |r.actions| == 1
      && (dir in env.listings && FindImageIn(env.listings[dir], words[1]).Ok? ==>
            r == RequestOutcome([CreateVideoFromImage(env.parseSong.value, FindImageIn(env.listings[dir], words[1]).value)], env.videoFromImage))
      && (dir !in env.listings || FindImageIn(env.listings[dir], words[1]).Err? ==>
            r.actions[0].SendChat? && r.error.None?)
  {
    GenerateVideoUsesCurrentSong(msg.contents, env.parseSong);
  }

  /** The OBS source is only touched once the music video was created, it
      is pointed at the absolute path of the very file the creation
      returned, and then the scene change comes last; the single-image
      command never fails once parsed, since its result is dropped. */
  lemma CommandOrdering(c: Command, env: RequestEnv)
    ensures var r := RunCommand(c, env);
      forall k | 0 <= k < |r.actions| && r.actions[k].UpdateVideoSource? ::
        && c.CreateMusicVideo? && r.actions[0] == CreateImagesAndVideo(c.id) && env.imagesAndVideo.Ok?
        && env.imagesAndVideo.value in env.canonical
        && r.actions[k] == UpdateVideoSource(env.canonical[env.imagesAndVideo.value])
        && r.actions[|r.actions| - 1] == ChangeScene(VideoScene)
    ensures c.CreateMusicVideoImage? ==> RunCommand(c, env).error.None?
    ensures c.Unknown? ==> RunCommand(c, env) == RequestOutcome([], None)
  {
  }

  /** What the loop does with every message, each in its own world
      (`envs[k]` goes with `recvs[k]`), up to the first receive error. */
  function RequestOutcomes(recvs: seq<Recv>, envs: seq<RequestEnv>): (outs: seq<RequestOutcome>)
    requires |envs| == |recvs|
    ensures |outs| == |MessagesBeforeError(recvs)|
  {
    if recvs == [] || !recvs[0].Received? then []
    else
      var rest := RequestOutcomes(recvs[1..], envs[1..]);
      match recvs[0].event
      case UserMessageEvent(msg) => [HandleRequests(msg, envs[0])] + rest
      case _ => rest
  }
}
