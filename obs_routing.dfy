/** The chat-command router for OBS (src/obs_routing.rs,
    `handle_obs_commands`): given the message split on single spaces, it
    works out the shared default arguments and decides, per command, which
    effect the handler performs or which call's result it returns. The
    OBS, database and subprocess calls themselves are not modelled; the
    outcome names the call a branch makes and with which arguments.
    Floating-point arguments (filter values, scale and move coordinates)
    are left out. */
module ObsRouting {
  import opened Common
  import opened Events
  import Skybox

  /** Names that live in the `obs` constants module, passed in. */
  datatype Config = Config(
    defaultSource: string,
    defaultScene: string,
    memeScene: string,
    twitchDefaultVoice: string,
    moveScrollFilterName: string,
    moveBlurFilterName: string,
    defaultBlurFilterName: string)

  /** An effect whose own failure the handler ignores before returning Ok. */
  datatype Effect =
    | Emit(event: Event)
    | WriteFile(path: string, content: string)
      /** `set_enabled(scene, source, false)`, a 300 ms pause, then `true`. */
    | RestartSource(scene: string, source: string)
      /** The GoBeginGPT executable run with these arguments. */
    | RunGo(args: seq<string>)
    | MoveFilterAndWebsocket(filterName: string, content: string)
      /** `trigger_scene(filter_name, skybox_id)` ran without panicking
          (its result is ignored); its steps are `Skybox.TriggerScene`. */
    | GotoScene(filterName: string, skyboxId: string)
      /** The move filter enabled on the "Primary" scene: the first step of
          `trigger_scene`, made before the steps that can panic. */
    | EnableMoveFilter(filterName: string)

  /** A call whose result becomes the command's result. */
  datatype ObsCall =
    | UpdateImplicitSoundeffects
    | UpdateExplicitSoundeffects
    | ReportState
    | UseRandomVoice(contents: string, userName: string)
    | SetVoice(voice: string, userName: string)
    | TalkInVoice(contents: string, voice: string, userName: string)
    | CreateSoundboardText
    | CreateCharacter(characterSource: string)
    | MoveValueFilter(source: string, filterName: string, settingName: string, duration: nat, moveType: nat)
    | TriggerGrow(scene: string, source: string)
    | MoveSource(scene: string, source: string)
    | TopRight(scene: string, source: string)
    | BottomRight(scene: string, source: string)
    | SetEnabled(scene: string, source: string, enabled: bool)
    | TriggerHotkey(key: string)
    | HideSources(scene: string)
    | CreateSceneItem(scene: string, source: string)
    | Create3dFilters(source: string)
    | CreateFiltersForSource(source: string)
    | PrintSourceInfo(source: string, scene: string)
    | Outline(source: string)
    | Norm(source: string)
    | Follow(source: string, scene: string, leader: string)
    | Staff(source: string)
    | Spin(source: string, settingName: string, duration: nat)
    | DefaultOrtho(source: string, duration: nat)
    | TriggerOrtho(source: string, filterName: string, settingName: string, duration: nat)
    | Trigger3d(source: string, settingName: string, duration: nat)

  /** How one command ends: Ok after these effects, the named call's
      result, an error the router raises itself, or a panic of the task
      after the effects listed. */
  datatype Outcome =
    | Done(effects: seq<Effect>)
    | Call(call: ObsCall)
    | Fail(reason: string)
    | Panic(done: seq<Effect>)

  /** What the outside world answers while one command is handled: the
      scene `find_scene` finds for the source (None when it fails), whether
      the GoBeginGPT executable can be started, and, for `trigger_scene`,
      whether enabling the move filter succeeds and the skybox archive
      files that exist (with their contents, or None when unreadable). */
  datatype World = World(
    foundScene: Option<string>,
    goStarts: bool,
    moveFilterEnabled: bool,
    archives: map<string, Option<string>>)

  const DefaultDuration: nat := 3000
  const CurrentDir := "/home/begin/code/BeginGPT/tmp/current/"
  const UserSkyboxFile := "/home/begin/code/BeginGPT/tmp/user_skybox.txt"
  const DefaultPreviousSkyboxId := "2449796"
  const DefaultRemixId := "2295844"
  const DefaultRemixStyle := "danker"

  // ---------------------------------------------------------------------
  // Shared arguments
  // ---------------------------------------------------------------------

  /** The second token, else the default source. */
  function SourceArg(tokens: seq<string>, cfg: Config): (r: string)
    ensures |tokens| >= 2 ==> r == tokens[1]
    ensures |tokens| < 2 ==> r == cfg.defaultSource
  {
    Nth(tokens, 1).GetOr(cfg.defaultSource)
  }

  /** The fifth token, trimmed and read as a u32; 3000 when absent or unreadable. */
  function DurationArg(tokens: seq<string>): (r: nat)
    ensures r < 0x1_0000_0000
    ensures |tokens| < 5 ==> r == DefaultDuration
    ensures |tokens| >= 5 && ParseU32(Trim(tokens[4])).None? ==> r == DefaultDuration
    ensures |tokens| >= 5 && ParseU32(Trim(tokens[4])).Some? ==> r == ParseU32(Trim(tokens[4])).value
  {
    match Nth(tokens, 4)
    case None => DefaultDuration
    case Some(t) => ParseU32(Trim(t)).GetOr(DefaultDuration)
  }

  /** The scene that holds the source, or the meme scene when the lookup failed. */
  function SceneOf(foundScene: Option<string>, cfg: Config): string {
    foundScene.GetOr(cfg.memeScene)
  }

  /** The `!scroll` filter setting. */
  function ScrollSetting(tokens: seq<string>): (r: string)
    ensures |tokens| >= 3 && tokens[2] == "x" ==> r == "speed_x"
    ensures |tokens| >= 3 && tokens[2] == "y" ==> r == "speed_y"
    ensures (|tokens| < 3 || (tokens[2] != "x" && tokens[2] != "y")) ==> r == "speed_x"
  {
    match Nth(tokens, 2)
    case Some("y") => "speed_y"
    case _ => "speed_x"
  }

  /** The tokens after the first `k`, joined with single spaces (`skip(k)` then `join(" ")`). */
  function RestAfter(tokens: seq<string>, k: nat): string {
    if k <= |tokens| then Join(tokens[k..], " ") else ""
  }

  /** The `!old_remix` style token and the number of tokens its prompt skips. */
  function OldRemixStyle(tokens: seq<string>): string {
    Nth(tokens, 2).GetOr(DefaultRemixStyle)
  }

  function OldRemixSkip(tokens: seq<string>): (k: nat)
    ensures k == 2 || k == 3
    ensures k == 2 <==> ParseI32(OldRemixStyle(tokens)).GetOr(0) == 0
  {
    if ParseI32(OldRemixStyle(tokens)).GetOr(0) == 0 then 2 else 3
  }

  /** The position and skybox id `!goto` passes to `trigger_scene`. */
  function GotoPosition(tokens: seq<string>): string {
    Nth(tokens, 1).GetOr("office")
  }

  function GotoSkyboxId(tokens: seq<string>): string {
    Nth(tokens, 2).GetOr("")
  }

  /** `trigger_scene` panics for the `!goto` arguments in this world. */
  predicate GotoPanics(tokens: seq<string>, world: World) {
    Skybox.TriggerScene(GotoPosition(tokens), GotoSkyboxId(tokens), world.moveFilterEnabled, world.archives).Panicked?
  }

  /** The OBS key name `!hk` builds from its argument. */
  function HotkeyName(key: string): string {
    "OBS_KEY_" + ToUpper(key)
  }

  // ---------------------------------------------------------------------
  // The `match` on the first token
  // ---------------------------------------------------------------------

  // The source lays the arms out in banner-headed sections; the model
  // keeps them, one datatype of arms per section. No spelling belongs to
  // two sections, so trying the sections in turn selects the same arm as
  // the single `match`.

  /** Rapper, test-area and stream-state commands. */
  datatype StreamStateArm = ReloadRapper | Durf | Implicit | Explicit | State

  const StreamStateSpellings: set<string> := {
    "!reload_rapper", "!durf", "!implicit", "!peace", "!explicit", "!state"
  }

  /** The arm a spelling of this section selects. */
  function ParseStreamState(cmd: string): StreamStateArm
    requires cmd in StreamStateSpellings
  {
    if cmd == "!reload_rapper" then ReloadRapper
    else if cmd == "!durf" then Durf
    else if cmd == "!implicit" || cmd == "!peace" then Implicit
    else if cmd == "!explicit" then Explicit
    else State
  }

  /** The bodies of this section's arms. */
  function RunStreamState(arm: StreamStateArm, tokens: seq<string>, msg: UserMessage, source: string, duration: nat, scene: string, cfg: Config): Outcome {
    match arm
    case ReloadRapper => Done([RestartSource(cfg.defaultScene, "SpeechBubble")])
    case Durf => Done([])
    case Implicit => Call(UpdateImplicitSoundeffects)
    case Explicit => Call(UpdateExplicitSoundeffects)
    case State => Call(ReportState)
  }

  /** Voice and scene commands (first half of the voices-and-characters section). */
  datatype VoicesAndScenesArm = Random | Previous | Styles | Bar1 | Goto | Bar | Lunch | Office | Duet

  const VoicesAndScenesSpellings: set<string> := {
    "!random", "!previous", "!styles", "!bar1", "!goto", "!bar", "!lunch", "!office", "!duet"
  }

  /** The arm a spelling of this section selects. */
  function ParseVoicesAndScenes(cmd: string): VoicesAndScenesArm
    requires cmd in VoicesAndScenesSpellings
  {
    if cmd == "!random" then Random
    else if cmd == "!previous" then Previous
    else if cmd == "!styles" then Styles
    else if cmd == "!bar1" then Bar1
    else if cmd == "!goto" then Goto
    else if cmd == "!bar" then Bar
    else if cmd == "!lunch" then Lunch
    else if cmd == "!office" then Office
    else Duet
  }

  /** The bodies of this section's arms. */
  function RunVoicesAndScenes(arm: VoicesAndScenesArm, tokens: seq<string>, msg: UserMessage, source: string, duration: nat, scene: string, world: World, cfg: Config): Outcome {
    match arm
    case Random => Call(UseRandomVoice(msg.contents, msg.userName))
    case Previous => Done([WriteFile(CurrentDir + "previous.txt", Nth(tokens, 1).GetOr(DefaultPreviousSkyboxId))])
    case Styles => if !world.goStarts then Panic([]) else Done([RunGo(["-styles"])])
    case Bar1 => Done([MoveFilterAndWebsocket("BeginBar1", "bar1")])
    case Goto => if GotoPanics(tokens, world) then Panic([EnableMoveFilter(GotoPosition(tokens))]) else Done([GotoScene(GotoPosition(tokens), GotoSkyboxId(tokens))])
    case Bar => Done([MoveFilterAndWebsocket("BeginBar2", "bar")])
    case Lunch => Done([MoveFilterAndWebsocket("BeginOffice2", "lunch")])
    case Office => Done([MoveFilterAndWebsocket("BeginOffice1", "office")])
    case Duet => Done([])
  }

  /** Skybox, voice and character commands (second half of the voices-and-characters section). */
  datatype SkyboxesAndCharactersArm = Skybox | Remix | OldRemix | OldSkybox | SetVoice | Voice | SoundboardText | SetCharacter | Character

  const SkyboxesAndCharactersSpellings: set<string> := {
    "!skybox", "!remix", "!old_remix", "!old_skybox", "!set_voice", "!voice", "!soundboard_text", "!set_character", "!character"
  }

  /** The arm a spelling of this section selects. */
  function ParseSkyboxesAndCharacters(cmd: string): SkyboxesAndCharactersArm
    requires cmd in SkyboxesAndCharactersSpellings
  {
    if cmd == "!skybox" then Skybox
    else if cmd == "!remix" then Remix
    else if cmd == "!old_remix" then OldRemix
    else if cmd == "!old_skybox" then OldSkybox
    else if cmd == "!set_voice" then SkyboxesAndCharactersArm.SetVoice
    else if cmd == "!voice" then Voice
    else if cmd == "!soundboard_text" then SoundboardText
    else if cmd == "!set_character" then SetCharacter
    else Character
  }

  /** The bodies of this section's arms. */
  function RunSkyboxesAndCharacters(arm: SkyboxesAndCharactersArm, tokens: seq<string>, msg: UserMessage, source: string, duration: nat, scene: string, world: World, cfg: Config): Outcome {
    match arm
    case Skybox => Done([Emit(SkyboxRequest(RestAfter(tokens, 1)))])
    case Remix => Done([WriteFile(CurrentDir + "remix.txt", RestAfter(tokens, 1))])
    case OldRemix =>
      if !world.goStarts then Panic([])
      else Done([RunGo(["-remix", "-remix_id", Nth(tokens, 1).GetOr(DefaultRemixId), "-style",
                   OldRemixStyle(tokens), "-prompt", RestAfter(tokens, OldRemixSkip(tokens))]),
            RestartSource(cfg.defaultScene, "skybox")])
    case OldSkybox =>
      if !world.goStarts then Panic([WriteFile(UserSkyboxFile, msg.contents)])
      else Done([WriteFile(UserSkyboxFile, msg.contents), RunGo(["-prompt_file", UserSkyboxFile]),
            RestartSource(cfg.defaultScene, "skybox")])
    case SetVoice => Call(ObsCall.SetVoice(Nth(tokens, 1).GetOr(cfg.twitchDefaultVoice), msg.userName))
    case Voice => Call(TalkInVoice(msg.contents, Nth(tokens, 1).GetOr(cfg.twitchDefaultVoice), msg.userName))
    case SoundboardText => Call(CreateSoundboardText)
    case SetCharacter => Done([])
    case Character => Call(CreateCharacter(source))
  }

  /** Scrolling, blur, scaling and moving commands. */
  datatype MotionArm = Scroll | Blur | NoBlur | Grow | Move | Tr | Bl

  const MotionSpellings: set<string> := {
    "!scroll", "!blur", "!noblur", "!unblur", "!grow", "!scale", "!move", "!tr", "!bl"
  }

  /** The arm a spelling of this section selects. */
  function ParseMotion(cmd: string): MotionArm
    requires cmd in MotionSpellings
  {
    if cmd == "!scroll" then Scroll
    else if cmd == "!blur" then Blur
    else if cmd == "!noblur" || cmd == "!unblur" then NoBlur
    else if cmd == "!grow" || cmd == "!scale" then Grow
    else if cmd == "!move" then Move
    else if cmd == "!tr" then Tr
    else Bl
  }

  /** The bodies of this section's arms. */
  function RunMotion(arm: MotionArm, tokens: seq<string>, msg: UserMessage, source: string, duration: nat, scene: string, cfg: Config): Outcome {
    match arm
    case Scroll => Call(MoveValueFilter(source, cfg.moveScrollFilterName, ScrollSetting(tokens), duration, 2))
    case Blur => Call(MoveValueFilter(source, cfg.moveBlurFilterName, "Filter.Blur.Size", duration, 0))
    case NoBlur => Call(MoveValueFilter(source, cfg.defaultBlurFilterName, "Filter.Blur.Size", 5000, 2))
    case Grow => Call(TriggerGrow(scene, source))
    case Move => if |tokens| > 3 then Call(MoveSource(scene, source)) else Done([])
    case Tr => Call(TopRight(scene, source))
    case Bl => Call(BottomRight(scene, source))
  }

  /** Showing/hiding and hotkey commands. */
  datatype VisibilityArm = Memes | NoMemes | Chat | Code | Hide | Show | Hk

  const VisibilitySpellings: set<string> := {
    "!memes", "!nomemes", "!nojokes", "!work", "!chat", "!code", "!hide", "!show", "!hk"
  }

  /** The arm a spelling of this section selects. */
  function ParseVisibility(cmd: string): VisibilityArm
    requires cmd in VisibilitySpellings
  {
    if cmd == "!memes" then Memes
    else if cmd == "!nomemes" || cmd == "!nojokes" || cmd == "!work" then NoMemes
    else if cmd == "!chat" then Chat
    else if cmd == "!code" then Code
    else if cmd == "!hide" then Hide
    else if cmd == "!show" then Show
    else Hk
  }

  /** The bodies of this section's arms. */
  function RunVisibility(arm: VisibilityArm, tokens: seq<string>, msg: UserMessage, source: string, duration: nat, scene: string, cfg: Config): Outcome {
    match arm
    case Memes => Call(SetEnabled(cfg.defaultScene, cfg.memeScene, true))
    case NoMemes => Call(SetEnabled(cfg.defaultScene, cfg.memeScene, false))
    case Chat => Call(TriggerHotkey("OBS_KEY_L"))
    case Code => Call(TriggerHotkey("OBS_KEY_H"))
    case Hide => Call(HideSources(cfg.memeScene))
    case Show => Call(SetEnabled(cfg.memeScene, source, true))
    case Hk => if |tokens| < 2 then Panic([]) else Done([Emit(TriggerHotkeyRequest(HotkeyName(tokens[1])))])
  }

  /** Creating, debug-info and compound-effect commands. */
  datatype SetupArm = CreateSource | Create3dFilters | CreateFiltersForSource | Source | Outline | Norm | Follow | Staff

  const SetupSpellings: set<string> := {
    "!create_source", "!create_3d_filters", "!create_filters_for_source", "!source", "!outline", "!norm", "!follow", "!staff"
  }

  /** The arm a spelling of this section selects. */
  function ParseSetup(cmd: string): SetupArm
    requires cmd in SetupSpellings
  {
    if cmd == "!create_source" then CreateSource
    else if cmd == "!create_3d_filters" then SetupArm.Create3dFilters
    else if cmd == "!create_filters_for_source" then SetupArm.CreateFiltersForSource
    else if cmd == "!source" then Source
    else if cmd == "!outline" then SetupArm.Outline
    else if cmd == "!norm" then SetupArm.Norm
    else if cmd == "!follow" then SetupArm.Follow
    else SetupArm.Staff
  }

  /** The bodies of this section's arms. */
  function RunSetup(arm: SetupArm, tokens: seq<string>, msg: UserMessage, source: string, duration: nat, scene: string, cfg: Config): Outcome {
    match arm
    case CreateSource => Call(CreateSceneItem(cfg.defaultScene, source))
    case Create3dFilters => Call(ObsCall.Create3dFilters(source))
    case CreateFiltersForSource => Call(ObsCall.CreateFiltersForSource(source))
    case Source => Call(PrintSourceInfo(source, scene))
    case Outline => Call(ObsCall.Outline(source))
    case Norm => Call(ObsCall.Norm(source))
    case Follow => Call(ObsCall.Follow(source, cfg.defaultScene, source))
    case Staff => Call(ObsCall.Staff(cfg.defaultSource))
  }

  /** 3D-filter commands. */
  datatype Filters3dArm = Spin | DefOrtho | Ortho | Perp | Corner | ThreeD

  const Filters3dSpellings: set<string> := {
    "!spin", "!spinx", "spiny", "!def_ortho", "!ortho", "!perp", "!corner", "!3d"
  }

  /** The arm a spelling of this section selects. */
  function ParseFilters3d(cmd: string): Filters3dArm
    requires cmd in Filters3dSpellings
  {
    if cmd == "!spin" || cmd == "!spinx" || cmd == "spiny" then Filters3dArm.Spin
    else if cmd == "!def_ortho" then DefOrtho
    else if cmd == "!ortho" then Ortho
    else if cmd == "!perp" then Perp
    else if cmd == "!corner" then Corner
    else ThreeD
  }

  /** The bodies of this section's arms. */
  function RunFilters3d(arm: Filters3dArm, tokens: seq<string>, msg: UserMessage, source: string, duration: nat, scene: string, cfg: Config): Outcome {
    match arm
    case Spin => Call(ObsCall.Spin(source, Nth(tokens, 2).GetOr("z"), duration))
    case DefOrtho => Call(DefaultOrtho(source, duration))
    case Ortho | Perp | Corner => if |tokens| < 3 then Done([]) else Call(TriggerOrtho(source, OrthoFilter(arm), tokens[2], duration))
    case ThreeD =>
      if |tokens| < 3 then Fail("We don't have a filter name, can't proceed")
      else Call(Trigger3d(source, tokens[2], duration))
  }

  /** The arm of the `match` that the first token selects. */
  datatype Command =
    | StreamState(streamState: StreamStateArm)
    | VoicesAndScenes(voicesAndScenes: VoicesAndScenesArm)
    | SkyboxesAndCharacters(skyboxesAndCharacters: SkyboxesAndCharactersArm)
    | Motion(motion: MotionArm)
    | Visibility(visibility: VisibilityArm)
    | Setup(setup: SetupArm)
    | Filters3d(filters3d: Filters3dArm)
      /** The catch-all arm. */
    | Unknown

  /** The spellings the router has an arm for; "spiny" is written without '!'. */
  predicate IsKnownCommand(cmd: string) {
    || cmd in StreamStateSpellings || cmd in VoicesAndScenesSpellings || cmd in SkyboxesAndCharactersSpellings
    || cmd in MotionSpellings || cmd in VisibilitySpellings || cmd in SetupSpellings || cmd in Filters3dSpellings
  }

  function ParseCommand(cmd: string): Command {
    if cmd in StreamStateSpellings then StreamState(ParseStreamState(cmd))
    else if cmd in VoicesAndScenesSpellings then VoicesAndScenes(ParseVoicesAndScenes(cmd))
    else if cmd in SkyboxesAndCharactersSpellings then SkyboxesAndCharacters(ParseSkyboxesAndCharacters(cmd))
    else if cmd in MotionSpellings then Motion(ParseMotion(cmd))
    else if cmd in VisibilitySpellings then Visibility(ParseVisibility(cmd))
    else if cmd in SetupSpellings then Setup(ParseSetup(cmd))
    else if cmd in Filters3dSpellings then Filters3d(ParseFilters3d(cmd))
    else Unknown
  }

  /** `trigger_ortho` filter names of the three guarded 3D commands. */
  function OrthoFilter(arm: Filters3dArm): string {
    if arm == Ortho then "3D_Orthographic"
    else if arm == Perp then "3D_Perspective"
    else "3D_CornerPin"
  }

  // ---------------------------------------------------------------------
  // The router
  // ---------------------------------------------------------------------

  /** The commands that start the GoBeginGPT executable and `expect` it to start. */
  const GoSpellings: set<string> := {"!styles", "!old_remix", "!old_skybox"}

  /** The arms of those commands. */
  const GoArms: set<Command> := {VoicesAndScenes(Styles), SkyboxesAndCharacters(OldRemix), SkyboxesAndCharacters(OldSkybox)}

  /** The commands that panic in `world`: `!hk` without its argument
      indexes a token that is not there; the Go commands when the
      executable cannot be started; `!goto` when `trigger_scene` panics. */
  predicate CommandPanics(tokens: seq<string>, world: World)
    requires |tokens| > 0
  {
    || (tokens[0] == "!hk" && |tokens| < 2)
    || (tokens[0] in GoSpellings && !world.goStarts)
    || (tokens[0] == "!goto" && GotoPanics(tokens, world))
  }

  /** `handle_obs_commands` for a message split into `tokens`, sent by
      `msg`, in `world`. An empty token list panics on `splitted[0]`. A
      command without an arm does nothing; the only error the router
      raises itself is `!3d` without a filter name (any other error is the
      result of the call a `Call` names); and a command panics exactly in
      the cases `CommandPanics` lists. */
  function HandleObsCommands(tokens: seq<string>, msg: UserMessage, world: World, cfg: Config): (r: Outcome)
    ensures |tokens| > 0 && !IsKnownCommand(tokens[0]) ==> r == Done([])
    ensures r.Fail? <==> |tokens| > 0 && tokens[0] == "!3d" && |tokens| < 3
    ensures r.Panic? <==> |tokens| == 0 || CommandPanics(tokens, world)
  {
    if |tokens| == 0 then Panic([])
    else
      var c := ParseCommand(tokens[0]);
      var source, duration, scene := SourceArg(tokens, cfg), DurationArg(tokens), SceneOf(world.foundScene, cfg);
      UnlistedIsUnknown(tokens[0]);
      ThreeDSpelling(tokens[0]);
      DispatchFails(c, tokens, msg, source, duration, scene, world, cfg);
      HkSpelling(tokens[0]);
      GotoSpelling(tokens[0]);
      GoSpellingsSelectGoArms(tokens[0]);
      DispatchPanics(c, tokens, msg, source, duration, scene, world, cfg);
      Dispatch(c, tokens, msg, source, duration, scene, world, cfg)
  }

  /** The selected arm's body, with the shared default source, duration
      and scene worked out up front. */
  function Dispatch(c: Command, tokens: seq<string>, msg: UserMessage, source: string, duration: nat, scene: string, world: World, cfg: Config): Outcome {
    match c
    case StreamState(arm) => RunStreamState(arm, tokens, msg, source, duration, scene, cfg)
    case VoicesAndScenes(arm) => RunVoicesAndScenes(arm, tokens, msg, source, duration, scene, world, cfg)
    case SkyboxesAndCharacters(arm) => RunSkyboxesAndCharacters(arm, tokens, msg, source, duration, scene, world, cfg)
    case Motion(arm) => RunMotion(arm, tokens, msg, source, duration, scene, cfg)
    case Visibility(arm) => RunVisibility(arm, tokens, msg, source, duration, scene, cfg)
    case Setup(arm) => RunSetup(arm, tokens, msg, source, duration, scene, cfg)
    case Filters3d(arm) => RunFilters3d(arm, tokens, msg, source, duration, scene, cfg)
    case Unknown => Done([])
  }

  // ---------------------------------------------------------------------
  // Properties
  // ---------------------------------------------------------------------

  /** A non-empty message runs the arm its first token selects. */
  lemma HandleIsDispatch(tokens: seq<string>, msg: UserMessage, world: World, cfg: Config)
    requires |tokens| > 0
    ensures HandleObsCommands(tokens, msg, world, cfg)
         == Dispatch(ParseCommand(tokens[0]), tokens, msg, SourceArg(tokens, cfg), DurationArg(tokens), SceneOf(world.foundScene, cfg), world, cfg)
  {
  }

  /** A first token the router lists no arm for selects the catch-all arm. */
  lemma UnlistedIsUnknown(cmd: string)
    ensures !IsKnownCommand(cmd) ==> ParseCommand(cmd) == Unknown
  {
  }

  /** Only `!hk` selects the hotkey arm. */
  lemma HkSpelling(cmd: string)
    ensures ParseCommand(cmd) == Visibility(Hk) <==> cmd == "!hk"
  {
  }

  /** Only `!3d` selects the 3D-filter arm. */
  lemma ThreeDSpelling(cmd: string)
    ensures ParseCommand(cmd) == Filters3d(ThreeD) <==> cmd == "!3d"
  {
  }

  /** Only `!skybox` selects the skybox arm. */
  lemma SkyboxSpelling(cmd: string)
    ensures ParseCommand(cmd) == SkyboxesAndCharacters(Skybox) <==> cmd == "!skybox"
  {
  }

  /** Only `!remix` selects the remix arm. */
  lemma RemixSpelling(cmd: string)
    ensures ParseCommand(cmd) == SkyboxesAndCharacters(Remix) <==> cmd == "!remix"
  {
  }

  /** Only `!old_remix` selects the old remix arm. */
  lemma OldRemixSpelling(cmd: string)
    ensures ParseCommand(cmd) == SkyboxesAndCharacters(OldRemix) <==> cmd == "!old_remix"
  {
  }

  /** Only `!goto` selects the goto arm. */
  lemma GotoSpelling(cmd: string)
    ensures ParseCommand(cmd) == VoicesAndScenes(Goto) <==> cmd == "!goto"
  {
  }

  /** Only `!move` selects the move arm. */
  lemma MoveSpelling(cmd: string)
    ensures ParseCommand(cmd) == Motion(Move) <==> cmd == "!move"
  {
  }

  /** Only `!ortho` selects the orthographic arm. */
  lemma OrthoSpelling(cmd: string)
    ensures ParseCommand(cmd) == Filters3d(Ortho) <==> cmd == "!ortho"
  {
  }

  /** Only `!perp` selects the perspective arm. */
  lemma PerpSpelling(cmd: string)
    ensures ParseCommand(cmd) == Filters3d(Perp) <==> cmd == "!perp"
  {
  }

  /** Only `!corner` selects the corner-pin arm. */
  lemma CornerSpelling(cmd: string)
    ensures ParseCommand(cmd) == Filters3d(Corner) <==> cmd == "!corner"
  {
  }


  /** The spin arm is selected by `!spin`, `!spinx` and `spiny` and by nothing else. */
  lemma SpinSpellings(cmd: string)
    ensures ParseCommand(cmd) == Filters3d(Filters3dArm.Spin) <==> cmd in {"!spin", "!spinx", "spiny"}
  {
  }

  /** The Go commands, and only they, select the Go arms. */
  lemma GoSpellingsSelectGoArms(cmd: string)
    ensures ParseCommand(cmd) in GoArms <==> cmd in GoSpellings
  {
  }

  /** The arms that panic: the hotkey arm without its argument, the Go arms
      when the executable cannot be started, and the goto arm when
      `trigger_scene` panics. */
  lemma DispatchPanics(c: Command, tokens: seq<string>, msg: UserMessage, source: string, duration: nat, scene: string, world: World, cfg: Config)
    ensures Dispatch(c, tokens, msg, source, duration, scene, world, cfg).Panic? <==>
      || (c == Visibility(Hk) && |tokens| < 2)
      || (c in GoArms && !world.goStarts)
      || (c == VoicesAndScenes(Goto) && GotoPanics(tokens, world))
  {
  }

  /** Of the arms, only the 3D-filter arm can fail, and only without a filter name. */
  lemma DispatchFails(c: Command, tokens: seq<string>, msg: UserMessage, source: string, duration: nat, scene: string, world: World, cfg: Config)
    ensures Dispatch(c, tokens, msg, source, duration, scene, world, cfg).Fail? <==> c == Filters3d(ThreeD) && |tokens| < 3
  {
  }

  /** `!goto` panics exactly when the move filter could be enabled and then
      either no skybox id was given for a position without a fixed one, or
      the archive file exists but cannot be read. */
  lemma GotoPanicCauses(tokens: seq<string>, world: World)
    ensures GotoPanics(tokens, world) <==>
      && world.moveFilterEnabled
      && (|| (|tokens| < 3 && GotoPosition(tokens) !in Skybox.SkyboxIdMap)
          || (|tokens| >= 3 && tokens[2] == "" && tokens[1] !in Skybox.SkyboxIdMap)
          || (var path := Skybox.ArchiveFor(GotoPosition(tokens), GotoSkyboxId(tokens));
              path.Some? && path.value in world.archives && world.archives[path.value].None?))
  {
  }

  /** When `trigger_scene` panics for `!goto`, it has already enabled the
      move filter named by the position; only a failed enable stops it
      earlier, and that failure is not a panic. */
  lemma GotoEnablesBeforePanic(tokens: seq<string>, msg: UserMessage, world: World, cfg: Config)
    requires |tokens| > 0 && tokens[0] == "!goto" && GotoPanics(tokens, world)
    ensures HandleObsCommands(tokens, msg, world, cfg) == Panic([EnableMoveFilter(GotoPosition(tokens))])
    ensures world.moveFilterEnabled
  {
    GotoSpelling(tokens[0]);
    GotoPanicCauses(tokens, world);
  }

  /** `!old_skybox` writes the message to the prompt file before it starts
      the executable, so that write is done when the start panics. */
  lemma OldSkyboxWritesBeforePanic(tokens: seq<string>, msg: UserMessage, world: World, cfg: Config)
    requires |tokens| > 0 && tokens[0] == "!old_skybox" && !world.goStarts
    ensures HandleObsCommands(tokens, msg, world, cfg) == Panic([WriteFile(UserSkyboxFile, msg.contents)])
  {
    GoSpellingsSelectGoArms(tokens[0]);
  }

  /** A command without a branch returns Ok and does nothing, whatever its arguments. */
  lemma UnknownCommandDoesNothing(tokens: seq<string>, msg: UserMessage, world: World, cfg: Config)
    requires |tokens| > 0 && !IsKnownCommand(tokens[0])
    ensures HandleObsCommands(tokens, msg, world, cfg) == Done([])
  {
    UnlistedIsUnknown(tokens[0]);
  }

  /** No section lists "!spiny". */
  lemma BangSpinyUnlisted()
    ensures !IsKnownCommand("!spiny")
  {
    assert "!spiny" !in StreamStateSpellings;
    assert "!spiny" !in VoicesAndScenesSpellings;
    assert "!spiny" !in SkyboxesAndCharactersSpellings;
    assert "!spiny" !in MotionSpellings;
    assert "!spiny" !in VisibilitySpellings;
    assert "!spiny" !in SetupSpellings;
    assert "!spiny" !in Filters3dSpellings;
  }

  /** The spin arm lists "spiny" without the '!', so "!spiny" is an
      unknown command and does nothing... */
  lemma BangSpinyIsUnknown(tokens: seq<string>, msg: UserMessage, world: World, cfg: Config)
    requires |tokens| > 0 && tokens[0] == "!spiny"
    ensures HandleObsCommands(tokens, msg, world, cfg) == Done([])
  {
    BangSpinyUnlisted();
    UnknownCommandDoesNothing(tokens, msg, world, cfg);
  }

  /** ... while the bare word "spiny" spins the default source about z. */
  lemma BareSpinySpins(msg: UserMessage, world: World, cfg: Config)
    ensures HandleObsCommands(["spiny"], msg, world, cfg) == Call(ObsCall.Spin(cfg.defaultSource, "z", DefaultDuration))
  {
    SpinSpellings("spiny");
  }

  /** A duration written as the decimal rendering of any u32 is read back exactly. */
  lemma DurationRoundTrip(tokens: seq<string>, n: nat)
    requires n < 0x1_0000_0000 && |tokens| >= 5 && tokens[4] == NatToDecimal(n)
    ensures DurationArg(tokens) == n
  {
    ParseU32Decimal(n);
  }

  /** `!hk` turns its second token into an upper-cased OBS key name and emits it. */
  lemma HotkeyRule(tokens: seq<string>, msg: UserMessage, world: World, cfg: Config)
    requires |tokens| >= 2 && tokens[0] == "!hk"
    ensures var r := HandleObsCommands(tokens, msg, world, cfg);
      && r == Done([Emit(TriggerHotkeyRequest(HotkeyName(tokens[1])))])
      && r.effects[0].event.hotkey[..8] == "OBS_KEY_"
      && |r.effects[0].event.hotkey| == 8 + |tokens[1]|
      && forall i | 0 <= i < |tokens[1]| :: r.effects[0].event.hotkey[8 + i] == UpperChar(tokens[1][i])
  {
    HkSpelling(tokens[0]);
  }

  /** `!skybox` emits the remaining tokens joined with single spaces as a
      skybox request, and `!remix` writes them to the remix file. */
  lemma PayloadRoutes(tokens: seq<string>, msg: UserMessage, world: World, cfg: Config)
    requires |tokens| > 0
    ensures tokens[0] == "!skybox" ==>
      HandleObsCommands(tokens, msg, world, cfg) == Done([Emit(SkyboxRequest(RestAfter(tokens, 1)))])
    ensures tokens[0] == "!remix" ==>
      HandleObsCommands(tokens, msg, world, cfg) == Done([WriteFile(CurrentDir + "remix.txt", RestAfter(tokens, 1))])
  {
    SkyboxSpelling(tokens[0]);
    RemixSpelling(tokens[0]);
  }

  /** For a message split on single spaces, the tokens after the command
      joined again are the message text after its first space, verbatim. */
  lemma RestOfSplitMessage(contents: string)
    ensures var rest := match IndexOf(contents, ' ') case Some(i) => contents[i + 1..] case None => "";
      RestAfter(SplitOn(contents, ' '), 1) == rest
  {
    var tokens := SplitOn(contents, ' ');
    match IndexOf(contents, ' ')
    case None =>
      assert tokens == [contents];
    case Some(i) =>
      assert tokens[1..] == SplitOn(contents[i + 1..], ' ');
      SplitOnJoin(contents[i + 1..], ' ');
  }

  /** `!old_remix` reads its third token as an i32 (no trimming, 0 when it
      does not parse); the prompt starts after the style token exactly when
      that number is not 0 (when the executable starts). */
  lemma OldRemixPrompt(tokens: seq<string>, msg: UserMessage, world: World, cfg: Config)
    requires |tokens| >= 3 && tokens[0] == "!old_remix" && world.goStarts
    ensures var prompt := if ParseI32(tokens[2]).GetOr(0) != 0 then Join(tokens[3..], " ") else Join(tokens[2..], " ");
      HandleObsCommands(tokens, msg, world, cfg)
        == Done([RunGo(["-remix", "-remix_id", tokens[1], "-style", tokens[2], "-prompt", prompt]),
                 RestartSource(cfg.defaultScene, "skybox")])
  {
    OldRemixSpelling(tokens[0]);
    var args := ["-remix", "-remix_id", tokens[1], "-style", tokens[2], "-prompt", RestAfter(tokens, OldRemixSkip(tokens))];
    assert Nth(tokens, 1) == Some(tokens[1]) && Nth(tokens, 2) == Some(tokens[2]);
    HandleIsDispatch(tokens, msg, world, cfg);
    assert RunSkyboxesAndCharacters(OldRemix, tokens, msg, SourceArg(tokens, cfg), DurationArg(tokens), SceneOf(world.foundScene, cfg), world, cfg)
        == Done([RunGo(args), RestartSource(cfg.defaultScene, "skybox")]);
  }

  /** With the defaults: no remix id uses 2295844 and the "danker" style,
      which does not parse, so the prompt is empty (when the executable
      starts). */
  lemma OldRemixDefaults(msg: UserMessage, world: World, cfg: Config)
    requires world.goStarts
    ensures HandleObsCommands(["!old_remix"], msg, world, cfg)
      == Done([RunGo(["-remix", "-remix_id", DefaultRemixId, "-style", DefaultRemixStyle, "-prompt", ""]),
               RestartSource(cfg.defaultScene, "skybox")])
  {
    OldRemixSpelling("!old_remix");
    assert ParseI32(DefaultRemixStyle).None? by { assert !IsDigit(DefaultRemixStyle[0]); }
  }

  /** `!ortho`, `!perp` and `!corner` with fewer than three tokens return
      Ok with no effect; with three or more they call through with the
      third token as the setting. */
  lemma OrthoGuard(tokens: seq<string>, msg: UserMessage, world: World, cfg: Config)
    requires |tokens| > 0 && tokens[0] in {"!ortho", "!perp", "!corner"}
    ensures var r := HandleObsCommands(tokens, msg, world, cfg);
      && (|tokens| < 3 <==> r == Done([]))
      && (|tokens| >= 3 ==>
            var filter := if tokens[0] == "!ortho" then "3D_Orthographic" else if tokens[0] == "!perp" then "3D_Perspective" else "3D_CornerPin";
            r == Call(TriggerOrtho(SourceArg(tokens, cfg), filter, tokens[2], DurationArg(tokens))))
  {
    OrthoSpelling(tokens[0]);
    PerpSpelling(tokens[0]);
    CornerSpelling(tokens[0]);
  }

  /** `!move` acts only with more than three tokens. */
  lemma MoveGuard(tokens: seq<string>, msg: UserMessage, world: World, cfg: Config)
    requires |tokens| > 0 && tokens[0] == "!move"
    ensures var r := HandleObsCommands(tokens, msg, world, cfg);
      && (|tokens| <= 3 <==> r == Done([]))
      && (|tokens| > 3 ==> r == Call(MoveSource(SceneOf(world.foundScene, cfg), SourceArg(tokens, cfg))))
  {
    MoveSpelling(tokens[0]);
  }

  /** `!3d` with three or more tokens calls through with the third token. */
  lemma ThreeDGuard(tokens: seq<string>, msg: UserMessage, world: World, cfg: Config)
    requires |tokens| >= 3 && tokens[0] == "!3d"
    ensures HandleObsCommands(tokens, msg, world, cfg) == Call(Trigger3d(SourceArg(tokens, cfg), tokens[2], DurationArg(tokens)))
  {
    ThreeDSpelling(tokens[0]);
  }

  /** `!goto` defaults to the "office" position with no skybox id; when
      `trigger_scene` does not panic the command returns Ok. */
  lemma GotoDefaults(tokens: seq<string>, msg: UserMessage, world: World, cfg: Config)
    requires |tokens| > 0 && tokens[0] == "!goto" && !GotoPanics(tokens, world)
    ensures var r := HandleObsCommands(tokens, msg, world, cfg);
      && (|tokens| == 1 ==> r == Done([GotoScene("office", "")]))
      && (|tokens| == 2 ==> r == Done([GotoScene(tokens[1], "")]))
      && (|tokens| >= 3 ==> r == Done([GotoScene(tokens[1], tokens[2])]))
  {
    GotoSpelling(tokens[0]);
  }
}
