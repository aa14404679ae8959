/** The messages that travel on the bot's broadcast channel, as far as the
    handlers modelled here produce or consume them, and what one receive
    from the channel can yield. */
module Events {
  import opened Common

  /** The chatter's badges, as the chat adapter reports them. */
  datatype Roles = Roles(isTwitchStaff: bool, isTwitchMod: bool, isTwitchSub: bool)

  /** A chat line. */
  datatype UserMessage = UserMessage(userName: string, contents: string, roles: Roles)

  /** Parameters of a text-to-speech request for the ElevenLabs handler. */
  datatype ElevenLabsRequest = ElevenLabsRequest(
    voice: Option<string>,
    message: string,
    voiceText: string,
    username: string,
    reverb: bool,
    stretch: Option<string>,
    pitch: Option<string>)

  /** The closed union of messages; `OtherEvent` stands for every variant
      that none of the handlers modelled here matches. */
  datatype Event =
    | UserMessageEvent(msg: UserMessage)
    | ElevenLabsEvent(request: ElevenLabsRequest)
    | UberDuckRequest(voice: string, message: string, voiceText: string, username: string, source: Option<string>)
    | TransformOBSTextRequest(message: string, textSource: string)
    | TriggerHotkeyRequest(hotkey: string)
    | SkyboxRequest(skyboxMsg: string)
    | SourceVisibilityRequest(scene: string, visibilitySource: string, enabled: bool)
    | StreamCharacterRequest(characterSource: string, enabled: bool)
    | OtherEvent

  /** One `rx.recv().await`: an event, or the channel's `Lagged(n)` / `Closed` errors. */
  datatype Recv = Received(event: Event) | Lagged(skipped: nat) | Closed

  /** A chat message as posted by the bot account itself. */
  function BotMessage(contents: string): Event {
    UserMessageEvent(UserMessage("beginbot", contents, Roles(false, false, false)))
  }
}
