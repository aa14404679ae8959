# subd bot: the decision logic of its handlers, in Dafny

subd is a live-stream bot. Chat messages, channel-point redemptions and
internal requests travel on a broadcast channel, and a set of handlers
react to them: they drive OBS, speak chat aloud, play soundboard clips,
generate images, skyboxes, songs and music videos. This project models
what those handlers DECIDE once the outside world has answered. Database
rows, directory listings, file existence, HTTP results, the clock and the
UUID and base64 parsers are all passed in as values. Each model returns
what the handler would do: the events it publishes, the OBS call it
makes, the file it writes, the chat message it sends, or the error it
returns.

One Dafny module per source file:

- `ObsRouting` covers `handle_obs_commands`, the chat-command router.
  - It works out the shared default arguments: the source, the duration and the scene.
  - It then selects one arm of the `match` on the first token.
  - The source lays its arms out in banner-headed sections. The model keeps one datatype of arms per section.
  - No spelling belongs to two sections, so trying the sections in turn selects the same arm as the single `match`.
- `Begin` covers the handler loops of the main binary:
  - the four forwarding handlers;
  - the OBS message handler, which feeds the router;
  - `SoundHandler`, a class with its loaded sound-file set.

  Each loop is a method over a finite sequence of receive results, proved against a function that describes the whole run.
- `Uberduck` covers the text-to-speech helpers:
  - `chop_text`, as an in-place loop;
  - `add_postfix_to_filepath`;
  - `sanitize_chat_message`;
  - `find_voice_id_by_name`;
  - the ElevenLabs handler: its request gate, voice resolution and choice, and which captions it publishes.
- `Fal` covers the fal theme/prompt gate and the image-saving loop of `process_images`.
- `MoveEffects` covers the "Move_" filter naming, `find_or_create_filter`, the timing override of a move, and `spin`.
- `Skybox` covers `trigger_scene` (which also appears, unchanged, in src/obs_routing.rs), `find_style_id`, `request_skybox` and `check_skybox_status_and_save`.
- `Suno` covers the song-response parser with its error order, `get_audio_information`, `play_audio`, and the `download_and_play` retry loop.
- `MusicVideo` covers the music-video handler's receive loop, `parse_command`, `handle_requests` with the calls each command makes, `update_obs_source` and `find_image_filename`.
- `EventSub` covers the webhook's challenge and reward dispatch.
- `Common` and `Events` hold shared definitions:
  - Option and Result;
  - the string helpers that stand for Rust's `split(" ")`, `split_whitespace`, `trim`, `to_lowercase` and integer parsing;
  - the event union.

Three behaviours of the code as written are modelled as they are:

- The spin arm of the router is spelled `"spiny"`, without the `!`. So `!spiny` falls through to the catch-all, and a bare `spiny` spins.
- The staff branch of `SoundHandler` puts the staff OBS source in `voice` and the staff voice in `source`.
- The handlers in src/bin/begin.rs receive with `?`. So a lagged receiver (missed broadcasts) ends the handler just like a closed channel does.

## Model

| member | source | states |
|---|---|---|
| ObsRouting.SourceArg | src/obs_routing.rs:45 | the source is the second token when there is one, else the default source |
| ObsRouting.DurationArg | src/obs_routing.rs:47-49 | the duration is the fifth token, trimmed and read as a u32; it is 3000 when that token is absent or does not parse, and always below 2^32 |
| ObsRouting.DurationRoundTrip | src/obs_routing.rs:47-49 | the decimal rendering of any u32, given as the fifth token, is read back as that number |
| ObsRouting.ScrollSetting | src/obs_routing.rs:454-463 | "x" gives speed_x and "y" gives speed_y; any other or missing third token gives speed_x |
| ObsRouting.OldRemixSkip | src/obs_routing.rs:305-313 | the prompt skips 2 tokens exactly when the style token, read as an i32, is 0 or unreadable, and 3 otherwise |
| ObsRouting.UnlistedIsUnknown | src/obs_routing.rs:64-779 | a first token that no arm lists selects the catch-all arm |
| ObsRouting.HkSpelling | src/obs_routing.rs:611 | only "!hk" selects the hotkey arm (both directions) |
| ObsRouting.ThreeDSpelling | src/obs_routing.rs:759 | only "!3d" selects the 3D-filter arm |
| ObsRouting.SkyboxSpelling | src/obs_routing.rs:244 | only "!skybox" selects the skybox arm |
| ObsRouting.RemixSpelling | src/obs_routing.rs:268 | only "!remix" selects the remix arm |
| ObsRouting.OldRemixSpelling | src/obs_routing.rs:288 | only "!old_remix" selects the old remix arm |
| ObsRouting.GotoSpelling | src/obs_routing.rs:184 | only "!goto" selects the goto arm |
| ObsRouting.MoveSpelling | src/obs_routing.rs:548 | only "!move" selects the move arm |
| ObsRouting.OrthoSpelling | src/obs_routing.rs:697 | only "!ortho" selects the orthographic arm |
| ObsRouting.PerpSpelling | src/obs_routing.rs:717 | only "!perp" selects the perspective arm |
| ObsRouting.CornerSpelling | src/obs_routing.rs:737 | only "!corner" selects the corner-pin arm |
| ObsRouting.SpinSpellings | src/obs_routing.rs:679 | the spin arm is selected by exactly "!spin", "!spinx" and "spiny" |
| ObsRouting.DispatchPanics | src/obs_routing.rs:147-617 | of all arms, only these can panic: the hotkey arm without a second token, the three arms that start the Go executable when it cannot be started, and the goto arm when `trigger_scene` panics |
| ObsRouting.DispatchFails | src/obs_routing.rs:759-764 | the only error an arm raises itself is that of "!3d" with fewer than three tokens |
| ObsRouting.HandleObsCommands | src/obs_routing.rs:35-782 | an unlisted command does nothing. The only error the router raises itself is for "!3d" with fewer than three tokens; any other error is the result of the call a `Call` names. It panics exactly on an empty token list, on "!hk" without a key, on "!styles", "!old_remix" or "!old_skybox" when the Go executable cannot be started, and on "!goto" when `trigger_scene` panics |
| ObsRouting.HandleIsDispatch | src/obs_routing.rs:35-64 | a non-empty message runs the arm its first token selects, with the shared default source, duration and scene |
| ObsRouting.GoSpellingsSelectGoArms | src/obs_routing.rs:147-155 | exactly "!styles", "!old_remix" and "!old_skybox" select the arms that start the Go executable |
| ObsRouting.GotoPanicCauses | src/obs_routing.rs:791-859 | "!goto" panics exactly when the move filter is enabled and either an empty id meets a position outside the fixed map, or the archive file exists but cannot be read |
| ObsRouting.GotoEnablesBeforePanic | src/obs_routing.rs:791-859 | when "!goto" panics, the move filter named by the position has already been enabled on "Primary"; that enable succeeded |
| ObsRouting.OldSkyboxWritesBeforePanic | src/obs_routing.rs:362-381 | "!old_skybox" writes the message to the prompt file before it starts the Go executable, so the write is done even when that start panics |
| ObsRouting.UnknownCommandDoesNothing | src/obs_routing.rs:779 | an unlisted command returns Ok with no effect, whatever its arguments |
| ObsRouting.BangSpinyUnlisted | src/obs_routing.rs:679 | "!spiny" is in none of the arms' spelling lists |
| ObsRouting.BangSpinyIsUnknown | src/obs_routing.rs:679 | "!spiny" does nothing, because the arm lists "spiny" without the '!' |
| ObsRouting.BareSpinySpins | src/obs_routing.rs:679-692 | the bare word "spiny" spins the default source about z for 3000 ms |
| ObsRouting.HotkeyRule | src/obs_routing.rs:611-617 | with a second token, "!hk" emits exactly one TriggerHotkeyRequest. Its key is "OBS_KEY_" followed by the token upper-cased character by character |
| ObsRouting.PayloadRoutes | src/obs_routing.rs:244-281 | "!skybox" emits all tokens after the command, joined with single spaces, as a skybox request. "!remix" writes the same text to remix.txt |
| ObsRouting.RestOfSplitMessage | src/obs_routing.rs:247-252 | for a message split on single spaces, the tokens after the first, joined again, are the message after its first space, verbatim |
| ObsRouting.OldRemixPrompt | src/obs_routing.rs:288-359 | when the executable starts, "!old_remix" runs the Go program with the remix id, the style token and the prompt, then restarts the skybox source. The prompt starts after the style token exactly when that token is a non-zero i32 |
| ObsRouting.OldRemixDefaults | src/obs_routing.rs:297-313 | with no arguments and an executable that starts, the remix id is 2295844 and the style is "danker"; "danker" does not parse, so the prompt is empty |
| ObsRouting.OrthoGuard | src/obs_routing.rs:697-757 | "!ortho", "!perp" and "!corner" return Ok with no effect exactly when there are fewer than three tokens. Otherwise they call trigger_ortho with their filter and the third token |
| ObsRouting.MoveGuard | src/obs_routing.rs:548-559 | "!move" does nothing exactly when there are at most three tokens; otherwise it moves the source in the found scene |
| ObsRouting.ThreeDGuard | src/obs_routing.rs:759-776 | "!3d" with three or more tokens calls trigger_3d with the third token as the setting |
| ObsRouting.GotoDefaults | src/obs_routing.rs:184-195 | unless `trigger_scene` panics, "!goto" goes to the second token's position and the third token's skybox id, defaulting to "office" and the empty id |
| Skybox.ArchivePath | src/skybox.rs:96-107 | an archive path is the archive directory, then the id, then ".txt" |
| Skybox.ArchivePathInjective | src/skybox.rs:96-107 | the id can be read back from its path, so distinct ids give distinct archive files |
| Skybox.TriggerScene | src/skybox.rs:72-127 | it fails exactly when enabling the filter fails. It panics exactly when an empty id meets a name outside the map, or the archive exists but cannot be read. Otherwise it writes "name content" when the archive exists, and the name alone when it does not |
| Skybox.ArchiveSelection | src/skybox.rs:89-107 | a non-empty id selects its own archive whatever the name. An empty id uses the name's fixed id: office and office1 give 2443168, bar gives 2449796, bar1 gives 2451051 |
| Skybox.FindStyleId | src/skybox.rs:189-192 | the style id is always 1 |
| Skybox.RequestSkybox | src/skybox.rs:204-212 | the prompt sent is the input with exactly its leading whitespace removed; the style is 1; the result is Ok exactly when writing the response file succeeds |
| Skybox.TrimStartKeepsWords | src/skybox.rs:206-209 | trimming the front of the prompt does not change its whitespace-separated words |
| Skybox.CheckSkyboxStatusAndSave | src/skybox.rs:150-184 | a status error or an empty file url gives Ok with nothing saved. Otherwise the download must succeed, and the page then shows the file url |
| Begin.EventsBeforeError | src/bin/begin.rs:66-67 | a handler sees at most one event per receive result |
| Begin.EventsBeforeErrorPrefix | src/bin/begin.rs:66-67 | the events a handler sees are the received events before the first Lagged or Closed, unchanged and in order |
| Begin.ReceiveErrorEnds | src/bin/begin.rs:66-67 | nothing received after the first receive error reaches the handler |
| Begin.EventsStep | src/bin/begin.rs:66-67 | a received event is seen first, then the events after it |
| Begin.Handled | src/bin/begin.rs:66-67 | one event is handled per receive result before the first error, each with the world met handling it |
| Begin.HandledPairs | src/bin/begin.rs:66-67 | the k-th event handled is the k-th received, paired with the k-th world |
| Begin.HandledStep | src/bin/begin.rs:66-67 | a received event is handled first, with its own world, then the rest |
| Begin.SelectMatches | src/bin/begin.rs:68-71 | each small handler makes a call exactly for its own event variant (both directions) |
| Begin.TransformFilterName | src/bin/begin.rs:136-148 | the text handler moves the message on its text source, through the filter "Transform" followed by that source |
| Begin.CallOf | src/bin/begin.rs:66-153 | in each of the four forwarding handlers (source visibility, stream character, hotkey, text transform), one event leads to at most one OBS call |
| Begin.CallsFor | src/bin/begin.rs:66-153 | a handler makes at most one call per event |
| Begin.CallsForAppend | src/bin/begin.rs:66-80 | the calls for two stretches of events are the calls for the first, then those for the second |
| Begin.SkipsOtherVariants | src/bin/begin.rs:68-71 | an event of another variant leaves the calls exactly as if it were not there |
| Begin.ForwardStep | src/bin/begin.rs:66-80 | the calls for a received event come first, then those for the events after it |
| Begin.RunForwarding | src/bin/begin.rs:61-156 | the loop of the visibility, character and text handlers makes the calls of the events before the first receive error. It returns exactly when such an error occurs |
| Begin.HotkeyRun | src/bin/begin.rs:115-122 | the hotkey handler triggers at most one key per event |
| Begin.HotkeyRequests | src/bin/begin.rs:117-120 | at most one hotkey is requested per event |
| Begin.HotkeyRunRequests | src/bin/begin.rs:115-122 | the handler triggers the hotkey requests among the events, unchanged and in order, until the first failing trigger |
| Begin.TriggerFailureEnds | src/bin/begin.rs:120-121 | the requests are triggered in order. A failing trigger is the last one, and the run stops exactly then; with no failure, every request is triggered |
| Begin.HotkeyStep | src/bin/begin.rs:115-122 | one more event: its hotkey request is triggered first, and a failing trigger stops the run there |
| Begin.RunTriggerHotkey | src/bin/begin.rs:110-124 | the loop triggers the hotkeys of the specification run, each trigger succeeding or failing as the world of its event says. It ends on a failing trigger (`?`) or on a receive error |
| Begin.RoutePanics | src/bin/begin.rs:315-327 | a chat message split on " " makes the router panic exactly when it is the bare "!hk", a Go command whose executable cannot be started, or a "!goto" whose scene trigger panics |
| Begin.ChatMessages | src/bin/begin.rs:311-314 | the handler routes at most one message per event |
| Begin.RouteAll | src/bin/begin.rs:315-335 | each chat message is routed on its own, one outcome per message |
| Begin.RouteAllEach | src/bin/begin.rs:315-335 | the k-th outcome is the router applied to the k-th message |
| Begin.CommandErrorsContinue | src/bin/begin.rs:321-335 | a routing error is logged and the loop continues. Outcomes are taken in order up to the first panic, which is the last; without a panic every message is routed |
| Begin.UntilPanicPrefix | src/bin/begin.rs:321-335 | the outcomes gone through are a prefix of all outcomes, and all of them when nothing panicked |
| Begin.UntilPanicLast | src/bin/begin.rs:321-335 | only the last outcome gone through can be a panic, and it is one exactly when the handler stopped |
| Begin.UntilPanicStopped | src/bin/begin.rs:321-335 | the handler stops exactly when some outcome is a panic |
| Begin.RoutedPanics | src/bin/begin.rs:315-335 | routed one by one, each in its own world, a message's outcome is a panic exactly when the message panics the router |
| Begin.ObsHandlerEnds | src/bin/begin.rs:304-338 | the OBS message handler stops exactly when some chat message panics the router; failing commands never stop it |
| Begin.ObsSkip | src/bin/begin.rs:311-314 | an event that is not a chat message changes nothing in the run |
| Begin.ObsChatStep | src/bin/begin.rs:315-335 | a chat message's outcome comes first, and a panic stops the run there |
| Begin.Router | src/bin/begin.rs:315-328 | the router value routes every message exactly as the split-and-route step does |
| Begin.ObsFromIsObsRun | src/bin/begin.rs:309-336 | taking receive results one at a time is the same as routing the chat messages received before the first error, up to the first panic |
| Begin.ObsLoop | src/bin/begin.rs:309-336 | the loop's outcomes and its end are those of the step-by-step run |
| Begin.RunObsMessages | src/bin/begin.rs:304-338 | the OBS message handler's outcomes are those of the chat messages before the first receive error, each routed in its own world, up to the first panic. It ends on a panic or a receive error |
| Begin.StreamVoice | src/uberduck.rs:416-443 | the speaking voice is the chatter's stored voice, or the default voice when there is none |
| Begin.ChooseCharacter | src/bin/begin.rs:205-225 | only staff get a source. There is no voice exactly when the chatter is neither staff, mod nor sub and TTS is limited to subscribers |
| Begin.VoicePrecedence | src/bin/begin.rs:211-225 | staff, then mod, then sub, then everyone when TTS is not limited to subscribers; the higher role decides. As written, staff get the OBS source as voice and the voice as source. The sound-effects switch plays no part |
| Begin.SoundboardEvents | src/bin/begin.rs:256-289 | at most one soundboard request per word |
| Begin.SoundboardRequests | src/bin/begin.rs:256-266 | every soundboard request is a text request on the soundboard source, for a word whose file exists |
| Begin.SoundboardWords | src/bin/begin.rs:256-266 | a lower-cased word is announced exactly when "./MP3s/{word}.mp3" is among the loaded files, and every announcement is some word's |
| Begin.SoundboardEventsAppend | src/bin/begin.rs:256-289 | the requests for two stretches of words are those of the first, then those of the second |
| Begin.FirstUnplayable | src/bin/begin.rs:256-274 | the index found is the first word whose listed sound file does not open or decode, or there is no such word |
| Begin.SplitOnPieces | src/bin/begin.rs:192-195 | a message splits on " " into at least two pieces exactly when it holds a space |
| Begin.SoundReaction | src/bin/begin.rs:175-297 | Nightbot and messages without a space are ignored. Any other message stops the handler exactly when the stream state cannot be read. With implicit sound effects on, a word whose listed file does not open or decode panics the handler, and nothing else does |
| Begin.SpeechRequest | src/bin/begin.rs:228-239 | in a reaction or a panic, a speech request is sent exactly when a voice was chosen. It comes first and carries the chopped text, the raw text, the sender and the source; everything after it is a text request |
| Begin.SoundboardSwitch | src/bin/begin.rs:243-297 | assuming "./MP3s/.mp3" is not a listed file (an empty word, from two adjacent spaces, would otherwise announce the empty text too): with implicit sound effects off, only the speech request is sent; with them on and every file playable, exactly one clearing request with an empty message is sent, and it ends the reaction |
| Begin.PanicAfterWordRequest | src/bin/begin.rs:256-274 | a panic on an unplayable word comes right after that word's own text request; no clearing request follows |
| Begin.Reactor | src/bin/begin.rs:175-298 | the reaction value reacts to every message exactly as the handler body does |
| Begin.SoundRunAppend | src/bin/begin.rs:175-298 | the run over two stretches of events is the run over the first, then, unless it stopped, the run over the second |
| Begin.SoundStep | src/bin/begin.rs:175-298 | one more event: a chat message's reaction comes first; a stream-state error or a panic stops the run there |
| Begin.SoundHandler.constructor | src/bin/begin.rs:169-173 | the loaded set is exactly the listed paths |
| Begin.SoundHandler.Soundboard | src/bin/begin.rs:256-289 | the word loop sends exactly the specified soundboard requests, in word order. It panics exactly when some listed word's file does not open or decode, right after that word's request |
| Begin.SoundHandler.React | src/bin/begin.rs:177-297 | the loop body, which fills the mutable character field by field, gives exactly the specified reaction |
| Begin.SoundHandler.Handle | src/bin/begin.rs:175-298 | the handler sends the reactions to the chat messages before the first receive error, each in its own world. It ends on a stream-state error, a panic or a receive error |
| Uberduck.ChopText | src/uberduck.rs:320-334 | the in-place loop over the spaces returns exactly the specified chopped text |
| Uberduck.ChopFromShape | src/uberduck.rs:326-331 | from any position, the length is kept and a character either stays or is a space turned into '\n' |
| Uberduck.ChopFromRule | src/uberduck.rs:326-331 | a character changes exactly when it is a space beyond the limit, and the limit grows by 20 for every change made before it |
| Uberduck.ChopTextShape | src/uberduck.rs:320-334 | chop_text keeps the length, and only spaces change, each into '\n' |
| Uberduck.ChopTextRule | src/uberduck.rs:324-331 | position j changes exactly when it holds a space and j > 20·(k+1), where k counts the changes before j. No space at an index up to 20 changes |
| Uberduck.AddPostfixToFilepath | src/uberduck.rs:449-458 | a path with no '.' is unchanged; otherwise the result is longer by exactly the postfix |
| Uberduck.PostfixBeforeLastDot | src/uberduck.rs:449-458 | the postfix is inserted just before the last '.'. Removing it again gives back the path |
| Uberduck.SanitizeWords | src/uberduck.rs:563-579 | each word maps to exactly one replacement, in order |
| Uberduck.WordTokensJoin | src/uberduck.rs:565-578 | a word containing "http" becomes "U.R.L"; otherwise a word over 50 bytes becomes "long word"; otherwise it is kept. Each result splits into clean words |
| Uberduck.SanitizedIsJoinOfTokens | src/uberduck.rs:563-580 | the sanitised message is the replacements' words joined with single spaces |
| Uberduck.TokensAreClean | src/uberduck.rs:565-578 | no word of a replacement contains "http" or exceeds 50 bytes |
| Uberduck.CleanTokensUnchanged | src/uberduck.rs:565-578 | words without "http" and within 50 bytes are left as they are |
| Uberduck.SanitizeProperties | src/uberduck.rs:561-581 | the result has no leading or trailing whitespace and no word with "http". Its words are the replacements in order, and sanitising twice equals sanitising once |
| Uberduck.FirstVoiceMatchIsFirst | src/uberduck.rs:551-558 | the lookup returns None exactly when no name matches ignoring case. Otherwise it returns (voice_id, stored name) of the first match |
| Uberduck.FindVoiceIdByName | src/uberduck.rs:544-559 | the early-return loop returns exactly the first case-insensitive match |
| Uberduck.ResolveVoice | src/uberduck.rs:123-155 | the order is explicit voice, then the global voice in global mode, then the user's stored voice, falling back to the global voice. The global voice defaults to "ethan", and a failed state lookup counts as global mode off |
| Uberduck.RandomVoice | src/uberduck.rs:583-596 | a random pick from a non-empty list is one of its entries |
| Uberduck.PlanSpeech | src/uberduck.rs:107-173 | a request is skipped exactly when its text is empty or starts with '!' or '@'. It panics exactly when the voices file cannot be read or holds no voice. Otherwise it speaks the sanitised text in the resolved voice, with a voice from the file, marked random exactly when no entry matches |
| Uberduck.SpeakRequest | src/uberduck.rs:174-306 | the caption is published exactly when synthesis and the write succeed, and it comes first. The clearing caption follows exactly when the audio also opens and decodes. Audio that does not decode panics; every other failure moves on |
| Uberduck.GateComesFirst | src/uberduck.rs:107-115 | a request whose text is empty or starts with '!' or '@' is dropped before any lookup; nothing in the environment changes that |
| Uberduck.PlanSpeechFacts | src/uberduck.rs:164-173 | the voice spoken with is the first entry whose name matches the resolved voice ignoring case; the random pick happens exactly when none matches |
| Fal.HandleFalCommands | src/handlers/fal_handler.rs:111-194 | the only error is a failed theme lookup |
| Fal.ThemeGate | src/handlers/fal_handler.rs:118-129 | "!theme" from anyone but beginbot, beginbotbot or a mod does nothing. Otherwise the theme stored is the rest of the line after the command, verbatim |
| Fal.FreeTextImage | src/handlers/fal_handler.rs:167-191 | an image is requested exactly for free text with a readable theme, and the prompt is theme + " " + the whole line. For free text, a failed theme lookup is the result |
| Fal.NoImageForCommandsOrOneWord | src/handlers/fal_handler.rs:115-171 | a line starting with '!' or '@', or with at most one word, never makes an image and never fails |
| Fal.MimeExtension | src/handlers/fal_handler.rs:222-226 | image/png gives png, image/jpeg gives jpg, anything else gives bin |
| Fal.ImageFiles | src/handlers/fal_handler.rs:229-265 | an image goes to "tmp/fal_images/{timestamp}.{ext}", then "./tmp/dalle-1.png", then the extra folder when one is given |
| Fal.WritesUntilFailure | src/handlers/fal_handler.rs:233-264 | files are written in order until the first that cannot be created or written |
| Fal.ProcessFrom | src/handlers/fal_handler.rs:212-273 | the skipped indices are increasing, in range, and each points at an image whose url does not match. No write goes to a file that cannot be written. When the loop succeeds, every such image is among the skipped |
| Fal.ProcessImages | src/handlers/fal_handler.rs:197-274 | an unreadable response is an error. Otherwise the loop's writes, skips and result are those of the image-by-image specification |
| Fal.SkippedImageDoesNotStop | src/handlers/fal_handler.rs:212-214 | an image whose url does not match is recorded as skipped, and the images after it are processed as if it were not there |
| Fal.AllWritableSucceeds | src/handlers/fal_handler.rs:212-273 | with every file writable and every matching url decodable, the result is Ok. Each matching image is written to its two or three files, and every other image is skipped |
| Fal.MatchingCount | src/handlers/fal_handler.rs:212-214 | no more images match than there are |
| MoveEffects.MoveFilterName | src/move_transition_effects.rs:20 | a move filter's name is "Move_" followed by the item |
| MoveEffects.MoveFilterNameInjective | src/move_transition_effects.rs:77 | different items never share a move filter |
| MoveEffects.FindOrCreateFilter | src/move_transition_effects.rs:32-65 | the filter is created exactly when listing succeeded and no listed filter has exactly that name. A failed listing returns Ok without creating anything, and only a failed creation is an error |
| MoveEffects.OverrideTiming | src/move_transition_effects.rs:88-90 | duration, easing type and easing function are set to the arguments; the computed position settings are kept |
| MoveEffects.MoveSourceInSceneXAndY | src/move_transition_effects.rs:67-99 | the filter check for "Move_{source}" is made first, even when the fetch then fails. A failed settings fetch is the error. Otherwise the move goes through "Move_{source}" with the position settings kept and the timing overridden |
| MoveEffects.TopRight | src/move_transition_effects.rs:9-29 | top_right moves through "Move_{item}" with the computed settings and no filter check |
| MoveEffects.BottomRight | src/move_transition_effects.rs:101-125 | bottom_right checks the filter first, whatever the fetch then returns, and moves through "Move_{item}" with the computed settings |
| MoveEffects.MovesShareFilter | src/move_transition_effects.rs:9-125 | all three moves of one item use the same filter. Given the same positioned settings, a timed move differs from a corner move only in its timing fields. The two moves that check the filter check the same one |
| MoveEffects.SpinSetting | src/move_transition_effects.rs:138-143 | spin and z give Rotation.Z, spinx and x give Rotation.X, spiny and y give Rotation.Y, and anything else gives Rotation.Z |
| MoveEffects.Spin | src/move_transition_effects.rs:130-181 | spin always returns Ok. It updates a rotation setting through "Move_" + the 3D transform filter, with move type 2 |
| EventSub.MusicMessages | src/handlers/twitch_eventsub_handler.rs:171-189 | the scan panics exactly when some table command cannot lose its first character. Every message it sends is "!{title}", at most one per command |
| EventSub.PostRequest | src/handlers/twitch_eventsub_handler.rs:124-210 | a reply always has status 200. A challenge is echoed verbatim with no dispatch; otherwise the body is empty. It panics exactly for a music reward when some table command cannot be sliced |
| EventSub.MusicMessagesCount | src/handlers/twitch_eventsub_handler.rs:171-189 | up to the first command that cannot be sliced, "!{title}" is sent once per table command that equals the title without its first character. The scan panics exactly when it stopped at such a command |
| EventSub.NonRedemptionsOnlyLog | src/handlers/twitch_eventsub_handler.rs:133-203 | other subscription types, a missing event and a missing reward reply 200 with an empty body and do nothing |
| EventSub.SceneRewards | src/handlers/twitch_eventsub_handler.rs:157-168 | "gallery" switches to "4 Piece" and "code" switches to "Primary" |
| EventSub.MusicRewards | src/handlers/twitch_eventsub_handler.rs:170-189 | any other reward sends "!{title}" once per matching table command: zero, one or several times |
| EventSub.MusicRewardPanics | src/handlers/twitch_eventsub_handler.rs:170-189 | a command that cannot be sliced panics the handler after the "!{title}" messages for the matching commands before it were sent |
| Suno.GetIndex | crates/subd-suno/src/lib.rs:173-175 | an element exists exactly for an array and an index inside it |
| Suno.GetStr | crates/subd-suno/src/lib.rs:177-180 | a string field exists exactly for an object whose field holds a string |
| Suno.StrOrEmpty | crates/subd-suno/src/lib.rs:185-205 | a text field is the string when present and a string, else "" |
| Suno.SongFile | crates/subd-suno/src/lib.rs:35 | a song's file is "ai_songs/{id}.mp3" |
| Suno.SongFileInjective | crates/subd-suno/src/lib.rs:239 | different songs never share a file |
| Suno.SongOf | crates/subd-suno/src/lib.rs:185-219 | the saved row carries the parsed UUID, the requester, and each text field or "" |
| Suno.ParseSunoResponse | crates/subd-suno/src/lib.rs:165-232 | it succeeds exactly when the data, a string id and an id the UUID parser accepts are present, and the save, the folder and the write all succeed. The effects are a prefix of save, folder, write, download |
| Suno.ErrorOrder | crates/subd-suno/src/lib.rs:173-229 | the error is the first failing step, in the order: song data, id, UUID, save, folder, write |
| Suno.NothingSavedBeforeIdChecked | crates/subd-suno/src/lib.rs:173-183 | missing data, a missing id or a non-UUID id is reported before anything is saved |
| Suno.SavedSongFields | crates/subd-suno/src/lib.rs:182-220 | the first effect saves the row with the UUID parsed from the id, the requester, and each text field's string value, or "" where the field is missing or not a string. The folder created next is named by the id text as it came |
| Suno.GetAudioInformation | crates/subd-suno/src/lib.rs:55-67 | the result is the first element, or an error exactly when the request fails or the list is empty |
| Suno.PlayAudio | crates/subd-suno/src/lib.rs:24-52 | the queue notice "@{user} added {id} to Queue" always goes first. It succeeds exactly when every step does. Then the song file is opened, and the parsed UUID is recorded and marked played before the file is queued |
| Suno.PlaylistAfterChecks | crates/subd-suno/src/lib.rs:33-49 | a song is added to the playlist only after the notice, the file open and the UUID parse succeed, and under the parsed UUID. It is queued only after that UUID is marked played |
| Suno.FirstReady | crates/subd-suno/src/lib.rs:119-159 | the index found is the first successful fetch, or there is none |
| Suno.DownloadAndPlay | crates/subd-suno/src/lib.rs:107-162 | the retry loop stops right after the first successful fetch and then performs its effects. Without one it keeps fetching and does nothing else |
| Suno.OnePlayMessage | crates/subd-suno/src/lib.rs:127-148 | after the successful fetch, exactly one "!play {id}" message from beginbot is sent, and it comes last |
| MusicVideo.MessagesBeforeError | src/handlers/ai_music_video_creator_handler.rs:38-52 | at most one message is handled per receive result |
| MusicVideo.HandleEvents | src/handlers/ai_music_video_creator_handler.rs:33-54 | the loop handles the chat messages received before the first receive error, each in its own world, and stops at that error. An error of `handle_requests` is only logged |
| MusicVideo.IdArg | src/handlers/ai_music_video_creator_handler.rs:197-203 | the id is the second word when there is one, else the current song (whose lookup may fail) |
| MusicVideo.ParseCommand | src/handlers/ai_music_video_creator_handler.rs:193-245 | an empty message or any unlisted first word is Unknown. It fails exactly for "!generate_video" without an image name or with a failing lookup, and for the id commands without an id and with a failing lookup |
| MusicVideo.IdCommands | src/handlers/ai_music_video_creator_handler.rs:196-242 | the images, image and create commands use the second word or else the current song id. They fail exactly when there is no second word and the lookup fails |
| MusicVideo.GenerateVideoUsesCurrentSong | src/handlers/ai_music_video_creator_handler.rs:207-221 | "!generate_video" without an image name is an error. With one, it targets the current song, never a chat-given id |
| MusicVideo.LaterWordsIgnored | src/handlers/ai_music_video_creator_handler.rs:194-245 | two messages that agree on their first two words parse the same |
| MusicVideo.OtherWordsUnknown | src/handlers/ai_music_video_creator_handler.rs:243 | any other first word, or an empty message, gives Unknown without a lookup |
| MusicVideo.FindImageFilename | src/handlers/ai_music_video_creator_handler.rs:57-95 | an unreadable directory gives "Failed to read directory: {dir}". Otherwise the loop returns exactly what the entry-by-entry specification gives |
| MusicVideo.FindImageCharacterised | src/handlers/ai_music_video_creator_handler.rs:63-94 | an image is found exactly when some entry is a png, jpeg or jpg file with that stem, and every entry before it is skipped over. The path is then that entry's |
| MusicVideo.FindImageIn | src/handlers/ai_music_video_creator_handler.rs:63-94 | a found path is that of a matching entry. When every entry is skipped over, the result is "No matching image found for: {name}" |
| MusicVideo.UpdateObsSource | src/handlers/ai_music_video_creator_handler.rs:157-190 | a file whose path cannot be made absolute makes no call and gives the canonicalisation error. Otherwise the source is hidden, pointed at that file's absolute path, shown, and the scene changes to "Movie Trailer"; only that last result is returned |
| MusicVideo.HandleRequests | src/handlers/ai_music_video_creator_handler.rs:98-155 | "nightbot" gets Ok with nothing done. Otherwise a failing preamble lookup is the result whatever the message, and then a parse error. Calls are made only for a parsed, known command |
| MusicVideo.GenerateVideoOutcome | src/handlers/ai_music_video_creator_handler.rs:117-139 | with an image name, the image is looked up in the current song's folder. A found image makes the video, whose failure is the result; a missing one is told to chat and is no error |
| MusicVideo.CommandOrdering | src/handlers/ai_music_video_creator_handler.rs:140-153 | the OBS source is touched only once the music video was created. It is pointed at the absolute path of the file the creation returned, and the scene change comes last. The single-image command never fails once parsed; Unknown does nothing |
| MusicVideo.RequestOutcomes | src/handlers/ai_music_video_creator_handler.rs:38-52 | one outcome per chat message handled, whatever the errors |

## Left out

- Concurrency and the scheduler: the broadcast channel, the event loop and the spawned tasks are left out. A handler gets a finite sequence of receive results, and running out of them means it is still waiting.
- The `download_and_play` retry loop, which never ends without a success, is modelled over a finite sequence of fetch attempts. The five-second sleeps are left out.
- OBS, database, HTTP, subprocess and audio calls are not modelled themselves. The model names the call a branch makes and takes the call's result as a parameter. This covers:
  - ffmpeg and sox (`normalize_tts_file`, `stretch_audio`, `change_pitch`, `add_reverb`);
  - rodio playback and sink volumes;
  - stderr redirection.
- Floating-point arguments are left out: filter values, blur sizes, scale and move coordinates, and the positions computed by `custom_filter_settings`.
- Randomness and the clock are parameters: `find_random_voice`, `use_random_voice` and every timestamp.
- The data-URL regular expression, base64 decoding, the UUID parser and serde_json are parameters (their results).
- `Common.ToLower` and `Common.ToUpper` change ASCII letters only. Rust's `to_lowercase`/`to_uppercase` are full Unicode.
- `Uberduck.ChopText`: it indexes characters, while `chop_text` indexes the bytes found by `match_indices`. The two agree on ASCII text.
- `Begin.StreamVoice`: the lookup error of `build_stream_character` is treated as "no stored voice". The function returns the default voice in that case, exactly as the source does. The `source` it returns is unused by the handler and is left out.
- `Fal.WritesUntilFailure`: a file that cannot be created and one that cannot be written are one case. The message is the one for creating.
- `MusicVideo.FindImageFilename`: a path that is not valid UTF-8 ("Failed to convert path to string") is not modelled; paths are strings.
- `MusicVideo.FindImageIn`: error texts that the source ends with the underlying error (": {e}", as in "Failed to read directory entry: {e}") keep only their fixed text, because the underlying I/O error is not modelled.
- The arms of `handle_obs_commands` that only call into OBS, the database or a subprocess are modelled by the call and its arguments. The calls themselves, such as `obs_combo` and `stream_fx`, are not part of this model.
- `generate_audio_by_prompt` (crates/subd-suno/src/lib.rs) and `just_download` are plain HTTP and file I/O. Only the saved file name and the "could not save" case of the download are kept.
- `create_turbo_image_in_folder` (src/handlers/fal_handler.rs) and the fal handler's receive loop are service calls and forwarding. They are not part of this model.
- `trigger_3d` and `trigger_move_value_3d_transform` (src/move_transition_effects.rs) are OBS calls with float settings. They are not part of this model.
- Panics from `unwrap`/`expect` on the process environment and on I/O that the model does not pass in are left out. The model treats these as succeeding:
  - `request_skybox` (src/skybox.rs:198-236): the API key, the HTTP send and the response parse;
  - `check_skybox_status` (src/skybox.rs:137-142): the API key and the send;
  - the page template's render (src/skybox.rs:177);
  - the MP3 directory listing that `SoundHandler` loads at start (src/bin/begin.rs:169-172);
  - the audio output device of the ElevenLabs handler (src/uberduck.rs:262-278).
- `Uberduck.SpeakRequest`: audio effects (reverb, pitch, stretch, normalisation) and the sink volumes are left out. The `expect` in `add_reverb` is treated as succeeding.
- `MusicVideo.UpdateObsSource`: a canonical path that is not valid UTF-8 is one case with any other canonicalisation failure.
