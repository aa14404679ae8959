/** The text shaping and voice selection of the text-to-speech handler
    (src/uberduck.rs): speech-bubble line breaking, audio-file naming,
    chat sanitising before synthesis, and the choice of voice for one
    ElevenLabs request. */
module Uberduck {
  import opened Common
  import opened Events

  // =====================================================================
  // chop_text
  // =====================================================================

  /** Characters added to the line-length limit after every inserted break. */
  const LineLengthModifier: nat := 20
  /** The line-length limit before any break has been inserted. */
  const InitialLineLengthLimit: nat := 20

  /** The text from index `i` on, as `chop_text` leaves it when it reaches
      `i` with line-length limit `limit`. */
  function ChopFrom(s: string, i: nat, limit: nat): string
    requires i <= |s|
    decreases |s| - i
  {
    if i == |s| then []
    else if s[i] == ' ' && i > limit then ['\n'] + ChopFrom(s, i + 1, limit + LineLengthModifier)
    else [s[i]] + ChopFrom(s, i + 1, limit)
  }

  /** What `chop_text` returns. */
  function Chopped(s: string): string {
    ChopFrom(s, 0, InitialLineLengthLimit)
  }

  /** Walks the spaces of the text left to right and turns each one that
      lies past the current limit into a line break, raising the limit by
      20 after each break. */
  method ChopText(startingText: string) returns (sealText: string)
    ensures sealText == Chopped(startingText)
  {
    sealText := startingText;
    var lineLengthLimit: nat := InitialLineLengthLimit;
    var i := 0;
    while i < |startingText|
      invariant 0 <= i <= |startingText|
      invariant |sealText| == |startingText|
      invariant forall k | i <= k < |startingText| :: sealText[k] == startingText[k]
      invariant sealText[..i] + ChopFrom(startingText, i, lineLengthLimit) == Chopped(startingText)
    {
      ghost var rest := ChopFrom(startingText, i, lineLengthLimit);
      if startingText[i] == ' ' && i > lineLengthLimit {
        sealText := sealText[i := '\n'];
        lineLengthLimit := lineLengthLimit + LineLengthModifier;
      }
      assert rest == [sealText[i]] + ChopFrom(startingText, i + 1, lineLengthLimit);
      assert sealText[..i + 1] == sealText[..i] + [sealText[i]];
      ConcatAssoc(sealText[..i], [sealText[i]], ChopFrom(startingText, i + 1, lineLengthLimit));
      i := i + 1;
    }
    assert sealText[..i] == sealText;
  }

  /** Number of positions at which two equally long texts differ. */
  function CountDiff(a: string, b: string): nat
    requires |a| == |b|
  {
    if a == [] then 0 else (if a[0] != b[0] then 1 else 0) + CountDiff(a[1..], b[1..])
  }

  lemma {:induction false} ChopFromShape(s: string, i: nat, limit: nat)
    requires i <= |s|
    ensures |ChopFrom(s, i, limit)| == |s| - i
    ensures forall j | i <= j < |s| ::
      ChopFrom(s, i, limit)[j - i] == s[j] || (s[j] == ' ' && ChopFrom(s, i, limit)[j - i] == '\n')
    decreases |s| - i
  {
    if i < |s| {
      var replaced := s[i] == ' ' && i > limit;
      var next := if replaced then limit + LineLengthModifier else limit;
      var t := ChopFrom(s, i, limit);
      var t' := ChopFrom(s, i + 1, next);
      assert t == [if replaced then '\n' else s[i]] + t';
      ChopFromShape(s, i + 1, next);
      forall j | i <= j < |s|
        ensures t[j - i] == s[j] || (s[j] == ' ' && t[j - i] == '\n')
      {
        if j > i {
          assert t[j - i] == t'[j - (i + 1)];
        }
      }
    }
  }

  /** The replacement rule, from position `i` on: a character changes
      exactly when it is a space lying beyond the limit raised by 20 for
      every change already made since `i`. */
  lemma {:induction false} ChopFromRule(s: string, i: nat, limit: nat)
    requires i <= |s|
    ensures |ChopFrom(s, i, limit)| == |s| - i
    ensures forall j | i <= j < |s| ::
      (ChopFrom(s, i, limit)[j - i] != s[j] <==>
        s[j] == ' ' && j > limit + LineLengthModifier * CountDiff(s[i..j], ChopFrom(s, i, limit)[..j - i]))
    decreases |s| - i
  {
    ChopFromShape(s, i, limit);
    if i < |s| {
      var t := ChopFrom(s, i, limit);
      var replaced := s[i] == ' ' && i > limit;
      var next := if replaced then limit + LineLengthModifier else limit;
      var t' := ChopFrom(s, i + 1, next);
      assert t == [if replaced then '\n' else s[i]] + t';
      ChopFromRule(s, i + 1, next);
      forall j | i <= j < |s|
        ensures t[j - i] != s[j] <==> s[j] == ' ' && j > limit + LineLengthModifier * CountDiff(s[i..j], t[..j - i])
      {
        if j == i {
          assert s[i..j] == [];
        } else {
          assert s[i..j][1..] == s[i + 1..j];
          assert t[..j - i][1..] == t'[..j - (i + 1)];
          assert CountDiff(s[i..j], t[..j - i])
              == (if replaced then 1 else 0) + CountDiff(s[i + 1..j], t'[..j - (i + 1)]);
        }
      }
    }
  }

  /** `chop_text` keeps the length, and only spaces change, each into a line break. */
  lemma ChopTextShape(s: string)
    ensures |Chopped(s)| == |s|
    ensures forall j | 0 <= j < |s| :: Chopped(s)[j] == s[j] || (s[j] == ' ' && Chopped(s)[j] == '\n')
  {
    ChopFromShape(s, 0, InitialLineLengthLimit);
  }

  /** Position `j` is replaced exactly when it holds a space and lies beyond
      20 * (k + 1), where k is the number of replacements before `j`: so no
      space at an index up to 20 changes, and the k-th replaced space lies
      beyond 20 * k. */
  lemma ChopTextRule(s: string)
    ensures |Chopped(s)| == |s|
    ensures forall j | 0 <= j < |s| ::
      (Chopped(s)[j] != s[j] <==> s[j] == ' ' && j > 20 * (CountDiff(s[..j], Chopped(s)[..j]) + 1))
    ensures forall j | 0 <= j < |s| && j <= 20 :: Chopped(s)[j] == s[j]
  {
    ChopFromRule(s, 0, InitialLineLengthLimit);
    forall j | 0 <= j < |s|
      ensures Chopped(s)[j] != s[j] <==> s[j] == ' ' && j > 20 * (CountDiff(s[..j], Chopped(s)[..j]) + 1)
    {
      assert s[0..j] == s[..j];
    }
  }

  // =====================================================================
  // add_postfix_to_filepath
  // =====================================================================

  /** Inserts `postfix` just before the last '.' of the path (the extension). */
  function AddPostfixToFilepath(filepath: string, postfix: string): (r: string)
    ensures '.' !in filepath ==> r == filepath
    ensures '.' in filepath ==> |r| == |filepath| + |postfix|
  {
    match LastIndexOf(filepath, '.')
    case Some(index) => filepath[..index] + postfix + filepath[index..]
    case None => filepath
  }

  /** When `i` is the last '.', the postfix lands exactly at `i`: the part
      before it and the extension are kept, and cutting the postfix out
      again gives back the original path. */
  lemma PostfixBeforeLastDot(filepath: string, postfix: string, i: nat)
    requires i < |filepath| && filepath[i] == '.' && '.' !in filepath[i + 1..]
    ensures AddPostfixToFilepath(filepath, postfix) == filepath[..i] + postfix + filepath[i..]
    ensures var r := AddPostfixToFilepath(filepath, postfix);
      r[..i] + r[i + |postfix|..] == filepath
  {
    assert LastIndexOf(filepath, '.') == Some(i);
    var r := filepath[..i] + postfix + filepath[i..];
    assert r[..i] == filepath[..i];
    assert r[i + |postfix|..] == filepath[i..];
    assert filepath == filepath[..i] + filepath[i..];
  }

  // =====================================================================
  // sanitize_chat_message
  // =====================================================================

  /** Words longer than this many bytes are not spoken. */
  const LongWordLimit: nat := 50

  /** The two `map` steps applied to one word. */
  function SanitizeWord(word: string): string {
    var w := if Contains(word, "http") then "U.R.L" else word;
    if Utf8Len(w) > LongWordLimit then "long word" else w
  }

  function SanitizeWords(words: seq<string>): (r: seq<string>)
    ensures |r| == |words|
  {
    if words == [] then [] else [SanitizeWord(words[0])] + SanitizeWords(words[1..])
  }

  /** `sanitize_chat_message`: split on whitespace, sanitise each word, join with single spaces. */
  function SanitizeChatMessage(rawMsg: string): string {
    Join(SanitizeWords(SplitWhitespace(rawMsg)), " ")
  }

  /** The words a sanitised word reads as once joined: "long word" is two. */
  function WordTokens(word: string): seq<string> {
    if Contains(word, "http") then ["U.R.L"]
    else if Utf8Len(word) > LongWordLimit then ["long", "word"]
    else [word]
  }

  function TokensOf(words: seq<string>): seq<string> {
    if words == [] then [] else WordTokens(words[0]) + TokensOf(words[1..])
  }

  /** The replacement words are themselves clean single tokens. */
  lemma UrlTokenFacts()
    ensures !Contains("U.R.L", "http") && Utf8Len("U.R.L") == 5 && IsToken("U.R.L")
  {
    assert !StartsWith("U.R.L", "http") by { assert "U.R.L"[0] != 'h'; }
    assert "U.R.L"[1..] == ".R.L";
    assert !StartsWith(".R.L", "http") by { assert ".R.L"[0] != 'h'; }
    assert ".R.L"[1..] == "R.L";
    ShortHayLacksNeedle("R.L", "http");
    AsciiUtf8Len("U.R.L");
  }

  lemma LongTokenFacts()
    ensures !Contains("long", "http") && Utf8Len("long") == 4 && IsToken("long")
  {
    assert !StartsWith("long", "http") by { assert "long"[0] != 'h'; }
    assert "long"[1..] == "ong";
    ShortHayLacksNeedle("ong", "http");
    AsciiUtf8Len("long");
  }

  lemma WordTokenFacts()
    ensures !Contains("word", "http") && Utf8Len("word") == 4 && IsToken("word")
  {
    assert !StartsWith("word", "http") by { assert "word"[0] != 'h'; }
    assert "word"[1..] == "ord";
    ShortHayLacksNeedle("ord", "http");
    AsciiUtf8Len("word");
  }

  /** Sanitising a word and joining gives the same text as joining its tokens. */
  lemma WordTokensJoin(word: string)
    requires IsToken(word)
    ensures Join(WordTokens(word), " ") == SanitizeWord(word)
    ensures WordTokens(word) != []
    ensures forall t | t in WordTokens(word) :: IsToken(t) && !Contains(t, "http") && Utf8Len(t) <= LongWordLimit
  {
    if Contains(word, "http") {
      UrlTokenFacts();
      assert WordTokens(word) == ["U.R.L"];
    } else if Utf8Len(word) > LongWordLimit {
      LongTokenFacts();
      WordTokenFacts();
      assert WordTokens(word) == ["long", "word"];
      assert Join(["long", "word"], " ") == "long" + " " + "word";
    } else {
      assert WordTokens(word) == [word];
    }
  }

  lemma {:induction false} SanitizedIsJoinOfTokens(words: seq<string>)
    requires forall w | w in words :: IsToken(w)
    ensures Join(SanitizeWords(words), " ") == Join(TokensOf(words), " ")
    ensures TokensOf(words) == [] <==> words == []
    decreases |words|
  {
    if words != [] {
      assert words[0] in words;
      WordTokensJoin(words[0]);
      SanitizedIsJoinOfTokens(words[1..]);
      if |words| > 1 {
        JoinAppend(WordTokens(words[0]), TokensOf(words[1..]), " ");
        assert SanitizeWords(words) == [SanitizeWord(words[0])] + SanitizeWords(words[1..]);
      } else {
        assert TokensOf(words) == WordTokens(words[0]) + [];
      }
    }
  }

  /** Every token the sanitised words are made of is clean. */
  lemma {:induction false} TokensAreClean(words: seq<string>)
    requires forall w | w in words :: IsToken(w)
    ensures forall t | t in TokensOf(words) :: IsToken(t) && !Contains(t, "http") && Utf8Len(t) <= LongWordLimit
    decreases |words|
  {
    if words != [] {
      assert words[0] in words;
      WordTokensJoin(words[0]);
      TokensAreClean(words[1..]);
    }
  }

  /** A token that needs no replacement is left as it is. */
  lemma {:induction false} CleanTokensUnchanged(ts: seq<string>)
    requires forall t | t in ts :: !Contains(t, "http") && Utf8Len(t) <= LongWordLimit
    ensures SanitizeWords(ts) == ts
    decreases |ts|
  {
    if ts != [] {
      assert ts[0] in ts;
      CleanTokensUnchanged(ts[1..]);
    }
  }

  /** The spoken text has no leading or trailing whitespace, none of its
      words mentions "http", it is made of the sanitised words in order,
      and sanitising it again changes nothing. */
  lemma SanitizeProperties(rawMsg: string)
    ensures var r := SanitizeChatMessage(rawMsg);
      r != [] ==> !IsWhitespace(r[0]) && !IsWhitespace(r[|r| - 1])
    ensures SplitWhitespace(SanitizeChatMessage(rawMsg)) == TokensOf(SplitWhitespace(rawMsg))
    ensures forall w | w in SplitWhitespace(SanitizeChatMessage(rawMsg)) :: !Contains(w, "http")
    ensures SanitizeChatMessage(SanitizeChatMessage(rawMsg)) == SanitizeChatMessage(rawMsg)
  {
    var tokens := TokensOf(SplitWhitespace(rawMsg));
    SanitizedIsJoinOfTokens(SplitWhitespace(rawMsg));
    TokensAreClean(SplitWhitespace(rawMsg));
    JoinTokensTrimmed(tokens);
    SplitJoinTokens(tokens);
    CleanTokensUnchanged(tokens);
  }

  // =====================================================================
  // find_voice_id_by_name
  // =====================================================================

  /** An entry of the voices file. */
  datatype ElevenlabsVoice = ElevenlabsVoice(voiceId: string, name: string)

  predicate NameMatches(voice: ElevenlabsVoice, name: string) {
    ToLower(voice.name) == ToLower(name)
  }

  /** The first voice whose name matches ignoring case, as (voice_id, stored name). */
  function FirstVoiceMatch(name: string, voices: seq<ElevenlabsVoice>): Option<(string, string)> {
    if voices == [] then None
    else if NameMatches(voices[0], name) then Some((voices[0].voiceId, voices[0].name))
    else FirstVoiceMatch(name, voices[1..])
  }

  lemma {:induction false} FirstVoiceMatchIsFirst(name: string, voices: seq<ElevenlabsVoice>)
    ensures FirstVoiceMatch(name, voices).None? <==>
      forall i | 0 <= i < |voices| :: !NameMatches(voices[i], name)
    ensures FirstVoiceMatch(name, voices).Some? ==>
      exists i | 0 <= i < |voices| ::
        NameMatches(voices[i], name)
        && (forall k | 0 <= k < i :: !NameMatches(voices[k], name))
        && FirstVoiceMatch(name, voices).value == (voices[i].voiceId, voices[i].name)
  {
    if voices != [] && !NameMatches(voices[0], name) {
      FirstVoiceMatchIsFirst(name, voices[1..]);
      if FirstVoiceMatch(name, voices[1..]).Some? {
        var i :| 0 <= i < |voices[1..]| && NameMatches(voices[1..][i], name)
          && (forall k | 0 <= k < i :: !NameMatches(voices[1..][k], name))
          && FirstVoiceMatch(name, voices[1..]).value == (voices[1..][i].voiceId, voices[1..][i].name);
        assert forall k | 0 <= k < i + 1 :: !NameMatches(voices[k], name) by {
          forall k | 0 <= k < i + 1 ensures !NameMatches(voices[k], name) {
            if k > 0 { assert voices[k] == voices[1..][k - 1]; }
          }
        }
      } else {
        forall i | 0 <= i < |voices| ensures !NameMatches(voices[i], name) {
          if i > 0 { assert voices[i] == voices[1..][i - 1]; }
        }
      }
    }
  }

  /** Scans the voice list and returns at the first case-insensitive name match. */
  method FindVoiceIdByName(name: string, voices: seq<ElevenlabsVoice>) returns (r: Option<(string, string)>)
    ensures r == FirstVoiceMatch(name, voices)
  {
    var nameLowercase := ToLower(name);
    var i := 0;
    while i < |voices|
      invariant 0 <= i <= |voices|
      invariant FirstVoiceMatch(name, voices) == FirstVoiceMatch(name, voices[i..])
    {
      assert voices[i..][1..] == voices[i + 1..];
      if ToLower(voices[i].name) == nameLowercase {
        return Some((voices[i].voiceId, voices[i].name));
      }
      i := i + 1;
    }
    return None;
  }

  // =====================================================================
  // ElevenLabsHandler::handle: gate and voice resolution
  // =====================================================================

  /** The voice used for everyone in global-voice mode when beginbot has none stored. */
  const DefaultGlobalVoice := "ethan"

  /** Requests whose text is empty or starts with '!' or '@' are not spoken. */
  predicate IsSpeakable(message: string) {
    message != [] && message[0] != '!' && message[0] != '@'
  }

  /** What the database lookups of one request return: the stream state's
      global-voice flag (None when the lookup failed), beginbot's stored
      voice and the requesting user's stored voice (None when not found). */
  datatype VoiceLookups = VoiceLookups(globalVoiceFlag: Option<bool>, beginbotVoice: Option<string>, userVoice: Option<string>)

  /** A failed stream-state lookup counts as global mode off. */
  predicate GlobalVoiceEnabled(lookups: VoiceLookups) {
    lookups.globalVoiceFlag == Some(true)
  }

  function GlobalVoice(lookups: VoiceLookups): string {
    lookups.beginbotVoice.GetOr(DefaultGlobalVoice)
  }

  /** The `final_voice` of a request. */
  function ResolveVoice(requested: Option<string>, lookups: VoiceLookups): (r: string)
    ensures requested.Some? ==> r == requested.value
    ensures requested.None? && GlobalVoiceEnabled(lookups) ==> r == GlobalVoice(lookups)
    ensures requested.None? && !GlobalVoiceEnabled(lookups) ==> r == lookups.userVoice.GetOr(GlobalVoice(lookups))
    ensures r == DefaultGlobalVoice || (requested.Some? && r == requested.value)
      || (lookups.beginbotVoice.Some? && r == lookups.beginbotVoice.value)
      || (lookups.userVoice.Some? && r == lookups.userVoice.value)
  {
    match requested
    case Some(voice) => voice
    case None =>
      if GlobalVoiceEnabled(lookups) then GlobalVoice(lookups)
      else match lookups.userVoice
        case Some(userVoice) => userVoice
        case None => GlobalVoice(lookups)
  }

  function BoolText(b: bool): string {
    if b then "true" else "false"
  }

  /** `twitch_chat_filename`: "{timestamp}_{username}_{voice}". */
  function TwitchChatFilename(timestamp: string, username: string, voice: string): string {
    timestamp + "_" + username + "_" + voice
  }

  /** What the handler decides for one spoken request. */
  datatype SpeechPlan = SpeechPlan(
    finalVoice: string,
    filename: string,
    text: string,
    isRandom: bool,
    voiceId: string,
    voiceName: string,
    onscreenMessage: string)

  /** The environment of one request: the lookups; the voices file, None
      when it cannot be read or parsed (both readers `expect` it); the index
      a random pick lands on; the clock; and whether synthesis, writing the
      audio file, reopening it and decoding it succeed. */
  datatype SpeechEnv = SpeechEnv(
    lookups: VoiceLookups,
    voices: Option<seq<ElevenlabsVoice>>,
    randomPick: nat,
    timestamp: string,
    ttsOk: bool,
    writeOk: bool,
    openOk: bool,
    decodeOk: bool)

  /** What the loop body decides before synthesis: skip the request, panic
      in a voice-file reader, or speak. */
  datatype Decision = Skip | ReaderPanic | Speak(plan: SpeechPlan)

  /** The entry `find_random_voice` picks from a non-empty list. */
  function RandomVoice(voices: seq<ElevenlabsVoice>, pick: nat): (v: ElevenlabsVoice)
    requires voices != []
    ensures v in voices
  {
    voices[pick % |voices|]
  }

  /** The decision part of the handler's loop body for one request. A voice
      file that cannot be read panics the lookup; one with no matching entry
      falls back to a random pick, which panics on an empty list. */
  function PlanSpeech(request: ElevenLabsRequest, env: SpeechEnv): (d: Decision)
    ensures d.Skip? <==> !IsSpeakable(request.message)
    ensures d.ReaderPanic? <==> IsSpeakable(request.message) && (env.voices.None? || env.voices.value == [])
    ensures d.Speak? ==>
      && d.plan.finalVoice == ResolveVoice(request.voice, env.lookups)
      && d.plan.text == SanitizeChatMessage(request.message)
      && d.plan.filename == TwitchChatFilename(env.timestamp, request.username, d.plan.finalVoice)
      && (d.plan.isRandom <==> FirstVoiceMatch(d.plan.finalVoice, env.voices.value).None?)
      && ElevenlabsVoice(d.plan.voiceId, d.plan.voiceName) in env.voices.value
      && d.plan.onscreenMessage == request.username + " | g: " + BoolText(GlobalVoiceEnabled(env.lookups))
                                   + " | r: " + BoolText(d.plan.isRandom) + " | " + d.plan.voiceName
  {
    if !IsSpeakable(request.message) then Skip
    else if env.voices.None? then ReaderPanic
    else
      var voices := env.voices.value;
      var finalVoice := ResolveVoice(request.voice, env.lookups);
      var found := FirstVoiceMatch(finalVoice, voices);
      FirstVoiceMatchIsFirst(finalVoice, voices);
      if found.None? && voices == [] then ReaderPanic
      else
        var isRandom := found.None?;
        var (voiceId, voiceName) :=
          if isRandom then (RandomVoice(voices, env.randomPick).voiceId, RandomVoice(voices, env.randomPick).name)
          else found.value;
        Speak(SpeechPlan(
          finalVoice,
          TwitchChatFilename(env.timestamp, request.username, finalVoice),
          SanitizeChatMessage(request.message),
          isRandom,
          voiceId,
          voiceName,
          request.username + " | g: " + BoolText(GlobalVoiceEnabled(env.lookups))
            + " | r: " + BoolText(isRandom) + " | " + voiceName))
  }

  /** What one request leads to: the events published and whether the
      handler panicked. */
  datatype Spoken = Spoken(events: seq<Event>, panicked: bool)

  /** The events the handler publishes for one request, given the name of
      the soundboard text source: the on-screen caption once the audio is
      on disk, and a clearing caption after playback. A failed synthesis,
      write or reopen moves on to the next request; audio that does not
      decode panics after the caption. */
  function SpeakRequest(request: ElevenLabsRequest, env: SpeechEnv, soundboardTextSource: string): (s: Spoken)
    ensures var d := PlanSpeech(request, env);
      && (s.panicked <==> d.ReaderPanic? || (d.Speak? && env.ttsOk && env.writeOk && env.openOk && !env.decodeOk))
      && (s.events != [] <==> d.Speak? && env.ttsOk && env.writeOk)
      && (s.events != [] ==> s.events[0] == TransformOBSTextRequest(d.plan.onscreenMessage, soundboardTextSource))
      && (|s.events| <= 2)
      && (|s.events| == 2 <==> d.Speak? && env.ttsOk && env.writeOk && env.openOk && env.decodeOk)
      && (|s.events| == 2 ==> s.events[1] == TransformOBSTextRequest("", soundboardTextSource))
  {
    match PlanSpeech(request, env)
    case Skip => Spoken([], false)
    case ReaderPanic => Spoken([], true)
    case Speak(plan) =>
      if !env.ttsOk || !env.writeOk then Spoken([], false)
      else
        var caption := [TransformOBSTextRequest(plan.onscreenMessage, soundboardTextSource)];
        if !env.openOk then Spoken(caption, false)
        else if !env.decodeOk then Spoken(caption, true)
        else Spoken(caption + [TransformOBSTextRequest("", soundboardTextSource)], false)
  }

  /** Unspeakable requests are dropped before any lookup: nothing about the
      environment can change the outcome. */
  lemma GateComesFirst(request: ElevenLabsRequest, env1: SpeechEnv, env2: SpeechEnv, source: string)
    requires !IsSpeakable(request.message)
    ensures PlanSpeech(request, env1) == PlanSpeech(request, env2) == Skip
    ensures SpeakRequest(request, env1, source) == Spoken([], false)
  {
  }

  /** The voice spoken with is the first entry whose name matches the
      resolved voice ignoring case; the random pick happens exactly when no
      entry matches. */
  lemma PlanSpeechFacts(request: ElevenLabsRequest, env: SpeechEnv)
    requires PlanSpeech(request, env).Speak?
    ensures var plan := PlanSpeech(request, env).plan;
      var voices := env.voices.value;
      && (plan.isRandom <==> forall i | 0 <= i < |voices| :: !NameMatches(voices[i], plan.finalVoice))
      && (!plan.isRandom ==> exists i | 0 <= i < |voices| ::
            && NameMatches(voices[i], plan.finalVoice)
            && (forall k | 0 <= k < i :: !NameMatches(voices[k], plan.finalVoice))
            && plan.voiceId == voices[i].voiceId && plan.voiceName == voices[i].name)
  {
    var finalVoice := ResolveVoice(request.voice, env.lookups);
    FirstVoiceMatchIsFirst(finalVoice, env.voices.value);
  }
}
