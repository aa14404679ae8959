/** The Twitch EventSub webhook (src/handlers/twitch_eventsub_handler.rs,
    `post_request`): answer the verification challenge, or dispatch a
    channel-point redemption to a scene change or to chat messages that
    trigger a music scene. The HTTP server, OBS and chat clients are left
    out; the reply lists the calls the handler makes. */
module EventSub {
  import opened Common

  /** The parts of the request body the handler reads. */
  datatype SubEvent = SubEvent(rewardTitle: Option<string>)
  datatype EventSubBody = EventSubBody(subscriptionType: string, event: Option<SubEvent>, challenge: Option<string>)

  /** A call whose own result the handler ignores. */
  datatype Action = ChangeScene(scene: string) | SendChat(message: string)

  /** The HTTP reply and the calls made before it, or a panic from slicing
      a music command that has no first character to drop, after the calls
      made before that command. */
  datatype Reply = Reply(status: nat, body: string, actions: seq<Action>) | Panicked(sent: seq<Action>)

  /** What the `VOICE_TO_MUSIC` scan sent, and whether it stopped on a
      command it could not slice. */
  datatype Scan = Scan(sent: seq<Action>, panicked: bool)

  const StatusOk: nat := 200
  const RedemptionType := "channel.channel_points_custom_reward_redemption.add"

  /** `&cmd[1..]` is defined when the command has a first character of one byte. */
  predicate CanDropFirst(cmd: string) {
    cmd != [] && Utf8CharLen(cmd[0]) == 1
  }

  /** The chat messages the `VOICE_TO_MUSIC` scan sends for a reward title,
      in table order, up to the first command it cannot slice. */
  function MusicMessages(title: string, commands: seq<string>): (r: Scan)
    ensures r.panicked <==> exists i | 0 <= i < |commands| :: !CanDropFirst(commands[i])
    ensures |r.sent| <= |commands|
    ensures forall a | a in r.sent :: a == SendChat("!" + title)
  {
    if commands == [] then Scan([], false)
    else if !CanDropFirst(commands[0]) then Scan([], true)
    else
      var rest := MusicMessages(title, commands[1..]);
      assert forall i | 1 <= i < |commands| :: commands[i] == commands[1..][i - 1];
      var here := if commands[0][1..] == title then [SendChat("!" + title)] else [];
      Scan(here + rest.sent, rest.panicked)
  }

  /** How many table commands name the title once their first character is dropped. */
  function CountMatches(title: string, commands: seq<string>): nat
    requires forall i | 0 <= i < |commands| :: CanDropFirst(commands[i])
  {
    if commands == [] then 0
    else
      assert CanDropFirst(commands[0]);
      (if commands[0][1..] == title then 1 else 0) + CountMatches(title, commands[1..])
  }

  /** `post_request` with the `VOICE_TO_MUSIC` commands. */
  function PostRequest(body: EventSubBody, musicCommands: seq<string>): (r: Reply)
    ensures r.Reply? ==> r.status == StatusOk
    ensures body.challenge.Some? ==> r == Reply(StatusOk, body.challenge.value, [])
    ensures body.challenge.None? && r.Reply? ==> r.body == ""
    ensures r.Panicked? <==>
      && body.challenge.None? && body.subscriptionType == RedemptionType
      && body.event.Some? && body.event.value.rewardTitle.Some?
      && body.event.value.rewardTitle.value != "gallery" && body.event.value.rewardTitle.value != "code"
      && exists i | 0 <= i < |musicCommands| :: !CanDropFirst(musicCommands[i])
  {
    match body.challenge
    case Some(challenge) => Reply(StatusOk, challenge, [])
    case None =>
      var scan :=
        if body.subscriptionType != RedemptionType || body.event.None? || body.event.value.rewardTitle.None? then Scan([], false)
        else
          var title := body.event.value.rewardTitle.value;
          if title == "gallery" then Scan([ChangeScene("4 Piece")], false)
          else if title == "code" then Scan([ChangeScene("Primary")], false)
          else MusicMessages(title, musicCommands);
      if scan.panicked then Panicked(scan.sent) else Reply(StatusOk, "", scan.sent)
  }

  /** `n` copies of one action. */
  function Repeat(a: Action, n: nat): (r: seq<Action>)
    ensures |r| == n && forall x | x in r :: x == a
  {
    if n == 0 then [] else [a] + Repeat(a, n - 1)
  }

  /** The scan sends "!{title}" once per matching command before the first
      command it cannot slice (or the end of the table), and panics exactly
      when it stopped at such a command. */
  lemma {:induction false} MusicMessagesCount(title: string, commands: seq<string>, stop: nat)
    requires stop <= |commands|
    requires forall i | 0 <= i < stop :: CanDropFirst(commands[i])
    requires stop == |commands| || !CanDropFirst(commands[stop])
    ensures MusicMessages(title, commands) ==
      Scan(Repeat(SendChat("!" + title), CountMatches(title, commands[..stop])), stop < |commands|)
  {
    var msg := SendChat("!" + title);
    if commands != [] && stop > 0 {
      assert CanDropFirst(commands[0]);
      assert forall i | 0 <= i < stop - 1 :: commands[1..][i] == commands[i + 1];
      MusicMessagesCount(title, commands[1..], stop - 1);
      assert commands[..stop][0] == commands[0] && commands[..stop][1..] == commands[1..][..stop - 1];
      if commands[0][1..] == title {
        assert Repeat(msg, CountMatches(title, commands[..stop])) == [msg] + Repeat(msg, CountMatches(title, commands[1..][..stop - 1]));
      } else {
        assert [] + Repeat(msg, CountMatches(title, commands[1..][..stop - 1])) == Repeat(msg, CountMatches(title, commands[..stop]));
      }
    }
  }

  /** Non-redemption subscriptions, a missing event and a missing reward only log. */
  lemma NonRedemptionsOnlyLog(body: EventSubBody, musicCommands: seq<string>)
    requires body.challenge.None?
    requires body.subscriptionType != RedemptionType || body.event.None? || body.event.value.rewardTitle.None?
    ensures PostRequest(body, musicCommands) == Reply(StatusOk, "", [])
  {
  }

  /** "gallery" switches to the "4 Piece" scene and "code" to "Primary",
      whatever the music table holds. */
  lemma SceneRewards(musicCommands: seq<string>)
    ensures PostRequest(EventSubBody(RedemptionType, Some(SubEvent(Some("gallery"))), None), musicCommands)
      == Reply(StatusOk, "", [ChangeScene("4 Piece")])
    ensures PostRequest(EventSubBody(RedemptionType, Some(SubEvent(Some("code"))), None), musicCommands)
      == Reply(StatusOk, "", [ChangeScene("Primary")])
  {
  }

  /** Any other reward sends "!{title}" once per table command that names
      it, so zero, one or several messages. */
  lemma MusicRewards(title: string, musicCommands: seq<string>)
    requires title != "gallery" && title != "code"
    requires forall i | 0 <= i < |musicCommands| :: CanDropFirst(musicCommands[i])
    ensures PostRequest(EventSubBody(RedemptionType, Some(SubEvent(Some(title))), None), musicCommands)
      == Reply(StatusOk, "", Repeat(SendChat("!" + title), CountMatches(title, musicCommands)))
  {
    assert musicCommands[..|musicCommands|] == musicCommands;
    MusicMessagesCount(title, musicCommands, |musicCommands|);
  }

  /** A command that cannot be sliced panics the handler, after the
      "!{title}" messages of the matching commands before it were sent. */
  lemma MusicRewardPanics(title: string, musicCommands: seq<string>, stop: nat)
    requires title != "gallery" && title != "code"
    requires stop < |musicCommands| && !CanDropFirst(musicCommands[stop])
    requires forall i | 0 <= i < stop :: CanDropFirst(musicCommands[i])
    ensures PostRequest(EventSubBody(RedemptionType, Some(SubEvent(Some(title))), None), musicCommands)
      == Panicked(Repeat(SendChat("!" + title), CountMatches(title, musicCommands[..stop])))
  {
    MusicMessagesCount(title, musicCommands, stop);
  }
}
