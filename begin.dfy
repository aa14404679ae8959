/** The event handlers of the bot's main binary (src/bin/begin.rs). Each
    handler is a loop over the broadcast receiver: `rx.recv().await?` hands
    it the next event or returns the receive error, which ends the
    handler. The receive results are a finite sequence; when it runs out
    with no error the handler is still waiting. OBS calls are named by what
    the handler asks for; the database lookups are parameters. */
module Begin {
  import opened Common
  import opened Events
  import Uberduck
  import ObsRouting

  // ---------------------------------------------------------------------
  // Receiving
  // ---------------------------------------------------------------------

  /** The events a handler gets before `rx.recv().await?` returns an error. */
  function EventsBeforeError(recvs: seq<Recv>): (evs: seq<Event>)
    ensures |evs| <= |recvs|
  {
    if recvs == [] || !recvs[0].Received? then []
    else [recvs[0].event] + EventsBeforeError(recvs[1..])
  }

  /** The handler sees exactly the events of the receive results before the
      first error, unchanged and in order. */
  lemma {:induction false} EventsBeforeErrorPrefix(recvs: seq<Recv>)
    ensures var evs := EventsBeforeError(recvs);
      && (forall k | 0 <= k < |evs| :: recvs[k] == Received(evs[k]))
      && (|evs| < |recvs| ==> !recvs[|evs|].Received?)
  {
    if recvs != [] && recvs[0].Received? {
      EventsBeforeErrorPrefix(recvs[1..]);
    }
  }

  /** One more event received. */
  lemma EventsStep(recvs: seq<Recv>, i: nat)
    requires i < |recvs| && recvs[i].Received?
    ensures EventsBeforeError(recvs[i..]) == [recvs[i].event] + EventsBeforeError(recvs[i + 1..])
  {
    assert recvs[i..][1..] == recvs[i + 1..];
  }

  /** Nothing received after the first `Lagged` or `Closed` reaches a handler. */
  lemma {:induction false} ReceiveErrorEnds(before: seq<Recv>, err: Recv, after: seq<Recv>)
    requires forall k | 0 <= k < |before| :: before[k].Received?
    requires !err.Received?
    ensures |EventsBeforeError(before + [err] + after)| == |before|
    ensures forall k | 0 <= k < |before| :: EventsBeforeError(before + [err] + after)[k] == before[k].event
  {
    if before != [] {
      assert (before + [err] + after)[1..] == before[1..] + [err] + after;
      ReceiveErrorEnds(before[1..], err, after);
    }
  }

  /** How a loop that may stop early went: what it produced, and whether it
      stopped by returning an error. */
  datatype Run<T> = Run(out: seq<T>, stopped: bool)

  /** The events received before the first receive error, each with what
      the outside world answers while the handler deals with it:
      `worlds[k]` goes with `recvs[k]`. */
  function Handled<W>(recvs: seq<Recv>, worlds: seq<W>): (hs: seq<(Event, W)>)
    requires |worlds| == |recvs|
    ensures |hs| == |EventsBeforeError(recvs)|
  {
    if recvs == [] || !recvs[0].Received? then []
    else [(recvs[0].event, worlds[0])] + Handled(recvs[1..], worlds[1..])
  }

  /** The k-th event handled is the k-th received, with the k-th world. */
  lemma {:induction false} HandledPairs<W>(recvs: seq<Recv>, worlds: seq<W>)
    requires |worlds| == |recvs|
    ensures forall k | 0 <= k < |Handled(recvs, worlds)| :: Handled(recvs, worlds)[k] == (EventsBeforeError(recvs)[k], worlds[k])
  {
    if recvs != [] && recvs[0].Received? {
      HandledPairs(recvs[1..], worlds[1..]);
      var hs := Handled(recvs, worlds);
      assert forall k | 1 <= k < |hs| :: hs[k] == Handled(recvs[1..], worlds[1..])[k - 1];
    }
  }

  /** One more event received, with its world. */
  lemma HandledStep<W>(recvs: seq<Recv>, worlds: seq<W>, i: nat)
    requires |worlds| == |recvs| && i < |recvs| && recvs[i].Received?
    ensures Handled(recvs[i..], worlds[i..]) == [(recvs[i].event, worlds[i])] + Handled(recvs[i + 1..], worlds[i + 1..])
  {
    assert recvs[i..][1..] == recvs[i + 1..];
    assert worlds[i..][1..] == worlds[i + 1..];
  }

  // ---------------------------------------------------------------------
  // The small handlers
  // ---------------------------------------------------------------------

  /** The four handlers that forward one event variant to OBS. */
  datatype Handler = SourceVisibility | StreamCharacter | TriggerHotkey | TransformOBSText

  /** The OBS call a handler makes for its event. */
  datatype HandlerCall =
    | SetEnabled(scene: string, source: string, enabled: bool)
    | TriggerCharacterFilters(source: string, enabled: bool)
    | TriggerHotkeyCall(hotkey: string)
    | TextMove(textSource: string, filterName: string, text: string)

  const TransformPrefix := "Transform"

  /** The call handler `h` makes for event `e`, or None for the variants it
      skips with `continue`. */
  function Select(h: Handler, e: Event): (c: Option<HandlerCall>)
  {
    if h.SourceVisibility? && e.SourceVisibilityRequest? then Some(SetEnabled(e.scene, e.visibilitySource, e.enabled))
    else if h.StreamCharacter? && e.StreamCharacterRequest? then Some(TriggerCharacterFilters(e.characterSource, e.enabled))
    else if h.TriggerHotkey? && e.TriggerHotkeyRequest? then Some(TriggerHotkeyCall(e.hotkey))
    else if h.TransformOBSText? && e.TransformOBSTextRequest? then Some(TextMove(e.textSource, TransformPrefix + e.textSource, e.message))
    else None
  }

  /** Each handler makes a call exactly for its own event variant. */
  lemma SelectMatches(h: Handler, e: Event)
    ensures Select(h, e).Some? <==> match h
      case SourceVisibility => e.SourceVisibilityRequest?
      case StreamCharacter => e.StreamCharacterRequest?
      case TriggerHotkey => e.TriggerHotkeyRequest?
      case TransformOBSText => e.TransformOBSTextRequest?
  {
  }

  /** The text handler moves the text through the filter "Transform" ++ the
      text source, on that same source. */
  lemma TransformFilterName(message: string, textSource: string)
    ensures var c := Select(TransformOBSText, TransformOBSTextRequest(message, textSource)).value;
      && c.textSource == textSource && c.text == message
      && c.filterName[..|TransformPrefix|] == TransformPrefix && c.filterName[|TransformPrefix|..] == textSource
  {
  }

  /** The calls handler `h` makes for one event: none or one. */
  function CallOf(h: Handler, e: Event): (calls: seq<HandlerCall>)
    ensures |calls| <= 1
  {
    if Select(h, e).Some? then [Select(h, e).value] else []
  }

  /** The calls handler `h` makes for the events, in order. */
  function CallsFor(h: Handler, evs: seq<Event>): (calls: seq<HandlerCall>)
    ensures |calls| <= |evs|
  {
    if evs == [] then [] else CallOf(h, evs[0]) + CallsFor(h, evs[1..])
  }

  lemma {:induction false} CallsForAppend(h: Handler, a: seq<Event>, b: seq<Event>)
    ensures CallsFor(h, a + b) == CallsFor(h, a) + CallsFor(h, b)
  {
    if a == [] {
      assert a + b == b;
    } else {
      assert (a + b)[0] == a[0] && (a + b)[1..] == a[1..] + b;
      CallsForAppend(h, a[1..], b);
    }
  }

  /** An event of a variant the handler does not match changes nothing: the
      loop just goes on to the next one. */
  lemma SkipsOtherVariants(h: Handler, before: seq<Event>, e: Event, after: seq<Event>)
    requires Select(h, e).None?
    ensures CallsFor(h, before + [e] + after) == CallsFor(h, before + after)
  {
    CallsForAppend(h, before + [e], after);
    CallsForAppend(h, before, [e]);
    CallsForAppend(h, before, after);
    assert CallsFor(h, [e]) == [] + CallsFor(h, []);
  }

  /** One more event received: its call, if any, comes first. */
  lemma ForwardStep(h: Handler, recvs: seq<Recv>, i: nat)
    requires i < |recvs| && recvs[i].Received?
    ensures CallsFor(h, EventsBeforeError(recvs[i..])) == CallOf(h, recvs[i].event) + CallsFor(h, EventsBeforeError(recvs[i + 1..]))
  {
    EventsStep(recvs, i);
  }

  /** The source-visibility, stream-character and text handlers: each call's
      own result is ignored (`let _ =`), so only a receive error ends them.
      Returns the calls made and whether the handler returned. */
  method RunForwarding(h: Handler, recvs: seq<Recv>) returns (calls: seq<HandlerCall>, ended: bool)
    requires h != TriggerHotkey
    ensures calls == CallsFor(h, EventsBeforeError(recvs))
    ensures ended <==> exists k | 0 <= k < |recvs| :: !recvs[k].Received?
  {
    calls := [];
    var i := 0;
    while i < |recvs| && recvs[i].Received?
      invariant 0 <= i <= |recvs|
      invariant forall k | 0 <= k < i :: recvs[k].Received?
      invariant calls + CallsFor(h, EventsBeforeError(recvs[i..])) == CallsFor(h, EventsBeforeError(recvs))
    {
      ForwardStep(h, recvs, i);
      ConcatAssoc(calls, CallOf(h, recvs[i].event), CallsFor(h, EventsBeforeError(recvs[i + 1..])));
      calls := calls + CallOf(h, recvs[i].event);
      i := i + 1;
    }
    assert EventsBeforeError(recvs[i..]) == [];
    ended := i < |recvs|;
  }


  // ---------------------------------------------------------------------
  // TriggerHotkeyHandler
  // ---------------------------------------------------------------------

  /** The hotkeys triggered, given with each event whether triggering
      succeeds there, up to and including the first failure, which `?`
      returns from the handler. */
  function HotkeyRun(items: seq<(Event, bool)>): (r: Run<string>)
    ensures |r.out| <= |items|
  {
    if items == [] then Run([], false)
    else
      var rest := HotkeyRun(items[1..]);
      var e := items[0].0;
      if e.TriggerHotkeyRequest? then
        if !items[0].1 then Run([e.hotkey], true) else Run([e.hotkey] + rest.out, rest.stopped)
      else rest
  }

  /** The hotkey requests among the events, in order, each with whether
      triggering it succeeds. */
  function HotkeyRequests(items: seq<(Event, bool)>): (reqs: seq<(string, bool)>)
    ensures |reqs| <= |items|
  {
    if items == [] then []
    else (if items[0].0.TriggerHotkeyRequest? then [(items[0].0.hotkey, items[0].1)] else []) + HotkeyRequests(items[1..])
  }

  /** Triggering the requested hotkeys in order, stopping after the first
      that fails. */
  function TriggerUntilFailure(reqs: seq<(string, bool)>): (r: Run<string>)
    ensures |r.out| <= |reqs|
  {
    if reqs == [] then Run([], false)
    else if !reqs[0].1 then Run([reqs[0].0], true)
    else
      var rest := TriggerUntilFailure(reqs[1..]);
      Run([reqs[0].0] + rest.out, rest.stopped)
  }

  /** The handler triggers the hotkey requests among the events, in order,
      until the first failure. */
  lemma {:induction false} HotkeyRunRequests(items: seq<(Event, bool)>)
    ensures HotkeyRun(items) == TriggerUntilFailure(HotkeyRequests(items))
  {
    if items != [] {
      HotkeyRunRequests(items[1..]);
      var restReqs := HotkeyRequests(items[1..]);
      if items[0].0.TriggerHotkeyRequest? {
        var reqs := HotkeyRequests(items);
        assert reqs == [(items[0].0.hotkey, items[0].1)] + restReqs;
        assert reqs[1..] == restReqs;
      } else {
        assert HotkeyRequests(items) == [] + restReqs == restReqs;
        assert HotkeyRun(items) == HotkeyRun(items[1..]);
      }
    }
  }

  /** The requests are triggered in order until the first whose trigger
      fails, which is the last one triggered; with none failing all are. */
  lemma {:induction false} TriggerFailureEnds(reqs: seq<(string, bool)>)
    ensures var r := TriggerUntilFailure(reqs);
      && (forall k | 0 <= k < |r.out| :: r.out[k] == reqs[k].0)
      && (forall k | 0 <= k < |r.out| - 1 :: reqs[k].1)
      && (r.stopped <==> r.out != [] && !reqs[|r.out| - 1].1)
      && (!r.stopped ==> |r.out| == |reqs|)
  {
    if reqs != [] && reqs[0].1 {
      TriggerFailureEnds(reqs[1..]);
      var rest := TriggerUntilFailure(reqs[1..]);
      assert forall k | 1 <= k < |reqs| :: reqs[k] == reqs[1..][k - 1];
    }
  }

  /** One more event received: a hotkey request is triggered first, and a
      failing trigger stops the run there. */
  lemma HotkeyStep(recvs: seq<Recv>, oks: seq<bool>, i: nat)
    requires |oks| == |recvs| && i < |recvs| && recvs[i].Received?
    ensures var here := HotkeyRun(Handled(recvs[i..], oks[i..]));
      var next := HotkeyRun(Handled(recvs[i + 1..], oks[i + 1..]));
      var e := recvs[i].event;
      here == if !e.TriggerHotkeyRequest? then next
              else if !oks[i] then Run([e.hotkey], true)
              else Run([e.hotkey] + next.out, next.stopped)
  {
    HandledStep(recvs, oks, i);
    var items := Handled(recvs[i..], oks[i..]);
    assert items[0] == (recvs[i].event, oks[i]);
    assert items[1..] == Handled(recvs[i + 1..], oks[i + 1..]);
  }

  /** `TriggerHotkeyHandler`: unlike the other small handlers it propagates
      the trigger's error, so a failing trigger ends it too. `oks[k]` says
      whether a trigger during event `k` succeeds. */
  method RunTriggerHotkey(recvs: seq<Recv>, oks: seq<bool>) returns (triggered: seq<string>, ended: bool)
    requires |oks| == |recvs|
    ensures triggered == HotkeyRun(Handled(recvs, oks)).out
    ensures ended <==> HotkeyRun(Handled(recvs, oks)).stopped || exists k | 0 <= k < |recvs| :: !recvs[k].Received?
  {
    assert recvs[0..] == recvs && oks[0..] == oks;
    ghost var whole := HotkeyRun(Handled(recvs, oks));
    triggered := [];
    var i := 0;
    while i < |recvs| && recvs[i].Received?
      invariant 0 <= i <= |recvs|
      invariant forall k | 0 <= k < i :: recvs[k].Received?
      invariant whole.out == triggered + HotkeyRun(Handled(recvs[i..], oks[i..])).out
      invariant whole.stopped == HotkeyRun(Handled(recvs[i..], oks[i..])).stopped
    {
      HotkeyStep(recvs, oks, i);
      var e := recvs[i].event;
      if e.TriggerHotkeyRequest? {
        ConcatAssoc(triggered, [e.hotkey], HotkeyRun(Handled(recvs[i + 1..], oks[i + 1..])).out);
        triggered := triggered + [e.hotkey];
        if !oks[i] {
          return triggered, true;
        }
      }
      i := i + 1;
    }
    assert Handled(recvs[i..], oks[i..]) == [];
    ended := i < |recvs|;
  }

  // ---------------------------------------------------------------------
  // OBSMessageHandler
  // ---------------------------------------------------------------------

  /** One chat message through the router, split on single spaces, in the
      world met while handling it. */
  function Route(msg: UserMessage, world: ObsRouting.World, cfg: ObsRouting.Config): ObsRouting.Outcome {
    ObsRouting.HandleObsCommands(SplitOn(msg.contents, ' '), msg, world, cfg)
  }

  /** The messages that make the router panic: a bare "!hk", which indexes
      a hotkey argument that is not there; `!styles`, `!old_remix` and
      `!old_skybox` when the Go executable cannot be started; and `!goto`
      when `trigger_scene` panics. */
  predicate MessagePanics(msg: UserMessage, world: ObsRouting.World) {
    var command := SplitOn(msg.contents, ' ')[0];
    || msg.contents == "!hk"
    || (command in ObsRouting.GoSpellings && !world.goStarts)
    || (command == "!goto" && ObsRouting.GotoPanics(SplitOn(msg.contents, ' '), world))
  }

  /** The router panics on a chat message exactly in those cases. */
  lemma RoutePanics(msg: UserMessage, world: ObsRouting.World, cfg: ObsRouting.Config)
    ensures Route(msg, world, cfg).Panic? <==> MessagePanics(msg, world)
  {
    var tokens := SplitOn(msg.contents, ' ');
    if msg.contents == "!hk" {
      assert ' ' !in msg.contents;
      assert tokens == [msg.contents];
    } else if |tokens| < 2 {
      assert IndexOf(msg.contents, ' ').None?;
      assert tokens == [msg.contents];
    }
  }

  /** The chat messages among the events, in order, with their worlds. */
  function ChatMessages<W>(items: seq<(Event, W)>): (msgs: seq<(UserMessage, W)>)
    ensures |msgs| <= |items|
  {
    if items == [] then []
    else (if items[0].0.UserMessageEvent? then [(items[0].0.msg, items[0].1)] else []) + ChatMessages(items[1..])
  }

  /** Every message through the router `route`, each in its own world. */
  function RouteAll(msgs: seq<(UserMessage, ObsRouting.World)>, route: (UserMessage, ObsRouting.World) -> ObsRouting.Outcome): (outs: seq<ObsRouting.Outcome>)
    ensures |outs| == |msgs|
  {
    if msgs == [] then [] else [route(msgs[0].0, msgs[0].1)] + RouteAll(msgs[1..], route)
  }

  /** The outcomes the handler gets through: an error is only logged; a
      panic inside the router ends the handler's task. */
  function UntilPanic(outs: seq<ObsRouting.Outcome>): Run<ObsRouting.Outcome> {
    if outs == [] then Run([], false)
    else if outs[0].Panic? then Run([outs[0]], true)
    else
      var rest := UntilPanic(outs[1..]);
      Run([outs[0]] + rest.out, rest.stopped)
  }

  /** `OBSMessageHandler` over the events and the worlds met handling them. */
  function ObsRun(items: seq<(Event, ObsRouting.World)>, cfg: ObsRouting.Config): Run<ObsRouting.Outcome> {
    UntilPanic(RouteAll(ChatMessages(items), Router(cfg)))
  }

  /** A command that fails never ends the handler: the outcomes are gone
      through in order until the first panic, which is the last one; without
      a panic every message is routed. */
  lemma {:induction false} CommandErrorsContinue(outs: seq<ObsRouting.Outcome>)
    ensures var r := UntilPanic(outs);
      && r.out <= outs
      && (forall k | 0 <= k < |r.out| - 1 :: !r.out[k].Panic?)
      && (r.stopped <==> r.out != [] && r.out[|r.out| - 1].Panic?)
      && (r.stopped <==> exists k | 0 <= k < |outs| :: outs[k].Panic?)
      && (!r.stopped ==> r.out == outs)
  {
    UntilPanicPrefix(outs);
    UntilPanicLast(outs);
    UntilPanicStopped(outs);
  }

  /** The outcomes kept are a prefix of all of them, and all of them when
      nothing panicked. */
  lemma {:induction false} UntilPanicPrefix(outs: seq<ObsRouting.Outcome>)
    ensures UntilPanic(outs).out <= outs
    ensures !UntilPanic(outs).stopped ==> UntilPanic(outs).out == outs
  {
    if outs != [] && !outs[0].Panic? {
      UntilPanicPrefix(outs[1..]);
      assert outs == [outs[0]] + outs[1..];
    }
  }

  /** Only the last outcome kept can be a panic, and it is one exactly when
      the handler stopped. */
  lemma {:induction false} UntilPanicLast(outs: seq<ObsRouting.Outcome>)
    ensures var r := UntilPanic(outs);
      && (forall k | 0 <= k < |r.out| - 1 :: !r.out[k].Panic?)
      && (r.stopped <==> r.out != [] && r.out[|r.out| - 1].Panic?)
  {
    if outs != [] && !outs[0].Panic? {
      UntilPanicLast(outs[1..]);
      var rest := UntilPanic(outs[1..]);
      assert UntilPanic(outs).out == [outs[0]] + rest.out;
    }
  }

  /** The handler stops exactly when some outcome is a panic. */
  lemma {:induction false} UntilPanicStopped(outs: seq<ObsRouting.Outcome>)
    ensures UntilPanic(outs).stopped <==> exists k | 0 <= k < |outs| :: outs[k].Panic?
  {
    if outs != [] && !outs[0].Panic? {
      UntilPanicStopped(outs[1..]);
      if exists k | 0 <= k < |outs| :: outs[k].Panic? {
        var k :| 0 <= k < |outs| && outs[k].Panic?;
        assert outs[1..][k - 1].Panic?;
      }
      if UntilPanic(outs[1..]).stopped {
        var j :| 0 <= j < |outs[1..]| && outs[1..][j].Panic?;
        assert outs[j + 1].Panic?;
      }
    }
  }

  /** The messages are routed one by one, each on its own in its own world. */
  lemma {:induction false} RouteAllEach(msgs: seq<(UserMessage, ObsRouting.World)>, route: (UserMessage, ObsRouting.World) -> ObsRouting.Outcome)
    ensures forall k | 0 <= k < |msgs| :: RouteAll(msgs, route)[k] == route(msgs[k].0, msgs[k].1)
  {
    if msgs != [] {
      RouteAllEach(msgs[1..], route);
      assert forall k | 1 <= k < |msgs| :: msgs[k] == msgs[1..][k - 1];
    }
  }

  /** The handler ends exactly when some chat message panics the router;
      every other message, failing or not, is routed. */
  lemma ObsHandlerEnds(items: seq<(Event, ObsRouting.World)>, cfg: ObsRouting.Config)
    ensures var msgs := ChatMessages(items);
      ObsRun(items, cfg).stopped <==> exists k | 0 <= k < |msgs| :: MessagePanics(msgs[k].0, msgs[k].1)
  {
    var msgs := ChatMessages(items);
    RoutedPanics(msgs, cfg);
    UntilPanicStopped(RouteAll(msgs, Router(cfg)));
  }

  /** The routed outcome of a message is a panic exactly when the message
      panics the router. */
  lemma RoutedPanics(msgs: seq<(UserMessage, ObsRouting.World)>, cfg: ObsRouting.Config)
    ensures var outs := RouteAll(msgs, Router(cfg));
      forall k | 0 <= k < |msgs| :: outs[k].Panic? <==> MessagePanics(msgs[k].0, msgs[k].1)
  {
    var outs := RouteAll(msgs, Router(cfg));
    RouteAllEach(msgs, Router(cfg));
    forall k | 0 <= k < |msgs|
      ensures outs[k].Panic? <==> MessagePanics(msgs[k].0, msgs[k].1)
    {
      RoutePanics(msgs[k].0, msgs[k].1, cfg);
    }
  }

  /** An event that is not a chat message changes nothing. */
  lemma ObsSkip(recvs: seq<Recv>, worlds: seq<ObsRouting.World>, i: nat, cfg: ObsRouting.Config)
    requires |worlds| == |recvs| && i < |recvs| && recvs[i].Received? && !recvs[i].event.UserMessageEvent?
    ensures ObsRun(Handled(recvs[i..], worlds[i..]), cfg) == ObsRun(Handled(recvs[i + 1..], worlds[i + 1..]), cfg)
  {
    HandledStep(recvs, worlds, i);
    var items := Handled(recvs[i..], worlds[i..]);
    assert items[0] == (recvs[i].event, worlds[i]);
    assert items[1..] == Handled(recvs[i + 1..], worlds[i + 1..]);
    assert ChatMessages(items) == [] + ChatMessages(items[1..]);
    assert ChatMessages(items) == ChatMessages(Handled(recvs[i + 1..], worlds[i + 1..]));
  }

  /** A chat message's outcome comes first, and a panic stops the handler there. */
  lemma ObsChatStep(recvs: seq<Recv>, worlds: seq<ObsRouting.World>, i: nat, cfg: ObsRouting.Config)
    requires |worlds| == |recvs| && i < |recvs| && recvs[i].Received? && recvs[i].event.UserMessageEvent?
    ensures var here := ObsRun(Handled(recvs[i..], worlds[i..]), cfg);
      var next := ObsRun(Handled(recvs[i + 1..], worlds[i + 1..]), cfg);
      var o := Route(recvs[i].event.msg, worlds[i], cfg);
      here == if o.Panic? then Run([o], true) else Run([o] + next.out, next.stopped)
  {
    HandledStep(recvs, worlds, i);
    var rest := Handled(recvs[i + 1..], worlds[i + 1..]);
    assert ChatMessages(Handled(recvs[i..], worlds[i..])) == [(recvs[i].event.msg, worlds[i])] + ChatMessages(rest);
  }

  /** The router with the run's configuration fixed. */
  function Router(cfg: ObsRouting.Config): (route: (UserMessage, ObsRouting.World) -> ObsRouting.Outcome)
    ensures forall msg, world :: route(msg, world) == Route(msg, world, cfg)
  {
    (msg, world) => Route(msg, world, cfg)
  }

  /** The handler from the receive result at `i` on, step by step as the
      loop takes it, routing with `route`. */
  function ObsFrom(recvs: seq<Recv>, worlds: seq<ObsRouting.World>, i: nat, route: (UserMessage, ObsRouting.World) -> ObsRouting.Outcome): Run<ObsRouting.Outcome>
    requires |worlds| == |recvs| && i <= |recvs|
    decreases |recvs| - i
  {
    if i == |recvs| || !recvs[i].Received? then Run([], false)
    else if !recvs[i].event.UserMessageEvent? then ObsFrom(recvs, worlds, i + 1, route)
    else
      var o := route(recvs[i].event.msg, worlds[i]);
      if o.Panic? then Run([o], true)
      else
        var rest := ObsFrom(recvs, worlds, i + 1, route);
        Run([o] + rest.out, rest.stopped)
  }

  /** Taking the receive results one at a time with the real router is
      routing the chat messages received before the first error, until the
      first panic. */
  lemma {:induction false} ObsFromIsObsRun(recvs: seq<Recv>, worlds: seq<ObsRouting.World>, i: nat, cfg: ObsRouting.Config)
    requires |worlds| == |recvs| && i <= |recvs|
    ensures ObsFrom(recvs, worlds, i, Router(cfg)) == ObsRun(Handled(recvs[i..], worlds[i..]), cfg)
    decreases |recvs| - i
  {
    if i < |recvs| && recvs[i].Received? {
      ObsFromIsObsRun(recvs, worlds, i + 1, cfg);
      if recvs[i].event.UserMessageEvent? {
        ObsChatStep(recvs, worlds, i, cfg);
      } else {
        ObsSkip(recvs, worlds, i, cfg);
      }
    } else {
      assert Handled(recvs[i..], worlds[i..]) == [];
    }
  }

  /** The loop of `OBSMessageHandler`: each chat message is routed, a panic
      ends the task, and so does a receive error. */
  method ObsLoop(recvs: seq<Recv>, worlds: seq<ObsRouting.World>, route: (UserMessage, ObsRouting.World) -> ObsRouting.Outcome)
    returns (outcomes: seq<ObsRouting.Outcome>, ended: bool)
    requires |worlds| == |recvs|
    ensures outcomes == ObsFrom(recvs, worlds, 0, route).out
    ensures ended <==> ObsFrom(recvs, worlds, 0, route).stopped || exists k | 0 <= k < |recvs| :: !recvs[k].Received?
  {
    ghost var whole := ObsFrom(recvs, worlds, 0, route);
    outcomes := [];
    var i := 0;
    while i < |recvs| && recvs[i].Received?
      invariant 0 <= i <= |recvs|
      invariant forall k | 0 <= k < i :: recvs[k].Received?
      invariant whole.out == outcomes + ObsFrom(recvs, worlds, i, route).out
      invariant whole.stopped == ObsFrom(recvs, worlds, i, route).stopped
    {
      var e := recvs[i].event;
      if e.UserMessageEvent? {
        var o := route(e.msg, worlds[i]);
        if o.Panic? {
          return outcomes + [o], true;
        }
        ConcatAssoc(outcomes, [o], ObsFrom(recvs, worlds, i + 1, route).out);
        outcomes := outcomes + [o];
      }
      i := i + 1;
    }
    ended := i < |recvs|;
  }

  /** `OBSMessageHandler` over the received events; each chat message is
      split on single spaces and routed in the world met handling it. */
  method RunObsMessages(recvs: seq<Recv>, worlds: seq<ObsRouting.World>, cfg: ObsRouting.Config)
    returns (outcomes: seq<ObsRouting.Outcome>, ended: bool)
    requires |worlds| == |recvs|
    ensures outcomes == ObsRun(Handled(recvs, worlds), cfg).out
    ensures ended <==> ObsRun(Handled(recvs, worlds), cfg).stopped || exists k | 0 <= k < |recvs| :: !recvs[k].Received?
  {
    outcomes, ended := ObsLoop(recvs, worlds, Router(cfg));
    ObsFromIsObsRun(recvs, worlds, 0, cfg);
    assert recvs[0..] == recvs && worlds[0..] == worlds;
  }

  // ---------------------------------------------------------------------
  // SoundHandler
  // ---------------------------------------------------------------------

  /** Names from the `obs` constants module, passed in. */
  datatype SoundConfig = SoundConfig(
    staffObsSource: string,
    staffVoice: string,
    modDefaultVoice: string,
    twitchDefaultVoice: string,
    soundboardSource: string)

  /** The two switches of the stream state the handler reads. */
  datatype TwitchState = TwitchState(subOnlyTts: bool, implicitSoundeffects: bool)

  /** What the outside world answers while one chat message is handled:
      the sender's stored voice (None when the lookup fails), the stream
      state (or the error reading it), and the soundboard files that open
      and decode. */
  datatype SoundEnv = SoundEnv(storedVoice: Option<string>, state: Result<TwitchState>, playable: set<string>)

  /** The handler's mutable `Character`: the voice to speak with and the
      OBS source to show. */
  datatype Character = Character(voice: Option<string>, source: Option<string>)

  /** The voice `build_stream_character` finds: the sender's stored voice,
      or the default voice when the lookup fails (it never returns an
      error). */
  function StreamVoice(env: SoundEnv, cfg: SoundConfig): (v: string)
    ensures env.storedVoice.Some? ==> v == env.storedVoice.value
    ensures env.storedVoice.None? ==> v == cfg.twitchDefaultVoice
  {
    env.storedVoice.GetOr(cfg.twitchDefaultVoice)
  }

  /** The character chosen by role: staff, then moderators, then
      subscribers, then everyone when TTS is not limited to subscribers. As
      written, the staff branch puts the staff OBS source in `voice` and the
      staff voice in `source`. */
  function ChooseCharacter(roles: Roles, streamVoice: string, state: TwitchState, cfg: SoundConfig): (c: Character)
    ensures c.source.Some? <==> roles.isTwitchStaff
    ensures c.voice.None? <==> !roles.isTwitchStaff && !roles.isTwitchMod && !roles.isTwitchSub && state.subOnlyTts
  {
    if roles.isTwitchStaff then Character(Some(cfg.staffObsSource), Some(cfg.staffVoice))
    else if roles.isTwitchMod then Character(Some(cfg.modDefaultVoice), None)
    else if roles.isTwitchSub then Character(Some(streamVoice), None)
    else if !state.subOnlyTts then Character(Some(streamVoice), None)
    else Character(None, None)
  }

  /** The precedence of the roles: the highest one decides, whatever the
      lower ones and the stream state say. */
  lemma VoicePrecedence(roles: Roles, streamVoice: string, state: TwitchState, cfg: SoundConfig)
    ensures roles.isTwitchStaff ==>
      ChooseCharacter(roles, streamVoice, state, cfg) == Character(Some(cfg.staffObsSource), Some(cfg.staffVoice))
    ensures !roles.isTwitchStaff && roles.isTwitchMod ==>
      ChooseCharacter(roles, streamVoice, state, cfg) == Character(Some(cfg.modDefaultVoice), None)
    ensures !roles.isTwitchStaff && !roles.isTwitchMod && (roles.isTwitchSub || !state.subOnlyTts) ==>
      ChooseCharacter(roles, streamVoice, state, cfg) == Character(Some(streamVoice), None)
    ensures ChooseCharacter(roles, streamVoice, state, cfg)
         == ChooseCharacter(roles, streamVoice, state.(implicitSoundeffects := !state.implicitSoundeffects), cfg)
  {
  }

  /** The soundboard file of a word. */
  function Mp3Path(word: string): string {
    "./MP3s/" + word + ".mp3"
  }

  /** One text request per word, lowercased, whose soundboard file exists,
      in the order of the words. */
  function SoundboardEvents(words: seq<string>, mp3s: set<string>, textSource: string): (r: seq<Event>)
    ensures |r| <= |words|
  {
    if words == [] then []
    else
      var w := ToLower(words[0]);
      (if Mp3Path(w) in mp3s then [TransformOBSTextRequest(w, textSource)] else [])
        + SoundboardEvents(words[1..], mp3s, textSource)
  }

  /** The requests for two stretches of words are those of the first, then
      those of the second. */
  lemma {:induction false} SoundboardEventsAppend(a: seq<string>, b: seq<string>, mp3s: set<string>, textSource: string)
    ensures SoundboardEvents(a + b, mp3s, textSource) == SoundboardEvents(a, mp3s, textSource) + SoundboardEvents(b, mp3s, textSource)
  {
    if a == [] {
      assert a + b == b;
    } else {
      assert (a + b)[0] == a[0] && (a + b)[1..] == a[1..] + b;
      SoundboardEventsAppend(a[1..], b, mp3s, textSource);
      var head := if Mp3Path(ToLower(a[0])) in mp3s then [TransformOBSTextRequest(ToLower(a[0]), textSource)] else [];
      ConcatAssoc(head, SoundboardEvents(a[1..], mp3s, textSource), SoundboardEvents(b, mp3s, textSource));
    }
  }

  /** Every soundboard request is a text request on the soundboard source
      for a word whose file exists. */
  lemma {:induction false} SoundboardRequests(words: seq<string>, mp3s: set<string>, textSource: string)
    ensures forall e | e in SoundboardEvents(words, mp3s, textSource) ::
      e.TransformOBSTextRequest? && e.textSource == textSource && Mp3Path(e.message) in mp3s
  {
    if words != [] {
      SoundboardRequests(words[1..], mp3s, textSource);
    }
  }

  /** A word is announced exactly when its lowercased file exists, and every
      announcement is some word's. */
  lemma {:induction false} SoundboardWords(words: seq<string>, mp3s: set<string>, textSource: string)
    ensures forall k | 0 <= k < |words| && Mp3Path(ToLower(words[k])) in mp3s ::
      TransformOBSTextRequest(ToLower(words[k]), textSource) in SoundboardEvents(words, mp3s, textSource)
    ensures forall e | e in SoundboardEvents(words, mp3s, textSource) ::
      exists k | 0 <= k < |words| :: e == TransformOBSTextRequest(ToLower(words[k]), textSource)
  {
    if words != [] {
      SoundboardWords(words[1..], mp3s, textSource);
      var r := SoundboardEvents(words, mp3s, textSource);
      var rest := SoundboardEvents(words[1..], mp3s, textSource);
      assert forall e | e in rest :: e in r;
      forall k | 0 <= k < |words| && Mp3Path(ToLower(words[k])) in mp3s
        ensures TransformOBSTextRequest(ToLower(words[k]), textSource) in r
      {
        if k > 0 {
          assert words[k] == words[1..][k - 1];
        }
      }
      forall e | e in r
        ensures exists k | 0 <= k < |words| :: e == TransformOBSTextRequest(ToLower(words[k]), textSource)
      {
        if e !in rest {
          assert e == TransformOBSTextRequest(ToLower(words[0]), textSource);
        } else {
          var j :| 0 <= j < |words[1..]| && e == TransformOBSTextRequest(ToLower(words[1..][j]), textSource);
          assert e == TransformOBSTextRequest(ToLower(words[j + 1]), textSource);
        }
      }
    }
  }

  /** A word whose soundboard file is listed but does not open or decode:
      the handler's `unwrap`s panic on it. */
  predicate Unplayable(word: string, mp3s: set<string>, playable: set<string>) {
    Mp3Path(ToLower(word)) in mp3s && Mp3Path(ToLower(word)) !in playable
  }

  /** The index of the first unplayable word, if any. */
  function FirstUnplayable(words: seq<string>, mp3s: set<string>, playable: set<string>): (r: Option<nat>)
    ensures r.Some? ==> r.value < |words| && Unplayable(words[r.value], mp3s, playable)
    ensures r.Some? ==> forall k | 0 <= k < r.value :: !Unplayable(words[k], mp3s, playable)
    ensures r.None? ==> forall k | 0 <= k < |words| :: !Unplayable(words[k], mp3s, playable)
  {
    if words == [] then None
    else if Unplayable(words[0], mp3s, playable) then Some(0)
    else match FirstUnplayable(words[1..], mp3s, playable) case None => None case Some(i) => Some(i + 1)
  }

  /** What one chat message leads to: ignored, events sent, the error of
      the stream-state lookup, which `?` returns from the handler, or a
      panic on an unplayable soundboard file after the events sent so far. */
  datatype Reaction = Ignored | Reacted(events: seq<Event>) | Stopped(error: string) | Panicked(events: seq<Event>)

  /** The speech request the character leads to, if any. */
  function SpeechOf(msg: UserMessage, c: Character): seq<Event> {
    if c.voice.Some? then [UberDuckRequest(c.voice.value, Uberduck.Chopped(msg.contents), msg.contents, msg.userName, c.source)] else []
  }

  /** The handler's reaction to a chat message. Nightbot and messages that
      split on " " into fewer than two pieces (those without a space) are
      ignored; otherwise a failing stream-state lookup stops the handler,
      and with implicit sound effects on, an unplayable word panics it. */
  function SoundReaction(msg: UserMessage, env: SoundEnv, cfg: SoundConfig, mp3s: set<string>): (r: Reaction)
    ensures r.Ignored? <==> msg.userName == "Nightbot" || ' ' !in msg.contents
    ensures r.Stopped? <==> msg.userName != "Nightbot" && ' ' in msg.contents && env.state.Err?
    ensures r.Panicked? <==>
      && msg.userName != "Nightbot" && ' ' in msg.contents && env.state.Ok? && env.state.value.implicitSoundeffects
      && FirstUnplayable(SplitOn(msg.contents, ' '), mp3s, env.playable).Some?
  {
    var pieces := SplitOn(msg.contents, ' ');
    SplitOnPieces(msg.contents, ' ');
    if msg.userName == "Nightbot" || |pieces| < 2 then Ignored
    else match env.state
      case Err(e) => Stopped(e)
      case Ok(state) =>
        var c := ChooseCharacter(msg.roles, StreamVoice(env, cfg), state, cfg);
        var speech := SpeechOf(msg, c);
        if !state.implicitSoundeffects then Reacted(speech)
        else match FirstUnplayable(pieces, mp3s, env.playable)
          case Some(k) => Panicked(speech + SoundboardEvents(pieces[..k + 1], mp3s, cfg.soundboardSource))
          case None =>
            Reacted(speech + SoundboardEvents(pieces, mp3s, cfg.soundboardSource)
                           + [TransformOBSTextRequest("", cfg.soundboardSource)])
  }

  /** A message splits on " " into fewer than two pieces exactly when it
      holds no space. */
  lemma {:induction false} SplitOnPieces(s: string, sep: char)
    ensures |SplitOn(s, sep)| >= 2 <==> sep in s
  {
    match IndexOf(s, sep)
    case None =>
    case Some(i) =>
      assert s[i] == sep;
  }

  /** A speech request is sent exactly when a voice was chosen; it carries
      the chopped speech-bubble text, the message as spoken text, the
      sender, and a source only for staff; every later event is a text
      request. */
  lemma SpeechRequest(msg: UserMessage, env: SoundEnv, cfg: SoundConfig, mp3s: set<string>)
    requires SoundReaction(msg, env, cfg, mp3s).Reacted? || SoundReaction(msg, env, cfg, mp3s).Panicked?
    ensures var events := SoundReaction(msg, env, cfg, mp3s).events;
      var c := ChooseCharacter(msg.roles, StreamVoice(env, cfg), env.state.value, cfg);
      && (events != [] && events[0].UberDuckRequest? <==> c.voice.Some?)
      && (c.voice.Some? ==> events[0] == UberDuckRequest(c.voice.value, Uberduck.Chopped(msg.contents),
                                                          msg.contents, msg.userName, c.source))
      && (forall k | 1 <= k < |events| :: events[k].TransformOBSTextRequest?)
  {
    var r := SoundReaction(msg, env, cfg, mp3s);
    var state := env.state.value;
    var c := ChooseCharacter(msg.roles, StreamVoice(env, cfg), state, cfg);
    var speech := SpeechOf(msg, c);
    var pieces := SplitOn(msg.contents, ' ');
    var source := cfg.soundboardSource;
    var tail: seq<Event>;
    if !state.implicitSoundeffects {
      tail := [];
    } else if FirstUnplayable(pieces, mp3s, env.playable).Some? {
      var k := FirstUnplayable(pieces, mp3s, env.playable).value;
      tail := SoundboardEvents(pieces[..k + 1], mp3s, source);
      SoundboardRequests(pieces[..k + 1], mp3s, source);
    } else {
      tail := SoundboardEvents(pieces, mp3s, source) + [TransformOBSTextRequest("", source)];
      SoundboardRequests(pieces, mp3s, source);
    }
    assert r.events == speech + tail;
    assert forall e | e in tail :: e.TransformOBSTextRequest?;
    forall k | |speech| <= k < |r.events|
      ensures r.events[k].TransformOBSTextRequest?
    {
      assert r.events[k] == tail[k - |speech|];
    }
  }

  /** With implicit sound effects off no text request is sent; with them on
      and every listed word playable, the soundboard requests follow the
      speech request and exactly one clearing request with an empty
      message ends the reaction. */
  lemma SoundboardSwitch(msg: UserMessage, env: SoundEnv, cfg: SoundConfig, mp3s: set<string>)
    requires SoundReaction(msg, env, cfg, mp3s).Reacted?
    requires Mp3Path("") !in mp3s
    ensures var events := SoundReaction(msg, env, cfg, mp3s).events;
      && (!env.state.value.implicitSoundeffects ==> forall e | e in events :: e.UberDuckRequest?)
      && (env.state.value.implicitSoundeffects ==>
            && events[|events| - 1] == TransformOBSTextRequest("", cfg.soundboardSource)
            && (forall k | 0 <= k < |events| - 1 :: events[k] != TransformOBSTextRequest("", cfg.soundboardSource)))
  {
    var events := SoundReaction(msg, env, cfg, mp3s).events;
    var board := SoundboardEvents(SplitOn(msg.contents, ' '), mp3s, cfg.soundboardSource);
    SoundboardRequests(SplitOn(msg.contents, ' '), mp3s, cfg.soundboardSource);
    if env.state.value.implicitSoundeffects {
      var speech := events[..|events| - 1 - |board|];
      assert events == speech + board + [TransformOBSTextRequest("", cfg.soundboardSource)];
      forall k | 0 <= k < |events| - 1
        ensures events[k] != TransformOBSTextRequest("", cfg.soundboardSource)
      {
        assert events[k] in speech + board;
      }
    }
  }

  /** An unplayable word ends the handler right after its own text request
      was sent: no clearing request follows. */
  lemma PanicAfterWordRequest(msg: UserMessage, env: SoundEnv, cfg: SoundConfig, mp3s: set<string>)
    requires SoundReaction(msg, env, cfg, mp3s).Panicked?
    ensures var pieces := SplitOn(msg.contents, ' ');
      var events := SoundReaction(msg, env, cfg, mp3s).events;
      var k := FirstUnplayable(pieces, mp3s, env.playable).value;
      events != [] && events[|events| - 1] == TransformOBSTextRequest(ToLower(pieces[k]), cfg.soundboardSource)
  {
    var pieces := SplitOn(msg.contents, ' ');
    var k := FirstUnplayable(pieces, mp3s, env.playable).value;
    assert pieces[..k + 1] == pieces[..k] + [pieces[k]];
    SoundboardEventsAppend(pieces[..k], [pieces[k]], mp3s, cfg.soundboardSource);
    assert SoundboardEvents([pieces[k]], mp3s, cfg.soundboardSource) == [TransformOBSTextRequest(ToLower(pieces[k]), cfg.soundboardSource)] + SoundboardEvents([], mp3s, cfg.soundboardSource);
  }

  /** The sound reactions to the events, each in its own world, stopping at
      the first lookup error or panic. */
  function SoundRun(items: seq<(Event, SoundEnv)>, react: (UserMessage, SoundEnv) -> Reaction): Run<Event> {
    if items == [] then Run([], false)
    else
      var rest := SoundRun(items[1..], react);
      var e := items[0].0;
      if !e.UserMessageEvent? then rest
      else match react(e.msg, items[0].1)
        case Ignored => rest
        case Stopped(_) => Run([], true)
        case Panicked(events) => Run(events, true)
        case Reacted(events) => Run(events + rest.out, rest.stopped)
  }

  /** The reaction with the configuration and the loaded sound files fixed. */
  function Reactor(cfg: SoundConfig, mp3s: set<string>): (react: (UserMessage, SoundEnv) -> Reaction)
    ensures forall msg, env :: react(msg, env) == SoundReaction(msg, env, cfg, mp3s)
  {
    (msg, env) => SoundReaction(msg, env, cfg, mp3s)
  }

  /** Running over two stretches of events is running over the first and,
      unless it stopped there, then over the second: nothing after the stop
      is handled. */
  lemma {:induction false} SoundRunAppend(a: seq<(Event, SoundEnv)>, b: seq<(Event, SoundEnv)>, react: (UserMessage, SoundEnv) -> Reaction)
    ensures var first := SoundRun(a, react);
      var second := SoundRun(b, react);
      SoundRun(a + b, react) == if first.stopped then first else Run(first.out + second.out, second.stopped)
  {
    if a == [] {
      assert a + b == b;
    } else {
      assert (a + b)[0] == a[0] && (a + b)[1..] == a[1..] + b;
      SoundRunAppend(a[1..], b, react);
    }
  }

  /** One event more: a chat message's reaction comes first; an error or a
      panic stops the run there. */
  lemma SoundStep(recvs: seq<Recv>, envs: seq<SoundEnv>, i: nat, react: (UserMessage, SoundEnv) -> Reaction)
    requires |envs| == |recvs| && i < |recvs| && recvs[i].Received?
    ensures var here := SoundRun(Handled(recvs[i..], envs[i..]), react);
      var next := SoundRun(Handled(recvs[i + 1..], envs[i + 1..]), react);
      var e := recvs[i].event;
      && (!e.UserMessageEvent? || react(e.msg, envs[i]).Ignored? ==> here == next)
      && (e.UserMessageEvent? && react(e.msg, envs[i]).Stopped? ==> here.out == [] && here.stopped)
      && (e.UserMessageEvent? && react(e.msg, envs[i]).Panicked? ==> here.out == react(e.msg, envs[i]).events && here.stopped)
      && (e.UserMessageEvent? && react(e.msg, envs[i]).Reacted? ==>
            here.out == react(e.msg, envs[i]).events + next.out && here.stopped == next.stopped)
  {
    HandledStep(recvs, envs, i);
  }

  /** `SoundHandler`, with the set of soundboard files it loads at start. */
  class SoundHandler {
    var mp3s: set<string>

    /** Loads the set from the displayed paths of the sound directory's
        entries, one insertion per entry. */
    constructor (listing: seq<string>)
      ensures mp3s == set p | p in listing
    {
      var loaded: set<string> := {};
      var i := 0;
      while i < |listing|
        invariant 0 <= i <= |listing|
        invariant loaded == set p | p in listing[..i]
      {
        assert listing[..i + 1] == listing[..i] + [listing[i]];
        loaded := loaded + {listing[i]};
        i := i + 1;
      }
      assert listing[..i] == listing;
      mp3s := loaded;
    }

    /** The soundboard pass over the words of a message: a request per
        listed word, stopping (the `unwrap`s panic) right after the request
        of the first word whose file does not open or decode. */
    method Soundboard(words: seq<string>, textSource: string, playable: set<string>) returns (events: seq<Event>, panicked: bool)
      ensures panicked <==> FirstUnplayable(words, mp3s, playable).Some?
      ensures !panicked ==> events == SoundboardEvents(words, mp3s, textSource)
      ensures panicked ==> events == SoundboardEvents(words[..FirstUnplayable(words, mp3s, playable).value + 1], mp3s, textSource)
    {
      events := [];
      var i := 0;
      while i < |words|
        invariant 0 <= i <= |words|
        invariant events == SoundboardEvents(words[..i], mp3s, textSource)
        invariant forall k | 0 <= k < i :: !Unplayable(words[k], mp3s, playable)
      {
        assert words[..i + 1] == words[..i] + [words[i]];
        SoundboardEventsAppend(words[..i], [words[i]], mp3s, textSource);
        assert [words[i]][1..] == [];
        var sanitizedWord := ToLower(words[i]);
        var fullName := Mp3Path(sanitizedWord);
        if fullName in mp3s {
          events := events + [TransformOBSTextRequest(sanitizedWord, textSource)];
          if fullName !in playable {
            return events, true;
          }
        } else {
          assert events + [] == events;
        }
        i := i + 1;
      }
      assert words[..i] == words;
      panicked := false;
    }

    /** One chat message: the mutable character is filled in by role, then
        the speech request and the soundboard requests are sent. */
    method React(msg: UserMessage, env: SoundEnv, cfg: SoundConfig) returns (r: Reaction)
      ensures r == SoundReaction(msg, env, cfg, mp3s)
    {
      if msg.userName == "Nightbot" {
        return Ignored;
      }
      var split := SplitOn(msg.contents, ' ');
      if |split| < 2 {
        return Ignored;
      }
      var streamVoice := if env.storedVoice.Some? then env.storedVoice.value else cfg.twitchDefaultVoice;
      if env.state.Err? {
        return Stopped(env.state.msg);
      }
      var state := env.state.value;
      var character := Character(None, None);
      if msg.roles.isTwitchStaff {
        character := character.(voice := Some(cfg.staffObsSource));
        character := character.(source := Some(cfg.staffVoice));
      } else if msg.roles.isTwitchMod {
        character := character.(voice := Some(cfg.modDefaultVoice));
      } else if msg.roles.isTwitchSub {
        character := character.(voice := Some(streamVoice));
      } else if !state.subOnlyTts {
        character := character.(voice := Some(streamVoice));
      }
      var events := [];
      if character.voice.Some? {
        events := [UberDuckRequest(character.voice.value, Uberduck.Chopped(msg.contents), msg.contents, msg.userName, character.source)];
      }
      if !state.implicitSoundeffects {
        return Reacted(events);
      }
      var board, panicked := Soundboard(split, cfg.soundboardSource, env.playable);
      if panicked {
        return Panicked(events + board);
      }
      events := events + board + [TransformOBSTextRequest("", cfg.soundboardSource)];
      r := Reacted(events);
    }

    /** The handler loop: chat messages react, each in the world met
        handling it (`envs[k]` goes with `recvs[k]`), other events are
        skipped, and a receive error, a lookup error or a panic ends the
        handler. */
    method Handle(recvs: seq<Recv>, envs: seq<SoundEnv>, cfg: SoundConfig) returns (sent: seq<Event>, ended: bool)
      requires |envs| == |recvs|
      ensures sent == SoundRun(Handled(recvs, envs), Reactor(cfg, mp3s)).out
      ensures ended <==> SoundRun(Handled(recvs, envs), Reactor(cfg, mp3s)).stopped
                         || exists k | 0 <= k < |recvs| :: !recvs[k].Received?
    {
      ghost var react := Reactor(cfg, mp3s);
      ghost var whole := SoundRun(Handled(recvs, envs), react);
      assert recvs[0..] == recvs && envs[0..] == envs;
      sent := [];
      var i := 0;
      while i < |recvs| && recvs[i].Received?
        invariant 0 <= i <= |recvs|
        invariant forall k | 0 <= k < i :: recvs[k].Received?
        invariant whole.out == sent + SoundRun(Handled(recvs[i..], envs[i..]), react).out
        invariant whole.stopped == SoundRun(Handled(recvs[i..], envs[i..]), react).stopped
      {
        SoundStep(recvs, envs, i, react);
        var e := recvs[i].event;
        if e.UserMessageEvent? {
          var r := React(e.msg, envs[i], cfg);
          assert r == react(e.msg, envs[i]);
          if r.Stopped? {
            return sent, true;
          }
          if r.Panicked? {
            return sent + r.events, true;
          }
          if r.Reacted? {
            ConcatAssoc(sent, r.events, SoundRun(Handled(recvs[i + 1..], envs[i + 1..]), react).out);
            sent := sent + r.events;
          }
        }
        i := i + 1;
      }
      assert Handled(recvs[i..], envs[i..]) == [];
      ended := i < |recvs|;
    }
  }
}
