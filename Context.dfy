/**
 * AndroidYoutubeContext.java: the older front end. It owns the SDK player
 * directly, keeps one pending video for a load request made before the player
 * exists, routes ActionScript commands, and suppresses outgoing events while
 * the state is DISPOSING or DISPOSED.
 */
module Context {
  import opened Outcomes
  import opened JavaInt
  import opened Events
  import opened ViewIds

  /** The context's `State` enum. */
  datatype ContextState = Initializing | Stopped | Playing | Disposing | Disposed

  /** What a context operation throws. */
  datatype Fault =
    | IllegalState(expected: ContextState, actual: ContextState)  // `assertState` failed
    | NullReference                                               // a view that `initVideo` creates is missing
    | MissingField(name: string)                                  // the command's JSON lacks a field it needs

  /** DISPOSING or DISPOSED: outgoing events are dropped in these states. */
  predicate Closed(s: ContextState) {
    s == Disposing || s == Disposed
  }

  /**
   * The state after a player callback: playing and pausing/stopping move the
   * state whatever it was, so a late callback can re-open a closed context.
   */
  function EventState(s: ContextState, e: PlayerEvent): (r: ContextState)
    ensures e.OnPlaying? ==> r == Playing
    ensures Halts(e) ==> r == Stopped
    ensures !e.OnPlaying? && !Halts(e) ==> r == s
    ensures Closed(r) <==> Closed(s) && !e.OnPlaying? && !Halts(e)
  {
    if e.OnPlaying? then Playing
    else if Halts(e) then Stopped
    else s
  }

  /** The commands ActionScript can send. */
  datatype Command = PlayCommand | PlayByIdCommand | PauseCommand | SeekCommand | DisposeCommand | Unrecognized

  /** The action names `onMessage` acts on. */
  const KnownActions: set<string> := {"play", "playById", "stop", "pause", "seek", "dispose"}

  /** `onMessage`'s routing of the `action` field. */
  function Route(action: string): (c: Command)
    ensures c.PlayCommand? <==> action == "play"
    ensures c.PlayByIdCommand? <==> action == "playById"
    ensures c.PauseCommand? <==> action == "stop" || action == "pause"
    ensures c.SeekCommand? <==> action == "seek"
    ensures c.DisposeCommand? <==> action == "dispose"
    ensures c.Unrecognized? <==> action !in KnownActions
  {
    if action == "play" then PlayCommand
    else if action == "playById" then PlayByIdCommand
    else if action == "stop" then PauseCommand
    else if action == "pause" then PauseCommand
    else if action == "seek" then SeekCommand
    else if action == "dispose" then DisposeCommand
    else Unrecognized
  }

  /**
   * `doSeek`'s guard against seeking past the end: a target at or past a known
   * duration becomes one second before the end, or the start of a video
   * shorter than a second.
   */
  function ClampSeek(target: Int32, duration: Int32): (t: Int32)
    ensures duration > 0 ==> t < duration
    ensures duration <= 0 || target < duration ==> t == target
    ensures duration > 0 && target >= duration ==> 0 <= t && duration - t <= 1000 && (t == 0 || duration - t == 1000)
  {
    if duration > 0 && target >= duration then
      (if duration - 1000 > 0 then duration - 1000 else 0)
    else target
  }

  /** Clamping a clamped target changes nothing. */
  lemma ClampSeekIdempotent(target: Int32, duration: Int32)
    ensures ClampSeek(ClampSeek(target, duration), duration) == ClampSeek(target, duration)
  {
  }

  /** A command from ActionScript, its JSON already parsed; a missing field is `None`. */
  datatype Request = Request(
    action: Option<string>,
    videoId: Option<string>,
    startMs: Option<Int32>,  // `startTime`, already converted to milliseconds
    timeMs: Option<Int32>)   // `time`, already converted to milliseconds

  /** A request the context makes of the SDK player. */
  datatype PlayerCall =
    | LoadVideo(videoId: string, startMs: Int32)
    | PlayCall
    | PauseCall
    | SeekToMillis(ms: Int32)
    | SetListeners
    | SetChromeless

  /** The load request replayed from the pending slot, if one is stored. */
  function PendingLoad(videoToPlay: Option<string>, startMs: Int32): (r: seq<PlayerCall>)
    ensures videoToPlay.None? <==> r == []
    ensures videoToPlay.Some? ==> r == [LoadVideo(videoToPlay.value, startMs)]
  {
    if videoToPlay.Some? then [LoadVideo(videoToPlay.value, startMs)] else []
  }

  /** The call `c` when a player exists, nothing otherwise. */
  function IfPlayer(player: Option<Player>, c: PlayerCall): (r: seq<PlayerCall>)
    ensures player.Some? ==> r == [c]
    ensures player.None? ==> r == []
  {
    if player.Some? then [c] else []
  }

  class AndroidYoutubeContext {
    var state: ContextState
    var player: Option<Player>
    /** The pending slot: a video to load once the player exists, and where to start it. */
    var videoToPlay: Option<string>
    var startTime: Int32
    /** `initVideo` has built the container, layout parameters, dialog and fragment. */
    var viewsCreated: bool
    /** The frame last applied to the dialog window's layout parameters. */
    var frame: Option<Frame>
    var timerRunning: bool
    /** The id given to the video container view. */
    var containerId: int
    /** Every status event delivered to ActionScript, oldest first. */
    var dispatched: seq<Notification>
    /** Every request made of the SDK player, oldest first. */
    ghost var calls: seq<PlayerCall>
    const ids: ViewIdGenerator

    ghost predicate Valid()
      reads this, ids
    {
      && (state == Playing ==> player.Some?)
      && (timerRunning ==> player.Some?)
      && ids.Valid()
    }

    constructor (ids: ViewIdGenerator)
      requires ids.Valid()
      ensures Valid()
      ensures state == Initializing && player.None? && videoToPlay.None? && startTime == 0
      ensures !viewsCreated && !timerRunning && dispatched == [] && calls == [] && this.ids == ids
    {
      state := Initializing;
      player := None;
      videoToPlay := None;
      startTime := 0;
      viewsCreated := false;
      frame := None;
      timerRunning := false;
      containerId := 0;
      dispatched := [];
      calls := [];
      this.ids := ids;
    }

    /** `initVideo`: only while initializing; builds the views and numbers the container. */
    method InitVideo() returns (r: Outcome<Fault>)
      requires Valid()
      modifies this`viewsCreated, this`containerId, this`frame, ids
      ensures Valid()
      ensures r.Pass? <==> state == Initializing
      ensures r.Fail? ==> r.error == IllegalState(Initializing, state)
      ensures r.Pass? ==> viewsCreated && frame.None? && containerId == old(ids.next) && ids.next == NextId(old(ids.next))
      ensures r.Pass? ==> ids.issued == old(ids.issued) + [containerId]
      ensures r.Fail? ==> viewsCreated == old(viewsCreated) && frame == old(frame) && containerId == old(containerId)
      ensures r.Fail? ==> ids.next == old(ids.next) && ids.issued == old(ids.issued)
    {
      if state != Initializing {
        return Fail(IllegalState(Initializing, state));
      }
      containerId := ids.Generate();
      frame := None;
      viewsCreated := true;
      r := Pass;
    }

    /**
     * `dispose`: through DISPOSING to DISPOSED, dropping the views. Without
     * views (no `initVideo`, or a second `dispose`) it throws before the
     * `finally` and stays in DISPOSING.
     */
    method Dispose() returns (r: Outcome<Fault>)
      requires Valid()
      modifies this`state, this`timerRunning, this`viewsCreated, this`frame
      ensures Valid()
      ensures Closed(state) && !timerRunning
      ensures state == Disposed <==> old(viewsCreated)
      ensures r == if old(viewsCreated) then Pass else Fail(NullReference)
      ensures !viewsCreated
      ensures frame == if old(viewsCreated) then None else old(frame)
    {
      state := Disposing;
      timerRunning := false;
      if !viewsCreated {
        return Fail(NullReference);
      }
      // the fragment's removal is attempted; anything it throws is caught
      viewsCreated := false;
      frame := None;
      state := Disposed;
      r := Pass;
    }

    /** `dispatchEventWithReason`: the gate on everything sent to ActionScript. */
    method Dispatch(n: Notification)
      modifies this`dispatched
      ensures dispatched == if Closed(state) then old(dispatched) else old(dispatched) + [n]
    {
      if Closed(state) {
        return;
      }
      dispatched := dispatched + [n];
    }

    /** `playVideoById`: load now if the player exists, else overwrite the pending slot. */
    method PlayVideoById(videoId: string, startMs: Int32)
      modifies this`videoToPlay, this`startTime, this`calls
      ensures player.Some? ==> calls == old(calls) + [LoadVideo(videoId, startMs)]
      ensures player.Some? ==> videoToPlay == old(videoToPlay) && startTime == old(startTime)
      ensures player.None? ==> videoToPlay == Some(videoId) && startTime == startMs && calls == old(calls)
    {
      if player.Some? {
        calls := calls + [LoadVideo(videoId, startMs)];
      } else {
        videoToPlay := Some(videoId);
        startTime := startMs;
      }
    }

    /** `playVideo`: nothing without a player. */
    method PlayVideo()
      modifies this`calls
      ensures calls == old(calls) + IfPlayer(player, PlayCall)
    {
      if player.None? {
        return;
      }
      calls := calls + [PlayCall];
    }

    /** `pauseVideo`: nothing without a player. */
    method PauseVideo()
      modifies this`calls
      ensures calls == old(calls) + IfPlayer(player, PauseCall)
    {
      if player.None? {
        return;
      }
      calls := calls + [PauseCall];
    }

    /** `doSeek`: nothing without a player; never seeks to or past a known end. */
    method DoSeek(timeMs: Int32, durationMs: Int32)
      modifies this`calls
      ensures calls == old(calls) + IfPlayer(player, SeekToMillis(ClampSeek(timeMs, durationMs)))
    {
      if player.None? {
        return;
      }
      var target := timeMs;
      if durationMs > 0 && target >= durationMs {
        target := if durationMs - 1000 > 0 then durationMs - 1000 else 0;
      }
      calls := calls + [SeekToMillis(target)];
    }

    /** `setVideoFrame`: nothing while DISPOSING or DISPOSED; throws without views. */
    method SetVideoFrame(f: Frame) returns (r: Outcome<Fault>)
      modifies this`frame
      ensures Closed(state) ==> r.Pass? && frame == old(frame)
      ensures !Closed(state) && !viewsCreated ==> r == Fail(NullReference) && frame == old(frame)
      ensures !Closed(state) && viewsCreated ==> r.Pass? && frame == Some(f)
    {
      if Closed(state) {
        return Pass;
      }
      if !viewsCreated {
        return Fail(NullReference);
      }
      frame := Some(f);
      r := Pass;
    }

    /**
     * `onMessage`: routes a command. A field that the chosen command reads and
     * the JSON lacks makes the call throw before anything happens.
     * `durationMs` is the player's answer to `getDurationMillis`.
     */
    method OnMessage(req: Request, durationMs: Int32) returns (r: Outcome<Fault>)
      modifies this`videoToPlay, this`startTime, this`calls
      ensures req.action.None? ==> r == Fail(MissingField("action"))
      ensures r.Fail? ==> calls == old(calls) && videoToPlay == old(videoToPlay) && startTime == old(startTime)
      ensures req.action.Some? ==> var c := Route(req.action.value);
        && (c.PlayCommand? ==> r.Pass? && calls == old(calls) + IfPlayer(player, PlayCall))
        && (c.PauseCommand? ==> r.Pass? && calls == old(calls) + IfPlayer(player, PauseCall))
        && (c.PlayByIdCommand? && req.videoId.None? ==> r == Fail(MissingField("videoId")))
        && (c.PlayByIdCommand? && req.videoId.Some? && req.startMs.None? ==> r == Fail(MissingField("startTime")))
        && (c.PlayByIdCommand? && req.videoId.Some? && req.startMs.Some? ==>
              && r.Pass?
              && (player.Some? ==> calls == old(calls) + [LoadVideo(req.videoId.value, req.startMs.value)])
              && (player.None? ==> videoToPlay == req.videoId && startTime == req.startMs.value && calls == old(calls)))
        && (c.SeekCommand? && req.timeMs.None? ==> r == Fail(MissingField("time")))
        && (c.SeekCommand? && req.timeMs.Some? ==>
              && r.Pass?
              && calls == old(calls) + IfPlayer(player, SeekToMillis(ClampSeek(req.timeMs.value, durationMs))))
        && (c.DisposeCommand? || c.Unrecognized? ==> r.Pass? && calls == old(calls))
      ensures !(req.action.Some? && Route(req.action.value).PlayByIdCommand? && player.None?) ==>
        videoToPlay == old(videoToPlay) && startTime == old(startTime)
    {
      if req.action.None? {
        return Fail(MissingField("action"));
      }
      r := Pass;
      match Route(req.action.value)
      case PlayCommand =>
        PlayVideo();
      case PlayByIdCommand =>
        if req.videoId.None? {
          return Fail(MissingField("videoId"));
        }
        if req.startMs.None? {
          return Fail(MissingField("startTime"));
        }
        PlayVideoById(req.videoId.value, req.startMs.value);
      case PauseCommand =>
        PauseVideo();
      case SeekCommand =>
        if req.timeMs.None? {
          return Fail(MissingField("time"));
        }
        DoSeek(req.timeMs.value, durationMs);
      case DisposeCommand =>
        // dispose itself comes from ActionScript's context.dispose
      case Unrecognized =>
        // logged and ignored
    }

    /**
     * `onInitializationSuccess`: ignored while DISPOSING or DISPOSED. A fresh (not
     * restored) player replays the pending video, once, and empties the slot.
     */
    method OnInitializationSuccess(p: Player, wasRestored: bool)
      requires Valid()
      modifies this`player, this`calls, this`videoToPlay, this`startTime, this`dispatched
      ensures Valid()
      ensures Closed(state) ==> player == old(player) && calls == old(calls) && dispatched == old(dispatched)
      ensures Closed(state) || wasRestored ==> videoToPlay == old(videoToPlay) && startTime == old(startTime)
      ensures !Closed(state) ==> player == Some(p) && dispatched == old(dispatched) + [Send(DataMsg("playerReady"))]
      ensures !Closed(state) && wasRestored ==> calls == old(calls) + [SetListeners]
      ensures !Closed(state) && !wasRestored ==>
        && calls == old(calls) + [SetListeners, SetChromeless] + PendingLoad(old(videoToPlay), old(startTime))
        && videoToPlay.None? && startTime == 0
    {
      if Closed(state) {
        return;
      }
      player := Some(p);
      calls := calls + [SetListeners];
      if !wasRestored {
        calls := calls + [SetChromeless];
        if videoToPlay.Some? {
          calls := calls + [LoadVideo(videoToPlay.value, startTime)];
        }
        videoToPlay := None;
        startTime := 0;
      }
      Dispatch(Send(DataMsg("playerReady")));
    }

    /** `onInitializationFailure`: reported through the gate. */
    method OnInitializationFailure()
      modifies this`dispatched
      ensures dispatched == if Closed(state) then old(dispatched) else old(dispatched) + [InitFailure]
    {
      Dispatch(InitFailure);
    }

    /**
     * The fragment listener's `onFragmentViewCreated`: moves to STOPPED from any
     * state other than DISPOSING or DISPOSED.
     */
    method OnFragmentViewCreated() returns (r: Outcome<Fault>)
      requires Valid()
      modifies this`state, this`frame
      ensures Valid()
      ensures Closed(old(state)) ==> r.Pass? && state == old(state) && frame == old(frame)
      ensures !Closed(old(state)) && viewsCreated ==> r.Pass? && state == Stopped && frame == Some(OffscreenFrame)
      ensures !Closed(old(state)) && !viewsCreated ==> r == Fail(NullReference) && state == old(state) && frame == old(frame)
    {
      if Closed(state) {
        return Pass;
      }
      r := SetVideoFrame(OffscreenFrame);
      if r.Fail? {
        return;
      }
      state := Stopped;
    }

    /**
     * The player event callbacks. None is gated: the state moves first, then
     * the message goes through the gate, which looks at the new state.
     */
    method HandleEvent(e: PlayerEvent)
      requires Valid()
      requires player.Some?  // the SDK calls its listeners only once they are registered
      modifies this`state, this`timerRunning, this`dispatched
      ensures Valid()
      ensures state == EventState(old(state), e)
      ensures timerRunning == TimerAfter(old(timerRunning), ReactionTo(e).timer)
      ensures dispatched == if Closed(state) then old(dispatched) else SendAll(old(dispatched), ReactionTo(e).message)
    {
      var reaction := ReactionTo(e);
      state := EventState(state, e);
      timerRunning := TimerAfter(timerRunning, reaction.timer);
      if reaction.message.Some? {
        Dispatch(Send(reaction.message.value));
      }
    }

    /**
     * `sendTimeData`, run by the timer: only while playing. The player's
     * current time and duration are the parameters.
     */
    method SendTimeData(currentMs: Int32, durationMs: Int32)
      requires Valid()
      requires timerRunning
      modifies this`dispatched
      ensures dispatched == if state == Playing then old(dispatched) + [Send(TimeMessage(currentMs, durationMs))] else old(dispatched)
    {
      if state != Playing {
        return;
      }
      Dispatch(Send(TimeMessage(currentMs, durationMs)));
    }
  }

  /**
   * The pending slot end to end: two `playById` requests made before the player
   * exists leave only the later one in the slot. A fresh player then receives
   * its listeners and style followed by that one load, exactly once, and the
   * slot is emptied.
   */
  method DeferredLoadReplayed(c: AndroidYoutubeContext, v1: string, s1: Int32, v: string, s: Int32, p: Player)
    requires c.Valid() && c.player.None? && !Closed(c.state)
    modifies c
    ensures c.player == Some(p)
    ensures c.calls == old(c.calls) + [SetListeners, SetChromeless, LoadVideo(v, s)]
    ensures c.videoToPlay.None? && c.startTime == 0
  {
    c.PlayVideoById(v1, s1);
    c.PlayVideoById(v, s);
    c.OnInitializationSuccess(p, false);
  }
}
