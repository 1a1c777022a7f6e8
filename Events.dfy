/**
 * What the YouTube SDK reports to a player front end, and what a front end
 * sends on to the ActionScript side. Both YoutubePlayerAdapter.java and
 * AndroidYoutubeContext.java react to every SDK callback with the same
 * message and the same timer action; they differ only in how they gate it.
 */
module Events {
  import opened Outcomes
  import opened JavaInt

  /** The SDK's player object, seen only as an identity. */
  datatype Player = Player(handle: nat)

  /**
   * `YouTubePlayer.ErrorReason`. The reasons the error table names get their
   * own constructor; `Other` stands for any further SDK reason, by its enum name.
   */
  datatype ErrorReason =
    | UnauthorizedOverlay
    | PlayerViewTooSmall
    | NotPlayable
    | AutoplayDisabled
    | InternalError
    | EmptyPlaylist
    | UserDeclinedRestrictedContent
    | UserDeclinedHighBandwidth
    | NetworkError
    | UnexpectedServiceDisconnection
    | Other(name: string)

  /** The messages of the error table. */
  const ErrorOverlaid: string := "unauthorized overlay"
  const ErrorTooSmall: string := "player view too small"
  const ErrorInvalid: string := "invalid"
  const ErrorNotFound: string := "not found"
  const ErrorEmbed: string := "cannot embed"
  const ErrorNetwork: string := "network error"

  /** The reasons that are reported with code 0: not errors, only notices. */
  predicate Informational(r: ErrorReason) {
    r.UnauthorizedOverlay? || r.PlayerViewTooSmall?
  }

  /** The reasons that mean the video itself cannot be played. */
  predicate Unplayable(r: ErrorReason) {
    r.NotPlayable? || r.AutoplayDisabled? || r.InternalError?
  }

  /** The reasons that mean the user declined the content. */
  predicate Declined(r: ErrorReason) {
    r.UserDeclinedRestrictedContent? || r.UserDeclinedHighBandwidth?
  }

  /** The reasons that mean the connection failed. */
  predicate Connectivity(r: ErrorReason) {
    r.NetworkError? || r.UnexpectedServiceDisconnection?
  }

  /** The error event sent to ActionScript: a message and a numeric code. */
  datatype ErrorReport = ErrorReport(msg: string, code: int)

  /** The `onError` table: which (message, code) each SDK error reason becomes. */
  function ErrorEvent(r: ErrorReason): (e: ErrorReport)
    ensures e.code == 0 <==> Informational(r)
    ensures e.code == 2 <==> Unplayable(r)
    ensures e.code == 100 <==> r.EmptyPlaylist?
    ensures e.code == 101 <==> Declined(r)
    ensures e.code == 500 <==> Connectivity(r) || r.Other?
    ensures r.UnauthorizedOverlay? ==> e.msg == ErrorOverlaid
    ensures r.PlayerViewTooSmall? ==> e.msg == ErrorTooSmall
    ensures Unplayable(r) ==> e.msg == ErrorInvalid
    ensures r.EmptyPlaylist? ==> e.msg == ErrorNotFound
    ensures Declined(r) ==> e.msg == ErrorEmbed
    ensures Connectivity(r) ==> e.msg == ErrorNetwork
    ensures r.Other? ==> e.msg == r.name
  {
    if r == UnauthorizedOverlay then ErrorReport(ErrorOverlaid, 0)
    else if r == PlayerViewTooSmall then ErrorReport(ErrorTooSmall, 0)
    else if r == NotPlayable || r == AutoplayDisabled || r == InternalError then ErrorReport(ErrorInvalid, 2)
    else if r == EmptyPlaylist then ErrorReport(ErrorNotFound, 100)
    else if r == UserDeclinedRestrictedContent || r == UserDeclinedHighBandwidth then ErrorReport(ErrorEmbed, 101)
    else if r == NetworkError || r == UnexpectedServiceDisconnection then ErrorReport(ErrorNetwork, 500)
    else ErrorReport(r.name, 500)
  }

  /** The player state names sent to ActionScript. */
  const StatePlaying: string := "playing"
  const StateUnstarted: string := "unstarted"
  const StateEnded: string := "ended"
  const StatePaused: string := "paused"
  const StateBuffering: string := "buffering"

  /** A message to ActionScript, before it is JSON encoded. */
  datatype Message =
    | StateMsg(state: string)
    | DataMsg(data: string)
    | TimeMsg(current: int, total: int)
    | ErrMsg(code: int, msg: string)

  /**
   * What reaches the ActionScript side: an encoded `Message` (`sendMessage`)
   * or a status event with a type and a reason (`dispatchEventWithReason`).
   */
  datatype Notification = Send(message: Message) | EventWithReason(kind: string, reason: string)

  /** The notification sent when the SDK cannot initialize the player. */
  const InitFailure: Notification := EventWithReason("videoError", "Could not initialize video player")

  /** The callbacks of `PlayerStateChangeListener` and `PlaybackEventListener`. */
  datatype PlayerEvent =
    | OnAdStarted
    | OnError(reason: ErrorReason)
    | OnLoaded(videoId: string)
    | OnLoading
    | OnVideoEnded
    | OnVideoStarted
    | OnBuffering(isBuffering: bool)
    | OnPaused
    | OnPlaying
    | OnSeekTo(positionMs: Int32)
    | OnStopped

  /** What a callback does to the once-a-second time update timer. */
  datatype TimerOp = StartTimer | StopTimer | KeepTimer

  /** A front end's response to one SDK callback. */
  datatype Reaction = Reaction(timer: TimerOp, message: Option<Message>)

  /** The events after which the time update timer is stopped. */
  predicate Halts(e: PlayerEvent) {
    e.OnPaused? || e.OnStopped?
  }

  /** The events that produce no message at all. */
  predicate Silent(e: PlayerEvent) {
    e.OnVideoStarted? || e.OnSeekTo? || e.OnStopped? || (e.OnBuffering? && !e.isBuffering)
  }

  /** The response to an SDK callback, shared by both front ends. */
  function ReactionTo(e: PlayerEvent): (r: Reaction)
    ensures r.timer == StartTimer <==> e.OnPlaying?
    ensures r.timer == StopTimer <==> Halts(e)
    ensures r.message.None? <==> Silent(e)
    ensures e.OnError? ==> r.message == Some(ErrMsg(ErrorEvent(e.reason).code, ErrorEvent(e.reason).msg))
    ensures r.message.Some? && r.message.value.StateMsg? ==>
              r.message.value.state in {StatePlaying, StateUnstarted, StateEnded, StatePaused, StateBuffering}
    ensures e.OnPlaying? ==> r.message == Some(StateMsg(StatePlaying))
    ensures e.OnPaused? ==> r.message == Some(StateMsg(StatePaused))
    ensures e.OnVideoEnded? ==> r.message == Some(StateMsg(StateEnded))
    ensures e.OnLoaded? ==> r.message == Some(StateMsg(StateUnstarted))
    ensures e.OnLoading? || e.OnBuffering? ==> r.message.None? || r.message == Some(StateMsg(StateBuffering))
    ensures e.OnAdStarted? ==> r.message == Some(DataMsg("Ad started"))
  {
    match e
    case OnAdStarted => Reaction(KeepTimer, Some(DataMsg("Ad started")))
    case OnError(reason) =>
      var report := ErrorEvent(reason);
      Reaction(KeepTimer, Some(ErrMsg(report.code, report.msg)))
    case OnLoaded(_) => Reaction(KeepTimer, Some(StateMsg(StateUnstarted)))
    case OnLoading => Reaction(KeepTimer, Some(StateMsg(StateBuffering)))
    case OnVideoEnded => Reaction(KeepTimer, Some(StateMsg(StateEnded)))
    case OnVideoStarted => Reaction(KeepTimer, None)
    case OnBuffering(b) => Reaction(KeepTimer, if b then Some(StateMsg(StateBuffering)) else None)
    case OnPaused => Reaction(StopTimer, Some(StateMsg(StatePaused)))
    case OnPlaying => Reaction(StartTimer, Some(StateMsg(StatePlaying)))
    case OnSeekTo(_) => Reaction(KeepTimer, None)
    case OnStopped => Reaction(StopTimer, None)
  }

  /** Whether the time update timer runs after `op`, given whether it ran before. */
  function TimerAfter(running: bool, op: TimerOp): (r: bool)
    ensures op.StartTimer? ==> r
    ensures op.StopTimer? ==> !r
    ensures op.KeepTimer? ==> r == running
  {
    match op
    case StartTimer => true
    case StopTimer => false
    case KeepTimer => running
  }

  /** The list of notifications with `m` appended when it is present. */
  function SendAll(sent: seq<Notification>, m: Option<Message>): (r: seq<Notification>)
    ensures m.None? ==> r == sent
    ensures m.Some? ==> r == sent + [Send(m.value)]
  {
    if m.Some? then sent + [Send(m.value)] else sent
  }

  /**
   * The time-update timer runs after a callback exactly when the callback is
   * `onPlaying`, or the timer was already running and the callback neither
   * paused nor stopped playback.
   */
  lemma TimerFollowsPlayback(running: bool, e: PlayerEvent)
    ensures TimerAfter(running, ReactionTo(e).timer) <==> e.OnPlaying? || (running && !Halts(e))
  {
  }

  /**
   * A callback only ever appends to what was sent: one message, unless the
   * callback is silent, and nothing otherwise.
   */
  lemma ReactionAppendsAtMostOne(sent: seq<Notification>, e: PlayerEvent)
    ensures sent <= SendAll(sent, ReactionTo(e).message)
    ensures |SendAll(sent, ReactionTo(e).message)| == |sent| + (if Silent(e) then 0 else 1)
  {
  }

  /** The `time` message: whole seconds, truncated as Java's `int` division does. */
  function TimeMessage(currentMs: Int32, durationMs: Int32): (m: Message)
    ensures m.TimeMsg?
    ensures currentMs >= 0 ==> m.current * 1000 <= currentMs < m.current * 1000 + 1000
    ensures durationMs >= 0 ==> m.total * 1000 <= durationMs < m.total * 1000 + 1000
    ensures currentMs < 0 ==> m.current * 1000 - 1000 < currentMs <= m.current * 1000
    ensures durationMs < 0 ==> m.total * 1000 - 1000 < durationMs <= m.total * 1000
  {
    TimeMsg(SecondsOf(currentMs), SecondsOf(durationMs))
  }

  /** A window position and size, as `setVideoFrame` applies it. */
  datatype Frame = Frame(x: Int32, y: Int32, width: Int32, height: Int32)

  /** Where a freshly created view is parked until ActionScript positions it. */
  const OffscreenFrame: Frame := Frame(-5000, -5000, 600, 400)
}
