/**
 * YoutubePlayerAdapter.java: the player's lifecycle state machine and the
 * queue of player actions that are deferred until the player is ready.
 *
 * The pure part below (a `Lifecycle` snapshot and one step function per
 * operation) is the specification; the class `YouTubePlayerAdapter` carries
 * the mutable fields and is proved to follow it step by step.
 */
module Adapter {
  import opened Outcomes
  import opened JavaInt
  import opened Events
  import opened ViewIds

  /** The adapter's `State` enum. */
  datatype AdapterState = Initializing | PlayerInit | Ready | Disposing | Disposed

  /** What an adapter operation throws. */
  datatype Fault =
    | IllegalState(expected: AdapterState, actual: AdapterState)  // `assertState` failed
    | NullReference                                               // a view that `init` creates is missing

  /**
   * A `PlayerAction`: opaque apart from its identity and whether running it
   * throws an `Exception`, which the drain loop catches. An `Error` escapes
   * that loop and is not modelled.
   */
  datatype Action = Action(id: nat, throws: bool)

  /** The part of the adapter that the lifecycle operations read and write. */
  datatype Lifecycle = Lifecycle(
    state: AdapterState,
    viewsCreated: bool,     // `init` has built the container, layout and dialog
    queue: seq<Action>,     // `actionQueue`, head first
    ran: seq<Action>)       // every action run so far, in the order run

  /**
   * DISPOSING or DISPOSED. `dispose` leads here, but `onFragmentViewDestroyed`
   * leaves these states again.
   */
  predicate Closed(s: AdapterState) {
    s == Disposing || s == Disposed
  }

  /** The object invariant the lifecycle keeps: a ready adapter has nothing queued. */
  predicate Inv(m: Lifecycle) {
    m.state == Ready ==> m.queue == []
  }

  /** The queue drained: every queued action run, head first. */
  function Drained(m: Lifecycle): Lifecycle {
    m.(queue := [], ran := m.ran + m.queue)
  }

  /** `execute`: always enqueue; drain only when ready. */
  function AfterExecute(m: Lifecycle, a: Action): (r: Lifecycle)
    ensures r.state == m.state && r.viewsCreated == m.viewsCreated
    ensures r.ran + r.queue == m.ran + m.queue + [a]
    ensures m.state == Ready ==> r.queue == [] && r.ran == m.ran + m.queue + [a]
    ensures m.state != Ready ==> r.ran == m.ran && r.queue == m.queue + [a] && |r.queue| == |m.queue| + 1
  {
    var enqueued := m.(queue := m.queue + [a]);
    if m.state == Ready then Drained(enqueued) else enqueued
  }

  /** What `init` throws: it may only be called while initializing. */
  function InitOutcome(s: AdapterState): (r: Outcome<Fault>)
    ensures r.Pass? <==> s == Initializing
    ensures r.Fail? ==> r.error == IllegalState(Initializing, s)
  {
    if s == Initializing then Pass else Fail(IllegalState(Initializing, s))
  }

  /** `init`: builds the views, or throws before touching anything. */
  function AfterInit(m: Lifecycle): (r: Lifecycle)
    ensures r.state == m.state && r.queue == m.queue && r.ran == m.ran
    ensures r.viewsCreated == (m.viewsCreated || m.state == Initializing)
  {
    if m.state == Initializing then m.(viewsCreated := true) else m
  }

  /** `onFragmentViewCreated`: acts only while initializing, and starts player initialization. */
  function AfterViewCreated(m: Lifecycle): (r: Lifecycle)
    ensures m.state == Initializing ==> r == m.(state := PlayerInit)
    ensures m.state != Initializing ==> r == m
  {
    if m.state == Initializing then m.(state := PlayerInit) else m
  }

  /** `onInitializationSuccess`: acts only during player initialization; becomes ready and drains. */
  function AfterInitSuccess(m: Lifecycle): (r: Lifecycle)
    ensures m.state == PlayerInit ==> r.state == Ready && r.queue == [] && r.ran == m.ran + m.queue
    ensures m.state == PlayerInit ==> r.viewsCreated == m.viewsCreated
    ensures m.state != PlayerInit ==> r == m
  {
    if m.state == PlayerInit then Drained(m.(state := Ready)) else m
  }

  /** `onFragmentViewDestroyed`: back to initializing, from any state. */
  function AfterViewDestroyed(m: Lifecycle): (r: Lifecycle)
    ensures r.state == Initializing
    ensures r.queue == m.queue && r.ran == m.ran && r.viewsCreated == m.viewsCreated
  {
    m.(state := Initializing)
  }

  /**
   * `dispose`: through DISPOSING to DISPOSED. A failure to remove the fragment
   * is caught, but without `init` the views are missing and the call throws
   * before the `finally`, leaving the adapter in DISPOSING.
   */
  function AfterDispose(m: Lifecycle): (r: Lifecycle)
    ensures Closed(r.state)
    ensures r.state == Disposed <==> m.viewsCreated
    ensures r.queue == m.queue && r.ran == m.ran && r.viewsCreated == m.viewsCreated
  {
    m.(state := if m.viewsCreated then Disposed else Disposing)
  }

  /** The operations that drive the adapter. */
  datatype Op =
    | ExecuteOp(action: Action)
    | InitOp
    | DisposeOp
    | ViewCreatedOp
    | ViewDestroyedOp
    | InitSuccessOp
    | OtherOp   // player events, init failure, time ticks, frame changes: no lifecycle effect

  function Step(m: Lifecycle, op: Op): Lifecycle {
    match op
    case ExecuteOp(a) => AfterExecute(m, a)
    case InitOp => AfterInit(m)
    case DisposeOp => AfterDispose(m)
    case ViewCreatedOp => AfterViewCreated(m)
    case ViewDestroyedOp => AfterViewDestroyed(m)
    case InitSuccessOp => AfterInitSuccess(m)
    case OtherOp => m
  }

  /** The lifecycle after running `ops` in order. */
  function Run(m: Lifecycle, ops: seq<Op>): Lifecycle
    decreases |ops|
  {
    if ops == [] then m else Run(Step(m, ops[0]), ops[1..])
  }

  /** The actions handed to `execute` by `ops`, in order. */
  function Issued(ops: seq<Op>): seq<Action>
    decreases |ops|
  {
    if ops == [] then []
    else IssuedBy(ops[0]) + Issued(ops[1..])
  }

  /** Only the states in which the drain may run can make `ran` grow. */
  lemma StepRunsOnlyWhenReady(m: Lifecycle, op: Op)
    ensures Step(m, op).ran != m.ran ==> Step(m, op).state == Ready
  {
  }

  /** Every operation keeps the invariant. */
  lemma StepKeepsInv(m: Lifecycle, op: Op)
    requires Inv(m)
    ensures Inv(Step(m, op))
  {
  }

  /** A whole run keeps the invariant: whenever the adapter is ready, its queue is empty. */
  lemma {:induction false} RunKeepsInv(m: Lifecycle, ops: seq<Op>)
    requires Inv(m)
    ensures Inv(Run(m, ops))
    decreases |ops|
  {
    if ops != [] {
      StepKeepsInv(m, ops[0]);
      RunKeepsInv(Step(m, ops[0]), ops[1..]);
    }
  }

  /**
   * FIFO, exactly once: after any run, the actions that ran followed by those
   * still queued are exactly the ones there before followed by the ones issued,
   * in issue order; and nothing that already ran is undone.
   */
  lemma {:induction false} RunConserves(m: Lifecycle, ops: seq<Op>)
    ensures Run(m, ops).ran + Run(m, ops).queue == m.ran + m.queue + Issued(ops)
    ensures m.ran <= Run(m, ops).ran
    decreases |ops|
  {
    if ops != [] {
      var m' := Step(m, ops[0]);
      var issued := IssuedBy(ops[0]);
      StepConserves(m, ops[0]);
      RunConserves(m', ops[1..]);
      var r := Run(m', ops[1..]);
      assert Issued(ops) == issued + Issued(ops[1..]);
      calc {
        r.ran + r.queue;
        m'.ran + m'.queue + Issued(ops[1..]);
        (m.ran + m.queue + issued) + Issued(ops[1..]);
        { assert (m.ran + m.queue + issued) + Issued(ops[1..]) == m.ran + m.queue + (issued + Issued(ops[1..])); }
        m.ran + m.queue + Issued(ops);
      }
    }
  }

  /** The action a single operation hands to `execute`, if any. */
  function IssuedBy(op: Op): seq<Action> {
    if op.ExecuteOp? then [op.action] else []
  }

  /** One operation conserves ran + queue up to the action it issues. */
  lemma StepConserves(m: Lifecycle, op: Op)
    ensures Step(m, op).ran + Step(m, op).queue == m.ran + m.queue + IssuedBy(op)
    ensures m.ran <= Step(m, op).ran
  {
    match op
    case InitSuccessOp =>
      if m.state == PlayerInit {
        assert m.ran + m.queue + [] == m.ran + m.queue;
      }
    case _ =>
  }

  /**
   * While DISPOSING or DISPOSED, and until the fragment's view is destroyed, nothing
   * runs: every action issued stays queued behind those already waiting.
   */
  lemma {:induction false} ClosedRunsNothing(m: Lifecycle, ops: seq<Op>)
    requires Closed(m.state)
    requires forall i :: 0 <= i < |ops| ==> !ops[i].ViewDestroyedOp?
    ensures Closed(Run(m, ops).state)
    ensures Run(m, ops).ran == m.ran
    ensures Run(m, ops).queue == m.queue + Issued(ops)
    decreases |ops|
  {
    if ops != [] {
      var m' := Step(m, ops[0]);
      assert !ops[0].ViewDestroyedOp?;
      ClosedRunsNothing(m', ops[1..]);
      assert Issued(ops) == IssuedBy(ops[0]) + Issued(ops[1..]);
    }
  }

  /** The actions whose run throws, in order. */
  function Throwing(s: seq<Action>): seq<Action>
    decreases |s|
  {
    if s == [] then [] else (if s[0].throws then [s[0]] else []) + Throwing(s[1..])
  }

  lemma {:induction false} ThrowingAppend(s: seq<Action>, t: seq<Action>)
    ensures Throwing(s + t) == Throwing(s) + Throwing(t)
    decreases |s|
  {
    if s != [] {
      assert (s + t)[1..] == s[1..] + t;
      ThrowingAppend(s[1..], t);
    } else {
      assert s + t == t;
    }
  }

  /**
   * The adapter itself. A process-wide singleton in the source; here one
   * object, with its view-id counter handed in.
   */
  class YouTubePlayerAdapter {
    var state: AdapterState
    var viewsCreated: bool
    var queue: seq<Action>
    /** Actions run so far, and those among them that threw (caught and logged). */
    ghost var ran: seq<Action>
    ghost var failed: seq<Action>
    var player: Option<Player>
    /** `setPlayerStyle(CHROMELESS)` was requested of the player. */
    var chromeless: bool
    var timerRunning: bool
    /** The frame last applied to the dialog window's layout parameters. */
    var frame: Option<Frame>
    /** The id given to the video container view. */
    var containerId: int
    /** Everything handed to the event callback, oldest first. */
    var sent: seq<Notification>
    const ids: ViewIdGenerator

    ghost function Model(): Lifecycle
      reads this
    {
      Lifecycle(state, viewsCreated, queue, ran)
    }

    ghost predicate LogsAgree()
      reads this
    {
      failed == Throwing(ran)
    }

    ghost predicate Valid()
      reads this, ids
    {
      && LogsAgree()
      && Inv(Model())
      && (state == Ready ==> player.Some?)
      && (timerRunning ==> player.Some?)
      && ids.Valid()
    }

    constructor (ids: ViewIdGenerator)
      requires ids.Valid()
      ensures Valid()
      ensures Model() == Lifecycle(Initializing, false, [], [])
      ensures player.None? && !timerRunning && sent == [] && this.ids == ids
    {
      state := Initializing;
      viewsCreated := false;
      queue := [];
      ran := [];
      failed := [];
      player := None;
      chromeless := false;
      timerRunning := false;
      frame := None;
      containerId := 0;
      sent := [];
      this.ids := ids;
    }

    /** `init`: only while initializing; builds the views and numbers the container. */
    method Init() returns (r: Outcome<Fault>)
      requires Valid()
      modifies this`viewsCreated, this`containerId, this`frame, ids
      ensures Valid()
      ensures r == InitOutcome(old(state))
      ensures Model() == AfterInit(old(Model()))
      ensures r.Pass? ==> containerId == old(ids.next) && ids.next == NextId(old(ids.next))
      ensures r.Pass? ==> ids.issued == old(ids.issued) + [containerId] && frame.None?
      ensures r.Fail? ==> ids.next == old(ids.next) && containerId == old(containerId) && frame == old(frame)
      ensures r.Fail? ==> ids.issued == old(ids.issued)
    {
      if state != Initializing {
        return Fail(IllegalState(Initializing, state));
      }
      containerId := ids.Generate();
      frame := None;
      viewsCreated := true;
      r := Pass;
    }

    /** `dispose`: always ends closed, and in DISPOSED once `init` has run. */
    method Dispose() returns (r: Outcome<Fault>)
      requires Valid()
      modifies this`state, this`timerRunning
      ensures Valid()
      ensures Model() == AfterDispose(old(Model()))
      ensures !timerRunning
      ensures r == if old(viewsCreated) then Pass else Fail(NullReference)
    {
      state := Disposing;
      timerRunning := false;
      if !viewsCreated {
        return Fail(NullReference);
      }
      // the fragment's removal is attempted; anything it throws is caught
      state := Disposed;
      r := Pass;
    }

    /** `execute`: enqueue, then drain if ready. */
    method Execute(a: Action)
      requires Valid()
      modifies this`queue, this`ran, this`failed
      ensures Valid()
      ensures Model() == AfterExecute(old(Model()), a)
    {
      queue := queue + [a];
      if state == Ready {
        var _ := ExecuteOutstandingActions();
      }
    }

    /**
     * `executeOutstandingActions`: asserts READY, then runs the queue head
     * first until it is empty; an action that throws does not stop the rest.
     */
    method ExecuteOutstandingActions() returns (r: Outcome<Fault>)
      requires LogsAgree()
      modifies this`queue, this`ran, this`failed
      ensures LogsAgree()
      ensures r == if old(state) == Ready then Pass else Fail(IllegalState(Ready, old(state)))
      ensures old(state) == Ready ==> queue == [] && ran == old(ran) + old(queue)
      ensures old(state) == Ready ==> failed == old(failed) + Throwing(old(queue))
      ensures old(state) != Ready ==> queue == old(queue) && ran == old(ran) && failed == old(failed)
    {
      if state != Ready {
        return Fail(IllegalState(Ready, state));
      }
      while queue != []
        invariant ran + queue == old(ran) + old(queue)
        invariant LogsAgree()
        decreases |queue|
      {
        var a := queue[0];
        queue := queue[1..];
        ThrowingAppend(ran, [a]);
        ran := ran + [a];
        if a.throws {
          // caught and logged
          failed := failed + [a];
        }
      }
      ThrowingAppend(old(ran), old(queue));
      r := Pass;
    }

    /** `onInitializationSuccess`: only during player initialization. */
    method OnInitializationSuccess(p: Player, wasRestored: bool)
      requires Valid()
      modifies this`state, this`player, this`chromeless, this`queue, this`ran, this`failed, this`sent
      ensures Valid()
      ensures Model() == AfterInitSuccess(old(Model()))
      ensures old(state) == PlayerInit ==> player == Some(p) && chromeless == (old(chromeless) || !wasRestored)
      ensures old(state) == PlayerInit ==> sent == old(sent) + [Send(DataMsg("playerReady"))]
      ensures old(state) != PlayerInit ==> player == old(player) && chromeless == old(chromeless) && sent == old(sent)
    {
      if state != PlayerInit {
        return;
      }
      state := Ready;
      player := Some(p);
      if !wasRestored {
        chromeless := true;
      }
      var _ := ExecuteOutstandingActions();
      sent := sent + [Send(DataMsg("playerReady"))];
    }

    /** `onInitializationFailure`: reported whatever the state. */
    method OnInitializationFailure()
      modifies this`sent
      ensures sent == old(sent) + [InitFailure]
    {
      sent := sent + [InitFailure];
    }

    /** `onFragmentViewCreated`: only while initializing; parks the view offscreen and starts the player. */
    method OnFragmentViewCreated()
      requires Valid()
      requires viewsCreated  // the fragment only exists once `init` has added it
      modifies this`state, this`frame
      ensures Valid()
      ensures Model() == AfterViewCreated(old(Model()))
      ensures frame == if old(state) == Initializing then Some(OffscreenFrame) else old(frame)
    {
      if state != Initializing {
        return;
      }
      SetVideoFrame(OffscreenFrame);
      state := PlayerInit;
    }

    /** `onFragmentViewDestroyed`: the SDK player is gone; allow initialization again. */
    method OnFragmentViewDestroyed()
      requires Valid()
      modifies this`state
      ensures Valid()
      ensures Model() == AfterViewDestroyed(old(Model()))
    {
      state := Initializing;
    }

    /** The player event callbacks: each does nothing unless the adapter is ready. */
    method HandleEvent(e: PlayerEvent)
      requires Valid()
      modifies this`sent, this`timerRunning
      ensures Valid()
      ensures state != Ready ==> sent == old(sent) && timerRunning == old(timerRunning)
      ensures state == Ready ==> sent == SendAll(old(sent), ReactionTo(e).message)
      ensures state == Ready ==> timerRunning == TimerAfter(old(timerRunning), ReactionTo(e).timer)
    {
      if state != Ready {
        return;
      }
      var reaction := ReactionTo(e);
      timerRunning := TimerAfter(timerRunning, reaction.timer);
      sent := SendAll(sent, reaction.message);
    }

    /**
     * `sendTimeData`, run by the timer: whole seconds, only while the player
     * reports that it is playing (the player's answers are the parameters).
     */
    method SendTimeData(isPlaying: bool, currentMs: Int32, durationMs: Int32)
      requires Valid()
      requires timerRunning
      modifies this`sent
      ensures sent == if isPlaying then old(sent) + [Send(TimeMessage(currentMs, durationMs))] else old(sent)
    {
      if !isPlaying {
        return;
      }
      sent := sent + [Send(TimeMessage(currentMs, durationMs))];
    }

    /** `setVideoFrame`: not gated on the state. */
    method SetVideoFrame(f: Frame)
      requires viewsCreated  // the layout parameters are created by `init`
      modifies this`frame
      ensures frame == Some(f)
    {
      frame := Some(f);
    }
  }
}
