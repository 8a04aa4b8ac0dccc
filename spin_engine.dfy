/**
 * The SpinItUp engine (lib/spinitup.js): a wheel with a state machine
 * (stopped, spinning, finished, error), a stop angle drawn at random inside
 * the winning slice, and a callback that is told about every transition.
 *
 * The host element, the CSS keyframes and the animation are left to the
 * browser; the engine keeps the rotation it writes into the keyframe.
 * Math.random() is a parameter r with 0 <= r < 1, Date.now() a parameter now,
 * and the setTimeout that calls stop() is the method TimerFires.
 */
module Engine {
  import opened Wrappers
  import opened SpinMath
  import opened JsValues

  datatype State = Spinning | Stopped | Finished | Error

  /** The data object handed to the callback, without its timestamp. */
  datatype Payload<S> = NoData | Message(message: string) | Won(segment: S)

  /** One call of the user callback: (type, {...data, timestamp}). */
  datatype Event<S> = Event(kind: State, data: Payload<S>, timestamp: int)

  const NotAnElement := "Element is not a valid HTMLElement"
  const AlreadySpinning := "Wheel is already spinning"
  const CannotStop := "Cannot stop; wheel is not spinning"

  function StopAtMessage(count: nat): string {
    "stopAt must be a valid Number within the segments array 1 - " + NatToString(count)
  }

  /**
   * The two checks of the constructor: the element must be an HTMLElement and
   * segments[stopAt - 1] must exist (stopAt None stands for the default null).
   * The result is the message of the Error thrown, or None when construction goes on.
   */
  function ConstructionError<S>(isElement: bool, segments: seq<S>, stopAt: Option<int>): (e: Option<string>)
    ensures e.None? <==> isElement && stopAt.Some? && 1 <= stopAt.value <= |segments|
    ensures !isElement ==> e == Some(NotAnElement)
    ensures isElement && e.Some? ==> e == Some(StopAtMessage(|segments|))
  {
    if !isElement then Some(NotAnElement)
    else if stopAt.None? || !(1 <= stopAt.value <= |segments|) then Some(StopAtMessage(|segments|))
    else None
  }

  /**
   * The options a caller passes to the constructor; an absent field takes the
   * default. callbackIsFunction stands for typeof options.callback === 'function'.
   */
  datatype EngineOptions = EngineOptions(spins: Option<int>, direction: Option<string>,
                                         segments: Option<seq<map<string, Value>>>, stopAt: Option<int>,
                                         callbackIsFunction: Option<bool>)

  /** The options in effect after { spins: 2, direction: 'clockwise', callback, segments, stopAt: null, ...options }. */
  datatype Settings = Settings(spins: int, direction: string, segments: seq<map<string, Value>>, stopAt: Option<int>,
                               hasCallback: bool)

  /** Array.from({ length: 6 }, (_, i) => ({ segment: i + 1 })): the segments 1 to 6. */
  function DefaultSegments(): (segs: seq<map<string, Value>>)
    ensures |segs| == 6
    ensures forall i :: 0 <= i < |segs| ==> segs[i] == map["segment" := Num(i + 1)]
  {
    seq(6, i requires 0 <= i < 6 => map["segment" := Num(i + 1)])
  }

  /**
   * The defaults merged with the options: two spins, clockwise, the six default
   * segments, stopAt null and the console.log callback, each overridden when given.
   */
  function ApplyDefaults(o: EngineOptions): (s: Settings)
    ensures s.spins == o.spins.GetOr(2) && s.direction == o.direction.GetOr("clockwise")
    ensures s.segments == o.segments.GetOr(DefaultSegments()) && s.stopAt == o.stopAt
    ensures s.hasCallback == o.callbackIsFunction.GetOr(true)
  {
    Settings(o.spins.GetOr(2), o.direction.GetOr("clockwise"), o.segments.GetOr(DefaultSegments()), o.stopAt,
             o.callbackIsFunction.GetOr(true))
  }

  /**
   * new SpinItUp(elem, { stopAt: k }) runs two clockwise spins over the six
   * default segments and tells the default callback; it throws unless 1 <= k <= 6.
   */
  lemma StopAtOnlyOptions(isElement: bool, k: int)
    ensures var s := ApplyDefaults(EngineOptions(None, None, None, Some(k), None));
            && s.spins == 2 && s.direction == "clockwise" && |s.segments| == 6 && s.hasCallback
            && (ConstructionError(isElement, s.segments, s.stopAt).None? <==> isElement && 1 <= k <= 6)
  {
  }

  /** The default option stopAt: null always makes the constructor throw. */
  lemma DefaultStopAtThrows<S>(isElement: bool, segments: seq<S>)
    ensures ConstructionError(isElement, segments, None).Some?
  {
  }

  /** The operations that change the state: start(), stop() (called directly or by the timer) and reset(). */
  datatype Op = Start | Stop | Reset

  /** The state after an operation: start only from stopped, stop only from spinning, reset always. */
  function Next(s: State, op: Op): State {
    match op
    case Start => if s == Stopped then Spinning else s
    case Stop => if s == Spinning then Finished else s
    case Reset => Stopped
  }

  /**
   * The state an operation reports as entered (a callback without a message),
   * or None when it is refused and reports the unchanged state with a message.
   */
  function Entered(s: State, op: Op): (e: Option<State>)
    ensures e.Some? ==> e.value == Next(s, op)
    ensures e.None? ==> Next(s, op) == s
  {
    match op
    case Start => if s == Stopped then Some(Spinning) else None
    case Stop => if s == Spinning then Some(Finished) else None
    case Reset => Some(Stopped)
  }

  /** The state after a sequence of operations. */
  function Run(s: State, ops: seq<Op>): State
    decreases |ops|
  {
    if ops == [] then s else Run(Next(s, ops[0]), ops[1..])
  }

  /** The states a sequence of operations enters, in order. */
  function Entries(s: State, ops: seq<Op>): seq<State>
    decreases |ops|
  {
    if ops == [] then []
    else
      var e := Entered(s, ops[0]);
      (if e.Some? then [e.value] else []) + Entries(Next(s, ops[0]), ops[1..])
  }

  /** Each entry into finished in t follows an entry into spinning (or the initial state s is spinning). */
  ghost predicate FinishesFollowSpins(s: State, t: seq<State>) {
    forall i {:trigger t[i]} :: 0 <= i < |t| && t[i] == Finished ==> (if i == 0 then s else t[i - 1]) == Spinning
  }

  /**
   * Every entry into finished comes straight after an entry into spinning (or
   * from an initial spinning state): a wheel never finishes twice for one spin,
   * however many stop() calls or stale timers arrive.
   */
  lemma {:induction false} FinishedOnlyAfterSpinning(s: State, ops: seq<Op>)
    ensures FinishesFollowSpins(s, Entries(s, ops))
    decreases |ops|
  {
    if ops != [] {
      var s1 := Next(s, ops[0]);
      var t' := Entries(s1, ops[1..]);
      FinishedOnlyAfterSpinning(s1, ops[1..]);
      var t := Entries(s, ops);
      if Entered(s, ops[0]).Some? {
        assert t == [s1] + t';
        forall i | 0 <= i < |t| && t[i] == Finished
          ensures (if i == 0 then s else t[i - 1]) == Spinning
        {
          if i == 0 {
            assert Entered(s, ops[0]) == Some(Finished);
            assert ops[0] == Stop && s == Spinning;
          } else {
            assert t'[i - 1] == t[i];
            assert t[i - 1] == if i == 1 then s1 else t'[i - 2];
          }
        }
      } else {
        assert t == t' && s1 == s;
      }
    }
  }

  /** A finished wheel must be reset before it can spin again; reset then start always spins. */
  lemma FinishedNeedsReset(s: State)
    ensures Next(Finished, Start) == Finished
    ensures Run(s, [Reset, Start]) == Spinning
    ensures Run(s, [Reset, Start, Stop]) == Finished
  {
  }

  /**
   * The timer of a first spin is never cancelled: after reset() and a second
   * start(), its stop() ends the second spin. Entering states from stopped:
   * spinning, stopped, spinning, finished.
   */
  lemma StaleTimerEndsNextSpin()
    ensures Entries(Stopped, [Start, Reset, Start, Stop]) == [Spinning, Stopped, Spinning, Finished]
  {
  }

  class SpinItUp<S> {
    const segments: seq<S>
    const stopAt: int
    const spins: int
    /** typeof options.callback === 'function' */
    const hasCallback: bool
    var state: State
    var direction: string
    var stopAngle: int
    /** The rotation in degrees written into the keyframe by the last style(). */
    var rotation: int
    /** Timers set by start() whose stop() has not run yet; none is ever cancelled. */
    var pendingTimers: nat
    /** Every call of the user callback so far. */
    var events: seq<Event<S>>

    ghost predicate Valid()
      reads this
    {
      && 1 <= stopAt <= |segments|
      && direction in Directions
      && rotation == RotationDegrees(spins, stopAngle, direction)
      && (|segments| <= 18 ==>
            StopInSlice(|segments|, stopAt, stopAngle))
    }

    /** The events one callback(type, data) call adds: one when the callback is a function, none otherwise. */
    function Notify(kind: State, data: Payload<S>, now: int): seq<Event<S>> {
      if hasCallback then [Event(kind, data, now)] else []
    }

    /**
     * new SpinItUp(elem, options) once its checks have passed (see ConstructionError
     * and Create): state stopped, a first stop angle and direction from style().
     */
    constructor (segments: seq<S>, stopAt: int, spins: int, direction: string, hasCallback: bool, r: real, rDir: real)
      requires 1 <= stopAt <= |segments| && 0.0 <= r < 1.0
      ensures Valid()
      ensures this.segments == segments && this.stopAt == stopAt && this.spins == spins && this.hasCallback == hasCallback
      ensures state == Stopped && events == [] && pendingTimers == 0
      ensures stopAngle == StopAngle(|segments|, stopAt, r)
      ensures this.direction == ResolveDirection(direction, rDir)
    {
      this.segments := segments;
      this.stopAt := stopAt;
      this.spins := spins;
      this.hasCallback := hasCallback;
      this.direction := direction;
      state := Stopped;
      events := [];
      pendingTimers := 0;
      new;
      Style(r, rDir);
    }

    /**
     * The constructor with its checks: a Failure carries the message of the Error
     * thrown; otherwise a new stopped engine.
     */
    static method Create(isElement: bool, segments: seq<S>, stopAt: Option<int>, spins: int, direction: string,
                         hasCallback: bool, r: real, rDir: real)
      returns (res: Result<SpinItUp<S>>)
      requires 0.0 <= r < 1.0
      ensures ConstructionError(isElement, segments, stopAt).Some? <==> res.Failure?
      ensures res.Failure? ==> res.error == ConstructionError(isElement, segments, stopAt).value
      ensures res.Success? ==> fresh(res.value) && res.value.Valid() && res.value.state == Stopped
                               && res.value.segments == segments && res.value.stopAt == stopAt.value
                               && res.value.spins == spins && res.value.hasCallback == hasCallback
                               && res.value.direction == NormalizeDirection(direction)
                               && res.value.stopAngle == StopAngle(|segments|, stopAt.value, r)
                               && res.value.events == [] && res.value.pendingTimers == 0
    {
      var err := ConstructionError(isElement, segments, stopAt);
      if err.Some? {
        return Failure(err.value);
      }
      var engine := new SpinItUp(segments, stopAt.value, spins, direction, hasCallback, r, rDir);
      RandomDirectionUnreachable(direction, rDir, rDir);
      return Success(engine);
    }

    /** updateStopAngle(): a new random stop angle inside the winning slice. */
    method UpdateStopAngle(r: real)
      requires 1 <= stopAt <= |segments| && 0.0 <= r < 1.0
      modifies this`stopAngle
      ensures stopAngle == StopAngle(|segments|, stopAt, r)
      ensures |segments| <= 18 ==>
                StopInSlice(|segments|, stopAt, stopAngle)
    {
      var slice := SliceDegrees(|segments|);
      stopAngle := PickInWindow(stopAt as real * slice, slice, r);
      assert stopAngle == StopAngle(|segments|, stopAt, r);
      if |segments| <= 18 {
        StopAngleInsideSlice(|segments|, stopAt, r);
        assert StopInSlice(|segments|, stopAt, stopAngle);
      }
    }

    /**
     * style(): new stop angle, direction normalized (an unknown one, "random"
     * included, becomes clockwise), and the keyframe rotation for them.
     */
    method Style(r: real, rDir: real)
      requires 1 <= stopAt <= |segments| && 0.0 <= r < 1.0
      modifies this`stopAngle, this`direction, this`rotation
      ensures Valid()
      ensures stopAngle == StopAngle(|segments|, stopAt, r)
      ensures direction == ResolveDirection(old(direction), rDir)
      ensures direction == NormalizeDirection(old(direction))
    {
      UpdateStopAngle(r);
      var deg := 360 * spins;
      var dir := direction;
      if dir !in Directions {
        dir := "clockwise";
      }
      if dir == "random" {
        dir := RandomDirection(rDir);
      }
      if dir == "clockwise" {
        deg := deg + (360 - stopAngle);
      } else if dir == "anti-clockwise" {
        deg := -(deg + stopAngle);
      }
      direction := dir;
      rotation := deg;
      RandomDirectionUnreachable(old(direction), rDir, rDir);
    }

    /** callback(type, data): the user callback, if it is a function, gets the data and a timestamp. */
    method Callback(kind: State, data: Payload<S>, now: int)
      modifies this`events
      ensures events == old(events) + Notify(kind, data, now)
    {
      if hasCallback {
        events := events + [Event(kind, data, now)];
      }
    }

    /**
     * start(): only from stopped. It then spins with a fresh stop angle, tells the
     * callback, and sets a timer for stop(). In any other state, finished included,
     * nothing changes and the callback hears "Wheel is already spinning".
     */
    method Start(now: int, r: real, rDir: real)
      requires Valid() && 0.0 <= r < 1.0
      modifies this
      ensures Valid()
      ensures state == Next(old(state), Op.Start)
      ensures old(state) == Stopped ==>
                && stopAngle == StopAngle(|segments|, stopAt, r)
                && direction == NormalizeDirection(old(direction))
                && pendingTimers == old(pendingTimers) + 1
                && events == old(events) + Notify(Spinning, NoData, now)
      ensures old(state) != Stopped ==>
                && stopAngle == old(stopAngle) && direction == old(direction) && rotation == old(rotation)
                && pendingTimers == old(pendingTimers)
                && events == old(events) + Notify(old(state), Message(AlreadySpinning), now)
    {
      if state != Stopped {
        Callback(state, Message(AlreadySpinning), now);
        return;
      }
      state := Spinning;
      Spin(now, r, rDir);
    }

    /** #spin(): style(), tell the callback, and set the timer (never cancelled) that calls stop(). */
    method Spin(now: int, r: real, rDir: real)
      requires 1 <= stopAt <= |segments| && 0.0 <= r < 1.0
      modifies this`stopAngle, this`direction, this`rotation, this`events, this`pendingTimers
      ensures Valid()
      ensures stopAngle == StopAngle(|segments|, stopAt, r)
      ensures direction == NormalizeDirection(old(direction))
      ensures events == old(events) + Notify(state, NoData, now)
      ensures pendingTimers == old(pendingTimers) + 1
    {
      Style(r, rDir);
      Callback(state, NoData, now);
      pendingTimers := pendingTimers + 1;
    }

    /** getWinningSegment(): the segment stopAt names, whatever the random angle was. */
    function WinningSegment(): S
      requires 1 <= stopAt <= |segments|
    {
      segments[stopAt - 1]
    }

    /**
     * stop(): from spinning, finish and report the winning segment
     * segments[stopAt - 1]; otherwise change nothing and report "Cannot stop".
     */
    method Stop(now: int)
      requires Valid()
      modifies this`state, this`events
      ensures Valid()
      ensures state == Next(old(state), Op.Stop)
      ensures old(state) == Spinning ==> events == old(events) + Notify(Finished, Won(segments[stopAt - 1]), now)
      ensures old(state) != Spinning ==> events == old(events) + Notify(old(state), Message(CannotStop), now)
    {
      if state != Spinning {
        Callback(state, Message(CannotStop), now);
        return;
      }
      state := Finished;
      Callback(state, Won(WinningSegment()), now);
    }

    /**
     * A pending timer goes off and calls stop(). After an early stop() or a
     * reset() it only produces the "Cannot stop" notification.
     */
    method TimerFires(now: int)
      requires Valid() && pendingTimers > 0
      modifies this`state, this`events, this`pendingTimers
      ensures Valid()
      ensures pendingTimers == old(pendingTimers) - 1
      ensures state == Next(old(state), Op.Stop)
      ensures old(state) == Spinning ==> events == old(events) + Notify(Finished, Won(segments[stopAt - 1]), now)
      ensures old(state) != Spinning ==> events == old(events) + Notify(old(state), Message(CannotStop), now)
    {
      pendingTimers := pendingTimers - 1;
      Stop(now);
    }

    /** reset(): back to stopped from any state, and the callback is told. */
    method Reset(now: int)
      requires Valid()
      modifies this`state, this`events
      ensures Valid()
      ensures state == Stopped && state == Next(old(state), Op.Reset)
      ensures events == old(events) + Notify(Stopped, NoData, now)
    {
      state := Stopped;
      Callback(state, NoData, now);
    }
  }

  /**
   * new SpinItUp(elem, options): the defaults are merged with the options, then
   * the constructor's checks run on the result.
   */
  method Construct(isElement: bool, options: EngineOptions, r: real, rDir: real)
    returns (res: Result<SpinItUp<map<string, Value>>>)
    requires 0.0 <= r < 1.0
    ensures var s := ApplyDefaults(options);
            && (res.Failure? <==> ConstructionError(isElement, s.segments, s.stopAt).Some?)
            && (res.Failure? ==> res.error == ConstructionError(isElement, s.segments, s.stopAt).value)
    ensures var s := ApplyDefaults(options);
            res.Success? ==>
              && fresh(res.value) && res.value.Valid() && res.value.state == Stopped
              && res.value.segments == s.segments && res.value.stopAt == s.stopAt.value
              && res.value.spins == s.spins && res.value.hasCallback == s.hasCallback
              && res.value.direction == NormalizeDirection(s.direction)
  {
    var s := ApplyDefaults(options);
    res := SpinItUp.Create(isElement, s.segments, s.stopAt, s.spins, s.direction, s.hasCallback, r, rDir);
  }

  /**
   * stop() called mid-spin finishes at once with the winning segment; the timer
   * that start() set then only reports "Cannot stop".
   */
  method EarlyStopThenTimer<S>(engine: SpinItUp<S>, t0: int, t1: int, t2: int, r: real, rDir: real)
    requires engine.Valid() && engine.state == Stopped && engine.hasCallback && 0.0 <= r < 1.0
    modifies engine
    ensures engine.state == Finished
    ensures |engine.events| == |old(engine.events)| + 3
    ensures engine.events[|engine.events| - 3..] ==
              [Event(Spinning, NoData, t0), Event(Finished, Won(engine.segments[engine.stopAt - 1]), t1),
               Event(Finished, Message(CannotStop), t2)]
  {
    engine.Start(t0, r, rDir);
    engine.Stop(t1);
    engine.TimerFires(t2);
  }
}
