/** The idle watchdog of a stream and the relay loop that it guards, as
    interleaved atomic steps (internal/router/router.go:666-698, 744-805).

    Two goroutines, a timer and a clock take turns in any order. They share a
    one-slot reset channel, a stop channel, a done channel, the expired flag and
    the upstream body. */
module Watchdog {
  import opened Sequences
  import opened DoneScanner
  import S = StreamLoop

  type Time = int

  /** Where the watchdog goroutine stands: before the statement named. */
  datatype Guard =
    | Arming       // time.NewTimer
    | Selecting    // the three-way select
    | Halting      // timer.Stop after a consumed reset
    | Draining     // non-blocking receive from the timer channel
    | Rearming     // timer.Reset
    | Storing      // expired.Store(true)
    | Closing      // reader.Close
    | Disarming    // deferred timer.Stop
    | ClosingDone  // deferred close(done)
    | Gone

  /** The error variable of the loop. */
  datatype LoopError = Nil | Eof | Failed | ClosedByGuard | DeadlineExceeded

  /** Where the relay loop stands. */
  datatype Relay =
    | Reading
    | Checking(chunk: Bytes, err: LoopError)
    | Writing(chunk: Bytes, err: LoopError)
    | Resetting(err: LoopError)
    | Deciding(err: LoopError)
    | TestingDone  // first select of Stop
    | TestingStop  // second select of Stop
    | ClosingStop  // close(stop)
    | Waiting      // <-done
    | Stopped

  datatype Verdict = Undecided | Completed | Aborted

  /** A timer that is running, has fired and is about to send, or has sent its tick. */
  datatype Timer = Timer(armed: bool, deadline: Time, sending: bool, tick: bool)

  /** What the goroutines share. `doubleClose` records a close of a closed channel, which panics. */
  datatype Board = Board(resetSlot: bool, expired: bool, stopClosed: bool, doneClosed: bool,
                         bodyClosed: bool, doubleClose: bool)

  /** `marker` is the latched answer of the scanner for everything relayed. */
  datatype Loop = Loop(at: Relay, relayed: Bytes, marker: bool, sawExpired: bool, verdict: Verdict)

  /** History that no step reads. The first four are the times of the latest such
      event, or the start, 0. The next five are set when the guard takes a tick: the
      time, the latest call of Reset and the latest relayed chunk before it, whether a
      reset was pending, and whether the loop was about to reset. The last two are the
      current turn of the loop and those behind it. */
  datatype Past = Past(relayed: Time, resetCalled: Time, resetTaken: Time, timerStarted: Time,
                       gaveUp: Time, calledBefore: Time, relayedBefore: Time, pending: bool, resetting: bool,
                       turn: S.Turn, turns: seq<S.Turn>)

  /** With `synchronous` timer channels (Go 1.23 and later) a timer fires and sends in
      one step and Stop discards an unread tick. Before, it fired first and sent later,
      into a buffer that Stop left alone. */
  datatype State = State(timeout: Time, synchronous: bool, now: Time,
                         guard: Guard, timer: Timer, board: Board, loop: Loop, past: Past)

  datatype ClockStep = Advance(elapsed: nat) | Fire | Deliver
  datatype GuardStep =
    | Arm | TakeReset | TakeTick | TakeStop | Halt | Drain | Rearm | StoreExpired | CloseBody | Disarm | CloseDone
  datatype LoopStep =
    | Read(chunk: Bytes, err: LoopError) | Check | Write(write: S.Write) | Reset | Decide
    | TestDone | TestStop | CloseStop | Wait | StopAgain
  datatype Step = ByClock(clock: ClockStep) | ByGuard(guard: GuardStep) | ByLoop(loop: LoopStep)

  /** `newStreamWatchdog`: without a positive timeout no goroutine is started. */
  function Init(timeout: Time, synchronous: bool): State {
    State(timeout, synchronous, 0, if timeout <= 0 then Gone else Arming, Timer(false, 0, false, false),
          Board(false, false, false, timeout <= 0, false, false), Loop(Reading, [], false, false, Undecided),
          Past(0, 0, 0, 0, 0, 0, 0, false, false, S.Turn([], S.Nil, false, S.Written), []))
  }

  predicate ClockEnabled(s: State, step: ClockStep) {
    match step
    case Advance(_) => true
    case Fire => s.timer.armed && s.timer.deadline <= s.now
    case Deliver => s.timer.sending
  }

  function ClockApply(s: State, step: ClockStep): State {
    match step
    case Advance(elapsed) => s.(now := s.now + elapsed)
    case Fire => s.(timer := s.timer.(armed := false, sending := !s.synchronous, tick := s.timer.tick || s.synchronous))
    case Deliver => s.(timer := s.timer.(sending := false, tick := true))
  }

  predicate GuardEnabled(s: State, step: GuardStep) {
    match step
    case Arm => s.guard.Arming?
    case TakeReset => s.guard.Selecting? && s.board.resetSlot
    case TakeTick => s.guard.Selecting? && s.timer.tick
    case TakeStop => s.guard.Selecting? && s.board.stopClosed
    case Halt => s.guard.Halting?
    case Drain => s.guard.Draining?
    case Rearm => s.guard.Rearming?
    case StoreExpired => s.guard.Storing?
    case CloseBody => s.guard.Closing?
    case Disarm => s.guard.Disarming?
    case CloseDone => s.guard.ClosingDone?
  }

  function StartTimer(s: State): State {
    s.(guard := Selecting,
       timer := s.timer.(armed := true, deadline := s.now + s.timeout),
       past := s.past.(timerStarted := s.now))
  }

  function GuardApply(s: State, step: GuardStep): State {
    match step
    case Arm => StartTimer(s)
    case TakeReset =>
      s.(guard := Halting, board := s.board.(resetSlot := false), past := s.past.(resetTaken := s.now))
    case TakeTick =>
      s.(guard := Storing, timer := s.timer.(tick := false),
         past := s.past.(gaveUp := s.now, calledBefore := s.past.resetCalled, relayedBefore := s.past.relayed,
                         pending := s.board.resetSlot, resetting := s.loop.at.Resetting?))
    case TakeStop => s.(guard := Disarming)
    case Halt =>
      var stopped := s.timer.armed || (s.synchronous && s.timer.tick);
      if stopped then s.(guard := Rearming, timer := s.timer.(armed := false, tick := s.timer.tick && !s.synchronous))
      else s.(guard := Draining)
    case Drain => s.(guard := Rearming, timer := s.timer.(tick := false))
    case Rearm => StartTimer(s)
    case StoreExpired => s.(guard := Closing, board := s.board.(expired := true))
    case CloseBody => s.(guard := Disarming, board := s.board.(bodyClosed := true))
    case Disarm => s.(guard := ClosingDone, timer := s.timer.(armed := false))
    case CloseDone =>
      s.(guard := Gone, board := s.board.(doneClosed := true, doubleClose := s.board.doubleClose || s.board.doneClosed))
  }

  /** The error of the read itself, as a script of the loop has it. */
  function Plain(err: LoopError): S.ReadError {
    match err
    case Nil => S.Nil
    case Eof => S.Eof
    case _ => S.Failed
  }

  predicate LoopEnabled(s: State, step: LoopStep) {
    match step
    case Read(_, err) =>
      s.loop.at.Reading? && err != DeadlineExceeded && (err == ClosedByGuard ==> s.board.bodyClosed)
    case Check => s.loop.at.Checking?
    case Write(_) => s.loop.at.Writing?
    case Reset => s.loop.at.Resetting?
    case Decide => s.loop.at.Deciding?
    case TestDone => s.loop.at.TestingDone?
    case TestStop => s.loop.at.TestingStop?
    case CloseStop => s.loop.at.ClosingStop?
    case Wait => s.loop.at.Waiting? && s.board.doneClosed
    case StopAgain => s.loop.at.Stopped?
  }

  function LoopApply(s: State, step: LoopStep): State
    requires LoopEnabled(s, step)
  {
    var l := s.loop;
    match step
    case Read(chunk, err) => s.(loop := l.(at := Checking(chunk, err)))
    case Check =>
      var err := if s.board.expired then DeadlineExceeded else l.at.err;
      s.(loop := l.(at := if l.at.chunk != [] then Writing(l.at.chunk, err) else Deciding(err),
                    sawExpired := l.sawExpired || s.board.expired),
         past := s.past.(turn := S.Turn(l.at.chunk, Plain(l.at.err), s.board.expired, S.Written)))
    case Write(write) =>
      if write.Written? then
        var relayed := l.relayed + l.at.chunk;
        s.(loop := l.(at := Resetting(l.at.err), relayed := relayed, marker := Contains(relayed, MARKER)),
           past := s.past.(relayed := s.now))
      else
        s.(loop := l.(at := TestingDone, verdict := Aborted),
           past := s.past.(turns := s.past.turns + [s.past.turn.(write := write)]))
    case Reset =>
      s.(loop := l.(at := Deciding(l.at.err)), board := s.board.(resetSlot := true),
         past := s.past.(resetCalled := s.now))
    case Decide =>
      s.(loop := if l.at.err.Nil? then l.(at := Reading)
                 else l.(at := TestingDone, verdict := if l.marker && l.at.err.Eof? then Completed else Aborted),
         past := s.past.(turns := s.past.turns + [s.past.turn]))
    case TestDone => s.(loop := l.(at := if s.board.doneClosed then Stopped else TestingStop))
    case TestStop => s.(loop := l.(at := if s.board.stopClosed then Waiting else ClosingStop))
    case CloseStop =>
      s.(loop := l.(at := Waiting),
         board := s.board.(stopClosed := true, doubleClose := s.board.doubleClose || s.board.stopClosed))
    case Wait => s.(loop := l.(at := Stopped))
    case StopAgain => s.(loop := l.(at := TestingDone))
  }

  predicate Enabled(s: State, step: Step) {
    match step
    case ByClock(c) => ClockEnabled(s, c)
    case ByGuard(g) => GuardEnabled(s, g)
    case ByLoop(l) => LoopEnabled(s, l)
  }

  function Apply(s: State, step: Step): State
    requires Enabled(s, step)
  {
    match step
    case ByClock(c) => ClockApply(s, c)
    case ByGuard(g) => GuardApply(s, g)
    case ByLoop(l) => LoopApply(s, l)
  }

  ghost predicate Feasible(s: State, steps: seq<Step>)
    decreases |steps|
  {
    steps == [] || (Enabled(s, steps[0]) && Feasible(Apply(s, steps[0]), steps[1..]))
  }

  ghost function Run(s: State, steps: seq<Step>): State
    requires Feasible(s, steps)
    decreases |steps|
  {
    if steps == [] then s else Run(Apply(s, steps[0]), steps[1..])
  }

  // ---------- What every reachable state satisfies ----------

  predicate GivesUp(g: Guard) {
    g.Closing? || g.Disarming? || g.ClosingDone? || g.Gone?
  }

  predicate Handling(at: Relay) {
    at.Writing? || at.Resetting? || at.Deciding?
  }

  predicate Stopping(at: Relay) {
    at.TestingDone? || at.TestingStop? || at.ClosingStop? || at.Waiting? || at.Stopped?
  }

  /** Channels, flags and body. */
  predicate BoardInv(s: State) {
    var b := s.board;
    && !b.doubleClose
    && (b.doneClosed <==> s.guard.Gone?)
    && (b.bodyClosed || s.guard.Closing? ==> b.expired)
    && (b.expired ==> GivesUp(s.guard))
    && (s.timeout <= 0 ==> s.guard.Gone? && !b.expired)
    && (b.stopClosed ==> Stopping(s.loop.at) && !s.loop.at.ClosingStop?)
  }

  /** The relay loop. */
  predicate LoopInv(s: State) {
    var l := s.loop;
    && (l.at.Checking? ==> l.at.err != DeadlineExceeded && (l.at.err == ClosedByGuard ==> s.board.expired))
    && (Handling(l.at) ==> l.at.err != ClosedByGuard && (l.sawExpired ==> l.at.err == DeadlineExceeded))
    && (l.sawExpired ==> s.board.expired && (Handling(l.at) || Stopping(l.at)))
    && (l.verdict.Completed? ==> l.marker && !l.sawExpired)
    && (l.verdict.Undecided? <==> !Stopping(l.at))
    && (l.at.Waiting? ==> s.board.stopClosed)
    && (l.at.Stopped? ==> s.board.doneClosed)
  }

  /** No tick outlives a restart of the timer, and every tick is due. */
  predicate TimerInv(s: State) {
    var t, p := s.timer, s.past;
    && s.synchronous && !t.sending
    && p.timerStarted <= s.now
    && (t.armed ==> !t.tick && (s.guard.Selecting? || s.guard.Halting? || s.guard.Disarming?))
    && (t.armed ==> t.deadline == p.timerStarted + s.timeout)
    && (t.tick ==> p.timerStarted + s.timeout <= s.now)
    && (s.guard.Arming? || s.guard.Rearming? ==> !t.armed && !t.tick)
    && (s.guard.Selecting? || s.guard.Halting? ==> t.armed || t.tick)
    && !s.guard.Draining?
  }

  /** A reset that the slot does not hold is covered by a later start of the timer. */
  predicate ResetInv(s: State) {
    var p := s.past;
    && p.resetCalled <= s.now
    && p.relayed <= s.now
    && (!s.loop.at.Resetting? ==> p.relayed <= p.resetCalled)
    && p.resetTaken <= s.now
    && (s.guard.Selecting? ==> p.resetTaken <= p.timerStarted)
    && (!s.board.resetSlot ==> p.resetCalled <= p.resetTaken)
  }

  /** The guard gives up only after a full timeout without a consumed reset, and,
      if no reset was pending, without any reset. */
  predicate ExpiryInv(s: State) {
    s.guard.Storing? || s.board.expired ==>
      && s.past.resetTaken + s.timeout <= s.past.gaveUp <= s.now
      && (!s.past.pending ==> s.past.calledBefore + s.timeout <= s.past.gaveUp)
      && (!s.past.pending && !s.past.resetting ==> s.past.relayedBefore + s.timeout <= s.past.gaveUp)
  }

  /** What holds with synchronous timer channels only. */
  predicate IdleInv(s: State) {
    s.synchronous ==> TimerInv(s) && ResetInv(s) && ExpiryInv(s)
  }

  predicate Inv(s: State) {
    BoardInv(s) && LoopInv(s) && IdleInv(s)
  }

  lemma GuardKeepsBoard(s: State, step: GuardStep)
    requires BoardInv(s) && GuardEnabled(s, step)
    ensures BoardInv(GuardApply(s, step))
  {
  }

  lemma LoopKeepsBoard(s: State, step: LoopStep)
    requires BoardInv(s) && LoopInv(s) && LoopEnabled(s, step)
    ensures BoardInv(LoopApply(s, step))
  {
  }

  lemma StepKeepsBoard(s: State, step: Step)
    requires BoardInv(s) && LoopInv(s) && Enabled(s, step)
    ensures BoardInv(Apply(s, step))
  {
    match step
    case ByClock(_) =>
    case ByGuard(g) => GuardKeepsBoard(s, g);
    case ByLoop(l) => LoopKeepsBoard(s, l);
  }

  lemma GuardKeepsLoop(s: State, step: GuardStep)
    requires BoardInv(s) && LoopInv(s) && GuardEnabled(s, step)
    ensures LoopInv(GuardApply(s, step))
  {
  }

  lemma LoopKeepsLoop(s: State, step: LoopStep)
    requires BoardInv(s) && LoopInv(s) && LoopEnabled(s, step)
    ensures LoopInv(LoopApply(s, step))
  {
  }

  lemma StepKeepsLoop(s: State, step: Step)
    requires BoardInv(s) && LoopInv(s) && Enabled(s, step)
    ensures LoopInv(Apply(s, step))
  {
    match step
    case ByClock(_) =>
    case ByGuard(g) => GuardKeepsLoop(s, g);
    case ByLoop(l) => LoopKeepsLoop(s, l);
  }

  lemma StepKeepsTimer(s: State, step: Step)
    requires TimerInv(s) && Enabled(s, step)
    ensures TimerInv(Apply(s, step))
  {
  }

  lemma GuardKeepsResets(s: State, step: GuardStep)
    requires TimerInv(s) && ResetInv(s) && GuardEnabled(s, step)
    ensures ResetInv(GuardApply(s, step))
  {
  }

  lemma LoopKeepsResets(s: State, step: LoopStep)
    requires TimerInv(s) && ResetInv(s) && LoopEnabled(s, step)
    ensures ResetInv(LoopApply(s, step))
  {
  }

  lemma StepKeepsResets(s: State, step: Step)
    requires TimerInv(s) && ResetInv(s) && Enabled(s, step)
    ensures ResetInv(Apply(s, step))
  {
    match step
    case ByClock(_) =>
    case ByGuard(g) => GuardKeepsResets(s, g);
    case ByLoop(l) => LoopKeepsResets(s, l);
  }

  lemma GuardKeepsExpiry(s: State, step: GuardStep)
    requires BoardInv(s) && TimerInv(s) && ResetInv(s) && ExpiryInv(s) && GuardEnabled(s, step)
    ensures ExpiryInv(GuardApply(s, step))
  {
  }

  lemma LoopKeepsExpiry(s: State, step: LoopStep)
    requires ExpiryInv(s) && LoopEnabled(s, step)
    ensures ExpiryInv(LoopApply(s, step))
  {
  }

  lemma StepKeepsExpiry(s: State, step: Step)
    requires BoardInv(s) && TimerInv(s) && ResetInv(s) && ExpiryInv(s) && Enabled(s, step)
    ensures ExpiryInv(Apply(s, step))
  {
    match step
    case ByClock(_) =>
    case ByGuard(g) => GuardKeepsExpiry(s, g);
    case ByLoop(l) => LoopKeepsExpiry(s, l);
  }

  lemma StepKeepsIdle(s: State, step: Step)
    requires BoardInv(s) && IdleInv(s) && Enabled(s, step)
    ensures IdleInv(Apply(s, step))
  {
    if s.synchronous {
      StepKeepsTimer(s, step);
      StepKeepsResets(s, step);
      StepKeepsExpiry(s, step);
    }
  }

  lemma StepKeepsInv(s: State, step: Step)
    requires Inv(s) && Enabled(s, step)
    ensures Inv(Apply(s, step))
  {
    StepKeepsBoard(s, step);
    StepKeepsLoop(s, step);
    StepKeepsIdle(s, step);
  }

  // ---------- What holds over every run ----------

  lemma {:induction false} RunKeepsInv(s: State, steps: seq<Step>)
    requires Inv(s) && Feasible(s, steps)
    ensures Inv(Run(s, steps))
    decreases |steps|
  {
    if steps != [] {
      StepKeepsInv(s, steps[0]);
      RunKeepsInv(Apply(s, steps[0]), steps[1..]);
    }
  }

  /** Safety of every interleaving from the start: no channel is closed twice, the
      guard closes the body only with the flag set, and a completed stream saw no expiry. */
  lemma EveryRunIsSafe(timeout: Time, synchronous: bool, steps: seq<Step>)
    requires Feasible(Init(timeout, synchronous), steps)
    ensures
      var s := Run(Init(timeout, synchronous), steps);
      && !s.board.doubleClose
      && (s.board.bodyClosed ==> s.board.expired)
      && (s.board.expired ==> timeout > 0)
      && (s.loop.verdict.Completed? ==> s.loop.marker && !s.loop.sawExpired)
  {
    RunKeepsInv(Init(timeout, synchronous), steps);
    RunKeepsTimeout(Init(timeout, synchronous), steps);
  }

  /** Coalesced resets lose nothing, with synchronous timer channels: whoever sees the
      flag set knows that a whole timeout went by after the last consumed reset, and
      after the last call of `Reset` unless one was pending when the guard took the tick,
      and after the last relayed chunk unless the loop was just about to reset.
      A tick that waits at the select is not stale: the timer was started after the last
      consumed reset, and has run for a whole timeout since. */
  lemma ExpiryMeansIdle(timeout: Time, steps: seq<Step>)
    requires Feasible(Init(timeout, true), steps)
    ensures
      var s := Run(Init(timeout, true), steps);
      s.board.expired ==>
        && s.past.resetTaken + timeout <= s.past.gaveUp <= s.now
        && (!s.past.pending ==> s.past.calledBefore + timeout <= s.past.gaveUp)
        && (!s.past.pending && !s.past.resetting ==> s.past.relayedBefore + timeout <= s.past.gaveUp)
    ensures
      var s := Run(Init(timeout, true), steps);
      s.guard.Selecting? && s.timer.tick ==>
        s.past.resetTaken <= s.past.timerStarted && s.past.timerStarted + timeout <= s.now
  {
    RunKeepsInv(Init(timeout, true), steps);
    RunKeepsTimeout(Init(timeout, true), steps);
  }

  lemma {:induction false} RunKeepsTimeout(s: State, steps: seq<Step>)
    requires Feasible(s, steps)
    ensures Run(s, steps).timeout == s.timeout && Run(s, steps).synchronous == s.synchronous
    decreases |steps|
  {
    if steps != [] { RunKeepsTimeout(Apply(s, steps[0]), steps[1..]); }
  }

  /** The flag never goes back, and with it the latest tick stays on record. */
  lemma {:induction false} ExpiredSticks(s: State, steps: seq<Step>)
    requires Feasible(s, steps)
    ensures s.board.expired ==> Run(s, steps).board.expired
    decreases |steps|
  {
    if steps != [] { ExpiredSticks(Apply(s, steps[0]), steps[1..]); }
  }

  /** The turn in which a check finds, or is bound to find, the flag set. */
  predicate Doomed(s: State) {
    s.board.expired && (s.loop.at.Checking? || s.loop.sawExpired)
  }

  lemma DoomedLoop(s: State, step: LoopStep)
    requires LoopInv(s) && Doomed(s) && LoopEnabled(s, step)
    ensures Doomed(LoopApply(s, step))
  {
  }

  lemma DoomedStep(s: State, step: Step)
    requires Inv(s) && Doomed(s) && Enabled(s, step)
    ensures Doomed(Apply(s, step))
  {
    match step
    case ByLoop(l) => DoomedLoop(s, l);
    case _ =>
  }

  lemma {:induction false} DoomedRun(s: State, steps: seq<Step>)
    requires Inv(s) && Doomed(s) && Feasible(s, steps)
    ensures Doomed(Run(s, steps)) && Inv(Run(s, steps))
    decreases |steps|
  {
    if steps != [] {
      StepKeepsInv(s, steps[0]);
      DoomedStep(s, steps[0]);
      DoomedRun(Apply(s, steps[0]), steps[1..]);
    }
  }

  /** A read that fails because the guard closed the body is never taken for the
      end of a complete stream, and it is the last read: whatever runs after it, the
      loop does not get back to reading. */
  lemma ClosedReadIsLast(s: State, chunk: Bytes, steps: seq<Step>)
    requires Inv(s) && LoopEnabled(s, Read(chunk, ClosedByGuard))
    requires Feasible(LoopApply(s, Read(chunk, ClosedByGuard)), steps)
    ensures
      var after := Run(LoopApply(s, Read(chunk, ClosedByGuard)), steps);
      !after.loop.verdict.Completed? && !after.loop.at.Reading?
  {
    StepKeepsInv(s, ByLoop(Read(chunk, ClosedByGuard)));
    DoomedRun(LoopApply(s, Read(chunk, ClosedByGuard)), steps);
  }

  /** Once a check sees the flag, that turn of the loop is the last. */
  lemma SeenExpiryIsLast(s: State, steps: seq<Step>)
    requires Inv(s) && s.loop.at.Checking? && s.board.expired
    requires Feasible(LoopApply(s, Check), steps)
    ensures
      var after := Run(LoopApply(s, Check), steps);
      !after.loop.verdict.Completed? && !after.loop.at.Reading? && !after.loop.at.Checking?
  {
    StepKeepsInv(s, ByLoop(Check));
    DoomedRun(LoopApply(s, Check), steps);
    SawSticks(LoopApply(s, Check), steps);
  }

  lemma {:induction false} SawSticks(s: State, steps: seq<Step>)
    requires Feasible(s, steps)
    ensures s.loop.sawExpired ==> Run(s, steps).loop.sawExpired
    decreases |steps|
  {
    if steps != [] { SawSticks(Apply(s, steps[0]), steps[1..]); }
  }

  /** After `Stop` has returned the guard is gone for good: it cannot close the body any more. */
  lemma {:induction false} StopIsFinal(s: State, steps: seq<Step>)
    requires Inv(s) && s.loop.at.Stopped? && Feasible(s, steps)
    ensures Run(s, steps).guard.Gone? && Run(s, steps).board.bodyClosed == s.board.bodyClosed
  {
    GoneIsInert(s, steps);
  }

  lemma {:induction false} GoneIsInert(s: State, steps: seq<Step>)
    requires s.guard.Gone? && Feasible(s, steps)
    ensures Run(s, steps).guard.Gone? && Run(s, steps).board.bodyClosed == s.board.bodyClosed
    decreases |steps|
  {
    if steps != [] { GoneIsInert(Apply(s, steps[0]), steps[1..]); }
  }

  // ---------- Stop does not deadlock ----------

  /** How many more steps the guard can take while `Stop` waits for it. */
  function StepsLeft(s: State): (n: nat)
    ensures n <= 12
  {
    (match s.guard
     case Arming => 6
     case Selecting => 5
     case Halting => 8
     case Draining => 7
     case Rearming => 6
     case Storing => 4
     case Closing => 3
     case Disarming => 2
     case ClosingDone => 1
     case Gone => 0) + if s.board.resetSlot && !s.guard.Gone? then 4 else 0
  }

  function GuardSteps(steps: seq<Step>): nat {
    if steps == [] then 0 else (if steps[0].ByGuard? then 1 else 0) + GuardSteps(steps[1..])
  }

  function NextGuardStep(s: State): GuardStep {
    match s.guard
    case Arming => Arm
    case Selecting => TakeStop
    case Halting => Halt
    case Draining => Drain
    case Rearming => Rearm
    case Storing => StoreExpired
    case Closing => CloseBody
    case Disarming => Disarm
    case ClosingDone => CloseDone
    case Gone => CloseDone
  }

  /** While the caller of `Stop` waits, the guard always has a step to take until
      `done` is closed, and it can take at most twelve, whatever the timer does. */
  lemma {:induction false} StopWaitIsBounded(s: State, steps: seq<Step>)
    requires Inv(s) && s.loop.at.Waiting? && Feasible(s, steps)
    requires forall step :: step in steps ==> !step.ByLoop?
    ensures
      var after := Run(s, steps);
      && GuardSteps(steps) + StepsLeft(after) <= StepsLeft(s)
      && (after.board.doneClosed ==> LoopEnabled(after, Wait))
      && (!after.board.doneClosed ==> GuardEnabled(after, NextGuardStep(after)))
    decreases |steps|
  {
    if steps != [] {
      var next := Apply(s, steps[0]);
      assert steps[0] in steps;
      WaitStep(s, steps[0]);
      StepKeepsInv(s, steps[0]);
      StopWaitIsBounded(next, steps[1..]);
    }
  }

  lemma WaitStep(s: State, step: Step)
    requires Inv(s) && s.loop.at.Waiting? && Enabled(s, step) && !step.ByLoop?
    ensures Apply(s, step).loop.at.Waiting?
    ensures StepsLeft(Apply(s, step)) + (if step.ByGuard? then 1 else 0) <= StepsLeft(s)
  {
  }

  // ---------- An idle stream is cut ----------

  /** The guard is bound to close the body, or has closed it. */
  predicate Cutting(s: State) {
    match s.guard
    case Selecting =>
      && !s.board.resetSlot && !s.board.stopClosed
      && (s.timer.tick || (s.timer.armed && s.timer.deadline <= s.now))
    case Storing => true
    case Closing => true
    case _ => s.board.bodyClosed
  }

  /** The steps of timer and guard that are left until the body is closed. */
  function CutLeft(s: State): nat {
    match s.guard
    case Selecting => if s.timer.tick then 3 else 4
    case Storing => 2
    case Closing => 1
    case _ => 0
  }

  /** The next of them. */
  function CutStep(s: State): Step {
    if s.guard.Selecting? then (if s.timer.tick then ByGuard(TakeTick) else ByClock(Fire))
    else ByGuard(NextGuardStep(s))
  }

  /** The relay loop resets the guard or stops it. */
  predicate Interferes(step: Step) {
    step == ByLoop(Reset) || step == ByLoop(CloseStop)
  }

  predicate Pushes(step: Step) {
    step.ByGuard? || step == ByClock(Fire)
  }

  function CountPushes(steps: seq<Step>): nat {
    if steps == [] then 0 else (if Pushes(steps[0]) then 1 else 0) + CountPushes(steps[1..])
  }

  lemma CuttingStep(s: State, step: Step)
    requires s.synchronous && BoardInv(s) && TimerInv(s) && Cutting(s) && Enabled(s, step) && !Interferes(step)
    ensures Cutting(Apply(s, step))
    ensures CutLeft(s) > 0 ==> CutLeft(Apply(s, step)) + (if Pushes(step) then 1 else 0) == CutLeft(s)
    ensures CutLeft(s) == 0 ==> CutLeft(Apply(s, step)) == 0
  {
  }

  lemma {:induction false} CuttingRun(s: State, steps: seq<Step>)
    requires s.synchronous && Inv(s) && Cutting(s) && Feasible(s, steps)
    requires forall step :: step in steps ==> !Interferes(step)
    ensures
      var after := Run(s, steps);
      && Cutting(after) && Inv(after)
      && (CutLeft(after) > 0 ==> CountPushes(steps) + CutLeft(after) == CutLeft(s))
    decreases |steps|
  {
    if steps != [] {
      assert steps[0] in steps;
      CuttingStep(s, steps[0]);
      StepKeepsInv(s, steps[0]);
      if CutLeft(Apply(s, steps[0])) == 0 { StaysCut(Apply(s, steps[0]), steps[1..]); }
      CuttingRun(Apply(s, steps[0]), steps[1..]);
    }
  }

  lemma {:induction false} StaysCut(s: State, steps: seq<Step>)
    requires s.synchronous && Inv(s) && Cutting(s) && CutLeft(s) == 0 && Feasible(s, steps)
    requires forall step :: step in steps ==> !Interferes(step)
    ensures CutLeft(Run(s, steps)) == 0
    decreases |steps|
  {
    if steps != [] {
      assert steps[0] in steps;
      CuttingStep(s, steps[0]);
      StepKeepsInv(s, steps[0]);
      StaysCut(Apply(s, steps[0]), steps[1..]);
    }
  }

  /** Once a whole timeout has gone by since the timer was started and no reset is
      pending, the stream is cut unless it is reset or stopped first: timer and guard
      need four steps, whatever else happens, and always have the next one to take. */
  lemma IdleStreamIsCut(s: State, steps: seq<Step>)
    requires s.synchronous && Inv(s) && s.guard.Selecting? && !s.board.resetSlot && !s.board.stopClosed
    requires s.past.timerStarted + s.timeout <= s.now
    requires Feasible(s, steps) && forall step :: step in steps ==> !Interferes(step)
    ensures
      var after := Run(s, steps);
      if after.board.bodyClosed then after.board.expired
      else CountPushes(steps) < 4 && Enabled(after, CutStep(after))
  {
    CuttingRun(s, steps);
  }

  // ---------- Why the pending-reset condition is needed ----------

  const LAST_STEPS := [ByLoop(Reset), ByGuard(TakeTick), ByGuard(StoreExpired)]

  /** Wherever a tick and a call of `Reset` meet, the select may take the tick. */
  lemma TickBeatsReset(s: State)
    requires s.guard.Selecting? && s.timer.tick && s.loop.at.Resetting?
    ensures Feasible(s, LAST_STEPS)
    ensures
      var end := Run(s, LAST_STEPS);
      end.board.expired && end.past.pending && end.past.calledBefore == end.now
  {
    var s1 := LoopApply(s, Reset);
    var s2 := GuardApply(s1, TakeTick);
    var s3 := GuardApply(s2, StoreExpired);
    Last(s2, LAST_STEPS[2..], s3);
    Prepend(s1, LAST_STEPS[1..], s3);
    Prepend(s, LAST_STEPS, s3);
  }

  const FIRST_STEPS := [ByGuard(Arm), ByLoop(Read([0], Nil)), ByLoop(Check), ByLoop(Write(S.Written)),
                        ByClock(Advance(1)), ByClock(Fire)]

  /** The timer has fired while the loop is about to reset it. */
  function Fired(synchronous: bool): State {
    var s1 := GuardApply(Init(1, synchronous), Arm);
    var s2 := LoopApply(s1, Read([0], Nil));
    var s3 := LoopApply(s2, Check);
    var s4 := LoopApply(s3, Write(S.Written));
    ClockApply(ClockApply(s4, Advance(1)), Fire)
  }

  lemma FirstSteps(synchronous: bool, rest: seq<Step>, end: State)
    requires Feasible(Fired(synchronous), rest) && Run(Fired(synchronous), rest) == end
    ensures Feasible(Init(1, synchronous), FIRST_STEPS + rest) && Run(Init(1, synchronous), FIRST_STEPS + rest) == end
  {
    var s0 := Init(1, synchronous);
    var s1 := GuardApply(s0, Arm);
    var s2 := LoopApply(s1, Read([0], Nil));
    var s3 := LoopApply(s2, Check);
    var s4 := LoopApply(s3, Write(S.Written));
    var s5 := ClockApply(s4, Advance(1));
    var steps := FIRST_STEPS + rest;
    assert steps[6..] == rest;
    Prepend(s5, steps[5..], end);
    Prepend(s4, steps[4..], end);
    Prepend(s3, steps[3..], end);
    Prepend(s2, steps[2..], end);
    Prepend(s1, steps[1..], end);
    Prepend(s0, steps, end);
  }

  /** A stream that was active an instant ago can still expire: without its
      pending-reset condition `ExpiryMeansIdle` would be false. */
  lemma PendingResetMayBeIgnored()
    ensures Feasible(Init(1, true), FIRST_STEPS + LAST_STEPS)
    ensures
      var s := Run(Init(1, true), FIRST_STEPS + LAST_STEPS);
      s.board.expired && s.past.pending && s.past.calledBefore == s.now
  {
    TickBeatsReset(Fired(true));
    FirstSteps(true, LAST_STEPS, Run(Fired(true), LAST_STEPS));
  }

  const DRAIN_STEPS := [ByGuard(Drain), ByGuard(Rearm), ByClock(Deliver), ByGuard(TakeTick), ByGuard(StoreExpired)]
  const STALE_STEPS := [ByLoop(Reset), ByGuard(TakeReset), ByGuard(Halt)] + DRAIN_STEPS

  /** A drain that comes before the send leaves the tick to the next select. */
  lemma DrainMissesTick(s: State)
    requires s.guard.Draining? && s.timer.sending && !s.board.resetSlot
    ensures Feasible(s, DRAIN_STEPS)
    ensures
      var end := Run(s, DRAIN_STEPS);
      && end.board.expired && !end.past.pending && end.past.gaveUp == s.now
      && end.past.calledBefore == s.past.resetCalled && end.past.resetTaken == s.past.resetTaken
  {
    var s1 := GuardApply(s, Drain);
    var s2 := GuardApply(s1, Rearm);
    var s3 := ClockApply(s2, Deliver);
    var s4 := GuardApply(s3, TakeTick);
    var end := GuardApply(s4, StoreExpired);
    Last(s4, DRAIN_STEPS[4..], end);
    Prepend(s3, DRAIN_STEPS[3..], end);
    Prepend(s2, DRAIN_STEPS[2..], end);
    Prepend(s1, DRAIN_STEPS[1..], end);
    Prepend(s, DRAIN_STEPS, end);
  }

  /** Before Go 1.23 the drain could miss a tick that had fired and was still to be
      sent: the stream then expires at the time of a reset that has been consumed. */
  lemma BufferedTickMayBeStale()
    ensures Feasible(Init(1, false), FIRST_STEPS + STALE_STEPS)
    ensures
      var s := Run(Init(1, false), FIRST_STEPS + STALE_STEPS);
      s.board.expired && !s.past.pending && s.past.calledBefore == s.past.resetTaken == s.past.gaveUp
  {
    var s0, steps := Fired(false), STALE_STEPS;
    var s1 := LoopApply(s0, Reset);
    var s2 := GuardApply(s1, TakeReset);
    var s3 := GuardApply(s2, Halt);
    DrainMissesTick(s3);
    var end := Run(s3, DRAIN_STEPS);
    assert steps[3..] == DRAIN_STEPS;
    Prepend(s2, steps[2..], end);
    Prepend(s1, steps[1..], end);
    Prepend(s0, steps, end);
    FirstSteps(false, steps, end);
  }

  lemma Last(s: State, steps: seq<Step>, end: State)
    requires |steps| == 1 && Enabled(s, steps[0]) && end == Apply(s, steps[0])
    ensures Feasible(s, steps) && Run(s, steps) == end
  {
    assert steps[1..] == [];
  }

  lemma Prepend(s: State, steps: seq<Step>, end: State)
    requires steps != [] && Enabled(s, steps[0])
    requires Feasible(Apply(s, steps[0]), steps[1..]) && Run(Apply(s, steps[0]), steps[1..]) == end
    ensures Feasible(s, steps) && Run(s, steps) == end
  {
  }
}
