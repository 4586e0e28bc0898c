/**
 * The workout session controller. It drives the phases
 * idle -> countdown -> active <-> paused -> stopped -> idle, owns the
 * interval timers that tick the countdown, the elapsed clock and the sample
 * collector, gathers heart-rate readings and samples, computes the summary
 * on stop and writes the records on save. Every change is announced to the
 * subscribed listeners.
 *
 * The class `WorkoutState` keeps the source's fields and updates them in
 * place; each of its methods is specified by a pure function on a snapshot
 * (`Session`), and the lemmas below are proved about those functions.
 */
module Session {
  import opened Wrappers
  import opened Decimal
  import opened Records
  import opened JumpDetection
  import opened Summary

  const CountdownSeconds := 5
  /** Period of the sample collector; it only decides when `TickSample` fires. */
  const SampleIntervalMs := 5000
  const SensitivityKey := "thumper_sensitivity"
  const DefaultThreshold := 8000

  datatype Phase = Idle | Countdown | Active | Paused | Stopped

  /**
   * One interval slot of the controller. `live` counts the scheduled intervals
   * of this kind that still fire; `stored` says whether the slot holds a
   * handle. Scheduling into a slot that already holds a handle overwrites it,
   * and the interval it named keeps firing with no handle left to clear it.
   */
  datatype Timer = Timer(live: int, stored: bool)

  const NoTimer := Timer(0, false)

  /** `slot = setInterval(...)`. */
  function Scheduled(t: Timer): Timer {
    Timer(t.live + 1, true)
  }

  /** `if (slot) { clearInterval(slot); slot = null; }`. */
  function Cleared(t: Timer): Timer {
    if t.stored then Timer(t.live - 1, false) else t
  }

  /** One call of every listener subscribed at that moment; they see the phase of that moment. */
  datatype Notice = Notice(phase: Phase, recipients: set<nat>)

  /** What the injected adapters hold: audio capture, wake lock, key-value storage and the database. */
  datatype Environment = Environment(
    audioRunning: bool,
    wakeLockHeld: bool,
    storage: map<string, string>,
    savedWorkouts: seq<Workout>,
    savedSamples: seq<WorkoutSample>)

  /** The controller's fields (and its analyzer's), as one value. Listeners are named by numbers. */
  datatype Session = Session(
    phase: Phase,
    countdown: int,
    elapsedSeconds: int,
    jumpCount: int,
    heartRate: Option<int>,
    connectionState: ConnectionState,
    summary: Option<WorkoutSummary>,
    listeners: set<nat>,
    detector: Detector,
    timerInterval: Timer,
    sampleInterval: Timer,
    countdownInterval: Timer,
    startTimeMs: int,
    pausedElapsed: int,
    hrReadings: seq<int>,
    samples: seq<WorkoutSample>,
    workoutId: Option<int>,
    env: Environment,
    notifications: seq<Notice>)

  /**
   * The threshold read back from storage at construction: the default when
   * nothing (or the empty string) is stored, otherwise `parseInt` of the
   * stored text, which is NaN when it does not start with a number.
   */
  function LoadedThreshold(storage: map<string, string>): Threshold {
    if SensitivityKey !in storage || storage[SensitivityKey] == "" then Finite(DefaultThreshold)
    else
      match ParseInt(storage[SensitivityKey])
      case Some(v) => Finite(v)
      case None => NaN
  }

  function Initial(storage: map<string, string>): Session {
    Session(Idle, 0, 0, 0, None, Disconnected, None, {},
            Detector(LoadedThreshold(storage), 200, 2000, 0, 0),
            NoTimer, NoTimer, NoTimer, 0, 0, [], [], None,
            Environment(false, false, storage, [], []), [])
  }

  function Notified(s: Session): Session {
    s.(notifications := s.notifications + [Notice(s.phase, s.listeners)])
  }

  function WithoutTimers(s: Session): Session {
    s.(timerInterval := Cleared(s.timerInterval),
       sampleInterval := Cleared(s.sampleInterval),
       countdownInterval := Cleared(s.countdownInterval))
  }

  function WithSample(s: Session, nowMs: int): Session {
    s.(samples := s.samples + [WorkoutSample(0, nowMs, s.heartRate, s.jumpCount)])
  }

  /** `subscribe(fn)`. */
  function WithListener(s: Session, listener: nat): Session {
    s.(listeners := s.listeners + {listener})
  }

  /** Calling the function `subscribe` returned. */
  function WithoutListener(s: Session, listener: nat): Session {
    s.(listeners := s.listeners - {listener})
  }

  function AfterSetSensitivity(s: Session, value: int): Session {
    Notified(s.(detector := s.detector.(threshold := Finite(value)),
                env := s.env.(storage := s.env.storage[SensitivityKey := IntToString(value)])))
  }

  /** The per-workout counters `start` zeroes. */
  function WithCountsCleared(s: Session): Session {
    s.(jumpCount := 0, elapsedSeconds := 0)
  }

  /** The readings, samples and summary `start` empties. */
  function WithRecordsCleared(s: Session): Session {
    s.(hrReadings := [], samples := [], summary := None)
  }

  /** `audio.start()` or `audio.stop()`. */
  function WithAudio(s: Session, running: bool): Session {
    s.(env := s.env.(audioRunning := running))
  }

  /** `wakeLock.acquire()` or `wakeLock.release()`. */
  function WithWakeLock(s: Session, held: bool): Session {
    s.(env := s.env.(wakeLockHeld := held))
  }

  /** The part of `start` from `audio.start()` on: capture runs and the countdown interval is scheduled. */
  function WithCountdownArmed(s: Session): Session {
    var capturing := WithAudio(s, true);
    capturing.(countdownInterval := Scheduled(capturing.countdownInterval))
  }

  function AfterStart(s: Session): Session {
    var reset := WithRecordsCleared(WithCountsCleared(s.(phase := Countdown, countdown := CountdownSeconds)));
    WithCountdownArmed(Notified(reset.(detector := AfterReset(reset.detector))))
  }

  /** The clock and the sampler both scheduled, as `beginActive` and `resume` do. */
  function WithTicking(s: Session): Session {
    s.(timerInterval := Scheduled(s.timerInterval), sampleInterval := Scheduled(s.sampleInterval))
  }

  function AfterBeginActive(s: Session, nowMs: int): Session {
    Notified(WithTicking(WithWakeLock(s.(phase := Active, startTimeMs := nowMs, pausedElapsed := 0), true)))
  }

  function AfterCountdownTick(s: Session, nowMs: int): Session {
    var counted := s.(countdown := s.countdown - 1);
    var next := if counted.countdown <= 0
                then AfterBeginActive(counted.(countdownInterval := Cleared(counted.countdownInterval)), nowMs)
                else counted;
    Notified(next)
  }

  function AfterElapsedTick(s: Session, nowMs: int): Session {
    Notified(s.(elapsedSeconds := (nowMs - s.startTimeMs) / 1000))
  }

  function AfterPause(s: Session): Session {
    if s.phase != Active then s
    else Notified(WithoutTimers(s.(phase := Paused, pausedElapsed := s.elapsedSeconds)))
  }

  function AfterResume(s: Session, nowMs: int): Session {
    if s.phase != Paused then s
    else Notified(WithTicking(s.(phase := Active, startTimeMs := nowMs - s.pausedElapsed * 1000)))
  }

  function AfterStop(s: Session, nowMs: int): Session {
    var halted := WithoutTimers(s.(phase := Stopped));
    var released := WithWakeLock(WithAudio(halted, false), false);
    var sampled := WithSample(released, nowMs);
    Notified(sampled.(summary := Some(ComputeSummary(sampled.elapsedSeconds, sampled.hrReadings,
                                                     sampled.jumpCount, sampled.detector.jumpTimeMs))))
  }

  /** The samples of a session, each tagged with the workout key the database returned. */
  function Tagged(samples: seq<WorkoutSample>, workoutId: int): (r: seq<WorkoutSample>)
    ensures |r| == |samples|
    ensures forall i :: 0 <= i < |r| ==> r[i] == samples[i].(workoutId := workoutId)
  {
    if samples == [] then []
    else Tagged(samples[..|samples| - 1], workoutId) + [samples[|samples| - 1].(workoutId := workoutId)]
  }

  /** The record handed to the database, with the key it was stored under. */
  function SavedRecord(startTimeMs: int, durationSeconds: int, sum: WorkoutSummary, newId: int): Workout {
    Workout(Some(newId), startTimeMs, durationSeconds, sum.avgHeartRate, sum.jumpCount,
            Some(sum.jumpTimeSeconds))
  }

  /** The two database writes of `saveWorkout`, for a session that has a summary. */
  function WithWorkoutStored(s: Session, newId: int): Session
    requires s.summary.Some?
  {
    s.(workoutId := Some(newId),
       env := s.env.(savedWorkouts := s.env.savedWorkouts + [SavedRecord(s.startTimeMs, s.elapsedSeconds, s.summary.value, newId)],
                     savedSamples := s.env.savedSamples + Tagged(s.samples, newId)))
  }

  /** `saveWorkout`, where `newId` is the key the database assigns to the new workout. */
  function AfterSave(s: Session, newId: int): Session {
    if s.summary.None? then s
    else Notified(WithWorkoutStored(s, newId).(summary := None, phase := Idle))
  }

  function AfterDiscard(s: Session): Session {
    Notified(s.(summary := None, phase := Idle))
  }

  function AfterHeartRate(s: Session, bpm: int): Session {
    Notified(s.(heartRate := Some(bpm),
                hrReadings := if s.phase == Active then s.hrReadings + [bpm] else s.hrReadings))
  }

  function AfterConnectionChange(s: Session, c: ConnectionState): Session {
    Notified(s.(connectionState := c))
  }

  function AfterJump(s: Session): Session {
    if s.phase == Active then Notified(s.(jumpCount := s.jumpCount + 1)) else s
  }

  /** One audio block through the analyzer, and the jump callback when it reports a jump. */
  function AfterAudioBlock(s: Session, buffer: seq<int>, readCount: int, nowMs: int): Session {
    var outcome := Process(s.detector, buffer, readCount, nowMs);
    var analysed := s.(detector := outcome.0);
    if outcome.1 then AfterJump(analysed) else analysed
  }

  /** Everything that can happen to a controller: calls to its public methods, timer ticks and adapter callbacks. */
  datatype Event =
    | SetSensitivity(value: int)
    | Subscribe(listener: nat)
    | Unsubscribe(listener: nat)
    | Start
    | CountdownTick(nowMs: int)
    | ElapsedTick(nowMs: int)
    | SampleTick(nowMs: int)
    | Pause
    | Resume(nowMs: int)
    | Stop(nowMs: int)
    | Save(newId: int)
    | Discard
    | HeartRate(bpm: int)
    | ConnectionChange(state: ConnectionState)
    | AudioBlock(buffer: seq<int>, readCount: int, nowMs: int)

  function Apply(s: Session, e: Event): Session {
    match e
    case SetSensitivity(v) => AfterSetSensitivity(s, v)
    case Subscribe(l) => WithListener(s, l)
    case Unsubscribe(l) => WithoutListener(s, l)
    case Start => AfterStart(s)
    case CountdownTick(now) => AfterCountdownTick(s, now)
    case ElapsedTick(now) => AfterElapsedTick(s, now)
    case SampleTick(now) => WithSample(s, now)
    case Pause => AfterPause(s)
    case Resume(now) => AfterResume(s, now)
    case Stop(now) => AfterStop(s, now)
    case Save(id) => AfterSave(s, id)
    case Discard => AfterDiscard(s)
    case HeartRate(bpm) => AfterHeartRate(s, bpm)
    case ConnectionChange(c) => AfterConnectionChange(s, c)
    case AudioBlock(buffer, n, now) => AfterAudioBlock(s, buffer, n, now)
  }

  /** A tick fires only while an interval of its kind is scheduled; audio blocks arrive only while capture runs. */
  predicate CanHappen(s: Session, e: Event) {
    match e
    case CountdownTick(_) => s.countdownInterval.live > 0
    case ElapsedTick(_) => s.timerInterval.live > 0
    case SampleTick(_) => s.sampleInterval.live > 0
    case AudioBlock(_, _, _) => s.env.audioRunning
    case _ => true
  }

  function Run(s: Session, events: seq<Event>): Session
    decreases |events|
  {
    if events == [] then s else Run(Apply(s, events[0]), events[1..])
  }

  predicate CanRun(s: Session, events: seq<Event>)
    decreases |events|
  {
    events == [] || (CanHappen(s, events[0]) && CanRun(Apply(s, events[0]), events[1..]))
  }

  // ---------------------------------------------------------------------------
  // The session invariant

  predicate TimerSane(t: Timer) {
    t.live >= 0 && (t.stored ==> t.live >= 1)
  }

  /** An interval slot that holds a handle exactly when one interval of its kind is running. */
  predicate Single(t: Timer) {
    t.live == if t.stored then 1 else 0
  }

  predicate Sane(s: Session) {
    TimerSane(s.timerInterval) && TimerSane(s.sampleInterval) && TimerSane(s.countdownInterval)
  }

  /**
   * The bookkeeping the phases promise: the countdown ticks only in the
   * countdown, the clock and the sampler only while active, no interval runs
   * without a handle, a summary exists exactly in the stopped phase, audio is
   * captured from the start of the countdown until the stop, and the wake lock
   * is held while active or paused and never when idle or stopped.
   */
  predicate Tidy(s: Session) {
    Single(s.timerInterval) && Single(s.sampleInterval) && Single(s.countdownInterval) &&
    (s.countdownInterval.stored <==> s.phase == Countdown) &&
    (s.timerInterval.stored <==> s.phase == Active) &&
    (s.sampleInterval.stored <==> s.phase == Active) &&
    (s.phase == Countdown ==> 1 <= s.countdown <= CountdownSeconds) &&
    (s.phase == Paused ==> s.pausedElapsed == s.elapsedSeconds) &&
    (s.summary.Some? <==> s.phase == Stopped) &&
    (s.env.audioRunning <==> s.phase in {Countdown, Active, Paused}) &&
    (s.phase in {Active, Paused} ==> s.env.wakeLockHeld) &&
    (s.env.wakeLockHeld ==> s.phase in {Countdown, Active, Paused})
  }

  /**
   * An assumption about how the user interface calls the controller (the
   * controller itself does not check it): `start` is not called during a
   * countdown or an active workout, and `discardWorkout` only when idle or
   * stopped. Ticks and audio blocks arrive only as `CanHappen` allows.
   */
  predicate Orderly(s: Session, e: Event) {
    CanHappen(s, e) &&
    (e.Start? ==> s.phase !in {Countdown, Active}) &&
    (e.Discard? ==> s.phase in {Idle, Stopped})
  }

  predicate OrderlyRun(s: Session, events: seq<Event>)
    decreases |events|
  {
    events == [] || (Orderly(s, events[0]) && OrderlyRun(Apply(s, events[0]), events[1..]))
  }

  /** No event can make an interval count negative or leave a handle with nothing behind it. */
  lemma SanePreserved(s: Session, e: Event)
    requires Sane(s)
    ensures Sane(Apply(s, e))
  {
  }

  lemma InitialTidy(storage: map<string, string>)
    ensures Tidy(Initial(storage)) && Sane(Initial(storage))
  {
  }

  /** Every event that satisfies `Orderly` keeps the session tidy. */
  lemma TidyPreserved(s: Session, e: Event)
    requires Tidy(s) && Orderly(s, e)
    ensures Tidy(Apply(s, e))
  {
    match e
    case Start => TidyAfterStart(s);
    case CountdownTick(now) => TidyAfterCountdownTick(s, now);
    case ElapsedTick(now) => TidyAfterClockTick(s, e);
    case SampleTick(now) => TidyAfterClockTick(s, e);
    case Resume(now) => TidyAfterResume(s, now);
    case Stop(now) => TidyAfterStop(s, now);
    case Save(id) => TidyAfterSave(s, id);
    case AudioBlock(buffer, n, now) => TidyAfterAudioBlock(s, buffer, n, now);
    case Pause => TidyAfterPauseOrDiscard(s, e);
    case Discard => TidyAfterPauseOrDiscard(s, e);
    case _ => TidyAfterBookkeeping(s, e);
  }

  lemma TidyAfterClockTick(s: Session, e: Event)
    requires Tidy(s) && Orderly(s, e) && (e.ElapsedTick? || e.SampleTick?)
    ensures Tidy(Apply(s, e))
  {
    assert s.phase == Active;
  }

  lemma TidyAfterPauseOrDiscard(s: Session, e: Event)
    requires Tidy(s) && Orderly(s, e) && (e.Pause? || e.Discard?)
    ensures Tidy(Apply(s, e))
  {
  }

  /** Listeners, sensitivity, heart rate and connection state touch nothing the invariant speaks of. */
  lemma TidyAfterBookkeeping(s: Session, e: Event)
    requires Tidy(s)
    requires e.SetSensitivity? || e.Subscribe? || e.Unsubscribe? || e.HeartRate? || e.ConnectionChange?
    ensures Tidy(Apply(s, e))
  {
  }

  lemma TidyAfterSave(s: Session, newId: int)
    requires Tidy(s)
    ensures Tidy(AfterSave(s, newId))
  {
  }

  lemma TidyAfterAudioBlock(s: Session, buffer: seq<int>, readCount: int, nowMs: int)
    requires Tidy(s)
    ensures Tidy(AfterAudioBlock(s, buffer, readCount, nowMs))
  {
  }

  lemma TidyAfterStart(s: Session)
    requires Tidy(s) && s.phase !in {Countdown, Active}
    ensures Tidy(AfterStart(s))
  {
  }

  lemma TidyAfterCountdownTick(s: Session, nowMs: int)
    requires Tidy(s) && s.countdownInterval.live > 0
    ensures Tidy(AfterCountdownTick(s, nowMs))
  {
    assert s.phase == Countdown;
  }

  lemma TidyAfterResume(s: Session, nowMs: int)
    requires Tidy(s)
    ensures Tidy(AfterResume(s, nowMs))
  {
  }

  lemma TidyAfterStop(s: Session, nowMs: int)
    requires Tidy(s)
    ensures Tidy(AfterStop(s, nowMs))
  {
  }

  /** Every session reached from construction through orderly calls is tidy. */
  lemma {:induction false} ReachableTidy(s: Session, events: seq<Event>)
    requires Tidy(s) && OrderlyRun(s, events)
    ensures Tidy(Run(s, events))
    decreases |events|
  {
    if events != [] {
      TidyPreserved(s, events[0]);
      ReachableTidy(Apply(s, events[0]), events[1..]);
    }
  }

  /** Any sequence of events that can happen keeps every interval count sane. */
  lemma {:induction false} ReachableSane(s: Session, events: seq<Event>)
    requires Sane(s)
    ensures Sane(Run(s, events))
    decreases |events|
  {
    if events != [] {
      SanePreserved(s, events[0]);
      ReachableSane(Apply(s, events[0]), events[1..]);
    }
  }

  // ---------------------------------------------------------------------------
  // What each operation promises

  /**
   * `start` from any phase: the countdown is armed at five seconds, the
   * session's counters, readings, samples and summary are cleared, the
   * analyzer forgets its jumps but keeps its threshold, capture runs, and the
   * listeners see the countdown.
   */
  lemma StartResets(s: Session)
    ensures var r := AfterStart(s);
      r.phase == Countdown && r.countdown == CountdownSeconds &&
      r.jumpCount == 0 && r.elapsedSeconds == 0 && r.hrReadings == [] && r.samples == [] &&
      r.summary.None? && r.detector.lastJumpTimeMs == 0 && r.detector.jumpTimeMs == 0 &&
      r.detector.threshold == s.detector.threshold &&
      r.env.audioRunning && r.countdownInterval.stored &&
      r.notifications == s.notifications + [Notice(Countdown, s.listeners)]
  {
  }

  /**
   * Counting down: each tick lowers the countdown by one; the tick that brings
   * it to zero stops the countdown interval and begins the active phase at
   * that moment, with the clock and the sampler scheduled and the wake lock held.
   */
  lemma CountdownTickOutcome(s: Session, nowMs: int)
    requires Tidy(s) && s.phase == Countdown
    ensures var r := AfterCountdownTick(s, nowMs);
      r.countdown == s.countdown - 1 &&
      (s.countdown > 1 ==> r.phase == Countdown && r.countdownInterval == s.countdownInterval) &&
      (s.countdown == 1 ==>
         r.phase == Active && r.startTimeMs == nowMs && r.pausedElapsed == 0 &&
         r.countdownInterval == NoTimer && r.timerInterval == Timer(1, true) &&
         r.sampleInterval == Timer(1, true) && r.env.wakeLockHeld)
  {
  }

  /** Five ticks after a start from a tidy idle, paused or stopped session, the workout is active. */
  lemma StartThenFiveTicks(s: Session, t1: int, t2: int, t3: int, t4: int, t5: int)
    requires Tidy(s) && s.phase !in {Countdown, Active}
    ensures var r := AfterCountdownTick(AfterCountdownTick(AfterCountdownTick(AfterCountdownTick(
                       AfterCountdownTick(AfterStart(s), t1), t2), t3), t4), t5);
      r.phase == Active && r.startTimeMs == t5 && r.elapsedSeconds == 0 && r.jumpCount == 0 &&
      Tidy(r)
  {
    var r0 := AfterStart(s);
    TidyAfterStart(s);
    var r1 := AfterCountdownTick(r0, t1);
    CountdownTickOutcome(r0, t1);
    TidyAfterCountdownTick(r0, t1);
    var r2 := AfterCountdownTick(r1, t2);
    CountdownTickOutcome(r1, t2);
    TidyAfterCountdownTick(r1, t2);
    var r3 := AfterCountdownTick(r2, t3);
    CountdownTickOutcome(r2, t3);
    TidyAfterCountdownTick(r2, t3);
    var r4 := AfterCountdownTick(r3, t4);
    CountdownTickOutcome(r3, t4);
    TidyAfterCountdownTick(r3, t4);
    CountdownTickOutcome(r4, t5);
    TidyAfterCountdownTick(r4, t5);
  }

  /** `pause` does nothing unless active; when active it freezes the elapsed time and stops every interval. */
  lemma PauseOutcome(s: Session)
    ensures s.phase != Active ==> AfterPause(s) == s
    ensures s.phase == Active ==>
      var r := AfterPause(s);
      r.phase == Paused && r.pausedElapsed == s.elapsedSeconds && r.elapsedSeconds == s.elapsedSeconds &&
      !r.timerInterval.stored && !r.sampleInterval.stored && !r.countdownInterval.stored &&
      r.notifications == s.notifications + [Notice(Paused, s.listeners)]
    ensures Tidy(s) && s.phase == Active ==>
      var r := AfterPause(s);
      r.timerInterval.live == 0 && r.sampleInterval.live == 0 && r.countdownInterval.live == 0
  {
  }

  /** `resume` does nothing unless paused; when paused it back-dates the start by the paused time. */
  lemma ResumeOutcome(s: Session, nowMs: int)
    ensures s.phase != Paused ==> AfterResume(s, nowMs) == s
    ensures s.phase == Paused ==>
      var r := AfterResume(s, nowMs);
      r.phase == Active && r.startTimeMs + 1000 * s.pausedElapsed == nowMs &&
      r.timerInterval.stored && r.sampleInterval.stored
  {
  }

  /** `(x + 1000 p) / 1000 == x / 1000 + p` for the flooring division. */
  lemma ShiftWholeSeconds(x: int, p: int)
    ensures (x + p * 1000) / 1000 == x / 1000 + p
  {
    var q, r := x / 1000, x % 1000;
    assert x == q * 1000 + r && 0 <= r < 1000;
    assert x + p * 1000 == (q + p) * 1000 + r;
  }

  /**
   * After a resume the clock carries on from the paused time: a clock tick at
   * `nowMs` shows the seconds counted before the pause plus the whole seconds
   * since the resume, so it never shows less than before the pause.
   */
  lemma ElapsedContinuesAfterResume(s: Session, resumedMs: int, nowMs: int)
    requires s.phase == Paused
    ensures AfterElapsedTick(AfterResume(s, resumedMs), nowMs).elapsedSeconds ==
            s.pausedElapsed + (nowMs - resumedMs) / 1000
    ensures resumedMs <= nowMs ==>
            AfterElapsedTick(AfterResume(s, resumedMs), nowMs).elapsedSeconds >= s.pausedElapsed
  {
    ShiftWholeSeconds(nowMs - resumedMs, s.pausedElapsed);
    assert nowMs - (resumedMs - s.pausedElapsed * 1000) == nowMs - resumedMs + s.pausedElapsed * 1000;
  }

  /**
   * `stop`, from any phase: every interval handle is released, capture and the
   * wake lock are released, one last sample is taken, and the summary is
   * computed from the elapsed seconds, the readings, the jump count and the
   * analyzer's jump time.
   */
  lemma StopOutcome(s: Session, nowMs: int)
    ensures var r := AfterStop(s, nowMs);
      r.phase == Stopped &&
      !r.timerInterval.stored && !r.sampleInterval.stored && !r.countdownInterval.stored &&
      !r.env.audioRunning && !r.env.wakeLockHeld &&
      r.samples == s.samples + [WorkoutSample(0, nowMs, s.heartRate, s.jumpCount)] &&
      r.summary == Some(ComputeSummary(s.elapsedSeconds, s.hrReadings, s.jumpCount, s.detector.jumpTimeMs)) &&
      r.notifications == s.notifications + [Notice(Stopped, s.listeners)]
  {
  }

  /** The summary a stop produces reports the session's own duration and readings. */
  lemma StopSummary(s: Session, nowMs: int)
    ensures var sum := AfterStop(s, nowMs).summary.value;
      sum.durationSeconds == s.elapsedSeconds &&
      (sum.avgHeartRate.None? <==> s.hrReadings == []) &&
      (sum.jumpCount.None? <==> s.jumpCount <= 0) &&
      1000 * sum.jumpTimeSeconds <= s.detector.jumpTimeMs < 1000 * (sum.jumpTimeSeconds + 1)
  {
  }

  /**
   * `saveWorkout` does nothing without a summary. With one, it stores exactly
   * one workout record built from the start time, the elapsed seconds and the
   * summary, stores every sample tagged with the new key and otherwise
   * unchanged, and returns to idle.
   */
  lemma SaveOutcome(s: Session, newId: int)
    ensures s.summary.None? ==> AfterSave(s, newId) == s
    ensures s.summary.Some? ==>
      var r := AfterSave(s, newId);
      var sum := s.summary.value;
      r.phase == Idle && r.summary.None? && r.workoutId == Some(newId) &&
      r.env.savedWorkouts == s.env.savedWorkouts +
        [Workout(Some(newId), s.startTimeMs, s.elapsedSeconds, sum.avgHeartRate, sum.jumpCount,
                 Some(sum.jumpTimeSeconds))] &&
      |r.env.savedSamples| == |s.env.savedSamples| + |s.samples| &&
      r.env.savedSamples[..|s.env.savedSamples|] == s.env.savedSamples &&
      (forall i :: 0 <= i < |s.samples| ==>
         var saved := r.env.savedSamples[|s.env.savedSamples| + i];
         saved.workoutId == newId && saved.timestampMillis == s.samples[i].timestampMillis &&
         saved.heartRate == s.samples[i].heartRate && saved.jumpCount == s.samples[i].jumpCount) &&
      r.notifications == s.notifications + [Notice(Idle, s.listeners)]
  {
    if s.summary.Some? {
      var r := AfterSave(s, newId);
      var old_ := s.env.savedSamples;
      var tagged := Tagged(s.samples, newId);
      assert r.env.savedSamples == old_ + tagged;
      forall i | 0 <= i < |s.samples|
        ensures r.env.savedSamples[|old_| + i] == s.samples[i].(workoutId := newId)
      {
        assert r.env.savedSamples[|old_| + i] == tagged[i];
      }
    }
  }

  /** A heart-rate reading always becomes the displayed rate, but is kept for the average only while active. */
  lemma HeartRateOutcome(s: Session, bpm: int)
    ensures var r := AfterHeartRate(s, bpm);
      r.heartRate == Some(bpm) && r.phase == s.phase &&
      (s.phase == Active ==> r.hrReadings == s.hrReadings + [bpm]) &&
      (s.phase != Active ==> r.hrReadings == s.hrReadings)
  {
  }

  /**
   * Audio blocks: the analyzer judges every block that arrives, in any phase,
   * but a reported jump adds to the session's count (and notifies) only while
   * active. So jump time the analyzer accumulates during the countdown or a
   * pause still reaches the summary.
   */
  lemma AudioBlockOutcome(s: Session, buffer: seq<int>, readCount: int, nowMs: int)
    ensures var r := AfterAudioBlock(s, buffer, readCount, nowMs);
      var outcome := Process(s.detector, buffer, readCount, nowMs);
      r.detector == outcome.0 &&
      r.jumpCount == (if outcome.1 && s.phase == Active then s.jumpCount + 1 else s.jumpCount) &&
      r.phase == s.phase
  {
  }

  /** A concrete pause in which a block adds a second of jump time while the count stays put. */
  lemma JumpTimeAccruesWhilePaused(s: Session)
    requires s.phase == Paused
    requires s.detector == Detector(Finite(8000), 200, 2000, 1000, 0)
    ensures var r := AfterAudioBlock(s, [9000], 1, 2000);
      r.detector.jumpTimeMs == 1000 && r.jumpCount == s.jumpCount
  {
    assert Peak([9000], 1) == 9000;
  }

  /**
   * Sensitivity: the new threshold applies at once, it is written to storage
   * as its decimal text, and a controller constructed later over that storage
   * reads the same threshold back.
   */
  lemma SensitivityPersists(s: Session, value: int)
    ensures var r := AfterSetSensitivity(s, value);
      r.detector.threshold == Finite(value) &&
      r.env.storage[SensitivityKey] == IntToString(value) &&
      Initial(r.env.storage).detector.threshold == Finite(value)
  {
    var storage := AfterSetSensitivity(s, value).env.storage;
    ParseIntRoundTrip(value);
    assert IntToString(value) != "" by {
      assert ParseInt(IntToString(value)).Some?;
    }
    assert storage[SensitivityKey] == IntToString(value);
  }

  /** A stored sensitivity that does not start with a number yields NaN, and that analyzer never reports a jump. */
  lemma UnreadableSensitivityNeverJumps(storage: map<string, string>, buffer: seq<int>, readCount: int, nowMs: int)
    requires SensitivityKey in storage && storage[SensitivityKey] != ""
    requires ParseInt(storage[SensitivityKey]).None?
    ensures Initial(storage).detector.threshold == NaN
    ensures !Process(Initial(storage).detector, buffer, readCount, nowMs).1
  {
  }

  // ---------------------------------------------------------------------------
  // What the code allows that the phases do not

  /**
   * `start` while active does not clear the running clock and sampler; when
   * the new countdown ends they are scheduled again over their old handles, so
   * after a `stop` one clock interval and one sampler interval are still
   * firing with no handle left to clear them.
   */
  lemma RestartWhileActiveLeaks(s: Session, t1: int, t2: int, t3: int, t4: int, t5: int, stopMs: int)
    requires Tidy(s) && s.phase == Active
    ensures var r := AfterStop(AfterCountdownTick(AfterCountdownTick(AfterCountdownTick(AfterCountdownTick(
                       AfterCountdownTick(AfterStart(s), t1), t2), t3), t4), t5), stopMs);
      r.phase == Stopped && Sane(r) && !Tidy(r) &&
      r.timerInterval == Timer(1, false) && r.sampleInterval == Timer(1, false)
  {
    var r0 := AfterStart(s);
    assert r0.timerInterval == Timer(1, true) && r0.countdown == 5;
    var r4 := AfterCountdownTick(AfterCountdownTick(AfterCountdownTick(AfterCountdownTick(r0, t1), t2), t3), t4);
    assert r4.countdown == 1 && r4.timerInterval == Timer(1, true) && r4.sampleInterval == Timer(1, true);
    var r5 := AfterCountdownTick(r4, t5);
    assert r5.timerInterval == Timer(2, true) && r5.sampleInterval == Timer(2, true);
  }

  /** `discardWorkout` has no guard: discarding an active workout goes idle with the clock, sampler and capture still running. */
  lemma DiscardWhileActiveKeepsRunning(s: Session)
    requires Tidy(s) && s.phase == Active
    ensures var r := AfterDiscard(s);
      r.phase == Idle && r.timerInterval.stored && r.sampleInterval.stored && r.env.audioRunning && !Tidy(r)
  {
  }

  // ---------------------------------------------------------------------------
  // The phases a listener sees

  /** What a listener that records each new phase (skipping repeats) collects from the notices it receives. */
  function PhaseTrace(notices: seq<Notice>, listener: nat): seq<Phase>
    decreases |notices|
  {
    if notices == [] then []
    else
      var earlier := PhaseTrace(notices[..|notices| - 1], listener);
      var last := notices[|notices| - 1];
      if listener in last.recipients && (earlier == [] || earlier[|earlier| - 1] != last.phase)
      then earlier + [last.phase]
      else earlier
  }

  lemma TraceExtend(notices: seq<Notice>, n: Notice, listener: nat)
    ensures PhaseTrace(notices + [n], listener) ==
      var earlier := PhaseTrace(notices, listener);
      if listener in n.recipients && (earlier == [] || earlier[|earlier| - 1] != n.phase)
      then earlier + [n.phase] else earlier
  {
    assert (notices + [n])[..|notices|] == notices;
  }

  /** A notice to the listener of a phase other than the last one it recorded adds that phase. */
  lemma TraceStep(notices: seq<Notice>, n: Notice, listener: nat, t: seq<Phase>)
    requires PhaseTrace(notices, listener) == t && t != [] && t[|t| - 1] != n.phase
    requires listener in n.recipients
    ensures PhaseTrace(notices + [n], listener) == t + [n.phase]
  {
    TraceExtend(notices, n, listener);
  }

  /** A notice of the phase the listener recorded last adds nothing. */
  lemma TraceRepeat(notices: seq<Notice>, n: Notice, listener: nat, t: seq<Phase>)
    requires PhaseTrace(notices, listener) == t && t != [] && t[|t| - 1] == n.phase
    ensures PhaseTrace(notices + [n], listener) == t
  {
    TraceExtend(notices, n, listener);
  }

  predicate NoRepeats(t: seq<Phase>) {
    forall i :: 0 < i < |t| ==> t[i - 1] != t[i]
  }

  /** No two neighbouring phases of a trace are the same. */
  lemma {:induction false} TraceHasNoRepeats(notices: seq<Notice>, listener: nat)
    ensures NoRepeats(PhaseTrace(notices, listener))
    decreases |notices|
  {
    if notices != [] {
      var init := notices[..|notices| - 1];
      TraceHasNoRepeats(init, listener);
      var earlier := PhaseTrace(init, listener);
      var t := PhaseTrace(notices, listener);
      var last := notices[|notices| - 1];
      if listener in last.recipients && (earlier == [] || earlier[|earlier| - 1] != last.phase) {
        assert t == earlier + [last.phase];
        assert NoRepeats(earlier);
        forall i | 0 < i < |t|
          ensures t[i - 1] != t[i]
        {
          if i < |earlier| {
            assert t[i - 1] == earlier[i - 1] && t[i] == earlier[i];
          } else {
            assert t[i - 1] == earlier[|earlier| - 1] && t[i] == last.phase;
          }
        }
      }
    }
  }

  /** A countdown tick that does not end the countdown: one lower, and the listeners see the countdown. */
  lemma CountdownTickNotices(s: Session, nowMs: int)
    requires s.phase == Countdown && s.countdown > 1
    ensures var r := AfterCountdownTick(s, nowMs);
      r.phase == Countdown && r.countdown == s.countdown - 1 && r.listeners == s.listeners &&
      r.countdownInterval == s.countdownInterval && r.samples == s.samples && r.summary == s.summary &&
      r.notifications == s.notifications + [Notice(Countdown, s.listeners)]
  {
  }

  /** The last countdown tick: the listeners are told twice that the workout is active. */
  lemma LastCountdownTickNotices(s: Session, nowMs: int)
    requires s.countdown == 1
    ensures var r := AfterCountdownTick(s, nowMs);
      r.phase == Active && r.listeners == s.listeners && r.samples == s.samples && r.summary == s.summary &&
      r.notifications == s.notifications + [Notice(Active, s.listeners), Notice(Active, s.listeners)]
  {
  }

  /** Subscribe listener 1 to a fresh controller with empty storage, then start. */
  function FlowStarted(): Session {
    AfterStart(WithListener(Initial(map[]), 1))
  }

  /** Five countdown ticks, one second apart. */
  function FlowActive(): Session {
    AfterCountdownTick(AfterCountdownTick(AfterCountdownTick(AfterCountdownTick(
      AfterCountdownTick(FlowStarted(), 1000), 2000), 3000), 4000), 5000)
  }

  /** Pause, resume, stop and save; the database hands out key 1. */
  function FullFlow(): Session {
    AfterSave(AfterStop(AfterResume(AfterPause(FlowActive()), 5000), 5000), 1)
  }

  /** Five countdown ticks after a start: seven notices, the last two for the active phase. */
  lemma CountdownNotices(s0: Session, t1: int, t2: int, t3: int, t4: int, t5: int)
    requires s0.phase == Countdown && s0.countdown == CountdownSeconds
    ensures var r := AfterCountdownTick(AfterCountdownTick(AfterCountdownTick(AfterCountdownTick(
                       AfterCountdownTick(s0, t1), t2), t3), t4), t5);
      var c := Notice(Countdown, s0.listeners);
      var a := Notice(Active, s0.listeners);
      r.phase == Active && r.listeners == s0.listeners && r.samples == s0.samples && r.summary == s0.summary &&
      r.notifications == s0.notifications + [c, c, c, c, a, a]
  {
    CountdownTickNotices(s0, t1);
    var s1 := AfterCountdownTick(s0, t1);
    CountdownTickNotices(s1, t2);
    var s2 := AfterCountdownTick(s1, t2);
    CountdownTickNotices(s2, t3);
    var s3 := AfterCountdownTick(s2, t3);
    CountdownTickNotices(s3, t4);
    var s4 := AfterCountdownTick(s3, t4);
    LastCountdownTickNotices(s4, t5);
  }

  /** Pause, resume, stop and save an active session with no summary: four notices and one stored workout. */
  lemma FinishNotices(a: Session, nowMs: int, newId: int)
    requires a.phase == Active && a.summary.None?
    ensures var f := AfterSave(AfterStop(AfterResume(AfterPause(a), nowMs), nowMs), newId);
      f.notifications == a.notifications +
        [Notice(Paused, a.listeners), Notice(Active, a.listeners), Notice(Stopped, a.listeners), Notice(Idle, a.listeners)] &&
      |f.env.savedWorkouts| == |a.env.savedWorkouts| + 1 && f.env.savedWorkouts[|a.env.savedWorkouts|].id == Some(newId) &&
      |f.env.savedSamples| == |a.env.savedSamples| + |a.samples| + 1 &&
      f.env.savedSamples[|f.env.savedSamples| - 1].workoutId == newId
  {
    var p := AfterPause(a);
    PauseOutcome(a);
    var r := AfterResume(p, nowMs);
    ResumeOutcome(p, nowMs);
    var st := AfterStop(r, nowMs);
    StopOutcome(r, nowMs);
    SaveOutcome(st, newId);
    assert |st.samples| == |a.samples| + 1;
  }

  lemma FullFlowNotices()
    ensures var c := Notice(Countdown, {1});
      var a := Notice(Active, {1});
      FullFlow().notifications ==
        [c] + [c, c, c, c, a, a] + [Notice(Paused, {1}), a, Notice(Stopped, {1}), Notice(Idle, {1})]
    ensures |FullFlow().env.savedWorkouts| == 1 && FullFlow().env.savedWorkouts[0].id == Some(1)
    ensures |FullFlow().env.savedSamples| == 1 && FullFlow().env.savedSamples[0].workoutId == 1
  {
    var s0 := FlowStarted();
    assert s0.phase == Countdown && s0.countdown == 5 && s0.listeners == {1} && s0.samples == [];
    assert s0.notifications == [Notice(Countdown, {1})] && s0.summary.None? && s0.env.savedWorkouts == [];
    assert s0.env.savedSamples == [];
    CountdownNotices(s0, 1000, 2000, 3000, 4000, 5000);
    FinishNotices(FlowActive(), 5000, 1);
  }

  function Repeat(n: Notice, count: nat): seq<Notice> {
    seq(count, _ => n)
  }

  /** Further notices of the phase a listener saw last add nothing to its trace. */
  lemma {:induction false} RepeatKeepsTrace(notices: seq<Notice>, n: Notice, listener: nat, count: nat)
    requires listener in n.recipients
    requires PhaseTrace(notices, listener) != []
    requires PhaseTrace(notices, listener)[|PhaseTrace(notices, listener)| - 1] == n.phase
    ensures PhaseTrace(notices + Repeat(n, count), listener) == PhaseTrace(notices, listener)
    decreases count
  {
    if count > 0 {
      var before := notices + Repeat(n, count - 1);
      RepeatKeepsTrace(notices, n, listener, count - 1);
      TraceRepeat(before, n, listener, PhaseTrace(notices, listener));
      assert notices + Repeat(n, count) == before + [n];
    } else {
      assert notices + Repeat(n, 0) == notices;
    }
  }

  /** The rest of the countdown and its end: listener 1 has seen the countdown, then the active phase. */
  lemma CountdownTrace(notices: seq<Notice>)
    requires PhaseTrace(notices, 1) == [Countdown]
    ensures var c := Notice(Countdown, {1});
      var a := Notice(Active, {1});
      PhaseTrace(notices + [c, c, c, c, a, a], 1) == [Countdown, Active]
  {
    var c := Notice(Countdown, {1});
    var a := Notice(Active, {1});
    RepeatKeepsTrace(notices, c, 1, 4);
    var n5 := notices + Repeat(c, 4);
    var n6 := n5 + [a];
    TraceExtend(n5, a, 1);
    RepeatKeepsTrace(n6, a, 1, 1);
    assert n6 + Repeat(a, 1) == notices + [c, c, c, c, a, a];
  }

  /** After countdown and active, a pause, resume, stop and save each show listener 1 a new phase. */
  lemma FinishTrace(notices: seq<Notice>)
    requires PhaseTrace(notices, 1) == [Countdown, Active]
    ensures PhaseTrace(notices + [Notice(Paused, {1}), Notice(Active, {1}), Notice(Stopped, {1}), Notice(Idle, {1})], 1) ==
            [Countdown, Active, Paused, Active, Stopped, Idle]
  {
    var n8 := notices + [Notice(Paused, {1})];
    TraceStep(notices, Notice(Paused, {1}), 1, [Countdown, Active]);
    var n9 := n8 + [Notice(Active, {1})];
    TraceStep(n8, Notice(Active, {1}), 1, [Countdown, Active, Paused]);
    var n10 := n9 + [Notice(Stopped, {1})];
    TraceStep(n9, Notice(Stopped, {1}), 1, [Countdown, Active, Paused, Active]);
    TraceStep(n10, Notice(Idle, {1}), 1, [Countdown, Active, Paused, Active, Stopped]);
    assert n10 + [Notice(Idle, {1})] == notices + [Notice(Paused, {1}), Notice(Active, {1}), Notice(Stopped, {1}), Notice(Idle, {1})];
  }

  /** The phases listener 1 collects from the notices of the whole workout. */
  lemma FullFlowTrace()
    ensures var c := Notice(Countdown, {1});
      var a := Notice(Active, {1});
      PhaseTrace([c] + [c, c, c, c, a, a] + [Notice(Paused, {1}), a, Notice(Stopped, {1}), Notice(Idle, {1})], 1) ==
      [Countdown, Active, Paused, Active, Stopped, Idle]
  {
    var c := Notice(Countdown, {1});
    var a := Notice(Active, {1});
    TraceExtend([], c, 1);
    assert [] + [c] == [c];
    CountdownTrace([c]);
    FinishTrace([c] + [c, c, c, c, a, a]);
  }

  /**
   * The whole workout of the full-flow test: the listener sees countdown,
   * active, paused, active, stopped, idle; one workout and its one sample are stored.
   */
  lemma FullFlowOutcome()
    ensures PhaseTrace(FullFlow().notifications, 1) == [Countdown, Active, Paused, Active, Stopped, Idle]
    ensures |FullFlow().env.savedWorkouts| == 1 && FullFlow().env.savedWorkouts[0].id == Some(1)
    ensures |FullFlow().env.savedSamples| == 1 && FullFlow().env.savedSamples[0].workoutId == 1
  {
    FullFlowNotices();
    FullFlowTrace();
  }

  // ---------------------------------------------------------------------------
  // The controller object

  class WorkoutState {
    var phase: Phase
    var countdown: int
    var elapsedSeconds: int
    var jumpCount: int
    var heartRate: Option<int>
    var connectionState: ConnectionState
    var summary: Option<WorkoutSummary>
    var listeners: set<nat>
    const analyzer: JumpAnalyzer
    var timerInterval: Timer
    var sampleInterval: Timer
    var countdownInterval: Timer
    var startTimeMs: int
    var pausedElapsed: int
    var hrReadings: seq<int>
    var samples: seq<WorkoutSample>
    var workoutId: Option<int>
    /** The adapters' state: capture, wake lock, storage, database. */
    var env: Environment
    /** Every round of listener calls so far. */
    var notifications: seq<Notice>

    function State(): Session
      reads this, analyzer
    {
      Session(phase, countdown, elapsedSeconds, jumpCount, heartRate, connectionState, summary,
              listeners, analyzer.State(), timerInterval, sampleInterval, countdownInterval,
              startTimeMs, pausedElapsed, hrReadings, samples, workoutId, env, notifications)
    }

    /** A controller over the given storage; the analyzer starts from the stored sensitivity. */
    constructor (storage: map<string, string>)
      ensures State() == Initial(storage)
      ensures fresh(analyzer)
    {
      phase := Idle;
      countdown := 0;
      elapsedSeconds := 0;
      jumpCount := 0;
      heartRate := None;
      connectionState := Disconnected;
      summary := None;
      listeners := {};
      timerInterval := NoTimer;
      sampleInterval := NoTimer;
      countdownInterval := NoTimer;
      startTimeMs := 0;
      pausedElapsed := 0;
      hrReadings := [];
      samples := [];
      workoutId := None;
      env := Environment(false, false, storage, [], []);
      notifications := [];
      analyzer := new JumpAnalyzer(LoadedThreshold(storage));
    }

    function Sensitivity(): (t: Threshold)
      reads this, analyzer
      ensures t == State().detector.threshold
    {
      analyzer.threshold
    }

    method SetSensitivity(value: int)
      modifies this, analyzer
      ensures State() == AfterSetSensitivity(old(State()), value)
    {
      analyzer.SetThreshold(Finite(value));
      env := env.(storage := env.storage[SensitivityKey := IntToString(value)]);
      Notify();
    }

    method Subscribe(listener: nat)
      modifies this
      ensures State() == WithListener(old(State()), listener)
    {
      listeners := listeners + {listener};
    }

    /** What calling the function `subscribe` returned does. */
    method Unsubscribe(listener: nat)
      modifies this
      ensures State() == WithoutListener(old(State()), listener)
    {
      listeners := listeners - {listener};
    }

    method Notify()
      modifies this
      ensures State() == Notified(old(State()))
    {
      notifications := notifications + [Notice(phase, listeners)];
    }

    method Start()
      modifies this, analyzer
      ensures State() == AfterStart(old(State()))
    {
      phase := Countdown;
      countdown := CountdownSeconds;
      ClearCounts();
      ClearRecords();
      analyzer.Reset();
      Notify();
      ArmCountdown();
    }

    method ClearCounts()
      modifies this
      ensures State() == WithCountsCleared(old(State()))
    {
      jumpCount := 0;
      elapsedSeconds := 0;
    }

    method ClearRecords()
      modifies this
      ensures State() == WithRecordsCleared(old(State()))
    {
      hrReadings := [];
      samples := [];
      summary := None;
    }

    /** `start` from `audio.start()` on. */
    method ArmCountdown()
      modifies this
      ensures State() == WithCountdownArmed(old(State()))
    {
      StartAudio();
      countdownInterval := Scheduled(countdownInterval);
    }

    method StartAudio()
      modifies this
      ensures State() == WithAudio(old(State()), true)
    {
      env := env.(audioRunning := true);
    }

    method StopAudio()
      modifies this
      ensures State() == WithAudio(old(State()), false)
    {
      env := env.(audioRunning := false);
    }

    method AcquireWakeLock()
      modifies this
      ensures State() == WithWakeLock(old(State()), true)
    {
      env := env.(wakeLockHeld := true);
    }

    method ReleaseWakeLock()
      modifies this
      ensures State() == WithWakeLock(old(State()), false)
    {
      env := env.(wakeLockHeld := false);
    }

    /** One firing of a countdown interval at `nowMs`. */
    method TickCountdown(nowMs: int)
      requires countdownInterval.live > 0
      modifies this
      ensures State() == AfterCountdownTick(old(State()), nowMs)
    {
      countdown := countdown - 1;
      if countdown <= 0 {
        countdownInterval := Cleared(countdownInterval);
        BeginActive(nowMs);
      }
      Notify();
    }

    method BeginActive(nowMs: int)
      modifies this
      ensures State() == AfterBeginActive(old(State()), nowMs)
    {
      ghost var s0 := State();
      phase := Active;
      startTimeMs := nowMs;
      pausedElapsed := 0;
      assert State() == s0.(phase := Active, startTimeMs := nowMs, pausedElapsed := 0);
      AcquireWakeLock();
      ScheduleTicking();
      Notify();
    }

    method ScheduleTicking()
      modifies this
      ensures State() == WithTicking(old(State()))
    {
      timerInterval := Scheduled(timerInterval);
      sampleInterval := Scheduled(sampleInterval);
    }

    /** One firing of a clock interval at `nowMs`. */
    method TickElapsed(nowMs: int)
      requires timerInterval.live > 0
      modifies this
      ensures State() == AfterElapsedTick(old(State()), nowMs)
    {
      elapsedSeconds := (nowMs - startTimeMs) / 1000;
      Notify();
    }

    /** One firing of a sampler interval at `nowMs`. */
    method TickSample(nowMs: int)
      requires sampleInterval.live > 0
      modifies this
      ensures State() == WithSample(old(State()), nowMs)
    {
      CollectSample(nowMs);
    }

    method Pause()
      modifies this
      ensures State() == AfterPause(old(State()))
    {
      if phase != Active {
        return;
      }
      phase := Paused;
      pausedElapsed := elapsedSeconds;
      ClearTimers();
      Notify();
    }

    method Resume(nowMs: int)
      modifies this
      ensures State() == AfterResume(old(State()), nowMs)
    {
      if phase != Paused {
        return;
      }
      phase := Active;
      startTimeMs := nowMs - pausedElapsed * 1000;
      ScheduleTicking();
      Notify();
    }

    method Stop(nowMs: int)
      modifies this
      ensures State() == AfterStop(old(State()), nowMs)
    {
      phase := Stopped;
      ClearTimers();
      StopAudio();
      ReleaseWakeLock();
      CollectSample(nowMs);
      summary := Some(ComputeSummary(elapsedSeconds, hrReadings, jumpCount, analyzer.jumpTimeMs));
      Notify();
    }

    /** `newId` is the key the database returns for the new workout record. */
    method SaveWorkout(newId: int)
      modifies this
      ensures State() == AfterSave(old(State()), newId)
    {
      if summary.None? {
        return;
      }
      StoreWorkout(newId);
      summary := None;
      phase := Idle;
      Notify();
    }

    /** `addWorkout`, then `addSamples` with every sample tagged with the key `addWorkout` returned. */
    method StoreWorkout(newId: int)
      requires summary.Some?
      modifies this
      ensures State() == WithWorkoutStored(old(State()), newId)
    {
      workoutId := Some(newId);
      var tagged := TagSamples(samples, newId);
      env := env.(savedWorkouts := env.savedWorkouts + [SavedRecord(startTimeMs, elapsedSeconds, summary.value, newId)],
                  savedSamples := env.savedSamples + tagged);
    }

    method DiscardWorkout()
      modifies this
      ensures State() == AfterDiscard(old(State()))
    {
      summary := None;
      phase := Idle;
      Notify();
    }

    method CollectSample(nowMs: int)
      modifies this
      ensures State() == WithSample(old(State()), nowMs)
    {
      samples := samples + [WorkoutSample(0, nowMs, heartRate, jumpCount)];
    }

    method ClearTimers()
      modifies this
      ensures State() == WithoutTimers(old(State()))
    {
      if timerInterval.stored {
        timerInterval := Timer(timerInterval.live - 1, false);
      }
      if sampleInterval.stored {
        sampleInterval := Timer(sampleInterval.live - 1, false);
      }
      if countdownInterval.stored {
        countdownInterval := Timer(countdownInterval.live - 1, false);
      }
    }

    /** The heart-rate callback installed on the Bluetooth adapter. */
    method OnHeartRate(bpm: int)
      modifies this
      ensures State() == AfterHeartRate(old(State()), bpm)
    {
      heartRate := Some(bpm);
      if phase == Active {
        hrReadings := hrReadings + [bpm];
      }
      Notify();
    }

    /** The connection-state callback installed on the Bluetooth adapter. */
    method OnStateChange(c: ConnectionState)
      modifies this
      ensures State() == AfterConnectionChange(old(State()), c)
    {
      connectionState := c;
      Notify();
    }

    /** The jump callback installed on the audio capture. */
    method OnJump()
      modifies this
      ensures State() == AfterJump(old(State()))
    {
      if phase == Active {
        jumpCount := jumpCount + 1;
        Notify();
      }
    }

    /** One captured audio block, judged by the analyzer and passed to the jump callback when it holds a jump. */
    method OnAudioBlock(buffer: seq<int>, readCount: int, nowMs: int)
      requires env.audioRunning
      modifies this, analyzer
      ensures State() == AfterAudioBlock(old(State()), buffer, readCount, nowMs)
    {
      var jumped := analyzer.ProcessBuffer(buffer, readCount, nowMs);
      if jumped {
        OnJump();
      }
    }
  }

  /** The `map` in `saveWorkout` that tags each sample with the new workout key. */
  method TagSamples(samples: seq<WorkoutSample>, workoutId: int) returns (tagged: seq<WorkoutSample>)
    ensures tagged == Tagged(samples, workoutId)
  {
    tagged := [];
    for i := 0 to |samples|
      invariant tagged == Tagged(samples[..i], workoutId)
    {
      assert samples[..i + 1][..i] == samples[..i];
      tagged := tagged + [samples[i].(workoutId := workoutId)];
    }
    assert samples[..|samples|] == samples;
  }

  /** The full workout driven through a controller object: the phases the listener sees and the records stored. */
  method FullFlowScenario() returns (trace: seq<Phase>, savedWorkouts: int, savedSamples: int)
    ensures trace == [Countdown, Active, Paused, Active, Stopped, Idle]
    ensures savedWorkouts == 1 && savedSamples == 1
  {
    var w := new WorkoutState(map[]);
    w.Subscribe(1);
    w.Start();
    ghost var s := FlowStarted();
    assert w.State() == s;
    assert s.phase == Countdown && s.countdown == CountdownSeconds && s.countdownInterval.live > 0;
    CountdownTickNotices(s, 1000);
    w.TickCountdown(1000);
    s := AfterCountdownTick(s, 1000);
    CountdownTickNotices(s, 2000);
    w.TickCountdown(2000);
    s := AfterCountdownTick(s, 2000);
    CountdownTickNotices(s, 3000);
    w.TickCountdown(3000);
    s := AfterCountdownTick(s, 3000);
    CountdownTickNotices(s, 4000);
    w.TickCountdown(4000);
    s := AfterCountdownTick(s, 4000);
    w.TickCountdown(5000);
    w.Pause();
    w.Resume(5000);
    w.Stop(5000);
    w.SaveWorkout(1);
    FullFlowOutcome();
    trace := PhaseTrace(w.notifications, 1);
    savedWorkouts := |w.env.savedWorkouts|;
    savedSamples := |w.env.savedSamples|;
  }
}
