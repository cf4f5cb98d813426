/** The ceiling on argon2 calls and the release of their memory, as atomic steps of any number of callers. */
module HashRelease {
  import opened Prelude

  const MAX_CONCURRENT_HASHES := 4
  const RELEASE_INTERVAL: nat := 2_000_000_000

  /** Where one goroutine stands in idKey and in the scheduleRelease it may run on its way out. */
  datatype Caller =
    | Idle
    | Queued
    | Admitted
    | Hashing
    | Hashed
    | Drained
    | Scheduling
    | Delaying(delay: nat)
    | Unlocking
    | Leaving

  /** Where one timer stands: armed, then the goroutine that runs runRelease. */
  datatype Timer =
    | Armed(due: int)
    | Fired
    | Checking
    | Stamping
    | Stamped
    | Committed
    | Skipping
    | Done

  datatype Owner = ByCaller(caller: nat) | ByTimer(timer: nat)

  /**
   * slots is the number of tokens in the semaphore's channel, pending the timer the releaser points at,
   * timers every timer ever armed. stamps and garbage are history: every value `last` has had, and whether
   * a hash has ended since the last release began.
   */
  datatype State = State(
    callers: seq<Caller>,
    slots: int,
    inFlight: int,
    lock: Option<Owner>,
    pending: Option<nat>,
    timers: seq<Timer>,
    last: Option<int>,
    clock: int,
    stamps: seq<int>,
    garbage: bool)

  datatype Step = Tick(passed: nat) | Arrive(caller: nat) | Move(mover: Owner)

  function Start(callers: nat, clock: int): State {
    State(seq(callers, _ => Idle), 0, 0, None, None, [], None, clock, [], false)
  }

  predicate CallerCanMove(s: State, i: nat) {
    i < |s.callers| &&
    match s.callers[i]
    case Idle => false
    case Queued => s.slots < MAX_CONCURRENT_HASHES
    case Drained => s.lock.None?
    case _ => true
  }

  predicate TimerCanMove(s: State, k: nat) {
    k < |s.timers| &&
    match s.timers[k]
    case Armed(due) => due <= s.clock
    case Fired => s.lock.None?
    case Done => false
    case _ => true
  }

  predicate Enabled(s: State, e: Step) {
    match e
    case Tick(_) => true
    case Arrive(i) => i < |s.callers| && s.callers[i].Idle?
    case Move(ByCaller(i)) => CallerCanMove(s, i)
    case Move(ByTimer(k)) => TimerCanMove(s, k)
  }

  /** How long scheduleRelease still has to wait for the interval to pass. */
  function DelayAt(last: Option<int>, clock: int): nat {
    match last
    case None => 0
    case Some(t) => if t + RELEASE_INTERVAL > clock then t + RELEASE_INTERVAL - clock else 0
  }

  /** The next atomic action of caller i. */
  function MoveCaller(s: State, i: nat): State
    requires CallerCanMove(s, i)
  {
    match s.callers[i]
    case Queued => s.(callers := s.callers[i := Admitted], slots := s.slots + 1)
    case Admitted => s.(callers := s.callers[i := Hashing], inFlight := s.inFlight + 1)
    case Hashing => s.(callers := s.callers[i := Hashed], garbage := true)
    case Hashed =>
      s.(callers := s.callers[i := if s.inFlight - 1 == 0 then Drained else Leaving], inFlight := s.inFlight - 1)
    case Drained => s.(callers := s.callers[i := Scheduling], lock := Some(ByCaller(i)))
    case Scheduling =>
      s.(callers := s.callers[i := if s.pending.Some? then Unlocking else Delaying(DelayAt(s.last, s.clock))])
    case Delaying(delay) =>
      s.(callers := s.callers[i := Unlocking], timers := s.timers + [Armed(s.clock + delay)], pending := Some(|s.timers|))
    case Unlocking => s.(callers := s.callers[i := Leaving], lock := None)
    case Leaving => s.(callers := s.callers[i := Idle], slots := s.slots - 1)
  }

  /** The next atomic action of timer k. */
  function MoveTimer(s: State, k: nat): State
    requires TimerCanMove(s, k)
  {
    match s.timers[k]
    case Armed(_) => s.(timers := s.timers[k := Fired])
    case Fired => s.(timers := s.timers[k := Checking], lock := Some(ByTimer(k)), pending := None)
    case Checking => s.(timers := s.timers[k := if s.inFlight != 0 then Skipping else Stamping])
    case Stamping =>
      s.(timers := s.timers[k := Stamped], last := Some(s.clock), stamps := s.stamps + [s.clock])
    case Stamped => s.(timers := s.timers[k := Committed], lock := None)
    case Committed => s.(timers := s.timers[k := Done], garbage := false)
    case Skipping => s.(timers := s.timers[k := Done], lock := None)
  }

  /** One step of the system; a step that is not possible changes nothing. */
  function Next(s: State, e: Step): State {
    if !Enabled(s, e) then s else
      match e
      case Tick(passed) => s.(clock := s.clock + passed)
      case Arrive(i) => s.(callers := s.callers[i := Queued])
      case Move(ByCaller(i)) => MoveCaller(s, i)
      case Move(ByTimer(k)) => MoveTimer(s, k)
  }

  // Counting.

  function Sum<T>(s: seq<T>, f: T -> nat): nat {
    if s == [] then 0 else Sum(s[..|s| - 1], f) + f(s[|s| - 1])
  }

  lemma {:induction false} SumUpdate<T>(s: seq<T>, f: T -> nat, i: nat, x: T)
    requires i < |s|
    ensures Sum(s[i := x], f) + f(s[i]) == Sum(s, f) + f(x)
    ensures f(s[i]) <= Sum(s, f)
  {
    var front, t := s[..|s| - 1], s[i := x];
    if i == |s| - 1 {
      assert t[..|t| - 1] == front;
    } else {
      assert t[..|t| - 1] == front[i := x];
      SumUpdate(front, f, i, x);
    }
  }

  lemma {:induction false} SumIsZero<T>(s: seq<T>, f: T -> nat)
    requires forall i :: 0 <= i < |s| ==> f(s[i]) == 0
    ensures Sum(s, f) == 0
  {
    if s != [] { SumIsZero(s[..|s| - 1], f); }
  }

  lemma {:induction false} SumAtMost<T>(s: seq<T>, f: T -> nat, g: T -> nat)
    requires forall i :: 0 <= i < |s| ==> f(s[i]) <= g(s[i])
    ensures Sum(s, f) <= Sum(s, g)
  {
    if s != [] { SumAtMost(s[..|s| - 1], f, g); }
  }

  lemma {:induction false} SumPicks<T>(s: seq<T>, f: T -> nat) returns (i: nat)
    requires Sum(s, f) > 0
    ensures i < |s| && f(s[i]) > 0
  {
    i := |s| - 1;
    if f(s[i]) == 0 { i := SumPicks(s[..i], f); }
  }

  lemma SumAppend<T>(s: seq<T>, f: T -> nat, x: T)
    ensures Sum(s + [x], f) == Sum(s, f) + f(x)
  {
    assert (s + [x])[..|s|] == s;
  }

  /** One for a caller whose token is in the channel. */
  function Slot(c: Caller): nat { if c.Idle? || c.Queued? then 0 else 1 }

  /** One for a caller inFlightHashes counts. */
  function Counted(c: Caller): nat { if c.Hashing? || c.Hashed? then 1 else 0 }

  /** One for a caller inside argon2. */
  function InsideArgon(c: Caller): nat { if c.Hashing? then 1 else 0 }

  // What every step keeps.

  predicate CallerLocks(c: Caller) { c.Scheduling? || c.Delaying? || c.Unlocking? }

  predicate TimerLocks(t: Timer) { t.Checking? || t.Stamping? || t.Stamped? || t.Skipping? }

  /** t is what the releaser's pending field stands for. */
  predicate Outstanding(t: Timer) { t.Armed? || t.Fired? }

  /** The counters are what they count, and the channel is never over capacity. */
  ghost predicate Counting(s: State) {
    && s.slots == Sum(s.callers, Slot) <= MAX_CONCURRENT_HASHES
    && s.inFlight == Sum(s.callers, Counted)
  }

  /** The mutex has exactly one holder. */
  ghost predicate OneHolder(s: State) {
    && (forall i :: 0 <= i < |s.callers| ==> (CallerLocks(s.callers[i]) <==> s.lock == Some(ByCaller(i))))
    && (forall k :: 0 <= k < |s.timers| ==> (TimerLocks(s.timers[k]) <==> s.lock == Some(ByTimer(k))))
    && (s.lock.Some? && s.lock.value.ByCaller? ==> s.lock.value.caller < |s.callers|)
    && (s.lock.Some? && s.lock.value.ByTimer? ==> s.lock.value.timer < |s.timers|)
  }

  /** pending is exactly the outstanding timer. */
  ghost predicate OnePending(s: State) {
    && (forall k :: 0 <= k < |s.timers| ==> (Outstanding(s.timers[k]) <==> s.pending == Some(k)))
    && (s.pending.Some? ==> s.pending.value < |s.timers|)
    && (forall i :: 0 <= i < |s.callers| && s.callers[i].Delaying? ==> s.pending.None?)
    && (forall k :: 0 <= k < |s.timers| && TimerLocks(s.timers[k]) ==> s.pending.None?)
  }

  ghost predicate Exclusive(s: State) { OneHolder(s) && OnePending(s) }

  /** A release stamped at t would come a whole interval after the last one. */
  predicate Late(s: State, t: int) {
    s.last.Some? ==> s.last.value + RELEASE_INTERVAL <= t
  }

  ghost predicate Spaced(stamps: seq<int>) {
    forall i, j :: 0 <= i < j < |stamps| ==> stamps[i] + RELEASE_INTERVAL <= stamps[j]
  }

  ghost predicate Timely(s: State) {
    && Spaced(s.stamps)
    && (s.last.None? <==> s.stamps == [])
    && (s.last.Some? ==> s.stamps != [] && s.last.value == s.stamps[|s.stamps| - 1] <= s.clock)
    && (forall i :: 0 <= i < |s.callers| && s.callers[i].Delaying? ==> Late(s, s.clock + s.callers[i].delay))
    && (forall k :: 0 <= k < |s.timers| && s.timers[k].Armed? ==> Late(s, s.timers[k].due))
    && (forall k :: 0 <= k < |s.timers| && (s.timers[k].Fired? || s.timers[k].Checking? || s.timers[k].Stamping?) ==>
          Late(s, s.clock))
  }

  /** c is between its decrement to zero and the end of its scheduleRelease. */
  predicate WillSchedule(c: Caller) { c.Drained? || c.Scheduling? || c.Delaying? }

  /** t has cleared pending and may still release, or is bound to. */
  predicate WillRelease(t: Timer) { t.Checking? || t.Stamping? || t.Stamped? || t.Committed? }

  /** Somebody is on the way to releasing. */
  ghost predicate ReleaseComing(s: State) {
    || s.pending.Some?
    || (exists i :: 0 <= i < |s.callers| && WillSchedule(s.callers[i]))
    || (exists k :: 0 <= k < |s.timers| && WillRelease(s.timers[k]))
  }

  ghost predicate NothingLost(s: State) {
    s.garbage && s.inFlight == 0 ==> ReleaseComing(s)
  }

  ghost predicate Safe(s: State) {
    Counting(s) && Exclusive(s) && Timely(s) && NothingLost(s)
  }

  lemma {:induction false} StartIsSafe(callers: nat, clock: int)
    ensures Safe(Start(callers, clock))
  {
    var s := Start(callers, clock);
    SumIsZero(s.callers, Slot);
    SumIsZero(s.callers, Counted);
  }

  /** A caller's action changes that caller, and the counters by what they count of it. */
  lemma CountersFollow(s: State, i: nat)
    requires CallerCanMove(s, i)
    ensures var t := MoveCaller(s, i);
      && i < |s.callers| && i < |t.callers| && t.callers == s.callers[i := t.callers[i]]
      && t.slots + Slot(s.callers[i]) == s.slots + Slot(t.callers[i]) && (t.slots <= s.slots || t.slots <= MAX_CONCURRENT_HASHES)
      && t.inFlight + Counted(s.callers[i]) == s.inFlight + Counted(t.callers[i])
  {
  }

  lemma CallerKeepsCounting(s: State, i: nat)
    requires Counting(s) && CallerCanMove(s, i)
    ensures Counting(MoveCaller(s, i))
  {
    hide MoveCaller, CallerCanMove, Sum, Slot, Counted;
    CountersFollow(s, i);
    var c := MoveCaller(s, i).callers[i];
    SumUpdate(s.callers, Slot, i, c);
    SumUpdate(s.callers, Counted, i, c);
  }

  lemma TimerKeepsCounting(s: State, k: nat)
    requires Counting(s) && TimerCanMove(s, k)
    ensures Counting(MoveTimer(s, k))
  {
  }

  /** A caller's action takes or gives back the lock as that caller's state says, and no timer's turn changes. */
  lemma LockFollows(s: State, i: nat)
    requires CallerCanMove(s, i) && (CallerLocks(s.callers[i]) ==> s.lock == Some(ByCaller(i)))
    ensures var t := MoveCaller(s, i);
      && i < |s.callers| && i < |t.callers| && t.callers == s.callers[i := t.callers[i]]
      && t.lock == (if CallerLocks(t.callers[i]) then Some(ByCaller(i)) else if CallerLocks(s.callers[i]) then None else s.lock)
      && (CallerLocks(t.callers[i]) && !CallerLocks(s.callers[i]) ==> s.lock.None?)
      && |s.timers| <= |t.timers| && t.timers[..|s.timers|] == s.timers
      && (forall k :: |s.timers| <= k < |t.timers| ==> t.timers[k].Armed?)
  {
  }

  lemma CallerKeepsOneHolder(s: State, i: nat)
    requires OneHolder(s) && CallerCanMove(s, i)
    ensures OneHolder(MoveCaller(s, i))
  {
    LockFollows(s, i);
    hide MoveCaller, CallerCanMove;
    var t := MoveCaller(s, i);
    forall k | 0 <= k < |t.timers| ensures TimerLocks(t.timers[k]) <==> t.lock == Some(ByTimer(k)) {
      if k < |s.timers| { assert t.timers[..|s.timers|][k] == s.timers[k]; }
    }
  }

  lemma CallerKeepsOnePending(s: State, i: nat)
    requires Exclusive(s) && CallerCanMove(s, i)
    ensures OnePending(MoveCaller(s, i))
  {
    hide DelayAt;
  }

  lemma CallerKeepsExclusive(s: State, i: nat)
    requires Exclusive(s) && CallerCanMove(s, i)
    ensures Exclusive(MoveCaller(s, i))
  {
    hide OneHolder, OnePending, MoveCaller, CallerCanMove;
    CallerKeepsOneHolder(s, i);
    CallerKeepsOnePending(s, i);
  }

  lemma TimerKeepsExclusive(s: State, k: nat)
    requires Exclusive(s) && TimerCanMove(s, k)
    ensures Exclusive(MoveTimer(s, k))
  {
  }

  lemma SchedulerKeepsTimely(s: State, i: nat)
    requires Exclusive(s) && Timely(s) && CallerCanMove(s, i) && (s.callers[i].Scheduling? || s.callers[i].Delaying?)
    ensures Timely(MoveCaller(s, i))
  {
    hide Spaced, Exclusive;
  }

  lemma OtherCallerKeepsTimely(s: State, i: nat)
    requires Timely(s) && CallerCanMove(s, i) && !s.callers[i].Scheduling? && !s.callers[i].Delaying?
    ensures Timely(MoveCaller(s, i))
  {
    hide Spaced;
  }

  lemma CallerKeepsTimely(s: State, i: nat)
    requires Exclusive(s) && Timely(s) && CallerCanMove(s, i)
    ensures Timely(MoveCaller(s, i))
  {
    hide Timely, Exclusive, MoveCaller;
    if s.callers[i].Scheduling? || s.callers[i].Delaying? { SchedulerKeepsTimely(s, i); } else { OtherCallerKeepsTimely(s, i); }
  }

  /** The releaser stamps a release only once the interval has passed, while nobody else can be about to. */
  lemma StamperKeepsTimely(s: State, k: nat)
    requires Exclusive(s) && Timely(s) && TimerCanMove(s, k) && s.timers[k].Stamping?
    ensures Timely(MoveTimer(s, k))
  {
    assert Late(s, s.clock);
    StampedLate(s.stamps, s.clock);
    hide Spaced;
  }

  lemma StampedLate(stamps: seq<int>, now: int)
    requires Spaced(stamps) && (stamps != [] ==> stamps[|stamps| - 1] + RELEASE_INTERVAL <= now)
    ensures Spaced(stamps + [now])
  {
  }

  lemma OtherTimerKeepsTimely(s: State, k: nat)
    requires Timely(s) && TimerCanMove(s, k) && !s.timers[k].Stamping?
    ensures Timely(MoveTimer(s, k))
  {
    hide Spaced;
  }

  lemma TimerKeepsTimely(s: State, k: nat)
    requires Exclusive(s) && Timely(s) && TimerCanMove(s, k)
    ensures Timely(MoveTimer(s, k))
  {
    hide Timely, Exclusive, MoveTimer;
    if s.timers[k].Stamping? { StamperKeepsTimely(s, k); } else { OtherTimerKeepsTimely(s, k); }
  }

  lemma CallerLosesNothing(s: State, i: nat)
    requires Counting(s) && NothingLost(s) && CallerCanMove(s, i)
    ensures NothingLost(MoveCaller(s, i))
  {
    var t := MoveCaller(s, i);
    SumUpdate(s.callers, Counted, i, t.callers[i]);
    if t.garbage && t.inFlight == 0 && t.pending.None? {
      if s.callers[i].Hashed? {
        assert WillSchedule(t.callers[i]);
      } else if j :| 0 <= j < |s.callers| && WillSchedule(s.callers[j]) {
        assert WillSchedule(t.callers[j]);
      } else {
        var k :| 0 <= k < |s.timers| && WillRelease(s.timers[k]);
        assert WillRelease(t.timers[k]);
      }
    }
  }

  lemma TimerLosesNothing(s: State, k: nat)
    requires Exclusive(s) && NothingLost(s) && TimerCanMove(s, k)
    ensures NothingLost(MoveTimer(s, k))
  {
    var t := MoveTimer(s, k);
    if t.garbage && t.inFlight == 0 && t.pending.None? {
      if s.timers[k].Fired? {
        assert WillRelease(t.timers[k]);
      } else if i :| 0 <= i < |s.callers| && WillSchedule(s.callers[i]) {
        assert WillSchedule(t.callers[i]);
      } else {
        var j :| 0 <= j < |s.timers| && WillRelease(s.timers[j]);
        assert WillRelease(t.timers[j]);
      }
    }
  }

  lemma ClockKeepsSafe(s: State, passed: nat)
    requires Safe(s)
    ensures Safe(s.(clock := s.clock + passed))
  {
    var t := s.(clock := s.clock + passed);
    if t.garbage && t.inFlight == 0 {
      assert ReleaseComing(s);
      assert ReleaseComing(t);
    }
  }

  lemma ArrivalKeepsSafe(s: State, i: nat)
    requires Safe(s) && i < |s.callers| && s.callers[i].Idle?
    ensures Safe(s.(callers := s.callers[i := Queued]))
  {
    var t := s.(callers := s.callers[i := Queued]);
    SumUpdate(s.callers, Slot, i, Queued);
    SumUpdate(s.callers, Counted, i, Queued);
    if t.garbage && t.inFlight == 0 && t.pending.None? {
      if j :| 0 <= j < |s.callers| && WillSchedule(s.callers[j]) {
        assert WillSchedule(t.callers[j]);
      }
    }
  }

  lemma SafeKept(s: State, e: Step)
    requires Safe(s)
    ensures Safe(Next(s, e))
  {
    hide Counting, Exclusive, Timely, NothingLost, MoveCaller, MoveTimer;
    if Enabled(s, e) {
      match e
      case Tick(passed) => ClockKeepsSafe(s, passed);
      case Arrive(i) => ArrivalKeepsSafe(s, i);
      case Move(ByCaller(i)) =>
        CallerKeepsCounting(s, i);
        CallerKeepsExclusive(s, i);
        CallerKeepsTimely(s, i);
        CallerLosesNothing(s, i);
      case Move(ByTimer(k)) =>
        TimerKeepsCounting(s, k);
        TimerKeepsExclusive(s, k);
        TimerKeepsTimely(s, k);
        TimerLosesNothing(s, k);
    }
  }

  /** What holds after every interleaving, in terms of the callers, the timers and the stamps alone. */
  lemma EveryRunIsSafe(callers: nat, clock: int, steps: seq<Step>, n: nat)
    requires n <= |steps|
    ensures var s := RunOf(Next, Start(callers, clock), steps, n);
      && Safe(s)
      && Sum(s.callers, InsideArgon) <= MAX_CONCURRENT_HASHES
      && (forall j, k :: 0 <= j < |s.timers| && 0 <= k < |s.timers| && Outstanding(s.timers[j]) && Outstanding(s.timers[k]) ==> j == k)
      && Spaced(s.stamps)
      && (s.garbage && (forall i :: 0 <= i < |s.callers| ==> Counted(s.callers[i]) == 0) ==> ReleaseComing(s))
  {
    StartIsSafe(callers, clock);
    SafeSteps();
    RunKeeps(Next, s => Safe(s), Start(callers, clock), steps, n);
    SafeInPlainTerms(RunOf(Next, Start(callers, clock), steps, n));
  }

  lemma SafeSteps()
    ensures forall s, e :: Safe(s) ==> Safe(Next(s, e))
  {
    hide Safe, Next;
    forall s, e | Safe(s)
      ensures Safe(Next(s, e))
    {
      SafeKept(s, e);
    }
  }

  lemma SafeInPlainTerms(s: State)
    requires Safe(s)
    ensures Sum(s.callers, InsideArgon) <= MAX_CONCURRENT_HASHES
    ensures forall j, k ::
      0 <= j < |s.timers| && 0 <= k < |s.timers| && Outstanding(s.timers[j]) && Outstanding(s.timers[k]) ==> j == k
    ensures s.garbage && (forall i :: 0 <= i < |s.callers| ==> Counted(s.callers[i]) == 0) ==> ReleaseComing(s)
  {
    SumAtMost(s.callers, InsideArgon, Slot);
    if forall i :: 0 <= i < |s.callers| ==> Counted(s.callers[i]) == 0 {
      SumIsZero(s.callers, Counted);
    }
  }

  // Every release that is coming does come.

  function CallerWork(c: Caller): nat {
    match c
    case Idle => 0
    case Queued => 15
    case Admitted => 14
    case Hashing => 13
    case Hashed => 12
    case Drained => 11
    case Scheduling => 10
    case Delaying(_) => 9
    case Unlocking => 2
    case Leaving => 1
  }

  function TimerWork(t: Timer): nat {
    match t
    case Armed(_) => 6
    case Fired => 5
    case Checking => 4
    case Stamping => 3
    case Stamped => 2
    case Committed => 1
    case Skipping => 1
    case Done => 0
  }

  /** A bound on the moves left to everyone who has arrived. */
  function Work(s: State): nat { Sum(s.callers, CallerWork) + Sum(s.timers, TimerWork) }

  lemma MoveDoesWork(s: State, mover: Owner)
    requires Enabled(s, Move(mover))
    ensures Work(Next(s, Move(mover))) < Work(s)
  {
    hide MoveCaller, MoveTimer, CallerCanMove, TimerCanMove;
    match mover
    case ByCaller(i) => CallerDoesWork(s, i);
    case ByTimer(k) => TimerDoesWork(s, k);
  }

  lemma CallerDoesWork(s: State, i: nat)
    requires CallerCanMove(s, i)
    ensures Work(MoveCaller(s, i)) < Work(s)
  {
    hide Sum, DelayAt;
    var c := MoveCaller(s, i).callers[i];
    SumUpdate(s.callers, CallerWork, i, c);
    if s.callers[i].Delaying? { SumAppend(s.timers, TimerWork, Armed(s.clock + s.callers[i].delay)); }
  }

  lemma TimerDoesWork(s: State, k: nat)
    requires TimerCanMove(s, k)
    ensures Work(MoveTimer(s, k)) < Work(s)
  {
    hide Sum;
    SumUpdate(s.timers, TimerWork, k, MoveTimer(s, k).timers[k]);
  }

  /** No deadlock: while anything is left to do, somebody can do some of it, at once or after waiting. */
  lemma SomebodyCanMove(s: State) returns (wait: nat, mover: Owner)
    requires Safe(s) && Work(s) > 0
    ensures Enabled(Next(s, Tick(wait)), Move(mover))
  {
    hide Timely, NothingLost;
    wait := 0;
    if s.lock.Some? {
      mover := s.lock.value;
    } else if Sum(s.timers, TimerWork) > 0 {
      var k := SumPicks(s.timers, TimerWork);
      mover := ByTimer(k);
      if s.timers[k].Armed? && s.clock < s.timers[k].due { wait := s.timers[k].due - s.clock; }
    } else {
      var i := SumPicks(s.callers, CallerWork);
      if s.callers[i].Queued? && s.slots == MAX_CONCURRENT_HASHES { i := SumPicks(s.callers, Slot); }
      mover := ByCaller(i);
    }
  }

  /** The same, as an equivalence: nobody can ever move again exactly when the system has come to rest. */
  ghost predicate AtRest(s: State) {
    forall wait, mover :: !Enabled(Next(s, Tick(wait)), Move(mover))
  }

  lemma AtRestIsReleased(s: State)
    requires Safe(s)
    ensures AtRest(s) <==> (forall i :: 0 <= i < |s.callers| ==> s.callers[i].Idle?) && (forall k :: 0 <= k < |s.timers| ==> s.timers[k].Done?)
    ensures AtRest(s) ==> !s.garbage && s.slots == 0 && s.inFlight == 0
  {
    if AtRest(s) {
      if Work(s) > 0 {
        var wait, mover := SomebodyCanMove(s);
        assert false;
      }
      WorkIsNone(s);
      RestIsReleased(s);
    }
  }

  lemma WorkIsNone(s: State)
    requires Work(s) == 0
    ensures forall i :: 0 <= i < |s.callers| ==> s.callers[i].Idle?
    ensures forall k :: 0 <= k < |s.timers| ==> s.timers[k].Done?
  {
    forall i | 0 <= i < |s.callers| ensures s.callers[i].Idle? { SumUpdate(s.callers, CallerWork, i, Idle); }
    forall k | 0 <= k < |s.timers| ensures s.timers[k].Done? { SumUpdate(s.timers, TimerWork, k, Done); }
  }

  lemma RestIsReleased(s: State)
    requires Safe(s)
    requires forall i :: 0 <= i < |s.callers| ==> s.callers[i].Idle?
    requires forall k :: 0 <= k < |s.timers| ==> s.timers[k].Done?
    ensures !s.garbage && s.slots == 0 && s.inFlight == 0
  {
    SumIsZero(s.callers, Slot);
    SumIsZero(s.callers, Counted);
  }

  /** How many of the first n steps are moves somebody really makes. */
  function Moves(s: State, steps: seq<Step>, n: nat): nat
    requires n <= |steps|
  {
    if n == 0 then 0 else
      Moves(s, steps, n - 1)
      + if steps[n - 1].Move? && Enabled(RunOf(Next, s, steps, n - 1), steps[n - 1]) then 1 else 0
  }

  /** Once nobody new arrives, the moves are bounded, so the system comes to rest. */
  lemma {:induction false} MovesAreBounded(s: State, steps: seq<Step>, n: nat)
    requires n <= |steps| && forall i :: 0 <= i < |steps| ==> !steps[i].Arrive?
    ensures Moves(s, steps, n) + Work(RunOf(Next, s, steps, n)) <= Work(s)
  {
    if n > 0 {
      hide MoveCaller, MoveTimer;
      MovesAreBounded(s, steps, n - 1);
      var t := RunOf(Next, s, steps, n - 1);
      if steps[n - 1].Move? && Enabled(t, steps[n - 1]) { MoveDoesWork(t, steps[n - 1].mover); }
    }
  }
}
