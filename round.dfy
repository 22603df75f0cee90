/** The round timer (Assets/Game/TimeManager.cs) and the round controller
    (Assets/Game/GameManager.cs), held together in one session object since
    each calls into the other: the timer's expiry triggers the lose latch,
    and winning or restarting stops or restarts the timer.

    The countdown coroutine is a handle (`countdown`) plus an explicit
    `Tick` step: one elapsed `WaitForSeconds(1)` of the running countdown.
    Calls into members that the code base does not define here (the flock's
    `ResetRound`) and into the UI are recorded in a ghost event log. */
module Round {
  import opened Scene

  /** What the timer fields look like between two steps. `countdown` is the
      running coroutine, identified by the number of the StartTimer call
      that started it; `None` when no coroutine is running. */
  datatype Timer = Timer(timeRemaining: real, running: bool, countdown: Option<nat>)

  /** A running countdown always has time left: the coroutine leaves its
      loop in the same step in which the time runs out. */
  predicate Consistent(t: Timer) {
    t.countdown.Some? ==> t.running && t.timeRemaining > 0.0
  }

  /** One pass of the coroutine's loop after its one-second wait: the time
      drops by one, expiry fires when it reaches zero or below, and the loop
      ends (clearing the handle) once it is no longer running with time left.
      The boolean says whether expiry fired. Without a coroutine, nothing. */
  function TickTimer(t: Timer): (Timer, bool) {
    if t.countdown.None? then (t, false)
    else
      var left := t.timeRemaining - 1.0;
      (Timer(left, t.running, if t.running && left > 0.0 then t.countdown else None), left <= 0.0)
  }

  /** `n` ticks in a row, with the number of expiries they fire. */
  function Ticks(t: Timer, n: nat): (Timer, nat)
    decreases n
  {
    if n == 0 then (t, 0)
    else
      var (u, fired) := TickTimer(t);
      var (v, more) := Ticks(u, n - 1);
      (v, more + if fired then 1 else 0)
  }

  /** The number of ticks after which a countdown of `d` seconds expires: the
      least whole number not below `d`. */
  function TicksToExpire(d: real): (n: nat)
    requires d > 0.0
    ensures n as real >= d && (n as real) - 1.0 < d
  {
    if d.Floor as real == d then d.Floor else d.Floor + 1
  }

  /** Each tick of a running countdown takes exactly one second off the
      clock, fires expiry exactly when the time reaches zero or below, and
      then ends the countdown; a tick without a countdown changes nothing. */
  lemma TickStep(t: Timer)
    requires Consistent(t)
    ensures Consistent(TickTimer(t).0)
    ensures t.countdown.None? ==> TickTimer(t) == (t, false)
    ensures t.countdown.Some? ==>
              var (u, fired) := TickTimer(t);
              u.timeRemaining == t.timeRemaining - 1.0 && u.running == t.running &&
              (fired <==> u.timeRemaining <= 0.0) &&
              (fired <==> u.countdown.None?) &&
              (!fired ==> u.countdown == t.countdown)
  {
  }

  /** However many ticks follow, expiry fires at most once, and never again
      once the countdown has ended. */
  lemma {:induction false} ExpiresAtMostOnce(t: Timer, n: nat)
    requires Consistent(t)
    ensures Ticks(t, n).1 <= 1
    ensures t.countdown.None? ==> Ticks(t, n) == (t, 0)
    decreases n
  {
    if n > 0 {
      var (u, fired) := TickTimer(t);
      ExpiresAtMostOnce(u, n - 1);
      if fired {
        assert u.countdown.None?;
      }
    }
  }

  /** A countdown started with `d` seconds, left alone, keeps running with
      `d - n` seconds after `n < TicksToExpire(d)` ticks, and has fired expiry
      exactly once, and stopped, after `TicksToExpire(d)` ticks. */
  lemma {:induction false} CountdownLength(t: Timer, n: nat)
    requires Consistent(t) && t.countdown.Some?
    ensures n < TicksToExpire(t.timeRemaining) ==>
              Ticks(t, n) == (Timer(t.timeRemaining - n as real, t.running, t.countdown), 0)
    ensures n == TicksToExpire(t.timeRemaining) ==>
              Ticks(t, n).1 == 1 && Ticks(t, n).0.countdown.None? &&
              Ticks(t, n).0.timeRemaining == t.timeRemaining - n as real
    decreases n
  {
    if n > 0 {
      var (u, fired) := TickTimer(t);
      var d := t.timeRemaining;
      if d > 1.0 {
        assert !fired && u == Timer(d - 1.0, t.running, t.countdown);
        assert TicksToExpire(d - 1.0) == TicksToExpire(d) - 1 by {
          assert (d - 1.0).Floor == d.Floor - 1;
        }
        CountdownLength(u, n - 1);
      } else {
        assert fired && u.countdown.None?;
        assert TicksToExpire(d) == 1;
        ExpiresAtMostOnce(u, n - 1);
      }
    }
  }

  /** Calls the session makes into other components. */
  datatype Event =
    | Expired(countdown: nat)     // TimerExpired ran for this countdown
    | ShowWinScreen
    | ShowGameOverScreen
    | ResetFlock(boidCount: int)  // BoidManager.Instance?.ResetRound(n)

  /** How often the log records expiry of countdown `h`. */
  function ExpiryCount(log: seq<Event>, h: nat): nat {
    if |log| == 0 then 0
    else ExpiryCount(log[..|log| - 1], h) + if log[|log| - 1] == Expired(h) then 1 else 0
  }

  lemma ExpiryCountAppend(log: seq<Event>, e: Event, h: nat)
    ensures ExpiryCount(log + [e], h) == ExpiryCount(log, h) + if e == Expired(h) then 1 else 0
  {
    assert (log + [e])[..|log|] == log;
  }

  /** Logging anything but an expiry leaves every expiry count as it was. */
  lemma LogOther(log: seq<Event>, e: Event)
    requires !e.Expired?
    ensures forall k :: ExpiryCount(log + [e], k) == ExpiryCount(log, k)
  {
    forall k ensures ExpiryCount(log + [e], k) == ExpiryCount(log, k) {
      ExpiryCountAppend(log, e, k);
    }
  }

  /** Logging the expiry of countdown `h` raises only the count of `h`. */
  lemma LogExpiry(log: seq<Event>, h: nat)
    ensures forall k :: ExpiryCount(log + [Expired(h)], k) == ExpiryCount(log, k) + if k == h then 1 else 0
  {
    forall k ensures ExpiryCount(log + [Expired(h)], k) == ExpiryCount(log, k) + if k == h then 1 else 0 {
      ExpiryCountAppend(log, Expired(h), k);
    }
  }

  /** Logging the expiry of a countdown that had not expired yet, possibly
      followed by the game-over screen, keeps every countdown at most once
      expired and none of the later ones expired. */
  lemma OneMoreExpiry(before: seq<Event>, after: seq<Event>, h: nat, started: nat)
    requires h < started && ExpiryCount(before, h) == 0
    requires forall k :: ExpiryCount(before, k) <= 1
    requires forall k :: k >= started ==> ExpiryCount(before, k) == 0
    requires after == before + [Expired(h)] || after == before + [Expired(h), ShowGameOverScreen]
    ensures forall k :: ExpiryCount(after, k) <= 1
    ensures forall k :: k >= started ==> ExpiryCount(after, k) == 0
  {
    LogExpiry(before, h);
    if after != before + [Expired(h)] {
      assert after == before + [Expired(h)] + [ShowGameOverScreen];
      LogOther(before + [Expired(h)], ShowGameOverScreen);
    }
  }

  class Session {
    // TimeManager
    var timeRemaining: real
    var timerRunning: bool
    var countdown: Option<nat>      // timerCoroutine
    var started: nat                // countdowns started so far
    // GameManager
    var gamePaused: bool
    var timeScale: real             // Time.timeScale
    ghost var log: seq<Event>

    function TimerState(): Timer
      reads this
    {
      Timer(timeRemaining, timerRunning, countdown)
    }

    /** The session invariant: a running countdown has time left and has not
        expired yet, and no countdown has ever expired twice. */
    ghost predicate Valid()
      reads this
    {
      Consistent(TimerState()) &&
      (countdown.Some? ==> countdown.value < started && ExpiryCount(log, countdown.value) == 0) &&
      (forall h :: ExpiryCount(log, h) <= 1) &&
      (forall h :: h >= started ==> ExpiryCount(log, h) == 0)
    }

    constructor ()
      ensures Valid()
      ensures timeRemaining == 0.0 && !timerRunning && countdown.None?
      ensures !gamePaused && timeScale == 1.0 && log == []
    {
      timeRemaining, timerRunning, countdown, started := 0.0, false, None, 0;
      gamePaused, timeScale := false, 1.0;
      log := [];
    }

    /** TimeManager.Start: a first countdown of 30 seconds. */
    method Start()
      requires Valid()
      modifies this
      ensures Valid()
      ensures timeRemaining == 30.0 && timerRunning && countdown == Some(old(started))
      ensures gamePaused == old(gamePaused) && timeScale == old(timeScale) && log == old(log)
    {
      StartTimer(30.0);
    }

    /** StartTimer: ignored for a duration of zero or less; otherwise any
        running countdown is stopped and replaced by a new one. */
    method StartTimer(duration: real)
      requires Valid()
      modifies this
      ensures Valid()
      ensures duration <= 0.0 ==>
                timeRemaining == old(timeRemaining) && timerRunning == old(timerRunning) &&
                countdown == old(countdown) && started == old(started)
      ensures duration > 0.0 ==>
                timeRemaining == duration && timerRunning &&
                countdown == Some(old(started)) && countdown != old(countdown) && started == old(started) + 1
      ensures gamePaused == old(gamePaused) && timeScale == old(timeScale) && log == old(log)
    {
      if duration <= 0.0 {
        return;
      }
      if countdown.Some? {
        countdown := None;     // StopCoroutine(timerCoroutine)
      }
      timeRemaining := duration;
      timerRunning := true;
      countdown := Some(started);
      started := started + 1;
    }

    /** StopTimer: no countdown, not running; the same state however often it is called. */
    method StopTimer()
      requires Valid()
      modifies this
      ensures Valid()
      ensures countdown.None? && !timerRunning
      ensures timeRemaining == old(timeRemaining) && started == old(started)
      ensures gamePaused == old(gamePaused) && timeScale == old(timeScale) && log == old(log)
    {
      if countdown.Some? {
        countdown := None;
      }
      timerRunning := false;
    }

    /** AddTime: a positive amount is added to the remaining time; anything
        else is ignored. */
    method AddTime(additionalTime: real)
      requires Valid()
      modifies this
      ensures Valid()
      ensures timeRemaining == if additionalTime > 0.0 then old(timeRemaining) + additionalTime else old(timeRemaining)
      ensures timerRunning == old(timerRunning) && countdown == old(countdown) && started == old(started)
      ensures gamePaused == old(gamePaused) && timeScale == old(timeScale) && log == old(log)
    {
      if additionalTime > 0.0 {
        timeRemaining := timeRemaining + additionalTime;
      }
    }

    /** One second of the countdown coroutine: the timer moves as TickTimer
        says; when expiry fires, TimerExpired runs for this countdown. */
    method Tick()
      requires Valid()
      modifies this
      ensures Valid()
      ensures TimerState() == TickTimer(old(TimerState())).0 && started == old(started)
      ensures !TickTimer(old(TimerState())).1 ==>
                log == old(log) && gamePaused == old(gamePaused) && timeScale == old(timeScale)
      ensures TickTimer(old(TimerState())).1 && old(gamePaused) ==>
                log == old(log) + [Expired(old(countdown).value)] && gamePaused && timeScale == old(timeScale)
      ensures TickTimer(old(TimerState())).1 && !old(gamePaused) ==>
                log == old(log) + [Expired(old(countdown).value), ShowGameOverScreen] &&
                gamePaused && timeScale == 0.0
    {
      if countdown.None? {
        return;
      }
      ghost var pre := TimerState();
      var h := countdown.value;
      timeRemaining := timeRemaining - 1.0;
      ghost var before := log;
      if timeRemaining <= 0.0 {
        TimerExpired(h);
        OneMoreExpiry(before, log, h, started);
      }
      if !(timerRunning && timeRemaining > 0.0) {
        countdown := None;
      }
      assert TimerState() == TickTimer(pre).0;
    }

    /** TimerExpired: recorded, and the game is lost unless already paused. */
    method TimerExpired(ghost h: nat)
      modifies this
      ensures TimerState() == old(TimerState()) && started == old(started)
      ensures old(gamePaused) ==> log == old(log) + [Expired(h)] && gamePaused && timeScale == old(timeScale)
      ensures !old(gamePaused) ==> log == old(log) + [Expired(h), ShowGameOverScreen] &&
                                   gamePaused && timeScale == 0.0
      ensures forall k :: ExpiryCount(log, k) == ExpiryCount(old(log), k) + if k == h then 1 else 0
    {
      LogExpiry(log, h);
      log := log + [Expired(h)];
      var paused := IsGamePaused();
      if !paused {
        TriggerLose();
      }
    }

    /** GetRemainingTime: a pure read. */
    method GetRemainingTime() returns (t: real)
      ensures t == timeRemaining
    {
      t := timeRemaining;
    }

    /** TriggerWin: a stopped timer and the win screen, which freezes time
        (`ShowWinScreen` sets the time scale to 0); the game's own pause
        flag is not set. */
    method TriggerWin()
      requires Valid()
      modifies this
      ensures Valid()
      ensures countdown.None? && !timerRunning && timeRemaining == old(timeRemaining)
      ensures gamePaused == old(gamePaused) && timeScale == 0.0
      ensures log == old(log) + [ShowWinScreen]
    {
      StopTimer();
      LogOther(log, ShowWinScreen);
      log := log + [ShowWinScreen];
      timeScale := 0.0;
    }

    /** TriggerLose: a latch. Once paused, further calls do nothing; the first
        call pauses the game, freezes time and shows the game-over screen. */
    method TriggerLose()
      modifies this
      ensures TimerState() == old(TimerState()) && started == old(started)
      ensures old(gamePaused) ==> gamePaused && timeScale == old(timeScale) && log == old(log)
      ensures !old(gamePaused) ==> gamePaused && timeScale == 0.0 && log == old(log) + [ShowGameOverScreen]
      ensures forall k :: ExpiryCount(log, k) == ExpiryCount(old(log), k)
    {
      if gamePaused {
        return;
      }
      timeScale := 0.0;
      gamePaused := true;
      LogOther(log, ShowGameOverScreen);
      log := log + [ShowGameOverScreen];
    }

    /** IsGamePaused: a pure read. */
    method IsGamePaused() returns (paused: bool)
      ensures paused == gamePaused
    {
      paused := gamePaused;
    }

    /** RestartRound: a boid count drawn from [5, 20] (`Random.Range(5, 21)`,
        given here), time resumed, the lose latch cleared, the flock reset,
        and a fresh 20-second countdown. */
    method RestartRound(newBoidCount: int)
      requires 5 <= newBoidCount <= 20
      requires Valid()
      modifies this
      ensures Valid()
      ensures timeScale == 1.0 && !gamePaused
      ensures timeRemaining == 20.0 && timerRunning && countdown == Some(old(started))
      ensures log == old(log) + [ResetFlock(newBoidCount)]
    {
      timeScale := 1.0;
      gamePaused := false;
      LogOther(log, ResetFlock(newBoidCount));
      log := log + [ResetFlock(newBoidCount)];
      StartTimer(20.0);
    }
  }
}
