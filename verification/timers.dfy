/** The delay and sound timers. Each is a countdown polled with the current
    time: when it is non-zero and at least one period has passed since its
    last decrement, it goes down by one and remembers the time. Time is an
    integer and the period (1/60 s in the interpreter) a parameter. */
module Timers {
  import opened Machine

  /** A timer value together with the time of its last decrement. */
  datatype Timer = Timer(value: bv8, last: int)

  /** Whether a poll at `now` decrements the timer. */
  predicate Due(t: Timer, now: int, period: int) {
    t.value > 0 && now - t.last >= period
  }

  /** One poll of a timer at time `now`. */
  function Countdown(t: Timer, now: int, period: int): (r: Timer)
    ensures r.value <= t.value && t.value as int - r.value as int <= 1
    ensures r.value != t.value <==> Due(t, now, period)
    ensures r.last != t.last ==> r.value != t.value
    ensures r.value != t.value ==> r.last == now
  {
    if t.value > 0 && now - t.last >= period then Timer(t.value - 1, now) else t
  }

  /** `updateDelayTimer`: a poll of the delay timer. */
  function UpdateDelayTimer(s: State, now: int, period: int): (r: State)
    requires Valid(s)
    ensures Valid(r)
    ensures Timer(r.delay, r.lastDelayUpdate) == Countdown(Timer(s.delay, s.lastDelayUpdate), now, period)
    ensures r.sound == s.sound && r.lastSoundUpdate == s.lastSoundUpdate
    ensures r.regs == s.regs && r.index == s.index && r.pc == s.pc && r.sp == s.sp
    ensures r.stack == s.stack && r.fb == s.fb && r.memory == s.memory && r.waiting == s.waiting
  {
    var t := Countdown(Timer(s.delay, s.lastDelayUpdate), now, period);
    s.(delay := t.value, lastDelayUpdate := t.last)
  }

  /** `updateSoundTimer`: a poll of the sound timer. */
  function UpdateSoundTimer(s: State, now: int, period: int): (r: State)
    requires Valid(s)
    ensures Valid(r)
    ensures Timer(r.sound, r.lastSoundUpdate) == Countdown(Timer(s.sound, s.lastSoundUpdate), now, period)
    ensures r.delay == s.delay && r.lastDelayUpdate == s.lastDelayUpdate
    ensures r.regs == s.regs && r.index == s.index && r.pc == s.pc && r.sp == s.sp
    ensures r.stack == s.stack && r.fb == s.fb && r.memory == s.memory && r.waiting == s.waiting
  {
    var t := Countdown(Timer(s.sound, s.lastSoundUpdate), now, period);
    s.(sound := t.value, lastSoundUpdate := t.last)
  }

  /** The two timers are independent: polling them in either order gives
      the same state. */
  lemma TimersCommute(s: State, now: int, period: int)
    requires Valid(s)
    ensures UpdateDelayTimer(UpdateSoundTimer(s, now, period), now, period)
         == UpdateSoundTimer(UpdateDelayTimer(s, now, period), now, period)
  {
  }

  /** Polls of one timer at the successive times `times`. */
  function Polls(t: Timer, times: seq<int>, period: int): Timer
    decreases |times|
  {
    if |times| == 0 then t else Polls(Countdown(t, times[0], period), times[1..], period)
  }

  /** Each poll takes at most one off the timer, and no poll increases it. */
  lemma {:induction false} PollsBounded(t: Timer, times: seq<int>, period: int)
    ensures Polls(t, times, period).value <= t.value
    ensures t.value as int - Polls(t, times, period).value as int <= |times|
    decreases |times|
  {
    if |times| > 0 {
      PollsBounded(Countdown(t, times[0], period), times[1..], period);
    }
  }

  /** A timer at zero stays at zero. */
  lemma {:induction false} PollsAtZero(t: Timer, times: seq<int>, period: int)
    requires t.value == 0
    ensures Polls(t, times, period).value == 0
    decreases |times|
  {
    if |times| > 0 {
      PollsAtZero(Countdown(t, times[0], period), times[1..], period);
    }
  }

  /** Every poll comes at least one period after the one before it, and the
      first at least one period after `last`. */
  predicate Spaced(last: int, times: seq<int>, period: int) {
    && (|times| > 0 ==> times[0] - last >= period)
    && forall i | 0 < i < |times| :: times[i] - times[i - 1] >= period
  }

  /** Polled once per period, a timer counts down by one per poll until it
      reaches zero. */
  lemma {:induction false} PollsSpaced(t: Timer, times: seq<int>, period: int)
    requires Spaced(t.last, times, period)
    ensures Polls(t, times, period).value as int
         == if t.value as int >= |times| then t.value as int - |times| else 0
    decreases |times|
  {
    if |times| > 0 {
      var t' := Countdown(t, times[0], period);
      if t.value == 0 {
        PollsAtZero(t', times[1..], period);
      } else {
        assert Spaced(t'.last, times[1..], period) by {
          forall i | 0 < i < |times[1..]|
            ensures times[1..][i] - times[1..][i - 1] >= period
          {
            assert times[1..][i] == times[i + 1];
          }
        }
        PollsSpaced(t', times[1..], period);
      }
    }
  }
}
