// awaitHealthy: the polling loop that gates a cutover, on a clock it only reads.

module Health {

  /** One turn of the loop as the world answers it: whether the check passes, the
      clock read after it, the clock read for the heartbeat, and whether the
      request is cancelled during the wait. Times in nanoseconds. */
  datatype Round = Round(healthy: bool, after: int, beat: int, cancelled: bool)

  datatype Result = Passed | NeverPassed | Cancelled

  const SECOND: int := 1_000_000_000
  const HEARTBEAT: int := 10 * SECOND

  /** The clock never goes back and every wait lasts at least the interval. */
  ghost predicate Ticking(started: int, rounds: nat -> Round, interval: int) {
    && started <= rounds(0).after
    && (forall k: nat :: rounds(k).after <= rounds(k).beat)
    && (forall k: nat :: rounds(k).beat + interval <= rounds(k + 1).after)
  }

  lemma {:induction false} RoundsTakeTime(started: int, rounds: nat -> Round, interval: int, k: nat)
    requires Ticking(started, rounds, interval) && interval > 0
    ensures started + k * interval <= rounds(k).after
  {
    if k > 0 {
      RoundsTakeTime(started, rounds, interval, k - 1);
      assert rounds(k - 1).beat + interval <= rounds(k - 1 + 1).after;
      assert k * interval == (k - 1) * interval + interval;
    }
  }

  lemma AtMost(k: nat, interval: int, timeout: int)
    requires interval > 0 && 0 <= k * interval <= timeout
    ensures k <= timeout / interval
  {
    var q := timeout / interval;
    assert timeout < (q + 1) * interval;
    Positive(q + 1 - k, interval);
  }

  lemma Positive(x: int, d: int)
    requires d > 0 && x * d > 0
    ensures x > 0
  {
  }

  function Budget(timeout: int): int {
    if timeout <= 0 then 60 * SECOND else timeout
  }

  function Pause(interval: int): int {
    if interval <= 0 then SECOND else interval
  }

  /** Beats are written more than ten seconds after the start and after each other. */
  predicate Spaced(started: int, beats: seq<int>) {
    && (beats != [] ==> started + 10_000_000_000 < beats[0])
    && (forall i | 0 < i < |beats| :: beats[i - 1] + 10_000_000_000 < beats[i])
  }

  /** Rounds that go on to the heartbeat: all but one that passes or gives up. */
  function Waits(result: Result, checks: nat): nat
    requires checks > 0
  {
    if result == Cancelled then checks else checks - 1
  }

  /** At each of the first `n` waits the last beat, or the start, is recent, and
      every beat is one of theirs. */
  ghost predicate Beaten(started: int, rounds: nat -> Round, n: nat, beats: seq<int>) {
    && (forall k: nat | k < n && rounds(k).beat > started + 10_000_000_000 ::
          exists i :: 0 <= i < |beats| && beats[i] <= rounds(k).beat <= beats[i] + 10_000_000_000)
    && (forall i | 0 <= i < |beats| :: exists k: nat :: k < n && beats[i] == rounds(k).beat)
  }

  lemma BeatsLater(started: int, rounds: nat -> Round, n: nat, beats: seq<int>, beats': seq<int>)
    requires Beaten(started, rounds, n, beats)
    requires beats' == beats || beats' == beats + [rounds(n).beat]
    requires rounds(n).beat > started + 10_000_000_000 ==>
               beats' != [] && beats'[|beats'| - 1] <= rounds(n).beat <= beats'[|beats'| - 1] + 10_000_000_000
    ensures Beaten(started, rounds, n + 1, beats')
  {
    forall k: nat | k < n + 1 && rounds(k).beat > started + 10_000_000_000
      ensures exists i :: 0 <= i < |beats'| && beats'[i] <= rounds(k).beat <= beats'[i] + 10_000_000_000
    {
      if k < n {
        var i :| 0 <= i < |beats| && beats[i] <= rounds(k).beat <= beats[i] + 10_000_000_000;
        assert beats'[i] == beats[i];
      }
    }
    forall i | 0 <= i < |beats'| ensures exists k: nat :: k < n + 1 && beats'[i] == rounds(k).beat {
      if i < |beats| { assert beats'[i] == beats[i]; }
    }
  }

  /** It goes on exactly while checks fail, the budget (a minute unless set) lasts
      and nobody cancels: at least one check, at most floor(budget / interval) + 2;
      it passes, gives up or is cancelled as the last round says, in that order. A
      heartbeat is written in every wait more than ten seconds after the last one
      or the start, and in no other. */
  method AwaitHealthy(services: bool, timeout: int, interval: int, started: int, rounds: nat -> Round)
    returns (result: Result, checks: nat, beats: seq<int>)
    requires Ticking(started, rounds, if interval <= 0 then 1_000_000_000 else interval)
    ensures !services ==> result == Passed && checks == 0 && beats == []
    ensures services ==>
              var budget := if timeout <= 0 then 60_000_000_000 else timeout;
              var pause := if interval <= 0 then 1_000_000_000 else interval;
              && 1 <= checks <= budget / pause + 2
              && (forall k | 0 <= k < checks - 1 ::
                    !rounds(k).healthy && rounds(k).after <= started + budget && !rounds(k).cancelled)
              && var last := rounds(checks - 1);
                 && (last.healthy ==> result == Passed)
                 && (!last.healthy && last.after > started + budget ==> result == NeverPassed)
                 && (!last.healthy && last.after <= started + budget ==> result == Cancelled && last.cancelled)
    ensures services ==> Spaced(started, beats) && Beaten(started, rounds, Waits(result, checks), beats)
  {
    result, checks, beats := Passed, 0, [];
    if !services {
      return;
    }
    hide Ticking, Spaced, Beaten, Waits;
    result, checks, beats := Poll(Budget(timeout), Pause(interval), started, rounds);
  }

  /** The beats so far after `n` waits, and when the next is due. */
  ghost predicate OnTime(started: int, rounds: nat -> Round, n: nat, beats: seq<int>, nextBeat: int) {
    && Spaced(started, beats) && Beaten(started, rounds, n, beats)
    && nextBeat == (if beats == [] then started else beats[|beats| - 1]) + HEARTBEAT
    && (beats != [] ==> n > 0 && beats[|beats| - 1] <= rounds(n - 1).beat)
  }

  lemma NoBeats(started: int, rounds: nat -> Round)
    ensures OnTime(started, rounds, 0, [], started + HEARTBEAT)
  {
  }

  lemma StillOnTime(started: int, rounds: nat -> Round, pause: int, n: nat, beats: seq<int>, nextBeat: int)
    requires OnTime(started, rounds, n, beats, nextBeat) && Ticking(started, rounds, pause) && pause > 0
    ensures if rounds(n).beat > nextBeat
            then OnTime(started, rounds, n + 1, beats + [rounds(n).beat], rounds(n).beat + HEARTBEAT)
            else OnTime(started, rounds, n + 1, beats, nextBeat)
  {
    Advances(started, rounds, pause, n);
    hide Ticking, OnTime;
    if rounds(n).beat > nextBeat {
      BeatNow(started, rounds, n, beats, nextBeat);
    } else {
      BeatLater(started, rounds, n, beats, nextBeat);
    }
  }

  lemma BeatNow(started: int, rounds: nat -> Round, n: nat, beats: seq<int>, nextBeat: int)
    requires OnTime(started, rounds, n, beats, nextBeat) && rounds(n).beat > nextBeat
    ensures OnTime(started, rounds, n + 1, beats + [rounds(n).beat], rounds(n).beat + HEARTBEAT)
  {
    hide Beaten, Spaced;
    BeatsLater(started, rounds, n, beats, beats + [rounds(n).beat]);
    SpacedGrows(started, beats, rounds(n).beat);
  }

  lemma BeatLater(started: int, rounds: nat -> Round, n: nat, beats: seq<int>, nextBeat: int)
    requires OnTime(started, rounds, n, beats, nextBeat) && rounds(n).beat <= nextBeat
    requires n > 0 ==> rounds(n - 1).beat <= rounds(n).beat
    ensures OnTime(started, rounds, n + 1, beats, nextBeat)
  {
    hide Beaten, Spaced;
    BeatsLater(started, rounds, n, beats, beats);
  }

  lemma SpacedGrows(started: int, beats: seq<int>, now: int)
    requires Spaced(started, beats) && now > (if beats == [] then started else beats[|beats| - 1]) + HEARTBEAT
    ensures Spaced(started, beats + [now])
  {
  }

  lemma Advances(started: int, rounds: nat -> Round, pause: int, n: nat)
    requires Ticking(started, rounds, pause) && pause > 0
    ensures n > 0 ==> rounds(n - 1).beat <= rounds(n).beat
  {
    if n > 0 { assert rounds(n - 1).beat + pause <= rounds(n - 1 + 1).after <= rounds(n).beat; }
  }

  /** Rounds that neither pass nor give up nor are cancelled. */
  predicate GoesOn(round: Round, deadline: int) {
    !round.healthy && round.after <= deadline && !round.cancelled
  }

  method Poll(budget: int, pause: int, started: int, rounds: nat -> Round)
    returns (result: Result, checks: nat, beats: seq<int>)
    requires budget > 0 && pause > 0 && Ticking(started, rounds, pause)
    ensures 1 <= checks <= budget / pause + 2
    ensures forall k | 0 <= k < checks - 1 :: GoesOn(rounds(k), started + budget)
    ensures var last := rounds(checks - 1);
            && result == (if last.healthy then Passed else if last.after > started + budget then NeverPassed else Cancelled)
            && (result == Cancelled ==> last.cancelled)
    ensures Spaced(started, beats) && Beaten(started, rounds, Waits(result, checks), beats)
  {
    checks, beats := 0, [];
    ghost var most := budget / pause;
    var nextBeat := started + HEARTBEAT;
    NoBeats(started, rounds);
    hide HEARTBEAT, OnTime, Ticking, Spaced, Beaten;
    while true
      invariant 0 <= checks <= most + 1
      invariant forall k | 0 <= k < checks :: GoesOn(rounds(k), started + budget)
      invariant OnTime(started, rounds, checks, beats, nextBeat)
      decreases most + 1 - checks
    {
      BeatsOf(started, rounds, checks, beats, nextBeat);
      var now := rounds(checks);
      checks := checks + 1;
      if now.healthy {
        return Passed, checks, beats;
      }
      if now.after > started + budget {
        return NeverPassed, checks, beats;
      }
      WithinBudget(started, rounds, pause, checks - 1, budget);
      StillOnTime(started, rounds, pause, checks - 1, beats, nextBeat);
      if now.beat > nextBeat {
        beats := beats + [now.beat];
        nextBeat := now.beat + HEARTBEAT;
      }
      if now.cancelled {
        BeatsOf(started, rounds, checks, beats, nextBeat);
        return Cancelled, checks, beats;
      }
    }
  }

  lemma BeatsOf(started: int, rounds: nat -> Round, n: nat, beats: seq<int>, nextBeat: int)
    requires OnTime(started, rounds, n, beats, nextBeat)
    ensures Spaced(started, beats) && Beaten(started, rounds, n, beats)
  {
  }

  lemma WithinBudget(started: int, rounds: nat -> Round, pause: int, k: nat, budget: int)
    requires Ticking(started, rounds, pause) && pause > 0 && rounds(k).after <= started + budget
    ensures k <= budget / pause
  {
    RoundsTakeTime(started, rounds, pause, k);
    AtMost(k, pause, budget);
  }
}
