/** The backoff that list and watch share, over whole runs of the watcher. */
module Backoff {
  import opened Watcher

  /** The outcome of a list or watch call; other inputs are none. */
  function Outcome(phase: Phase, input: Input): seq<bool> {
    if !Answers(phase, input) then []
    else if input.ListFailed? || input.WatchFailed? then [false]
    else if input.ListPage? || input.WatchOpened? then [true]
    else []
  }

  /** The outcomes of the list and watch calls of a run, in order. */
  function Attempts(inputs: seq<Input>): seq<bool> {
    if inputs == [] then [] else
    var init := inputs[..|inputs| - 1];
    Attempts(init) + Outcome(Trace(init).phase, inputs[|inputs| - 1])
  }

  /** The consecutive failures since the last success. */
  function Streak(attempts: seq<bool>): nat {
    if attempts == [] || attempts[|attempts| - 1] then 0 else Streak(attempts[..|attempts| - 1]) + 1
  }

  function Pow2(n: nat): (p: nat)
    ensures p > 0
  {
    if n == 0 then 1 else 2 * Pow2(n - 1)
  }

  /** min(2^n, 32) seconds. */
  function BackoffAfter(n: nat): nat {
    if Pow2(n) < 32 then Pow2(n) else 32
  }

  function SleepsOf(attempts: seq<bool>): seq<nat> {
    if attempts == [] then [] else
    var init := attempts[..|attempts| - 1];
    SleepsOf(init) + if attempts[|attempts| - 1] then [] else [BackoffAfter(Streak(init))]
  }

  function Sum(xs: seq<nat>): nat {
    if xs == [] then 0 else Sum(xs[..|xs| - 1]) + xs[|xs| - 1]
  }

  lemma {:induction false} Pow2Values(n: nat)
    ensures n >= 5 ==> Pow2(n) >= 32
    ensures n < 5 ==> Pow2(n) == [1, 2, 4, 8, 16][n]
  {
    if n > 5 {
      Pow2Values(n - 1);
    } else {
      assert Pow2(0) == 1 && Pow2(1) == 2 && Pow2(2) == 4 && Pow2(3) == 8 && Pow2(4) == 16 && Pow2(5) == 32;
    }
  }

  lemma BackoffGrows(n: nat)
    ensures IncreaseBackoff(BackoffAfter(n)) == BackoffAfter(n + 1)
    ensures BackoffAfter(0) == 1
  {
    Pow2Values(n);
    Pow2Values(n + 1);
  }

  lemma OneMoreAttempt(attempts: seq<bool>, ok: bool)
    ensures Streak(attempts + [ok]) == if ok then 0 else Streak(attempts) + 1
    ensures SleepsOf(attempts + [ok]) == SleepsOf(attempts) + if ok then [] else [BackoffAfter(Streak(attempts))]
  {
    assert (attempts + [ok])[..|attempts|] == attempts;
  }

  lemma StepSleeps(s: State, input: Input)
    ensures var o := Outcome(s.phase, input);
            if o == [] then Step(s, input).backoff == s.backoff && Step(s, input).sleeps == s.sleeps
            else if o[0] then Step(s, input).backoff == 1 && Step(s, input).sleeps == s.sleeps
            else Step(s, input).backoff == IncreaseBackoff(s.backoff) && Step(s, input).sleeps == s.sleeps + [s.backoff]
  {
  }

  /** After n consecutive failures the backoff is min(2^n, 32), and the sleeps are those of the failures. */
  lemma {:induction false} BackoffOfRun(inputs: seq<Input>)
    ensures Trace(inputs).backoff == BackoffAfter(Streak(Attempts(inputs)))
    ensures Trace(inputs).sleeps == SleepsOf(Attempts(inputs))
  {
    BackoffGrows(0);
    if inputs != [] {
      var init, input := inputs[..|inputs| - 1], inputs[|inputs| - 1];
      var tried, o := Attempts(init), Outcome(Trace(init).phase, input);
      BackoffOfRun(init);
      StepSleeps(Trace(init), input);
      if o == [] {
        assert Attempts(inputs) == tried;
      } else {
        BackoffGrows(Streak(tried));
        OneMoreAttempt(tried, o[0]);
        assert Attempts(inputs) == tried + [o[0]];
      }
    }
  }

  /** No sleep exceeds 32 seconds, although the code only tests for 30, and 32 is reached by the sixth failure
      in a row. */
  lemma {:induction false} NoSleepExceeds32(attempts: seq<bool>)
    ensures forall i :: 0 <= i < |SleepsOf(attempts)| ==> SleepsOf(attempts)[i] <= 32
    ensures |attempts| > 0 && Streak(attempts) >= 6 ==> SleepsOf(attempts)[|SleepsOf(attempts)| - 1] == 32
  {
    if attempts != [] {
      NoSleepExceeds32(attempts[..|attempts| - 1]);
      Pow2Values(Streak(attempts[..|attempts| - 1]));
    }
  }

  function Failures(n: nat): seq<bool> {
    seq(n, _ => false)
  }

  function TotalSleep(n: nat): nat {
    if n <= 5 then Pow2(n) - 1 else 31 + 32 * (n - 5)
  }

  lemma TotalSleepGrows(n: nat)
    ensures TotalSleep(n + 1) == TotalSleep(n) + BackoffAfter(n)
  {
    Pow2Values(n);
    assert Pow2(n + 1) == 2 * Pow2(n);
    assert Pow2(5) == 32;
  }

  /** n failures in a row sleep 2^n - 1 seconds in all while n <= 5, and 32 more for each further one. */
  lemma {:induction false} SleepOfAStreak(before: seq<bool>, n: nat)
    requires Streak(before) == 0
    ensures Streak(before + Failures(n)) == n
    ensures Sum(SleepsOf(before + Failures(n))) == Sum(SleepsOf(before)) + TotalSleep(n)
  {
    if n == 0 {
      assert before + Failures(n) == before;
    } else {
      var shorter := before + Failures(n - 1);
      assert before + Failures(n) == shorter + [false];
      hide SleepsOf, Streak, Failures, TotalSleep, BackoffAfter, Pow2;
      SleepOfAStreak(before, n - 1);
      OneMoreAttempt(shorter, false);
      TotalSleepGrows(n - 1);
      var slept := SleepsOf(shorter);
      assert (slept + [BackoffAfter(n - 1)])[..|slept|] == slept;
    }
  }
}
