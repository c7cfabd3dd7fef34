/** The arithmetic of the short loop's adaptive interval and of its cancellable sleep
    (`cache_short_loop` and `loop_timeout` of flameKitsuConnector). Durations are exact
    reals in seconds. */
module AdaptiveTimeout {

  /** The number of recent tick durations the short loop keeps. */
  const WindowSize: nat := 9

  function Abs(x: real): real {
    if x < 0.0 then -x else x
  }

  function Max(a: real, b: real): real {
    if a < b then b else a
  }

  /** Python's `sum` over a list of durations. */
  function Sum(s: seq<real>): real {
    if s == [] then 0.0 else Sum(s[..|s| - 1]) + s[|s| - 1]
  }

  /** `sum(recent_deltas) / float(len(recent_deltas))`. */
  function Mean(w: seq<real>): real
    requires w != []
  {
    Sum(w) / (|w| as real)
  }

  /** `recent_deltas = [timeout / 2] * 9`. */
  function InitialWindow(timeout: real): (w: seq<real>)
    ensures |w| == WindowSize
    ensures forall i :: 0 <= i < |w| ==> w[i] == timeout / 2.0
  {
    seq(WindowSize, _ => timeout / 2.0)
  }

  /** The accepted duration of a tick, given the measured one and the newest duration of
      the window: a measured duration further than three times `last` from `last` is
      replaced by three times `last`. */
  function Clamp(delta: real, last: real): (r: real)
    ensures delta >= 0.0 && last >= 0.0 ==> r == (if delta > 4.0 * last then 3.0 * last else delta)
    ensures delta >= 0.0 && last >= 0.0 ==> 0.0 <= r <= 4.0 * last
  {
    if Abs(delta - last) > last * 3.0 then last * 3.0 else delta
  }

  /** One measured tick: the oldest duration is dropped and the clamped measured one is
      appended. */
  function Advance(w: seq<real>, delta: real): (r: seq<real>)
    requires w != []
    ensures |r| == |w|
    ensures r[..|w| - 1] == w[1..]
    ensures r[|w| - 1] == Clamp(delta, w[|w| - 1])
  {
    w[1..] + [Clamp(delta, w[|w| - 1])]
  }

  /** The duration handed to `loop_timeout`: the nominal timeout while the mean is at most
      half of it, twice the mean beyond; that is, never less than the nominal timeout. */
  function SleepTarget(timeout: real, avg: real): (r: real)
    ensures r == Max(timeout, 2.0 * avg)
    ensures r >= timeout
  {
    if avg > timeout / 2.0 then avg * 2.0 else timeout
  }

  /** Python's `int()` on a float: truncation toward zero. */
  function Trunc(x: real): (r: int)
    ensures x >= 0.0 ==> 0 <= r && r as real <= x < r as real + 1.0
    ensures x < 0.0 ==> r <= 0 && r as real - 1.0 < x <= r as real
  {
    if x >= 0.0 then x.Floor else -((-x).Floor)
  }

  /** The number of 0.1 s steps `loop_timeout(timeout, start)` may sleep when the elapsed
      time since `start` is `elapsed`: none when the whole seconds elapsed already reach the
      timeout, otherwise ten per whole second of what remains. */
  function SleepBudget(timeout: real, elapsed: real): (n: nat)
    ensures timeout <= Trunc(elapsed) as real ==> n == 0
    ensures n % 10 == 0
    ensures timeout > Trunc(elapsed) as real ==>
      (n as real) / 10.0 <= timeout - Trunc(elapsed) as real < (n as real) / 10.0 + 1.0
  {
    var passed := Trunc(elapsed);
    if timeout <= passed as real then 0 else 10 * Trunc(timeout - passed as real)
  }

  /** `loop_timeout` stops before its budget is used up: before one of its steps it sees
      the run flag cleared (`flags(n)` is the flag seen before step n). */
  predicate SleepCutShort(timeout: real, elapsed: real, flags: nat -> bool) {
    exists n: nat :: n < SleepBudget(timeout, elapsed) && !flags(n)
  }

  lemma {:induction false} SumConstant(n: nat, d: real)
    ensures Sum(seq(n, _ => d)) == (n as real) * d
  {
    if n > 0 {
      var s := seq(n, _ => d);
      assert s[..n - 1] == seq(n - 1, _ => d);
      SumConstant(n - 1, d);
    }
  }

  lemma {:induction false} SumNonNegative(s: seq<real>)
    requires forall i :: 0 <= i < |s| ==> s[i] >= 0.0
    ensures Sum(s) >= 0.0
  {
    if s != [] {
      SumNonNegative(s[..|s| - 1]);
    }
  }

  /** The window starts at a mean of half the timeout, so the first target is the timeout
      itself. */
  lemma InitialMean(timeout: real)
    ensures Mean(InitialWindow(timeout)) == timeout / 2.0
    ensures SleepTarget(timeout, Mean(InitialWindow(timeout))) == timeout
  {
    SumConstant(WindowSize, timeout / 2.0);
  }

  /** Nine durations of d and a measured 100·d: the window keeps 3·d, not 100·d. */
  lemma OutlierClamped(d: real)
    requires d > 0.0
    ensures Advance(seq(WindowSize, _ => d), 100.0 * d) == seq(WindowSize - 1, _ => d) + [3.0 * d]
    ensures Mean(Advance(seq(WindowSize, _ => d), 100.0 * d)) == 11.0 * d / 9.0
  {
    var w := Advance(seq(WindowSize, _ => d), 100.0 * d);
    assert w == seq(WindowSize - 1, _ => d) + [3.0 * d];
    assert w[..WindowSize - 1] == seq(WindowSize - 1, _ => d);
    SumConstant(WindowSize - 1, d);
  }

  /** The clamp is not monotone: a measured 4·d is kept, a measured 4.01·d is cut to 3·d. */
  lemma ClampNotMonotone(d: real)
    requires d > 0.0
    ensures Clamp(4.0 * d, d) == 4.0 * d
    ensures Clamp(4.01 * d, d) == 3.0 * d
    ensures Clamp(4.01 * d, d) < Clamp(4.0 * d, d)
  {
  }

  /** A measured tick keeps every duration of the window non-negative. */
  lemma AdvanceNonNegative(w: seq<real>, delta: real)
    requires w != [] && delta >= 0.0
    requires forall i :: 0 <= i < |w| ==> w[i] >= 0.0
    ensures forall i :: 0 <= i < |w| ==> Advance(w, delta)[i] >= 0.0
    ensures Mean(Advance(w, delta)) >= 0.0
  {
    var r := Advance(w, delta);
    forall i | 0 <= i < |w|
      ensures r[i] >= 0.0
    {
      if i < |w| - 1 {
        assert r[i] == r[..|w| - 1][i] == w[i + 1];
      }
    }
    SumNonNegative(r);
  }

  /** Unless cancelled, `loop_timeout` ends within one second of the target measured from
      the start of the tick, because it truncates the elapsed time to whole seconds. */
  lemma SleepEndsNearTarget(timeout: real, elapsed: real)
    requires elapsed >= 0.0
    ensures elapsed + (SleepBudget(timeout, elapsed) as real) / 10.0 < Max(timeout, elapsed) + 1.0
    ensures timeout > elapsed ==> timeout - 1.0 < elapsed + (SleepBudget(timeout, elapsed) as real) / 10.0
  {
  }
}
