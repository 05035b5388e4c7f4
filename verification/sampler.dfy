/**
 * `MultiBenchProblem.needed_n`: the power-of-ten search for a repetition count
 * whose timed run lasts longer than a target. The clock is abstracted: the
 * time measured for `10^i` calls of `execute` is supplied as `times[i - 1]`.
 */
module Sampler {

  /**
   * The target `secs`, a Python float: `--mbench-time` is parsed with
   * `float()`, which also accepts "inf", "-inf" and "nan".
   */
  datatype Target = Finite(seconds: real) | PosInf | NegInf | NaN

  /**
   * The comparison `x > secs` for a measured (finite) duration `x`, as IEEE
   * floating point defines it: nothing exceeds infinity or NaN, and
   * everything exceeds minus infinity.
   */
  predicate Exceeds(x: real, secs: Target)
  {
    match secs
    case Finite(s) => x > s
    case PosInf => false
    case NegInf => true
    case NaN => false
  }

  /** The largest exponent tried (`range(1, 10)`). */
  const MaxExponent: nat := 9

  /** `10**e`. */
  function Pow10(e: nat): (r: nat)
    ensures r >= 1
  {
    if e == 0 then 1 else 10 * Pow10(e - 1)
  }

  /** The repetition counts of the first `k` trials, in the order they run. */
  function TrialSchedule(k: nat): (r: seq<nat>)
    ensures |r| == k
    ensures forall j :: 0 <= j < k ==> r[j] == Pow10(j + 1)
  {
    if k == 0 then [] else TrialSchedule(k - 1) + [Pow10(k)]
  }

  /** The sum of a sequence of counts. */
  function Sum(s: seq<nat>): nat
  {
    if s == [] then 0 else Sum(s[..|s| - 1]) + s[|s| - 1]
  }

  /**
   * The search stops after trial `k`: no earlier trial took longer than `secs`,
   * and trial `k` did unless it is the last one allowed.
   */
  ghost predicate StopsAt(secs: Target, times: seq<real>, k: nat)
    requires |times| == MaxExponent
  {
    1 <= k <= MaxExponent
    && (forall j :: 0 <= j < k - 1 ==> !Exceeds(times[j], secs))
    && (k < MaxExponent ==> Exceeds(times[k - 1], secs))
  }

  /**
   * `needed_n(secs)`: returns `n`; the ghost `tried` records the repetition
   * counts of the trials run, in order. The first trial always runs.
   */
  method NeededN(secs: Target, times: seq<real>) returns (n: nat, ghost tried: seq<nat>)
    requires |times| == MaxExponent
    ensures StopsAt(secs, times, |tried|)
    ensures tried == TrialSchedule(|tried|)
    ensures n == Pow10(|tried|)
    ensures exists k :: StopsAt(secs, times, k) && n == Pow10(k)
  {
    tried := [];
    n := 0;
    for i := 1 to MaxExponent + 1
      invariant |tried| == i - 1
      invariant tried == TrialSchedule(i - 1)
      invariant forall j :: 0 <= j < i - 1 ==> !Exceeds(times[j], secs)
      invariant i > 1 ==> n == Pow10(i - 1)
    {
      n := Pow10(i);
      tried := tried + [n];
      var x := times[i - 1];
      if Exceeds(x, secs) {
        break;
      }
    }
  }

  /** At most one stopping point fits the measured times. */
  lemma StopsAtUnique(secs: Target, times: seq<real>, k1: nat, k2: nat)
    requires |times| == MaxExponent
    requires StopsAt(secs, times, k1) && StopsAt(secs, times, k2)
    ensures k1 == k2
  {
  }

  /** Powers of ten grow strictly with the exponent. */
  lemma {:induction false} Pow10Increasing(a: nat, b: nat)
    requires a < b
    ensures Pow10(a) < Pow10(b)
    decreases b
  {
    if a + 1 < b {
      Pow10Increasing(a, b - 1);
    }
  }

  /** The count returned lies between 10 and 10^9. */
  lemma NeededNRange(k: nat)
    requires 1 <= k <= MaxExponent
    ensures 10 <= Pow10(k) <= 1000000000
  {
    assert Pow10(MaxExponent) == 1000000000;
    if 1 < k {
      Pow10Increasing(1, k);
    }
    if k < MaxExponent {
      Pow10Increasing(k, MaxExponent);
    }
  }

  /**
   * The trials together call `execute` (10^(k+1) - 10) / 9 times, less than
   * 10/9 of the count finally returned.
   */
  lemma {:induction false} TotalExecutions(k: nat)
    ensures 9 * Sum(TrialSchedule(k)) + 10 == 10 * Pow10(k)
  {
    if k > 0 {
      TotalExecutions(k - 1);
      var s := TrialSchedule(k);
      assert s[..|s| - 1] == TrialSchedule(k - 1);
    }
  }

  /** With a negative target and non-negative times, only the first trial runs. */
  lemma NegativeSecsStopsFirst(secs: real, times: seq<real>, k: nat)
    requires |times| == MaxExponent && secs < 0.0 && times[0] >= 0.0
    requires StopsAt(Finite(secs), times, k)
    ensures k == 1 && Pow10(k) == 10
  {
  }

  /**
   * A zero target does not end the search at `n = 10` when the first trial
   * measures no time: the comparison is strict, so the count is at least 100.
   */
  lemma ZeroSecsMayContinue(times: seq<real>, k: nat)
    requires |times| == MaxExponent && times[0] <= 0.0
    requires StopsAt(Finite(0.0), times, k)
    ensures k >= 2 && Pow10(k) >= 100
  {
    if k > 2 {
      Pow10Increasing(2, k);
    }
  }

  /**
   * With a NaN target no comparison succeeds, so all nine trials run and the
   * count returned is 10^9, whatever was measured.
   */
  lemma NaNRunsAllTrials(times: seq<real>, k: nat)
    requires |times| == MaxExponent
    requires StopsAt(NaN, times, k)
    ensures k == MaxExponent && Pow10(k) == 1000000000
  {
  }

  /** With a minus-infinity target the first trial always ends the search. */
  lemma NegInfStopsFirst(times: seq<real>, k: nat)
    requires |times| == MaxExponent
    requires StopsAt(NegInf, times, k)
    ensures k == 1
  {
    assert Exceeds(times[0], NegInf);
  }
}
