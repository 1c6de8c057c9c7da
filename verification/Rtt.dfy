/** The degradation detector of the prober: an exponentially weighted baseline of
    probe round trips with a self-relative threshold. */
module Rtt {
  import opened Types

  const NO_BASELINE: int := 0

  datatype Judgement = Judgement(healthy: bool, base: int)

  function Threshold(base: int): int {
    if 3 * base < SECOND then SECOND else 3 * base
  }

  /** One call of `probeHealthy`: the verdict and the baseline left behind. Both are
      non-negative, so the division rounds as Go's conversion to an integer does. */
  function Judge(base: int, rtt: int): Judgement {
    if base <= NO_BASELINE then Judgement(true, rtt)
    else if rtt > Threshold(base) then Judgement(false, base)
    else Judgement(true, (7 * base + 3 * rtt) / 10)
  }

  /** The verdict and the baseline in numbers: a round trip is healthy without a baseline, up
      to three times the baseline, and up to a second in any case; the first one sets the
      baseline, a healthy one moves it three tenths of the way (rounded down), and an
      unhealthy one leaves it alone. */
  lemma JudgeInNumbers(base: int, rtt: int)
    ensures var j := Judge(base, rtt);
            && (j.healthy <==> base <= 0 || rtt <= 3 * base || rtt <= 1_000_000_000)
            && (base <= 0 ==> j.base == rtt)
            && (base > 0 && j.healthy ==> 10 * j.base <= 7 * base + 3 * rtt < 10 * (j.base + 1))
            && (base > 0 && !j.healthy ==> j.base == base)
  {
  }

  function Final(base: int, samples: seq<nat>): int
    decreases |samples|
  {
    if samples == [] then base else Final(Judge(base, samples[0]).base, samples[1..])
  }

  function Verdicts(base: int, samples: seq<nat>): (vs: seq<bool>)
    ensures |vs| == |samples|
    decreases |samples|
  {
    if samples == [] then []
    else [Judge(base, samples[0]).healthy] + Verdicts(Judge(base, samples[0]).base, samples[1..])
  }

  function Accepted(base: int, samples: seq<nat>): seq<nat>
    decreases |samples|
  {
    if samples == [] then []
    else
      var j := Judge(base, samples[0]);
      (if j.healthy then [samples[0]] else []) + Accepted(j.base, samples[1..])
  }

  // ------------------------------------------- rejected samples leave no trace

  lemma {:induction false} Concat(base: int, pre: seq<nat>, post: seq<nat>)
    ensures Final(base, pre + post) == Final(Final(base, pre), post)
    ensures Verdicts(base, pre + post) == Verdicts(base, pre) + Verdicts(Final(base, pre), post)
    decreases |pre|
  {
    if pre == [] {
      assert pre + post == post;
    } else {
      assert (pre + post)[1..] == pre[1..] + post;
      Concat(Judge(base, pre[0]).base, pre[1..], post);
    }
  }

  lemma {:induction false} AcceptedRun(base: int, samples: seq<nat>)
    ensures Final(base, Accepted(base, samples)) == Final(base, samples)
    ensures Accepted(base, Accepted(base, samples)) == Accepted(base, samples)
    ensures forall v :: v in Verdicts(base, Accepted(base, samples)) ==> v
    decreases |samples|
  {
    if samples != [] {
      var j := Judge(base, samples[0]);
      AcceptedRun(j.base, samples[1..]);
      var rest := Accepted(j.base, samples[1..]);
      if j.healthy {
        assert Accepted(base, samples) == [samples[0]] + rest;
        assert ([samples[0]] + rest)[1..] == rest;
      } else {
        assert Accepted(base, samples) == rest;
      }
    }
  }

  /** Whatever comes after `pre` is judged as if the rejected samples of `pre` had
      never been measured. */
  lemma RejectedSamplesLeaveNoTrace(base: int, pre: seq<nat>, post: seq<nat>)
    ensures var kept := Accepted(base, pre);
            && Verdicts(base, pre + post)[|pre|..] == Verdicts(base, kept + post)[|kept|..]
            && Final(base, pre + post) == Final(base, kept + post)
  {
    Concat(base, pre, post);
    Concat(base, Accepted(base, pre), post);
    AcceptedRun(base, pre);
  }

  // --------------------------------------------------- where the baseline lies

  ghost predicate Within(s: seq<nat>, lo: int, hi: int) {
    forall i :: 0 <= i < |s| ==> lo <= s[i] <= hi
  }

  lemma {:induction false} Bracket(base: int, samples: seq<nat>, lo: int, hi: int)
    requires 0 < lo && Within(Accepted(base, samples), lo, hi)
    requires lo <= base <= hi || base == NO_BASELINE
    ensures || lo <= Final(base, samples) <= hi
            || (Final(base, samples) == NO_BASELINE == base && Accepted(base, samples) == [])
    decreases |samples|
  {
    if samples != [] {
      var j := Judge(base, samples[0]);
      var rest := Accepted(j.base, samples[1..]);
      if j.healthy {
        assert Accepted(base, samples) == [samples[0]] + rest;
        assert lo <= Accepted(base, samples)[0] <= hi;
        assert forall i :: 0 <= i < |rest| ==> rest[i] == Accepted(base, samples)[i + 1];
      } else {
        assert Accepted(base, samples) == rest;
      }
      Bracket(j.base, samples[1..], lo, hi);
    }
  }

  /** From a fresh start the first sample is always accepted, and the baseline then
      stays between the least and the greatest accepted sample; with positive
      samples it never returns to "no baseline". */
  lemma BaselineBetweenAcceptedSamples(samples: seq<nat>, lo: int, hi: int)
    requires samples != [] && 0 < lo && Within(Accepted(NO_BASELINE, samples), lo, hi)
    ensures Accepted(NO_BASELINE, samples) != [] && Accepted(NO_BASELINE, samples)[0] == samples[0]
    ensures lo <= Final(NO_BASELINE, samples) <= hi
    ensures Final(NO_BASELINE, samples) != NO_BASELINE
  {
    Bracket(NO_BASELINE, samples, lo, hi);
  }

  // ----------------------------------------------------------- bounded drift

  function Pow(b: nat, n: nat): nat {
    if n == 0 then 1 else b * Pow(b, n - 1)
  }

  lemma DriftStep(base: int, rtt: nat)
    requires base > 0 && Judge(base, rtt).healthy
    ensures 5 * Threshold(Judge(base, rtt).base) <= 8 * Threshold(base)
  {
  }

  /** Chains one step's bound a * y <= b * z behind a run's bound p * x <= q * y. */
  lemma ChainBound(p: nat, x: int, q: nat, y: int, a: nat, b: nat, z: int)
    requires p * x <= q * y && a * y <= b * z
    ensures (a * p) * x <= (b * q) * z
  {
    calc {
      (a * p) * x;
      a * (p * x);
      <= { MulLe(a, p * x, q * y); }
      a * (q * y);
      q * (a * y);
      <= { MulLe(q, a * y, b * z); }
      q * (b * z);
      (b * q) * z;
    }
  }

  lemma MulLe(k: nat, a: int, b: int)
    requires a <= b
    ensures k * a <= k * b
  {
  }

  ghost predicate Positive(samples: seq<nat>) {
    forall i :: 0 <= i < |samples| ==> samples[i] > 0
  }

  /** Each accepted sample raises the threshold by at most 8/5 and a rejected one
      leaves it alone, so after n accepted samples 5^n * T <= 8^n * T_0. */
  lemma {:induction false} DriftBound(base: int, samples: seq<nat>)
    requires base > 0 && Positive(samples)
    ensures var n := |Accepted(base, samples)|;
            Pow(5, n) * Threshold(Final(base, samples)) <= Pow(8, n) * Threshold(base)
    decreases |samples|
  {
    if samples != [] {
      var j := Judge(base, samples[0]);
      DriftBound(j.base, samples[1..]);
      if j.healthy {
        var m := |Accepted(j.base, samples[1..])|;
        DriftStep(base, samples[0]);
        ChainBound(Pow(5, m), Threshold(Final(base, samples)), Pow(8, m), Threshold(j.base), 5, 8, Threshold(base));
      }
    }
  }

  // ------------------------------------------------------------- convergence

  function Repeat(r: nat, n: nat): seq<nat> {
    if n == 0 then [] else [r] + Repeat(r, n - 1)
  }

  function Distance(a: int, b: int): nat {
    if a < b then b - a else a - b
  }

  lemma ConstantStep(base: int, r: nat)
    requires base > 0 && 0 < r <= Threshold(base)
    ensures var j := Judge(base, r);
            && j.healthy && j.base > 0 && r <= Threshold(j.base)
            && 10 * Distance(j.base, r) <= 7 * Distance(base, r) + 9
  {
  }

  /** A constant round trip that is accepted once is accepted for ever, and the
      baseline comes within 3 ns of it and stays there: the distance beyond 3 shrinks
      by at least 7/10 a sample, and is used up after as many samples as the
      baseline was nanoseconds away. */
  lemma {:induction false} ConvergesToConstant(base: int, r: nat, n: nat)
    requires base > 0 && 0 < r <= Threshold(base)
    ensures Accepted(base, Repeat(r, n)) == Repeat(r, n)
    ensures var end := Final(base, Repeat(r, n));
            && end > 0
            && (Distance(base, r) <= n + 3 ==> Distance(end, r) <= 3)
            && Pow(10, n) * (Distance(end, r) - 3) <= Pow(7, n) * (Distance(base, r) - 3)
    decreases n
  {
    if n > 0 {
      var b := Judge(base, r).base;
      ConstantStep(base, r);
      assert Repeat(r, n)[1..] == Repeat(r, n - 1);
      ConvergesToConstant(b, r, n - 1);
      ChainBound(Pow(10, n - 1), Distance(Final(base, Repeat(r, n)), r) - 3,
                 Pow(7, n - 1), Distance(b, r) - 3, 10, 7, Distance(base, r) - 3);
    }
  }

  /** A constant round trip above the threshold is rejected for ever: the baseline
      never learns it. Together with `ConvergesToConstant`, a path that settles at
      round trip r is upgraded again exactly when r is within the threshold now. */
  lemma {:induction false} ConstantAboveThresholdIsNeverAccepted(base: int, r: nat, n: nat)
    requires base > 0 && r > Threshold(base)
    ensures Accepted(base, Repeat(r, n)) == [] && Final(base, Repeat(r, n)) == base
    decreases n
  {
    if n > 0 {
      assert Repeat(r, n)[1..] == Repeat(r, n - 1);
      ConstantAboveThresholdIsNeverAccepted(base, r, n - 1);
    }
  }
}
