/**
 * The two backoff strategies of src/index.js:4-10. Each maps a delay unit to a
 * function from the attempt count to the time to wait before that attempt.
 * Attempts are counted with `nat` and delays with `int`, where the formulas are
 * exact (the source computes with JavaScript numbers and `Math.pow`).
 */
module Backoff {

  /** 2 to the power k. */
  function Pow2(k: nat): (p: nat)
    ensures p >= 1
  {
    if k == 0 then 1 else 2 * Pow2(k - 1)
  }

  /**
   * `exponential(delay)`: despite its name the wait grows quadratically. The
   * first retry waits one unit, and a non-negative unit never gives a
   * negative wait.
   */
  function Exponential(delay: int): (f: nat -> int)
    ensures f(1) == delay
    ensures forall n: nat :: 0 <= delay ==> 0 <= f(n)
  {
    (attempts: nat) => (attempts * attempts) * delay
  }

  /**
   * `binaryExponential(delay = 1)`: the wait before attempt n is (2^n - 1)
   * units. The first retry waits one unit, and a non-negative unit never
   * gives a negative wait.
   */
  function BinaryExponential(delay: int := 1): (f: nat -> int)
    ensures f(1) == delay
    ensures forall n: nat :: 0 <= delay ==> 0 <= f(n)
  {
    (attempts: nat) => (Pow2(attempts) - 1) * delay
  }

  /** Neither strategy waits before the first retry is counted. */
  lemma StrategiesStartAtZero(delay: int)
    ensures Exponential(delay)(0) == 0
    ensures BinaryExponential(delay)(0) == 0
  {
  }

  /** Each quadratic step adds an odd number of units: f(n+1) = f(n) + (2n+1)·delay. */
  lemma ExponentialStep(delay: int, n: nat)
    ensures Exponential(delay)(n + 1) == Exponential(delay)(n) + (2 * n + 1) * delay
  {
    calc {
      Exponential(delay)(n + 1);
      ((n + 1) * (n + 1)) * delay;
      { assert (n + 1) * (n + 1) == n * n + (2 * n + 1); }
      (n * n + (2 * n + 1)) * delay;
      (n * n) * delay + (2 * n + 1) * delay;
    }
  }

  /** With a non-negative unit the quadratic wait never shrinks as attempts grow. */
  lemma {:induction false} ExponentialMonotone(delay: int, i: nat, j: nat)
    requires 0 <= delay && i <= j
    ensures Exponential(delay)(i) <= Exponential(delay)(j)
    decreases j - i
  {
    if i < j {
      ExponentialMonotone(delay, i, j - 1);
      ExponentialStep(delay, j - 1);
      assert 0 <= (2 * (j - 1) + 1) * delay;
    }
  }

  /** The binary strategy doubles and adds one unit: f(n+1) = 2·f(n) + delay. */
  lemma BinaryExponentialStep(delay: int, n: nat)
    ensures BinaryExponential(delay)(n + 1) == 2 * BinaryExponential(delay)(n) + delay
  {
    var p := Pow2(n);
    calc {
      BinaryExponential(delay)(n + 1);
      (Pow2(n + 1) - 1) * delay;
      (2 * p - 1) * delay;
      2 * ((p - 1) * delay) + delay;
      2 * BinaryExponential(delay)(n) + delay;
    }
  }

  /** With a non-negative unit the binary wait never shrinks as attempts grow. */
  lemma {:induction false} BinaryExponentialMonotone(delay: int, i: nat, j: nat)
    requires 0 <= delay && i <= j
    ensures BinaryExponential(delay)(i) <= BinaryExponential(delay)(j)
    decreases j - i
  {
    if i < j {
      BinaryExponentialMonotone(delay, i, j - 1);
      BinaryExponentialStep(delay, j - 1);
      var p := Pow2(j - 1);
      assert 0 <= (p - 1) * delay;
    }
  }

  /** The values the strategies are expected to produce for attempts 0 to 5. */
  lemma StrategyTable()
    ensures forall n: nat :: n <= 5 ==> Exponential(1)(n) == n * n
    ensures forall n: nat :: n <= 5 ==> Exponential(60000)(n) == n * n * 60000
    ensures [BinaryExponential()(0), BinaryExponential()(1), BinaryExponential()(2),
             BinaryExponential()(3), BinaryExponential()(4), BinaryExponential()(5)]
         == [0, 1, 3, 7, 15, 31]
    ensures [BinaryExponential(1000)(0), BinaryExponential(1000)(1), BinaryExponential(1000)(2),
             BinaryExponential(1000)(3), BinaryExponential(1000)(4), BinaryExponential(1000)(5)]
         == [0, 1000, 3000, 7000, 15000, 31000]
  {
  }
}
