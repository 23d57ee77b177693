/** The cadence predicate of the adversarial loop (main.py `should`) and how
    often it fires over a whole run. */
module Cadence {

  /** `should(freq)` at loop step `step` of a run of `maxSteps` steps: a
      positive frequency fires every `freq`-th step and on the last step. */
  function Should(freq: int, step: int, maxSteps: int): (r: bool)
  {
    freq > 0 && ((step + 1) % freq == 0 || step == maxSteps - 1)
  }

  /** The number of steps in `0 .. k-1` on which `should(freq)` fires. */
  function Fires(freq: int, maxSteps: int, k: nat): (r: nat)
  {
    if k == 0 then 0
    else Fires(freq, maxSteps, k - 1) + (if Should(freq, k - 1, maxSteps) then 1 else 0)
  }

  /** A non-positive frequency switches the action off; a positive one fires
      on the final step and otherwise exactly on the multiples of `freq`
      counted from one. */
  lemma ShouldCharacterised(freq: int, step: int, maxSteps: int)
    ensures freq <= 0 ==> !Should(freq, step, maxSteps)
    ensures freq > 0 && step == maxSteps - 1 ==> Should(freq, step, maxSteps)
    ensures freq > 0 && step != maxSteps - 1 ==> (Should(freq, step, maxSteps) <==> (step + 1) % freq == 0)
  {
  }

  lemma {:induction false} FiresDisabled(freq: int, maxSteps: int, k: nat)
    requires freq <= 0
    ensures Fires(freq, maxSteps, k) == 0
  {
    if k > 0 {
      FiresDisabled(freq, maxSteps, k - 1);
    }
  }

  /** Division by a positive number as the unique quotient and remainder. */
  lemma DivModUnique(n: int, f: int, q: int, r: int)
    requires f > 0 && 0 <= r < f && n == q * f + r
    ensures n / f == q && n % f == r
  {
    var q', r' := n / f, n % f;
    assert n == q' * f + r';
    assert (q - q') * f == r' - r by {
      assert (q - q') * f == q * f - q' * f;
    }
    if q > q' {
      AtLeastOnce(q - q', f);
    } else if q < q' {
      AtLeastOnce(q' - q, f);
    }
  }

  lemma {:induction false} AtLeastOnce(a: int, f: int)
    requires a >= 1 && f > 0
    ensures a * f >= f
  {
    if a > 1 {
      AtLeastOnce(a - 1, f);
      assert a * f == (a - 1) * f + f;
    }
  }

  /** Going from `k` to `k + 1` adds one to the quotient exactly when `k + 1`
      is a multiple of `f`. */
  lemma DivStep(k: nat, f: int)
    requires f > 0
    ensures (k + 1) / f == k / f + (if (k + 1) % f == 0 then 1 else 0)
  {
    var q, r := k / f, k % f;
    if r + 1 < f {
      DivModUnique(k + 1, f, q, r + 1);
    } else {
      DivModUnique(k + 1, f, q + 1, 0);
    }
  }

  /** Before the final step only the multiples of `freq` fire. */
  lemma {:induction false} FiresBeforeLast(freq: int, maxSteps: int, k: nat)
    requires freq > 0 && k < maxSteps
    ensures Fires(freq, maxSteps, k) == k / freq
  {
    if k > 0 {
      FiresBeforeLast(freq, maxSteps, k - 1);
      DivStep(k - 1, freq);
    }
  }

  /** Over a whole run of `maxSteps` steps, `should(freq)` fires
      `maxSteps / freq` times, plus once more on the final step when
      `maxSteps` is not a multiple of `freq`. */
  lemma FiresPerRun(freq: int, maxSteps: int)
    requires freq > 0 && maxSteps > 0
    ensures Fires(freq, maxSteps, maxSteps) == maxSteps / freq + (if maxSteps % freq != 0 then 1 else 0)
  {
    FiresBeforeLast(freq, maxSteps, maxSteps - 1);
    DivStep(maxSteps - 1, freq);
  }

  /** `a * n < b * n` for `a < b` and a positive `n`. */
  lemma MulLess(a: int, b: int, n: int)
    requires a < b && n > 0
    ensures a * n < b * n
  {
    AtLeastOnce(b - a, n);
    assert b * n - a * n == (b - a) * n;
  }

  /** With frequencies counted in epochs of `ntrain` steps (main.py scales
      every cadence by `ntrain`), a run of `epochs` epochs fires
      `epochs / freq` times, plus once on the final step when `epochs` is
      not a multiple of `freq`. */
  lemma FiresPerEpochs(freq: int, ntrain: int, epochs: int)
    requires freq > 0 && ntrain > 0 && epochs > 0
    ensures Fires(freq * ntrain, epochs * ntrain, epochs * ntrain) ==
      epochs / freq + (if epochs % freq != 0 then 1 else 0)
  {
    var q, r := epochs / freq, epochs % freq;
    var f, m := freq * ntrain, epochs * ntrain;
    AtLeastOnce(freq, ntrain);
    AtLeastOnce(epochs, ntrain);
    FiresPerRun(f, m);
    Distribute(q, freq, r, ntrain);
    MulLess(r, freq, ntrain);
    if r > 0 {
      AtLeastOnce(r, ntrain);
    }
    DivModUnique(m, f, q, r * ntrain);
  }

  lemma Distribute(q: int, f: int, r: int, n: int)
    ensures (q * f + r) * n == q * (f * n) + r * n
  {
    assert (q * f + r) * n == (q * f) * n + r * n;
  }
}
