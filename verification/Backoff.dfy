/** The retry delay shared by background jobs, webhook deliveries and notifications. */
module Backoff {
  import opened Prelude

  /** Timestamps are milliseconds. */
  const SECOND := 1000

  function Pow2(n: nat): nat {
    if n == 0 then 1 else 2 * Pow2(n - 1)
  }

  /** Delay after a failed attempt. */
  function Delay(attempts: int): nat {
    Pow2(Max(1, Min(attempts, 8))) * SECOND
  }

  /** Two seconds doubled up to the eighth attempt, 256 seconds from there on. */
  lemma DelayInSeconds(attempts: int)
    ensures attempts <= 1 ==> Delay(attempts) == 2 * 1000
    ensures 1 < attempts <= 8 ==> Delay(attempts) == 2 * Delay(attempts - 1)
    ensures attempts >= 8 ==> Delay(attempts) == 256 * 1000
  {
    assert Pow2(1) == 2 && Pow2(4) == 16 && Pow2(8) == 256;
  }

  /** Delays after attempts 1 to `n` together. */
  function TotalDelay(n: nat): nat {
    if n == 0 then 0 else TotalDelay(n - 1) + Delay(n)
  }

  /**
   Claim `m` is preceded by the delays of attempts 1 to m - 1: 2^m - 2 seconds, or 510 plus 256 for
   each attempt past the ninth.
   */
  lemma {:induction false} TotalDelayClosedForm(m: nat)
    requires m >= 1
    ensures m <= 9 ==> TotalDelay(m - 1) == (Pow2(m) - 2) * SECOND
    ensures m > 9 ==> TotalDelay(m - 1) == (510 + 256 * (m - 9)) * SECOND
  {
    if m == 1 {
    } else {
      TotalDelayClosedForm(m - 1);
      if m >= 10 {
        assert Pow2(8) == 256 by {
          assert Pow2(4) == 16 && Pow2(6) == 64;
        }
        assert m == 10 ==> Pow2(9) == 512;
      }
    }
  }
}
