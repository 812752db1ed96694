/**
  The retry bound of the binary-port proxy configuration
  (src/api/node/binary/proxy/config.rs).
*/
module BinaryProxyConfig {

  /** The maximum number of connection attempts. */
  datatype MaxAttempts = Infinite | Finite(maxAttempts: nat)
  {
    /** `can_attempt`: whether attempt number `currentAttempt` may be made. */
    predicate CanAttempt(currentAttempt: nat)
    {
      match this
      case Infinite => true
      case Finite(maxAttempts) => maxAttempts >= currentAttempt
    }
  }

  /** Without a bound every attempt is allowed. */
  lemma InfiniteAllowsEveryAttempt(k: nat)
    ensures Infinite.CanAttempt(k)
  {
  }

  /** With bound `n`, attempt `k` is allowed exactly when `k <= n`: attempt `n` is, attempt `n + 1` is not. */
  lemma FiniteBoundIsInclusive(n: nat, k: nat)
    ensures Finite(n).CanAttempt(k) <==> k <= n
    ensures Finite(n).CanAttempt(n) && !Finite(n).CanAttempt(n + 1)
  {
  }

  /** An allowed attempt implies every earlier attempt is allowed. */
  lemma CanAttemptIsDownwardClosed(m: MaxAttempts, j: nat, k: nat)
    requires j <= k && m.CanAttempt(k)
    ensures m.CanAttempt(j)
  {
  }

  /** A zero bound allows attempt 0 and nothing after it. */
  lemma ZeroBoundAllowsOnlyFirst(k: nat)
    ensures Finite(0).CanAttempt(k) <==> k == 0
  {
  }
}
