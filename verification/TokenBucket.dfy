/** The per-client bucket behind each entry of the rate limiter: an exact token
    bucket standing for `rate.Limiter`. Credit is counted in units of 1e-9 token
    and time in nanoseconds, so a limit of n tokens per second refills n units of
    credit per nanosecond. */
module TokenBucket {

  /** Credit taken by one allowed request. */
  const COST: nat := 1_000_000_000

  /** a * b as repeated addition, which keeps every proof but TimesIsProduct linear. */
  function Times(a: int, b: nat): int
    decreases if a < 0 then -a else a
  {
    if a == 0 then 0 else if a > 0 then Times(a - 1, b) + b else Times(a + 1, b) - b
  }

  lemma {:induction false} TimesIsProduct(a: int, b: nat)
    ensures Times(a, b) == a * b
    decreases if a < 0 then -a else a
  {
    if a > 0 {
      TimesIsProduct(a - 1, b);
      assert a * b == (a - 1) * b + b;
    } else if a < 0 {
      TimesIsProduct(a + 1, b);
      assert a * b == (a + 1) * b - b;
    }
  }

  lemma TimesAdds(a: int, b: int, c: nat)
    ensures Times(a + b, c) == Times(a, c) + Times(b, c)
  {
    TimesIsProduct(a + b, c);
    TimesIsProduct(a, c);
    TimesIsProduct(b, c);
    assert (a + b) * c == a * c + b * c;
  }

  lemma TimesDiffers(a: int, b: int, c: nat)
    ensures Times(a - b, c) == Times(a, c) - Times(b, c)
  {
    TimesAdds(a - b, b, c);
    assert a - b + b == a;
  }

  lemma TimesNonNegative(a: int, b: nat)
    ensures a >= 0 ==> Times(a, b) >= 0
  {
    TimesIsProduct(a, b);
  }

  lemma TimesMonotone(a: int, b: int, c: nat)
    requires a <= b
    ensures Times(a, c) <= Times(b, c)
  {
    TimesAdds(a, b - a, c);
    TimesNonNegative(b - a, c);
  }

  /** The product of two natural numbers. */
  function Product(a: nat, b: nat): nat {
    TimesNonNegative(a, b);
    Times(a, b)
  }

  datatype Rate = Rate(limit: nat, burst: nat) {
    /** Credit of a full bucket. */
    function Cap(): nat {
      Product(burst, COST)
    }

    /** The clock in units of refilled credit. */
    function Scaled(now: int): int {
      Times(now, limit)
    }
  }

  datatype Bucket = Bucket(credit: nat, last: int)

  function Min(a: nat, b: nat): nat {
    if a < b then a else b
  }

  /** A bucket starts full. */
  function Fresh(r: Rate, now: int): Bucket {
    Bucket(r.Cap(), now)
  }

  /** Credit of the bucket as seen at `now`; nothing is refilled if the clock stands still. */
  function Refill(r: Rate, b: Bucket, now: int): nat {
    Min(r.Cap(), b.credit + if b.last < now then Product(now - b.last, r.limit) else 0)
  }

  /** One call of Allow on the bucket. */
  function Take(r: Rate, b: Bucket, now: int): (Bucket, bool) {
    var credit := Refill(r, b, now);
    if credit >= COST then (Bucket(credit - COST, now), true) else (Bucket(credit, now), false)
  }

  /** Refilling in two readings is refilling once: a refused request, which only
      moves the reading, does not change what the bucket holds later. */
  lemma RefillComposes(r: Rate, b: Bucket, mid: int, now: int)
    requires b.last <= mid <= now
    ensures Refill(r, Bucket(Refill(r, b, mid), mid), now) == Refill(r, b, now)
  {
    TimesAdds(mid - b.last, now - mid, r.limit);
  }
}
