/** Shared vocabulary of the three back-end services and the web client:
    optional values (Java's null), the exceptions the domain throws, time
    and money. */
module Common {

  /** A Java reference that may be null, or a TypeScript value that may be
      undefined. */
  datatype Option<T> = None | Some(value: T)

  /** The exceptions the domain classes throw, with their messages. */
  datatype Failure =
    | IllegalState(msg: string)
    | IllegalArgument(msg: string)
    | InvalidOrderState(msg: string)
    | NoSuchElement(msg: string)
    | NullPointer(msg: string)

  /** How a void Java method ends: normally, or by throwing. */
  datatype Outcome = Ok | Err(failure: Failure)

  /** How a value-returning Java method ends. */
  datatype Result<T> = Success(value: T) | Fail(failure: Failure)

  /** A LocalDateTime, as whole seconds on one time line. */
  type Time = int

  /** A java.util.UUID. */
  type Uuid = nat

  /** A BigDecimal amount (BigDecimal addition and multiplication are exact,
      as they are on `real`). */
  type Money = real

  /** True when `x` has at most two decimals, i.e. a BigDecimal of scale 2. */
  predicate IsCents(x: Money)
  {
    (x * 100.0).Floor as real == x * 100.0
  }

  /** BigDecimal.setScale(2, RoundingMode.CEILING): the least amount with at
      most two decimals that is not below `x`. */
  function CeilCents(x: Money): (r: Money)
    ensures x <= r < x + 0.01
    ensures IsCents(r)
  {
    var k := -((-x * 100.0).Floor);
    assert (k as real / 100.0) * 100.0 == k as real;
    k as real / 100.0
  }

  /** Rounding up to cents changes nothing on an amount that already has at
      most two decimals. */
  lemma CeilCentsOfCents(x: Money)
    requires IsCents(x)
    ensures CeilCents(x) == x
  {
    var k := (x * 100.0).Floor;
    assert (-x * 100.0).Floor == -k;
  }

  /** Rounding up to cents is idempotent. */
  lemma CeilCentsIdempotent(x: Money)
    ensures CeilCents(CeilCents(x)) == CeilCents(x)
  {
    CeilCentsOfCents(CeilCents(x));
  }

  /** `n` times the amount `p`, by repeated addition (BigDecimal.multiply
      by a whole number). Kept apart from `*` so that sums of line totals
      stay linear for the prover; TimesIsProduct relates the two. */
  function Times(p: Money, n: int): Money
    decreases if n < 0 then -n else n
  {
    if n == 0 then 0.0 else if n > 0 then Times(p, n - 1) + p else Times(p, n + 1) - p
  }

  /** Times is multiplication. */
  lemma {:induction false} TimesIsProduct(p: Money, n: int)
    ensures Times(p, n) == p * n as real
    decreases if n < 0 then -n else n
  {
    if n > 0 {
      TimesIsProduct(p, n - 1);
    } else if n < 0 {
      TimesIsProduct(p, n + 1);
    }
  }

  /** Times distributes over a sum of counts. */
  lemma TimesAdd(p: Money, a: int, b: int)
    ensures Times(p, a + b) == Times(p, a) + Times(p, b)
  {
    TimesIsProduct(p, a);
    TimesIsProduct(p, b);
    TimesIsProduct(p, a + b);
    assert p * (a + b) as real == p * a as real + p * b as real;
  }

  /** The sum of two amounts with at most two decimals has at most two
      decimals. */
  lemma CentsAdd(x: Money, y: Money)
    requires IsCents(x) && IsCents(y)
    ensures IsCents(x + y)
  {
    var k, m := (x * 100.0).Floor, (y * 100.0).Floor;
    assert (k + m) as real == (x + y) * 100.0;
  }
}
