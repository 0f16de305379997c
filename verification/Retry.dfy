/** The shared retry loop and its backoff arithmetic (internal/retry/retry.go). Durations are
    int64 nanoseconds. */
module Retry {
  import opened Wrappers
  import opened Errors

  const SECOND := 1_000_000_000
  const CAP := 30 * SECOND
  const TWO63 := 0x8000_0000_0000_0000
  const TWO64 := 0x1_0000_0000_0000_0000

  // ---------- baseDelay ----------

  function Pow2(n: nat): (p: nat)
    ensures p >= 1
  {
    if n == 0 then 1 else 2 * Pow2(n - 1)
  }

  /** The value an int64 holds after a computation that yields `x`. */
  function Wrap64(x: int): (r: int)
    ensures -TWO63 <= r < TWO63
    ensures -TWO63 <= x < TWO63 ==> r == x
  {
    var m := x % TWO64;
    if m < TWO63 then m else m - TWO64
  }

  /** uint(attempt). */
  function ShiftCount(attempt: int): nat {
    attempt % TWO64
  }

  function Shifted(attempt: int): int {
    Wrap64(SECOND * Pow2(ShiftCount(attempt)))
  }

  function BaseDelay(attempt: int): int {
    var d := Shifted(attempt);
    if d > CAP then CAP else d
  }

  lemma {:induction false} Pow2Sum(a: nat, b: nat)
    ensures Pow2(a + b) == Pow2(a) * Pow2(b)
  {
    if a > 0 {
      Pow2Sum(a - 1, b);
      assert Pow2(a + b) == 2 * (Pow2(a - 1) * Pow2(b)) == Pow2(a) * Pow2(b);
    }
  }

  lemma {:induction false} Pow2Grows(a: nat, b: nat)
    requires a <= b
    ensures Pow2(a) <= Pow2(b)
  {
    if a < b { Pow2Grows(a, b - 1); }
  }

  /** One second is FIVES shifted left by nine bits. */
  const FIVES := 1_953_125

  /** Bit `k` of FIVES. */
  function Bit(k: nat): int {
    (FIVES / Pow2(k)) % 2
  }

  /** What the doc comment promises: 1s, 2s, 4s, 8s, ... capped at 30s. */
  function DocumentedDelay(attempt: nat): int {
    if SECOND * Pow2(attempt) < CAP then SECOND * Pow2(attempt) else CAP
  }

  lemma Pow2Values()
    ensures Pow2(9) == 512 && Pow2(33) == 0x2_0000_0000 && Pow2(43) == 0x800_0000_0000
    ensures Pow2(55) == 0x80_0000_0000_0000 && Pow2(63) == TWO63
  {
    assert Pow2(8) == 256;
    Pow2Sum(8, 1);
    Pow2Sum(8, 8);
    Pow2Sum(16, 16);
    Pow2Sum(32, 1);
    Pow2Sum(2, 9);
    Pow2Sum(32, 11);
    assert Pow2(4) == 16;
    Pow2Sum(43, 4);
    Pow2Sum(47, 8);
    Pow2Sum(55, 8);
  }

  lemma QuotientIsUnique(d: nat, q: int, r: int, q': int, r': int)
    requires q * d + r == q' * d + r' && 0 <= r < d && 0 <= r' < d
    ensures q == q' && r == r'
  {
    if q < q' {
      assert (q' - q) * d == q' * d - q * d;
      Monotone(1, q' - q, d);
    } else if q' < q {
      assert (q - q') * d == q * d - q' * d;
      Monotone(1, q - q', d);
    }
  }

  lemma DivMod(n: int, d: nat, q: int, rest: int)
    requires n == q * d + rest && 0 <= rest < d
    ensures n / d == q && n % d == rest
  {
    QuotientIsUnique(d, n / d, n % d, q, rest);
  }

  lemma SmallShifts(a: nat)
    requires a <= 33
    ensures Shifted(a) == SECOND * Pow2(a)
  {
    var p := Pow2(a);
    assert p <= 0x2_0000_0000 by {
      Pow2Values();
      Pow2Grows(a, 33);
    }
    assert Wrap64(SECOND * p) == SECOND * p;
    assert ShiftCount(a) == a;
  }

  lemma HugeShifts(count: nat)
    requires count >= 55
    ensures Wrap64(SECOND * Pow2(count)) == 0
  {
    var k := Pow2(count - 55);
    assert Pow2(count) == 0x80_0000_0000_0000 * k by {
      Pow2Values();
      Pow2Sum(55, count - 55);
    }
    DivMod(SECOND * Pow2(count), TWO64, FIVES * k, 0);
  }

  /** Dividing an odd number by twice `half` leaves something, and at least `half` exactly when
      the quotient by `half` is odd. */
  lemma BitAndRemainder(n: nat, half: nat) returns (q: nat, r: nat)
    requires half >= 1 && n % 2 == 1
    ensures n == q * (2 * half) + r && 0 < r < 2 * half
    ensures (n / half) % 2 == if r >= half then 1 else 0
  {
    var d := 2 * half;
    q, r := n / d, n % d;
    assert n == q * d + r;
    assert q * d == 2 * (q * half);
    if r >= half {
      OddQuotient(n, half, q, r - half);
    } else {
      EvenQuotient(n, half, q, r);
    }
  }

  lemma OddQuotient(n: nat, half: nat, q: nat, rest: nat)
    requires n == 2 * (q * half) + half + rest && rest < half
    ensures (n / half) % 2 == 1
  {
    assert (2 * q + 1) * half == 2 * (q * half) + half;
    DivMod(n, half, 2 * q + 1, rest);
  }

  lemma EvenQuotient(n: nat, half: nat, q: nat, rest: nat)
    requires n == 2 * (q * half) + rest && rest < half
    ensures (n / half) % 2 == 0
  {
    assert (2 * q) * half == 2 * (q * half);
    DivMod(n, half, 2 * q, rest);
  }

  /** Between 34 and 54 the bits of FIVES above position 54 - a are shifted out; the next one
      lands on the sign, and something below it is always left. */
  lemma MiddleShifts(a: nat)
    requires 34 <= a <= 54
    ensures if Bit(54 - a) == 1 then Shifted(a) < 0 else Shifted(a) > CAP
  {
    hide Pow2, Wrap64;
    var p, half := Pow2(a + 9), Pow2(54 - a);
    MiddleProducts(a, p, half);
    var q, r := BitAndRemainder(FIVES, half);
    SplitProduct(p, half, q, r);
    var shifted := Wrap64(FIVES * p);
    assert Shifted(a) == shifted by {
      assert ShiftCount(a) == a;
    }
    assert Bit(54 - a) == 1 <==> r >= half;
  }

  lemma MiddleProducts(a: nat, p: nat, half: nat)
    requires 34 <= a <= 54 && p == Pow2(a + 9) && half == Pow2(54 - a)
    ensures p * half == TWO63 && p > CAP
    ensures SECOND * Pow2(a) == FIVES * p
  {
    Pow2Values();
    Pow2Sum(a + 9, 54 - a);
    Pow2Sum(a, 9);
    Pow2Grows(43, a + 9);
  }

  lemma SplitProduct(p: nat, half: nat, q: nat, r: nat)
    requires p * half == TWO63 && FIVES == q * (2 * half) + r && 0 < r < 2 * half
    ensures Wrap64(FIVES * p) == if r >= half then r * p - TWO64 else r * p
    ensures p <= r * p < TWO64 && (r >= half <==> r * p >= TWO63)
  {
    assert (q * (2 * half)) * p == q * (2 * (p * half)) == q * TWO64;
    assert FIVES * p == q * TWO64 + r * p by {
      assert (q * (2 * half) + r) * p == (q * (2 * half)) * p + r * p;
    }
    Monotone(1, r, p);
    Monotone(r + 1, 2 * half, p);
    if r >= half { Monotone(half, r, p); } else { Monotone(r + 1, half, p); }
    DivMod(FIVES * p, TWO64, q, r * p);
  }

  lemma Monotone(a: nat, b: nat, p: nat)
    requires a <= b
    ensures a * p <= b * p
  {
  }

  predicate IsInt64(x: int) {
    -TWO63 <= x < TWO63
  }

  /** The delay of every attempt number an int can hold. */
  lemma BaseDelayOfEveryAttempt(a: int)
    requires IsInt64(a)
    ensures BaseDelay(a) <= CAP
    ensures 0 <= a <= 33 ==> BaseDelay(a) == DocumentedDelay(a) > 0
    ensures 34 <= a <= 54 ==> if Bit(54 - a) == 1 then BaseDelay(a) < 0 else BaseDelay(a) == CAP
    ensures a < 0 || a >= 55 ==> BaseDelay(a) == 0
  {
    if 0 <= a <= 33 {
      SmallShifts(a);
    } else if 34 <= a <= 54 {
      MiddleShifts(a);
    } else {
      HugeShifts(ShiftCount(a));
    }
  }

  /** Exactly which attempts get the documented delay: up to 33, and those between 34 and 54 whose
      wrapped value still has its sign bit clear. */
  lemma DocumentedDelayExactlyWhen(a: int)
    requires IsInt64(a) && a >= 0
    ensures BaseDelay(a) == DocumentedDelay(a) <==> a <= 33 || (a <= 54 && Bit(54 - a) == 0)
  {
    BaseDelayOfEveryAttempt(a);
    if a >= 34 {
      Pow2Values();
      Pow2Grows(33, a);
    }
  }

  /** The first attempt number whose delay is not the documented one. */
  lemma DocumentedDelayFailsAt34()
    ensures BaseDelay(34) < 0 && DocumentedDelay(34) == CAP
    ensures forall a: nat :: a < 34 ==> BaseDelay(a) == DocumentedDelay(a)
  {
    hide BaseDelay, DocumentedDelay;
    forall a: nat | a < 34 ensures BaseDelay(a) == DocumentedDelay(a) {
      BaseDelayOfEveryAttempt(a);
    }
    Delay34();
  }

  lemma Delay34()
    ensures BaseDelay(34) < 0 && DocumentedDelay(34) == CAP
  {
    assert Pow2(20) == 0x10_0000 by {
      assert Pow2(10) == 1024;
      Pow2Sum(10, 10);
    }
    BaseDelayOfEveryAttempt(34);
    Pow2Values();
    Pow2Grows(33, 34);
  }

  // ---------- jitter ----------

  /** One answer of the random source: a draw, reduced below the requested maximum, or a failure. */
  datatype Draw = Drawn(n: nat) | SourceFailed

  function Jitter(max: int, draw: Draw): (r: int)
    ensures if max <= 0 then r == 0 else 0 <= r < max
  {
    if max <= 0 then 0
    else match draw
         case Drawn(n) => n % max
         case SourceFailed => max / 2
  }

  /** Go's integer division by two truncates towards zero. */
  function Half(d: int): int {
    if d < 0 then -(-d / 2) else d / 2
  }

  function Backoff(attempt: int, draw: Draw): int {
    BaseDelay(attempt) + Jitter(Half(BaseDelay(attempt)), draw)
  }

  /** The waits that the random source can bring about: everything from the base delay up to, but not
      including, one and a half times it, and nothing else; a quarter on top when the source fails;
      and only the base delay itself when there is nothing to halve. */
  lemma BackoffRangeExactly(a: int, d: int)
    ensures var base := BaseDelay(a);
            && (base > 1 ==> ((exists draw :: Backoff(a, draw) == d) <==> base <= d < base + base / 2))
            && (base > 1 ==> Backoff(a, SourceFailed) == base + base / 4)
            && (base <= 1 ==> ((exists draw :: Backoff(a, draw) == d) <==> d == base))
  {
    hide BaseDelay;
    var base := BaseDelay(a);
    if base > 1 && base <= d < base + base / 2 {
      assert Backoff(a, Drawn(d - base)) == d;
    }
    if base <= 1 { assert Backoff(a, SourceFailed) == base; }
  }

  // ---------- The sleeps of one run ----------

  /** time.After fires at once for a duration that is not positive. */
  function SleepTime(d: int): nat {
    if d > 0 then d else 0
  }

  function TotalSleep(draws: nat -> Draw, k: nat): nat {
    if k == 0 then 0 else TotalSleep(draws, k - 1) + SleepTime(Backoff(k - 1, draws(k - 1)))
  }

  /** The documented delays without jitter, added up in closed form: 1 + 2 + 4 + 8 + 16 + 30 + 30 + ... */
  function PlainSleep(k: nat): nat {
    if k <= 5 then (Pow2(k) - 1) * SECOND else (31 + 30 * (k - 5)) * SECOND
  }

  lemma PlainSleepStep(k: nat)
    ensures PlainSleep(k + 1) == PlainSleep(k) + DocumentedDelay(k)
  {
    if k >= 5 {
      Pow2Grows(5, k);
      assert Pow2(5) == 32;
    } else {
      Pow2Grows(k, 4);
      assert Pow2(4) == 16;
    }
  }

  /** However the source answers, k waits together take less than one and a half times the
      documented delays, and, as long as nothing has wrapped, at least those delays. */
  lemma {:induction false} TotalSleepBounds(draws: nat -> Draw, k: nat)
    requires k < TWO63
    ensures k >= 1 ==> 2 * TotalSleep(draws, k) < 3 * PlainSleep(k)
    ensures k <= 34 ==> TotalSleep(draws, k) >= PlainSleep(k)
  {
    if k > 0 {
      TotalSleepBounds(draws, k - 1);
      PlainSleepStep(k - 1);
      BaseDelayOfEveryAttempt(k - 1);
      OneSleep(k - 1, draws(k - 1));
    }
  }

  lemma OneSleep(a: nat, draw: Draw)
    requires a < TWO63
    ensures 2 * SleepTime(Backoff(a, draw)) < 3 * DocumentedDelay(a)
    ensures a <= 33 ==> SleepTime(Backoff(a, draw)) >= DocumentedDelay(a)
  {
    BaseDelayOfEveryAttempt(a);
    if a >= 34 {
      Pow2Values();
      Pow2Grows(33, a);
    }
  }

  const LEAST: nat -> Draw := (k: nat) => Drawn(0)

  lemma {:induction false} LeastSleepFallsShort(k: nat)
    requires 35 <= k < TWO63
    ensures TotalSleep(LEAST, k) < PlainSleep(k)
  {
    PlainSleepStep(k - 1);
    BaseDelayOfEveryAttempt(k - 1);
    if k == 35 {
      LeastSleepKeepsUp(34);
      DocumentedDelayFailsAt34();
    } else {
      LeastSleepFallsShort(k - 1);
      LeastSleep(k - 1);
    }
  }

  lemma LeastSleep(a: nat)
    requires a < TWO63
    ensures SleepTime(Backoff(a, Drawn(0))) <= DocumentedDelay(a)
  {
    BaseDelayOfEveryAttempt(a);
    if a >= 34 {
      Pow2Values();
      Pow2Grows(33, a);
    }
  }

  lemma NoSleep()
    ensures TotalSleep(LEAST, 0) == PlainSleep(0) == 0
  {
  }

  lemma {:induction false} LeastSleepKeepsUp(k: nat)
    requires k <= 34
    ensures TotalSleep(LEAST, k) <= PlainSleep(k)
  {
    hide Backoff, DocumentedDelay, PlainSleep;
    if k == 0 {
      NoSleep();
    } else {
      LeastSleepKeepsUp(k - 1);
      PlainSleepStep(k - 1);
      LeastSleep(k - 1);
    }
  }

  /** The documented delays are a lower bound for every sequence of draws up to 34 waits and for no
      larger number. */
  lemma LowerBoundExactlyWhen(k: nat)
    requires k < TWO63
    ensures (forall draws :: TotalSleep(draws, k) >= PlainSleep(k)) <==> k <= 34
  {
    if k <= 34 {
      forall draws ensures TotalSleep(draws, k) >= PlainSleep(k) {
        TotalSleepBounds(draws, k);
      }
    } else {
      LeastSleepFallsShort(k);
    }
  }

  // ---------- Do ----------

  function RetryCancelled(ctxErr: Error, last: Error): Error {
    WrapBoth("retry cancelled: ", ctxErr, " (last error: ", last, ")")
  }

  /** What a finished run of Do looks like from outside: `outcomes` are the results of the calls
      of fn, one after another, and `cancel` is the context error if a wait was cut short. */
  ghost predicate ValidRun(maxAttempts: int, outcomes: seq<Option<Error>>, cancel: Option<Error>, err: Option<Error>) {
    if maxAttempts <= 0 then outcomes == [] && cancel.None? && err.None?
    else
      && 1 <= |outcomes| <= maxAttempts
      && (forall k :: 0 <= k < |outcomes| - 1 ==> outcomes[k].Some?)
      && match outcomes[|outcomes| - 1]
         case None => cancel.None? && err.None?
         case Some(last) =>
           if cancel.Some? then |outcomes| < maxAttempts && err == Some(RetryCancelled(cancel.value, last))
           else |outcomes| == maxAttempts && err == Some(last)
  }

  /** The outcomes are what fn answered, and every wait but a cancelled last one ran to its end. */
  ghost predicate AnsweredBy(fn: nat -> Option<Error>, done: nat -> Option<Error>,
                             outcomes: seq<Option<Error>>, cancel: Option<Error>) {
    && (forall k: nat :: k < |outcomes| ==> outcomes[k] == fn(k))
    && (forall k: nat :: k < |outcomes| - 1 ==> done(k).None?)
    && (cancel.Some? ==> |outcomes| > 0 && cancel == done(|outcomes| - 1))
  }

  /** Do with the results of fn, the context and the random source given attempt by attempt. */
  method Do(maxAttempts: int, fn: nat -> Option<Error>, done: nat -> Option<Error>, draws: nat -> Draw)
    returns (err: Option<Error>, outcomes: seq<Option<Error>>, cancel: Option<Error>, slept: nat)
    ensures ValidRun(maxAttempts, outcomes, cancel, err)
    ensures AnsweredBy(fn, done, outcomes, cancel)
    ensures slept == TotalSleep(draws, if |outcomes| == 0 then 0 else |outcomes| - 1)
  {
    hide Backoff;
    var lastErr: Option<Error> := None;
    outcomes, cancel, slept := [], None, 0;
    var i := 0;
    while i < maxAttempts
      invariant |outcomes| == i && cancel.None? && (i == 0 ==> lastErr.None?)
      invariant forall k :: 0 <= k < i ==> outcomes[k] == fn(k) && outcomes[k].Some?
      invariant forall k: nat :: k < i ==> done(k).None?
      invariant i > 0 ==> i < maxAttempts
      invariant slept == TotalSleep(draws, i)
    {
      lastErr := fn(i);
      outcomes := outcomes + [lastErr];
      if lastErr.None? {
        return None, outcomes, None, slept;
      }
      if i == maxAttempts - 1 {
        break;
      }
      if done(i).Some? {
        return Some(RetryCancelled(done(i).value, lastErr.value)), outcomes, done(i), slept;
      }
      slept := slept + SleepTime(Backoff(i, draws(i)));
      i := i + 1;
    }
    return lastErr, outcomes, None, slept;
  }

  /** The rules above leave no choice: what fn answers and when the context ends decide the
      number of calls and the result. */
  lemma RunIsDetermined(maxAttempts: int, fn: nat -> Option<Error>, done: nat -> Option<Error>,
                        o1: seq<Option<Error>>, c1: Option<Error>, e1: Option<Error>,
                        o2: seq<Option<Error>>, c2: Option<Error>, e2: Option<Error>)
    requires ValidRun(maxAttempts, o1, c1, e1) && AnsweredBy(fn, done, o1, c1)
    requires ValidRun(maxAttempts, o2, c2, e2) && AnsweredBy(fn, done, o2, c2)
    ensures o1 == o2 && c1 == c2 && e1 == e2
  {
  }

  /** A cancelled run reports both errors and is classified like the last one. */
  lemma CancelledRunKeepsBothErrors(ctxErr: Error, last: Error)
    requires !IsPermanent(ctxErr) && FindApi(ctxErr).None?
    ensures var e := RetryCancelled(ctxErr, last);
            && ctxErr in Preorder(e) && last in Preorder(e)
            && IsPermanent(e) == IsPermanent(last)
            && IsRetryable(e) == IsRetryable(last) && IsNotFound(e) == IsNotFound(last)
  {
    var e := RetryCancelled(ctxErr, last);
    var layers := [Behind("retry cancelled: ", ctxErr, " (last error: ", ")")];
    assert Wrapped(last, layers[1..]) == last;
    assert e == Wrapped(last, layers);
    ClassificationSurvivesWrapping(last, layers);
    assert Preorder(ctxErr)[0] == ctxErr && Preorder(last)[0] == last;
  }
}
