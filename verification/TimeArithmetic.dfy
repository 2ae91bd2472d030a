/** 64-bit unsigned time arithmetic and timespec (includes/timers_utils.h). */
module TimeArithmetic {

  const TWO64: nat := 0x1_0000_0000_0000_0000
  const NS_PER_SEC: nat := 1_000_000_000
  const PS_PER_SEC: nat := 1_000_000_000_000

  type U64 = x: int | 0 <= x < TWO64

  function Wrap(x: int): U64 {
    x % TWO64
  }

  function Mul(a: U64, b: U64): U64 {
    Wrap(a * b)
  }

  function Add(a: U64, b: U64): U64 {
    Wrap(a + b)
  }

  function Sub(a: U64, b: U64): U64 {
    Wrap(a - b)
  }

  // ---------------------------------------------------------------- conversion macros

  function SecToNs(s: U64): U64 {
    Mul(Mul(Mul(s, 1000), 1000), 1000)
  }

  function NsToSec(n: U64): U64 {
    n / 1000 / 1000 / 1000
  }

  function PsToNs(p: U64): U64 {
    p / 1000
  }

  function MsToNs(m: U64): U64 {
    Mul(Mul(m, 1000), 1000)
  }

  function UsToNs(u: U64): U64 {
    Mul(u, 1000)
  }

  // ---------------------------------------------------------------- timespec

  datatype Timespec = Timespec(sec: int, nsec: int)

  predicate Normal(t: Timespec) {
    0 <= t.sec && 0 <= t.nsec < NS_PER_SEC
  }

  /** The instant a timespec stands for, in nanoseconds. */
  function Ns(t: Timespec): int {
    t.sec * NS_PER_SEC + t.nsec
  }

  /** What clock_gettime stores at an instant. */
  function AtNs(ns: nat): (t: Timespec)
    ensures Normal(t) && Ns(t) == ns
  {
    Timespec(ns / NS_PER_SEC, ns % NS_PER_SEC)
  }

  /** TIMESPEC_DIFF_NS(t1, t2): signed differences converted to 64-bit unsigned. */
  function DiffNs(t1: Timespec, t2: Timespec): U64 {
    Add(SecToNs(Wrap(t2.sec - t1.sec)), Wrap(t2.nsec - t1.nsec))
  }

  /** ADD_NS_TO_TIMESPEC(t, ns). */
  function AddNs(t: Timespec, ns: U64): Timespec {
    var total := Add(Wrap(t.nsec), ns);
    Timespec(t.sec + NsToSec(total), total % NS_PER_SEC)
  }

  // ---------------------------------------------------------------- exactness

  lemma WrapId(x: int)
    requires 0 <= x < TWO64
    ensures Wrap(x) == x
  {
  }

  /** Wrapping an addend first does not change the wrapped sum. */
  lemma WrapSum(x: int, y: int)
    ensures Wrap(Wrap(x) + y) == Wrap(x + y)
  {
    var q := x / TWO64;
    assert x + y == Wrap(x) + y + q * TWO64;
    WrapShift(Wrap(x) + y, q);
  }

  lemma {:induction false} WrapShift(x: int, q: int)
    ensures Wrap(x + q * TWO64) == Wrap(x)
    decreases if q < 0 then -q else q
  {
    if q > 0 {
      WrapShift(x, q - 1);
      assert x + q * TWO64 == x + (q - 1) * TWO64 + TWO64;
    } else if q < 0 {
      WrapShift(x, q + 1);
      assert x + q * TWO64 == x + (q + 1) * TWO64 - TWO64;
    }
  }

  /** Wrapping a factor first does not change the wrapped product with 1000. */
  lemma WrapThousand(x: int)
    ensures Mul(Wrap(x), 1000) == Wrap(1000 * x)
  {
    var q := x / TWO64;
    assert 1000 * x == 1000 * Wrap(x) + (1000 * q) * TWO64;
    WrapShift(1000 * Wrap(x), 1000 * q);
  }

  lemma SecToNsExact(d: int)
    ensures SecToNs(Wrap(d)) == Wrap(NS_PER_SEC * d)
  {
    WrapThousand(d);
    WrapThousand(1000 * d);
    WrapThousand(1000 * (1000 * d));
  }

  /** The nested divisions by 1000 are one division. */
  lemma NsToSecExact(n: U64)
    ensures NsToSec(n) == n / NS_PER_SEC
  {
  }

  /** TIMESPEC_DIFF_NS is the true difference of the instants, modulo 2^64, for any timespecs. */
  lemma DiffExact(t1: Timespec, t2: Timespec)
    ensures DiffNs(t1, t2) == Wrap(Ns(t2) - Ns(t1))
    ensures 0 <= Ns(t2) - Ns(t1) < 0x1_0000_0000_0000_0000 ==> DiffNs(t1, t2) == Ns(t2) - Ns(t1)
  {
    var ds, dn := t2.sec - t1.sec, t2.nsec - t1.nsec;
    SecToNsExact(ds);
    WrapSum(NS_PER_SEC * ds, Wrap(dn));
    WrapSum(dn, NS_PER_SEC * ds);
    assert NS_PER_SEC * ds + dn == Ns(t2) - Ns(t1);
  }

  /** ADD_NS_TO_TIMESPEC moves the instant by exactly ns and keeps the timespec normal. */
  lemma AddExact(t: Timespec, ns: U64)
    requires Normal(t) && t.nsec + ns < TWO64
    ensures Normal(AddNs(t, ns)) && Ns(AddNs(t, ns)) == Ns(t) + ns
  {
    var total := t.nsec + ns;
    WrapId(t.nsec);
    WrapId(total);
    hide Wrap;
    NsToSecExact(total);
    hide NsToSec;
    SecondsSplit(total);
  }

  lemma SecondsSplit(n: nat)
    ensures n / NS_PER_SEC * NS_PER_SEC + n % NS_PER_SEC == n
  {
  }

  /** Adding and then differencing gives the added time back. */
  lemma AddThenDiff(t: Timespec, ns: U64)
    requires Normal(t) && t.nsec + ns < TWO64
    ensures DiffNs(t, AddNs(t, ns)) == ns
  {
    AddExact(t, ns);
    DiffExact(t, AddNs(t, ns));
  }
}
